/** What translated prompts say, block by block, whatever way they were put together (src/aws-bedrock/api.ts). */
module BedrockReading {
  import opened Optional
  import opened Sequences
  import opened BedrockRequest
  import opened BedrockCheckpoints

  // ------------------------------------------------- a turn read block by block

  predicate ItemShows(item: UserItem, block: Block) {
    match item
    case TextItem(text, _) => block == TextBlock(text)
    case ImageItem(media, _) => block == ImageBlock(media.payload)
    case FileItem(media, _) => block == DocumentBlock(media.payload)
    case _ => false
  }

  predicate ThoughtShows(thought: Thought, block: Block) {
    if thought.encrypted then block == RedactedContentBlock(thought.data)
    else
      && block.ReasoningTextBlock? && block.text == thought.data
      && (block.signature.Some? <==> thought.signature != "")
      && (block.signature.Some? ==> block.signature.value == thought.signature)
  }

  predicate ResultShows(item: ToolItem, content: ToolContent) {
    match item
    case ToolText(text) => content == ResultText(text)
    case ToolImage(media) => content == ResultImage(media.payload)
    case ToolFile(media) => content == ResultDocument(media.payload)
  }

  predicate ToolResultShows(caps: Capabilities, message: Message, block: Block)
    requires message.FunctionMessage?
  {
    && block.ToolResultBlock? && block.toolUseId == message.functionId
    && (block.failed.Some? <==> caps.reportsToolStatus)
    && (block.failed.Some? ==> block.failed.value == message.isError)
    && (message.toolItems == [] ==>
          block.results == [if message.isJson then ResultJson(message.result) else ResultText(message.result)])
    && (message.toolItems != [] ==>
          && |block.results| == |message.toolItems|
          && forall i :: 0 <= i < |message.toolItems| ==> ResultShows(message.toolItems[i], block.results[i]))
  }

  /** The thoughts in order, then a reply that is not empty, then the calls in order. */
  predicate AnswerShows(thoughts: seq<Thought>, reply: string, calls: seq<ToolUse>, blocks: seq<Block>) {
    var t, r := |thoughts|, if reply == "" then 0 else 1;
    && |blocks| == t + r + |calls|
    && (forall i :: 0 <= i < t ==> ThoughtShows(thoughts[i], blocks[i]))
    && (r == 1 ==> blocks[t] == TextBlock(reply))
    && forall i :: 0 <= i < |calls| ==> blocks[t + r + i] == ToolUseBlock(calls[i])
  }

  predicate Marks(item: UserItem) {
    (item.TextItem? || item.ImageItem? || item.FileItem?) && item.cache
  }

  /** Read from the end: the items in order, each with the checkpoint it asks for right behind it, and nothing else. */
  predicate ItemsShow(ttl: Option<Ttl>, items: seq<UserItem>, blocks: seq<Block>) {
    if items == [] then blocks == []
    else
      var n, item := |blocks|, items[|items| - 1];
      if Marks(item) then
        && n >= 2 && blocks[n - 1] == CachePoint(ttl.GetOr(FiveMinutes)) && ItemShows(item, blocks[n - 2])
        && ItemsShow(ttl, items[..|items| - 1], blocks[..n - 2])
      else
        n >= 1 && ItemShows(item, blocks[n - 1]) && ItemsShow(ttl, items[..|items| - 1], blocks[..n - 1])
  }

  /** What a message's blocks say, without its own checkpoint. */
  predicate ContentShows(caps: Capabilities, ttl: Option<Ttl>, message: Message, blocks: seq<Block>) {
    match message
    case SystemMessage(text, _) => blocks == [TextBlock(text)]
    case UserMessage(Plain(text), _) => blocks == [TextBlock(text)]
    case UserMessage(Items(items), _) =>
      if NeedsPrompt(items) then
        && blocks != [] && blocks[0] == TextBlock("Use the attached document to answer the request.")
        && ItemsShow(ttl, items, blocks[1..])
      else ItemsShow(ttl, items, blocks)
    case AssistantMessage(thoughts, reply, calls, _) => AnswerShows(thoughts, reply, calls, blocks)
    case FunctionMessage(_, _, _, _, _, _) => |blocks| == 1 && ToolResultShows(caps, message, blocks[0])
  }

  /** A turn says what its message says, under its role, and ends with the checkpoint that the message asks for. */
  predicate TurnShows(caps: Capabilities, ttl: Option<Ttl>, message: Message, turn: Turn) {
    && turn.role == (if message.AssistantMessage? then Assistant else User)
    && (message.cache ==>
          && turn.content != []
          && turn.content[|turn.content| - 1] == CachePoint(ttl.GetOr(FiveMinutes))
          && ContentShows(caps, ttl, message, turn.content[..|turn.content| - 1]))
    && (!message.cache ==> ContentShows(caps, ttl, message, turn.content))
  }

  lemma ItemShown(caps: Capabilities, ttl: Option<Ttl>, item: UserItem)
    requires ItemSupported(caps, item)
    ensures var blocks := ItemMarked(ttl)(item);
            if Marks(item) then
              |blocks| == 2 && ItemShows(item, blocks[0]) && blocks[1] == CachePoint(ttl.GetOr(FiveMinutes))
            else |blocks| == 1 && ItemShows(item, blocks[0])
  {
  }

  lemma {:induction false} ItemsShown(caps: Capabilities, ttl: Option<Ttl>, items: seq<UserItem>)
    requires forall i :: 0 <= i < |items| ==> ItemSupported(caps, items[i])
    ensures ItemsShow(ttl, items, Concat(ItemMarked(ttl), items))
  {
    hide ItemMarked, ItemSupported, Marks, ItemShows;
    if items != [] {
      var front, item := items[..|items| - 1], items[|items| - 1];
      var before, more := Concat(ItemMarked(ttl), front), ItemMarked(ttl)(item);
      ItemsShown(caps, ttl, front);
      ItemShown(caps, ttl, item);
      assert (before + more)[..|before|] == before;
    }
  }

  lemma AnswerShown(caps: Capabilities, ttl: Option<Ttl>, message: Message)
    requires message.AssistantMessage?
    ensures AnswerShows(message.thoughts, message.reply, message.calls, Blocks(caps, ttl, message))
  {
    hide Concat, ReasoningOf, ToolUseOf;
    ReasoningIs(message.thoughts);
    ToolUsesAre(message.calls);
  }

  lemma ResultShown(caps: Capabilities, ttl: Option<Ttl>, message: Message)
    requires message.FunctionMessage?
    ensures var blocks := Blocks(caps, ttl, message);
            |blocks| == 1 && ToolResultShows(caps, message, blocks[0])
  {
    hide Concat, ToolContentOf;
    ResultsAre(message.toolItems);
  }

  lemma ContentShown(caps: Capabilities, ttl: Option<Ttl>, message: Message)
    requires Supported(caps, message)
    ensures ContentShows(caps, ttl, message, Blocks(caps, ttl, message))
  {
    hide Concat, ItemsShow, AnswerShows, ToolResultShows, NeedsPrompt, DocumentPrompt, ItemSupported, ToolItemSupported;
    match message
    case UserMessage(Items(items), _) =>
      ItemsShown(caps, ttl, items);
      PromptIs(items);
      var rest := Concat(ItemMarked(ttl), items);
      assert [] + rest == rest;
      assert Blocks(caps, ttl, message) == DocumentPrompt(message.content) + rest;
    case AssistantMessage(_, _, _, _) => AnswerShown(caps, ttl, message);
    case FunctionMessage(_, _, _, _, _, _) => ResultShown(caps, ttl, message);
    case _ =>
  }

  /** Every supported message becomes a turn that says what the message says, in its order and under its role. */
  lemma TurnShown(caps: Capabilities, ttl: Option<Ttl>, message: Message)
    requires Supported(caps, message)
    ensures TurnShows(caps, ttl, message, TurnOf(caps, ttl, message))
  {
    hide ContentShows, Blocks, Supported;
    ContentShown(caps, ttl, message);
    var blocks, turn := Blocks(caps, ttl, message), TurnOf(caps, ttl, message);
    if message.cache {
      assert turn.content[..|turn.content| - 1] == blocks;
    } else {
      assert turn.content == blocks;
    }
  }

  // ----------------------------------------- a whole translation read block by block

  lemma {:induction false} Divided(a: seq<Message>, b: seq<Message>)
    ensures Systems(a + b) == Systems(a) + Systems(b) && Others(a + b) == Others(a) + Others(b)
  {
    hide Systems, Others;
    NoneDivided();
    if b == [] {
      assert a + b == a;
    } else {
      Divided(a, b[..|b| - 1]);
      DividedLast(b);
      DividedLast(a + b);
      assert (a + b)[..|a + b| - 1] == a + b[..|b| - 1];
    }
  }

  lemma NoneDivided()
    ensures Systems([]) == [] && Others([]) == []
  {
  }

  lemma DividedLast(prompt: seq<Message>)
    requires prompt != []
    ensures var front, last := prompt[..|prompt| - 1], prompt[|prompt| - 1];
            && Systems(prompt) == Systems(front) + (if last.SystemMessage? then [last] else [])
            && Others(prompt) == Others(front) + if last.SystemMessage? then [] else [last]
  {
  }

  /** Each message is either part of the system prompt or of the messages. */
  lemma DividedOne(message: Message)
    ensures Systems([message]) == if message.SystemMessage? then [message] else []
    ensures Others([message]) == if message.SystemMessage? then [] else [message]
  {
    assert [message][..0] == [];
    NoneDivided();
    DividedLast([message]);
  }

  /** Read from the end: one turn for each message, saying what the message says. */
  ghost predicate MessagesShow(caps: Capabilities, ttl: Option<Ttl>, messages: seq<Message>, tags: seq<(Role, Block)>) {
    if messages == [] then tags == []
    else
      exists turn: Turn ::
        && TurnShows(caps, ttl, messages[|messages| - 1], turn)
        && EndsWith(tags, Tag(turn.role, turn.content))
        && MessagesShow(caps, ttl, messages[..|messages| - 1], tags[..|tags| - |turn.content|])
  }

  predicate EndsWith(tags: seq<(Role, Block)>, end: seq<(Role, Block)>) {
    |end| <= |tags| && tags[|tags| - |end|..] == end
  }

  lemma {:induction false} MessagesShown(caps: Capabilities, ttl: Option<Ttl>, messages: seq<Message>)
    requires forall i :: 0 <= i < |messages| ==> Supported(caps, messages[i])
    ensures MessagesShow(caps, ttl, messages, TaggedTurns(caps, ttl, messages))
  {
    if messages != [] {
      hide TurnOf, TurnShows, Supported;
      var front, last := messages[..|messages| - 1], messages[|messages| - 1];
      MessagesShown(caps, ttl, front);
      TurnShown(caps, ttl, last);
      var turn, tags := TurnOf(caps, ttl, last), TaggedTurns(caps, ttl, messages);
      assert tags == TaggedTurns(caps, ttl, front) + Tag(turn.role, turn.content);
      assert EndsWith(tags, Tag(turn.role, turn.content));
      assert tags[..|tags| - |turn.content|] == TaggedTurns(caps, ttl, front);
    }
  }

  /** Read from the end: the first `n` system texts, each with the checkpoint it asks for; the last asks by itself. */
  predicate SystemShows(ttl: Option<Ttl>, autoCache: bool, systems: seq<Message>, n: nat, blocks: seq<Block>)
    requires n <= |systems| && forall i :: 0 <= i < |systems| ==> systems[i].SystemMessage?
  {
    if n == 0 then blocks == []
    else
      var m := |blocks|;
      if systems[n - 1].cache || (autoCache && n == |systems|) then
        && m >= 2 && blocks[m - 1] == CachePoint(ttl.GetOr(FiveMinutes))
        && blocks[m - 2] == TextBlock(systems[n - 1].text)
        && SystemShows(ttl, autoCache, systems, n - 1, blocks[..m - 2])
      else
        && m >= 1 && blocks[m - 1] == TextBlock(systems[n - 1].text)
        && SystemShows(ttl, autoCache, systems, n - 1, blocks[..m - 1])
  }

  lemma NoSystemBlocks(ttl: Option<Ttl>, autoCache: bool, systems: seq<Message>)
    ensures SystemBlocks(ttl, autoCache, systems, 0) == []
  {
  }

  lemma MarkEnds(before: seq<Block>, block: Block, ttl: Option<Ttl>, requested: bool)
    ensures var after := before + [block] + Mark(ttl, requested);
            if requested then
              && |after| == |before| + 2 && after[|after| - 1] == CachePoint(ttl.GetOr(FiveMinutes))
              && after[|after| - 2] == block && after[..|after| - 2] == before
            else |after| == |before| + 1 && after[|after| - 1] == block && after[..|after| - 1] == before
  {
  }

  lemma {:induction false} SystemShown(ttl: Option<Ttl>, autoCache: bool, systems: seq<Message>, n: nat)
    requires n <= |systems| && forall i :: 0 <= i < |systems| ==> systems[i].SystemMessage?
    ensures SystemShows(ttl, autoCache, systems, n, SystemBlocks(ttl, autoCache, systems, n))
  {
    hide SystemBlocks, SystemAsks, SystemTexts, Mark, Asks;
    if n == 0 {
      NoSystemBlocks(ttl, autoCache, systems);
    } else {
      SystemShown(ttl, autoCache, systems, n - 1);
      var requested := systems[n - 1].cache || (autoCache && n == |systems|);
      SystemUnfolds(ttl, autoCache, systems, n);
      MarkEnds(SystemBlocks(ttl, autoCache, systems, n - 1), TextBlock(systems[n - 1].text), ttl, requested);
    }
  }

  /** What `createMessages` returns, with every checkpoint in its place and one more where automatic caching owes it. */
  lemma TranslationShown(caps: Capabilities, ttl: Option<Ttl>, autoCache: bool, max: nat, prompt: seq<Message>)
    requires forall i :: 0 <= i < |prompt| ==> Supported(caps, prompt[i])
    ensures var t, systems, tags := Translation(caps, ttl, autoCache, max, prompt), Systems(prompt),
                                    Tagged(Translation(caps, ttl, autoCache, max, prompt).messages);
            && (forall i :: 0 <= i < |systems| ==> systems[i].SystemMessage?)
            && SystemShows(ttl, autoCache, systems, |systems|, t.system)
            && if autoCache && AllAsks(autoCache, prompt) == 0 && max == MAX_CHECKPOINTS
                  && ttl.Some? && Others(prompt) != [] then
                 && tags != [] && tags[|tags| - 1].1 == CachePoint(ttl.value)
                 && MessagesShow(caps, ttl, Others(prompt), tags[..|tags| - 1])
               else MessagesShow(caps, ttl, Others(prompt), tags)
  {
    hide SystemShows, MessagesShow, AllAsks, Tagged, Systems, Others, SystemBlocks, Grouped, WithFallback, Supported,
      TaggedTurns;
    var systems, others := Systems(prompt), Others(prompt);
    var owed := autoCache && AllAsks(autoCache, prompt) == 0 && max == MAX_CHECKPOINTS;
    SystemsAreSystem(prompt);
    SystemShown(ttl, autoCache, systems, |systems|);
    OthersSupported(caps, prompt);
    MessagesShown(caps, ttl, others);
    GroupedForm(caps, ttl, others);
    NoMessages(caps, ttl);
    FallbackLast(ttl, owed, Grouped(caps, ttl, others));
  }

  lemma {:induction false} OthersSupported(caps: Capabilities, prompt: seq<Message>)
    requires forall i :: 0 <= i < |prompt| ==> Supported(caps, prompt[i])
    ensures forall i :: 0 <= i < |Others(prompt)| ==> Supported(caps, Others(prompt)[i])
  {
    if prompt != [] {
      hide Supported;
      OthersSupported(caps, prompt[..|prompt| - 1]);
    }
  }

  // ------------------------------------------------------- one lifetime for all

  /** Every checkpoint lives as long as was resolved for the request. */
  predicate Live(ttl: Ttl, blocks: seq<Block>) {
    forall i :: 0 <= i < |blocks| && blocks[i].CachePoint? ==> blocks[i].ttl == ttl
  }

  predicate LiveTags(ttl: Ttl, tags: seq<(Role, Block)>) {
    forall i :: 0 <= i < |tags| && tags[i].1.CachePoint? ==> tags[i].1.ttl == ttl
  }

  lemma {:induction false} ItemsLive(ttl: Ttl, items: seq<UserItem>)
    ensures Live(ttl, Concat(ItemMarked(Some(ttl)), items))
  {
    if items != [] {
      ItemsLive(ttl, items[..|items| - 1]);
      ItemLive(ttl, items[|items| - 1]);
      hide ItemMarked;
    }
  }

  lemma ItemLive(ttl: Ttl, item: UserItem)
    ensures Live(ttl, ItemMarked(Some(ttl))(item))
  {
  }

  lemma TurnLives(caps: Capabilities, ttl: Ttl, message: Message)
    ensures Live(ttl, TurnOf(caps, Some(ttl), message).content)
  {
    hide Concat, Reasoning, ResultOf, DocumentPrompt;
    if message.UserMessage? && message.content.Items? {
      ItemsLive(ttl, message.content.items);
      PromptIs(message.content.items);
    } else {
      hide Blocks, Bare;
      OthersBare(caps, Some(ttl), message);
      NonePoints(caps, message);
    }
  }

  lemma {:induction false} TurnsLive(caps: Capabilities, ttl: Ttl, messages: seq<Message>)
    ensures LiveTags(ttl, TaggedTurns(caps, Some(ttl), messages))
  {
    if messages != [] {
      hide TurnOf;
      TurnsLive(caps, ttl, messages[..|messages| - 1]);
      TurnLives(caps, ttl, messages[|messages| - 1]);
    }
  }

  lemma {:induction false} SystemLives(ttl: Ttl, autoCache: bool, systems: seq<Message>, n: nat)
    requires n <= |systems|
    ensures Live(ttl, SystemBlocks(Some(ttl), autoCache, systems, n))
  {
    if n > 0 {
      SystemLives(ttl, autoCache, systems, n - 1);
    }
  }

  lemma TranslationLives(caps: Capabilities, ttl: Ttl, autoCache: bool, max: nat, prompt: seq<Message>)
    ensures var t := Translation(caps, Some(ttl), autoCache, max, prompt);
            LiveTags(ttl, Tagged(t.messages)) && Live(ttl, t.system)
  {
    hide AllAsks, Tagged, Systems, Others, SystemBlocks, Grouped, WithFallback, TaggedTurns;
    var systems, others := Systems(prompt), Others(prompt);
    var owed := autoCache && AllAsks(autoCache, prompt) == 0 && max == MAX_CHECKPOINTS;
    SystemLives(ttl, autoCache, systems, |systems|);
    TurnsLive(caps, ttl, others);
    GroupedForm(caps, Some(ttl), others);
    FallbackLast(Some(ttl), owed, Grouped(caps, Some(ttl), others));
  }

  lemma TagEnd(role: Role, content: seq<Block>, block: Block)
    ensures Tag(role, content + [block]) == Tag(role, content) + [(role, block)]
  {
  }

  lemma TaggedEnd(messages: seq<Turn>, turn: Turn)
    ensures Tagged(messages + [turn]) == Tagged(messages) + Tag(turn.role, turn.content)
  {
    hide Tag;
    assert (messages + [turn])[..|messages|] == messages;
  }

  /** The fallback is the last block of the last message. */
  lemma FallbackLast(ttl: Option<Ttl>, owed: bool, messages: seq<Turn>)
    ensures var after := WithFallback(ttl, owed, messages);
            if owed && ttl.Some? && messages != [] then
              && Tagged(after) == Tagged(messages) + [(messages[|messages| - 1].role, CachePoint(ttl.value))]
            else after == messages
  {
    hide Tagged, Tag;
    if owed && ttl.Some? && messages != [] {
      var front, last := messages[..|messages| - 1], messages[|messages| - 1];
      var point := CachePoint(ttl.value);
      assert messages == front + [last];
      assert WithFallback(ttl, owed, messages) == front + [last.(content := last.content + [point])];
      TaggedEnd(front, last);
      TaggedEnd(front, last.(content := last.content + [point]));
      TagEnd(last.role, last.content, point);
    }
  }
}
