/** The normal form of translated prompts (src/aws-bedrock/api.ts). */
module BedrockCheckpoints {
  import opened Optional
  import opened Sequences
  import opened BedrockRequest

  // ---------------------------------------------------------- message normal form

  ghost predicate Alternating(messages: seq<Turn>) {
    forall i: nat :: i + 1 < |messages| ==> messages[i].role != messages[i + 1].role
  }

  /** Every block with the role of the message that carries it. */
  function Tagged(messages: seq<Turn>): seq<(Role, Block)> {
    if messages == [] then []
    else Tagged(messages[..|messages| - 1]) + Tag(messages[|messages| - 1].role, messages[|messages| - 1].content)
  }

  function Tag(role: Role, blocks: seq<Block>): seq<(Role, Block)> {
    seq(|blocks|, i requires 0 <= i < |blocks| => (role, blocks[i]))
  }

  /** Without the cache checkpoints. */
  function Plainly(blocks: seq<Block>): seq<Block> {
    if blocks == [] then []
    else Plainly(blocks[..|blocks| - 1])
         + if blocks[|blocks| - 1].CachePoint? then [] else [blocks[|blocks| - 1]]
  }

  function Points(blocks: seq<Block>): nat {
    if blocks == [] then 0
    else Points(blocks[..|blocks| - 1]) + if blocks[|blocks| - 1].CachePoint? then 1 else 0
  }

  /** The block of a supported item. */
  function Single(item: UserItem): seq<Block> {
    match item
    case TextItem(text, _) => [TextBlock(text)]
    case ImageItem(Media(payload, _), _) => [ImageBlock(payload)]
    case FileItem(Media(payload, _), _) => [DocumentBlock(payload)]
    case _ => []
  }

  /** The reference: the blocks a message stands for, with no regard to caching. */
  function Bare(caps: Capabilities, message: Message): seq<Block> {
    match message
    case SystemMessage(text, _) => [TextBlock(text)]
    case UserMessage(Plain(text), _) => [TextBlock(text)]
    case UserMessage(Items(items), _) =>
      (if NeedsPrompt(items) then [TextBlock("Use the attached document to answer the request.")] else [])
      + Concat(Single, items)
    case AssistantMessage(thoughts, reply, calls, _) =>
      seq(|thoughts|, i requires 0 <= i < |thoughts| => Reasoning(thoughts[i]))
      + (if reply == "" then [] else [TextBlock(reply)])
      + seq(|calls|, i requires 0 <= i < |calls| => ToolUseBlock(calls[i]))
    case FunctionMessage(id, items, result, isJson, isError, _) =>
      [ToolResultBlock(id,
                       if items == [] then [if isJson then ResultJson(result) else ResultText(result)]
                       else seq(|items|, i requires 0 <= i < |items| => ResultOf(items[i])),
                       if caps.reportsToolStatus then Some(isError) else None)]
  }

  predicate NeedsPrompt(items: seq<UserItem>) {
    (exists i :: 0 <= i < |items| && items[i].FileItem?) && forall i :: 0 <= i < |items| ==> !items[i].TextItem?
  }

  function Reasoning(thought: Thought): Block {
    match thought
    case Thought(data, true, _) => RedactedContentBlock(data)
    case Thought(data, false, signature) =>
      ReasoningTextBlock(data, if signature == "" then None else Some(signature))
  }

  function ResultOf(item: ToolItem): ToolContent {
    match item
    case ToolText(text) => ResultText(text)
    case ToolImage(Media(payload, _)) => ResultImage(payload)
    case ToolFile(Media(payload, _)) => ResultDocument(payload)
  }

  lemma {:induction false} SplitBlocks(a: seq<Block>, b: seq<Block>)
    ensures Plainly(a + b) == Plainly(a) + Plainly(b) && Points(a + b) == Points(a) + Points(b)
  {
    if b == [] {
      assert a + b == a;
    } else {
      SplitBlocks(a, b[..|b| - 1]);
      assert (a + b)[..|a + b| - 1] == a + b[..|b| - 1];
    }
  }

  lemma MarkIs(ttl: Option<Ttl>, requested: bool)
    ensures Plainly(Mark(ttl, requested)) == [] && Points(Mark(ttl, requested)) == Asks(requested)
  {
    var mark := Mark(ttl, requested);
    if requested {
      assert mark[..0] == [];
    }
  }

  lemma OneBlock(block: Block)
    requires !block.CachePoint?
    ensures Plainly([block]) == [block] && Points([block]) == 0
  {
    assert [block][..0] == [];
  }

  lemma ItemPlain(ttl: Option<Ttl>, item: UserItem)
    ensures Plainly(ItemMarked(ttl)(item)) == Single(item)
    ensures Points(ItemMarked(ttl)(item)) == ItemAsks(item)
  {
    hide Plainly, Points, Mark;
    SplitBlocks(ItemBlock(item), Mark(ttl, ItemCached(item)));
    MarkIs(ttl, ItemCached(item));
    NoPoints(ItemBlock(item));
  }

  lemma {:induction false} ItemsPlain(ttl: Option<Ttl>, items: seq<UserItem>)
    ensures Plainly(Concat(ItemMarked(ttl), items)) == Concat(Single, items)
    ensures Points(Concat(ItemMarked(ttl), items)) == Count(ItemAsks, items)
  {
    if items == [] {
      assert Plainly([]) == [] && Points([]) == 0;
    } else {
      hide Plainly, Points, ItemMarked, Single, ItemAsks;
      var front, item := items[..|items| - 1], items[|items| - 1];
      ItemsPlain(ttl, front);
      SplitBlocks(Concat(ItemMarked(ttl), front), ItemMarked(ttl)(item));
      ItemPlain(ttl, item);
    }
  }

  lemma {:induction false} NoPoints(blocks: seq<Block>)
    requires forall i :: 0 <= i < |blocks| ==> !blocks[i].CachePoint?
    ensures Plainly(blocks) == blocks && Points(blocks) == 0
  {
    if blocks != [] {
      NoPoints(blocks[..|blocks| - 1]);
    }
  }

  lemma {:induction false} ReasoningIs(thoughts: seq<Thought>)
    ensures Concat(ReasoningOf, thoughts)
            == seq(|thoughts|, i requires 0 <= i < |thoughts| => Reasoning(thoughts[i]))
  {
    if thoughts != [] {
      ReasoningIs(thoughts[..|thoughts| - 1]);
    }
  }

  lemma {:induction false} ToolUsesAre(calls: seq<ToolUse>)
    ensures Concat(ToolUseOf, calls) == seq(|calls|, i requires 0 <= i < |calls| => ToolUseBlock(calls[i]))
  {
    if calls != [] {
      ToolUsesAre(calls[..|calls| - 1]);
    }
  }

  lemma {:induction false} ResultsAre(items: seq<ToolItem>)
    ensures Concat(ToolContentOf, items) == seq(|items|, i requires 0 <= i < |items| => ResultOf(items[i]))
  {
    if items != [] {
      ResultsAre(items[..|items| - 1]);
    }
  }

  lemma OthersBare(caps: Capabilities, ttl: Option<Ttl>, message: Message)
    requires !(message.UserMessage? && message.content.Items?)
    ensures Blocks(caps, ttl, message) == Bare(caps, message)
  {
    hide Concat, ReasoningOf, ToolUseOf, ToolContentOf, Reasoning, ResultOf;
    match message
    case AssistantMessage(thoughts, _, calls, _) =>
      ReasoningIs(thoughts);
      ToolUsesAre(calls);
    case FunctionMessage(_, items, _, _, _, _) =>
      ResultsAre(items);
    case _ =>
  }

  lemma PromptIs(items: seq<UserItem>)
    ensures DocumentPrompt(Items(items))
            == if NeedsPrompt(items) then [TextBlock("Use the attached document to answer the request.")] else []
  {
  }

  lemma NoPointsBare(caps: Capabilities, message: Message)
    requires !(message.UserMessage? && message.content.Items?)
    ensures Plainly(Bare(caps, message)) == Bare(caps, message) && Points(Bare(caps, message)) == 0
  {
    hide *;
    NonePoints(caps, message);
    NoPoints(Bare(caps, message));
  }

  lemma NonePoints(caps: Capabilities, message: Message)
    requires !(message.UserMessage? && message.content.Items?)
    ensures forall i :: 0 <= i < |Bare(caps, message)| ==> !Bare(caps, message)[i].CachePoint?
  {
    hide ResultOf;
  }

  lemma BlocksPlain(caps: Capabilities, ttl: Option<Ttl>, message: Message)
    ensures Plainly(Blocks(caps, ttl, message)) == Bare(caps, message)
    ensures Points(Blocks(caps, ttl, message)) == InnerAsks(message)
  {
    hide Plainly, Points, Count, Concat, NeedsPrompt;
    if message.UserMessage? && message.content.Items? {
      var items := message.content.items;
      ItemsPlain(ttl, items);
      SplitBlocks(DocumentPrompt(message.content), Concat(ItemMarked(ttl), items));
      NoPoints(DocumentPrompt(message.content));
      PromptIs(items);
    } else {
      OthersBare(caps, ttl, message);
      NoPointsBare(caps, message);
    }
  }

  /** A message's turn carries its bare blocks and exactly the checkpoints it asked for. */
  lemma TurnPlain(caps: Capabilities, ttl: Option<Ttl>, message: Message)
    ensures Plainly(TurnOf(caps, ttl, message).content) == Bare(caps, message)
    ensures Points(TurnOf(caps, ttl, message).content) == MessageAsks(message)
  {
    hide Blocks, Bare, Mark, Plainly, Points, InnerAsks;
    SplitBlocks(Blocks(caps, ttl, message), Mark(ttl, message.cache));
    MarkIs(ttl, message.cache);
    BlocksPlain(caps, ttl, message);
  }

  // ------------------------------------------------------- whole translations

  lemma {:induction false} PushTagged(messages: seq<Turn>, turn: Turn)
    requires Alternating(messages)
    ensures Alternating(Push(messages, turn))
    ensures Tagged(Push(messages, turn)) == Tagged(messages) + Tag(turn.role, turn.content)
  {
    var pushed := Push(messages, turn);
    if messages != [] && messages[|messages| - 1].role == turn.role {
      var last := |messages| - 1;
      assert pushed[..last] == messages[..last];
      assert Tag(turn.role, messages[last].content + turn.content)
             == Tag(turn.role, messages[last].content) + Tag(turn.role, turn.content);
    } else {
      assert pushed[..|messages|] == messages;
    }
  }

  /** All tagged blocks of a list of messages, translated one by one. */
  function TaggedTurns(caps: Capabilities, ttl: Option<Ttl>, messages: seq<Message>): seq<(Role, Block)> {
    if messages == [] then []
    else
      var turn := TurnOf(caps, ttl, messages[|messages| - 1]);
      TaggedTurns(caps, ttl, messages[..|messages| - 1]) + Tag(turn.role, turn.content)
  }

  lemma {:induction false} GroupedForm(caps: Capabilities, ttl: Option<Ttl>, messages: seq<Message>)
    ensures Alternating(Grouped(caps, ttl, messages))
    ensures Tagged(Grouped(caps, ttl, messages)) == TaggedTurns(caps, ttl, messages)
    ensures messages != [] ==> Grouped(caps, ttl, messages) != []
  {
    if messages != [] {
      hide TurnOf;
      GroupedForm(caps, ttl, messages[..|messages| - 1]);
      PushTagged(Grouped(caps, ttl, messages[..|messages| - 1]), TurnOf(caps, ttl, messages[|messages| - 1]));
    }
  }

  /** Without the checkpoints, keeping the tags. */
  function PlainTags(tags: seq<(Role, Block)>): seq<(Role, Block)> {
    if tags == [] then []
    else PlainTags(tags[..|tags| - 1]) + if tags[|tags| - 1].1.CachePoint? then [] else [tags[|tags| - 1]]
  }

  function TagPoints(tags: seq<(Role, Block)>): nat {
    if tags == [] then 0 else TagPoints(tags[..|tags| - 1]) + if tags[|tags| - 1].1.CachePoint? then 1 else 0
  }

  lemma {:induction false} SplitTags(a: seq<(Role, Block)>, b: seq<(Role, Block)>)
    ensures PlainTags(a + b) == PlainTags(a) + PlainTags(b) && TagPoints(a + b) == TagPoints(a) + TagPoints(b)
  {
    if b == [] {
      assert a + b == a;
    } else {
      SplitTags(a, b[..|b| - 1]);
      assert (a + b)[..|a + b| - 1] == a + b[..|b| - 1];
    }
  }

  lemma {:induction false} PlainTag(role: Role, blocks: seq<Block>)
    ensures PlainTags(Tag(role, blocks)) == Tag(role, Plainly(blocks)) && TagPoints(Tag(role, blocks)) == Points(blocks)
  {
    if blocks != [] {
      PlainTag(role, blocks[..|blocks| - 1]);
      assert Tag(role, blocks)[..|blocks| - 1] == Tag(role, blocks[..|blocks| - 1]);
    }
  }

  /** The reference: each message's own role and bare blocks, in prompt order. */
  function BareTags(caps: Capabilities, messages: seq<Message>): seq<(Role, Block)> {
    if messages == [] then []
    else
      var message := messages[|messages| - 1];
      BareTags(caps, messages[..|messages| - 1])
      + Tag(if message.AssistantMessage? then Assistant else User, Bare(caps, message))
  }

  lemma {:induction false} TurnsPlain(caps: Capabilities, ttl: Option<Ttl>, messages: seq<Message>)
    ensures PlainTags(TaggedTurns(caps, ttl, messages)) == BareTags(caps, messages)
    ensures TagPoints(TaggedTurns(caps, ttl, messages)) == Count(MessageAsks, messages)
  {
    if messages != [] {
      hide TurnOf, Bare, MessageAsks, Tag;
      var front, message := messages[..|messages| - 1], messages[|messages| - 1];
      TurnsPlain(caps, ttl, front);
      var turn := TurnOf(caps, ttl, message);
      TurnRole(caps, ttl, message);
      SplitTags(TaggedTurns(caps, ttl, front), Tag(turn.role, turn.content));
      PlainTag(turn.role, turn.content);
      TurnPlain(caps, ttl, message);
    }
  }

  lemma TurnRole(caps: Capabilities, ttl: Option<Ttl>, message: Message)
    ensures TurnOf(caps, ttl, message).role == if message.AssistantMessage? then Assistant else User
  {
  }

  lemma FallbackForm(ttl: Option<Ttl>, owed: bool, messages: seq<Turn>)
    requires Alternating(messages)
    ensures var after := WithFallback(ttl, owed, messages);
            && Alternating(after)
            && PlainTags(Tagged(after)) == PlainTags(Tagged(messages))
            && TagPoints(Tagged(after)) == TagPoints(Tagged(messages))
               + if owed && ttl.Some? && messages != [] then 1 else 0
  {
    if owed && ttl.Some? && messages != [] {
      var last, after := |messages| - 1, WithFallback(ttl, owed, messages);
      var role, content := messages[last].role, messages[last].content;
      var point := [CachePoint(ttl.value)];
      assert after[..last] == messages[..last];
      assert Tag(role, content + point) == Tag(role, content) + Tag(role, point);
      assert Tagged(after) == Tagged(messages) + Tag(role, point);
      SplitTags(Tagged(messages), Tag(role, point));
      PlainTag(role, point);
      MarkIs(ttl, true);
    }
  }

  /** The reference: the system texts in order. */
  function SystemTexts(systems: seq<Message>): (r: seq<Block>)
    requires forall i :: 0 <= i < |systems| ==> systems[i].SystemMessage?
    ensures |r| == |systems|
  {
    seq(|systems|, i requires 0 <= i < |systems| => TextBlock(systems[i].text))
  }

  lemma NoSystem(ttl: Option<Ttl>, autoCache: bool, systems: seq<Message>)
    ensures Plainly(SystemBlocks(ttl, autoCache, systems, 0)) == []
    ensures Points(SystemBlocks(ttl, autoCache, systems, 0)) == 0
    ensures SystemAsks(autoCache, systems, 0) == 0
  {
  }

  /** A system text and its checkpoint after `blocks`. */
  lemma SystemStep(blocks: seq<Block>, text: string, ttl: Option<Ttl>, requested: bool)
    ensures var after := blocks + [TextBlock(text)] + Mark(ttl, requested);
            && Plainly(after) == Plainly(blocks) + [TextBlock(text)]
            && Points(after) == Points(blocks) + Asks(requested)
  {
    hide *;
    SplitBlocks(blocks, [TextBlock(text)]);
    SplitBlocks(blocks + [TextBlock(text)], Mark(ttl, requested));
    OneBlock(TextBlock(text));
    MarkIs(ttl, requested);
  }

  lemma {:induction false} SystemPlain(ttl: Option<Ttl>, autoCache: bool, systems: seq<Message>, n: nat)
    requires n <= |systems| && forall i :: 0 <= i < |systems| ==> systems[i].SystemMessage?
    ensures Plainly(SystemBlocks(ttl, autoCache, systems, n)) == SystemTexts(systems)[..n]
    ensures Points(SystemBlocks(ttl, autoCache, systems, n)) == SystemAsks(autoCache, systems, n)
  {
    hide Plainly, Points, Mark, Asks, SystemBlocks, SystemAsks, SystemTexts;
    if n == 0 {
      NoSystem(ttl, autoCache, systems);
    } else {
      SystemPlain(ttl, autoCache, systems, n - 1);
      var requested := systems[n - 1].cache || (autoCache && n == |systems|);
      SystemUnfolds(ttl, autoCache, systems, n);
      SystemStep(SystemBlocks(ttl, autoCache, systems, n - 1), systems[n - 1].text, ttl, requested);
    }
  }

  lemma SystemUnfolds(ttl: Option<Ttl>, autoCache: bool, systems: seq<Message>, n: nat)
    requires 0 < n <= |systems| && forall i :: 0 <= i < |systems| ==> systems[i].SystemMessage?
    ensures var requested := systems[n - 1].cache || (autoCache && n == |systems|);
            && SystemBlocks(ttl, autoCache, systems, n)
               == SystemBlocks(ttl, autoCache, systems, n - 1) + [TextBlock(systems[n - 1].text)] + Mark(ttl, requested)
            && SystemAsks(autoCache, systems, n) == SystemAsks(autoCache, systems, n - 1) + Asks(requested)
            && SystemTexts(systems)[..n] == SystemTexts(systems)[..n - 1] + [TextBlock(systems[n - 1].text)]
  {
    hide Mark, Asks;
  }

  /** Checkpoints in the messages and the system prompt. */
  function CheckpointsOf(translated: Messages): nat {
    TagPoints(Tagged(translated.messages)) + Points(translated.system)
  }

  /**
   * Roles alternate; without the checkpoints the messages are exactly the blocks of the non-system prompt messages, in
   * order and under their roles, and the system prompt is the system texts in order; the checkpoints are the requested
   * ones, or the one that automatic caching owes when none was requested.
   */
  lemma {:induction false} MessageNormalForm(caps: Capabilities, ttl: Option<Ttl>, autoCache: bool, max: nat,
                                             prompt: seq<Message>)
    ensures var translated := Translation(caps, ttl, autoCache, max, prompt);
            var systems := Systems(prompt);
            && Alternating(translated.messages)
            && PlainTags(Tagged(translated.messages)) == BareTags(caps, Others(prompt))
            && (forall i :: 0 <= i < |systems| ==> systems[i].SystemMessage?)
            && Plainly(translated.system) == SystemTexts(systems)
            && CheckpointsOf(translated) == AllAsks(autoCache, prompt)
               + if autoCache && AllAsks(autoCache, prompt) == 0 && max == MAX_CHECKPOINTS
                    && ttl.Some? && Others(prompt) != []
                 then 1 else 0
  {
    var systems, others := Systems(prompt), Others(prompt);
    var owed := autoCache && AllAsks(autoCache, prompt) == 0 && max == MAX_CHECKPOINTS;
    SystemsAreSystem(prompt);
    SystemPlain(ttl, autoCache, systems, |systems|);
    GroupedForm(caps, ttl, others);
    TurnsPlain(caps, ttl, others);
    assert others == [] ==> Grouped(caps, ttl, others) == [];
    hide TagPoints, PlainTags, Tagged, Points, Plainly, Systems, Others, Grouped, SystemBlocks, SystemAsks, Count,
      Alternating, WithFallback, BareTags;
    FallbackForm(ttl, owed, Grouped(caps, ttl, others));
  }
}
