/** Turning a chat prompt into Converse messages with cache checkpoints (src/aws-bedrock/api.ts). */
module BedrockRequest {
  import opened Optional
  import opened Sequences

  datatype Ttl = FiveMinutes | OneHour

  datatype Role = User | Assistant

  /** `supported` says whether the MIME and source lookups accept the payload. */
  datatype Media = Media(payload: string, supported: bool)

  datatype UserItem =
    | TextItem(text: string, cache: bool)
    | ImageItem(media: Media, cache: bool)
    | FileItem(media: Media, cache: bool)
    | AudioItem
    | UrlItem

  datatype UserContent = Plain(text: string) | Items(items: seq<UserItem>)

  /** An audio or URL result has already been turned into its text. */
  datatype ToolItem = ToolText(text: string) | ToolImage(media: Media) | ToolFile(media: Media)

  datatype Thought = Thought(data: string, encrypted: bool, signature: string)

  datatype ToolUse = ToolUse(id: string, name: string, params: string)

  datatype Message =
    | SystemMessage(text: string, cache: bool)
    | UserMessage(content: UserContent, cache: bool)
    | AssistantMessage(thoughts: seq<Thought>, reply: string, calls: seq<ToolUse>, cache: bool)
    | FunctionMessage(functionId: string, toolItems: seq<ToolItem>, result: string, isJson: bool, isError: bool,
                      cache: bool)

  datatype ToolContent = ResultText(text: string) | ResultImage(payload: string) | ResultDocument(payload: string)
                       | ResultJson(json: string)

  datatype Block =
    | TextBlock(text: string)
    | ImageBlock(payload: string)
    | DocumentBlock(payload: string)
    | ReasoningTextBlock(text: string, signature: Option<string>)
    | RedactedContentBlock(data: string)
    | ToolUseBlock(call: ToolUse)
    | ToolResultBlock(toolUseId: string, results: seq<ToolContent>, failed: Option<bool>)
    | CachePoint(ttl: Ttl)

  datatype Turn = Turn(role: Role, content: seq<Block>)

  datatype Capabilities = Capabilities(images: bool, files: bool, functions: bool, cacheTtls: seq<Ttl>,
                                       reportsToolStatus: bool)

  datatype Error =
    | CachingUnsupported | TtlUnsupported | TooManyCheckpoints
    | ImageUnsupported | DocumentUnsupported | AudioUnsupported | UrlUnsupported | BadMedia
    | Rejected

  datatype Result<+T> = Ok(value: T) | Err(error: Error)

  const MAX_CHECKPOINTS: nat := 4

  const DOCUMENT_PROMPT := "Use the attached document to answer the request."

  // ------------------------------------------------- the reference translation

  function Count<A>(of: A -> nat, items: seq<A>): nat {
    if items == [] then 0 else Count(of, items[..|items| - 1]) + of(items[|items| - 1])
  }

  /** A checkpoint where one is requested. */
  function Mark(ttl: Option<Ttl>, requested: bool): seq<Block> {
    if requested then [CachePoint(ttl.GetOr(FiveMinutes))] else []
  }

  function Asks(requested: bool): nat { if requested then 1 else 0 }

  function ItemBlock(item: UserItem): seq<Block> {
    match item
    case TextItem(text, _) => [TextBlock(text)]
    case ImageItem(media, _) => [ImageBlock(media.payload)]
    case FileItem(media, _) => [DocumentBlock(media.payload)]
    case _ => []
  }

  function ItemCached(item: UserItem): bool {
    (item.TextItem? || item.ImageItem? || item.FileItem?) && item.cache
  }

  function ItemAsks(item: UserItem): nat { Asks(ItemCached(item)) }

  function ItemMarked(ttl: Option<Ttl>): UserItem -> seq<Block> {
    (item: UserItem) => ItemBlock(item) + Mark(ttl, ItemCached(item))
  }

  predicate ItemSupported(caps: Capabilities, item: UserItem) {
    match item
    case TextItem(_, _) => true
    case ImageItem(media, _) => caps.images && media.supported
    case FileItem(media, _) => caps.files && media.supported
    case _ => false
  }

  function ToolContentOf(item: ToolItem): seq<ToolContent> {
    match item
    case ToolText(text) => [ResultText(text)]
    case ToolImage(media) => [ResultImage(media.payload)]
    case ToolFile(media) => [ResultDocument(media.payload)]
  }

  predicate ToolItemSupported(item: ToolItem) {
    item.ToolText? || item.media.supported
  }

  /** A document without any text gets a prompt in front. */
  function DocumentPrompt(content: UserContent): seq<Block> {
    if content.Items? && (exists i :: 0 <= i < |content.items| && content.items[i].FileItem?)
       && !(exists i :: 0 <= i < |content.items| && content.items[i].TextItem?)
    then [TextBlock(DOCUMENT_PROMPT)] else []
  }

  /** The base64 text of an encrypted thought stands for its bytes. */
  function ReasoningOf(thought: Thought): seq<Block> {
    if thought.encrypted then [RedactedContentBlock(thought.data)]
    else [ReasoningTextBlock(thought.data, if thought.signature == "" then None else Some(thought.signature))]
  }

  function ToolUseOf(call: ToolUse): seq<Block> { [ToolUseBlock(call)] }

  /** The blocks of a message with the checkpoints requested inside it, but not its own. */
  function Blocks(caps: Capabilities, ttl: Option<Ttl>, message: Message): seq<Block> {
    match message
    case SystemMessage(text, _) => [TextBlock(text)]
    case UserMessage(Plain(text), _) => [TextBlock(text)]
    case UserMessage(Items(items), _) => DocumentPrompt(message.content) + Concat(ItemMarked(ttl), items)
    case AssistantMessage(thoughts, reply, calls, _) =>
      Concat(ReasoningOf, thoughts) + (if reply == "" then [] else [TextBlock(reply)]) + Concat(ToolUseOf, calls)
    case FunctionMessage(id, items, result, isJson, isError, _) =>
      var results := if items != [] then Concat(ToolContentOf, items)
                     else if isJson then [ResultJson(result)] else [ResultText(result)];
      [ToolResultBlock(id, results, if caps.reportsToolStatus then Some(isError) else None)]
  }

  predicate Supported(caps: Capabilities, message: Message) {
    match message
    case UserMessage(Items(items), _) => forall i :: 0 <= i < |items| ==> ItemSupported(caps, items[i])
    case FunctionMessage(_, items, _, _, _, _) => forall i :: 0 <= i < |items| ==> ToolItemSupported(items[i])
    case _ => true
  }

  /** Checkpoints requested inside a message. */
  function InnerAsks(message: Message): nat {
    if message.UserMessage? && message.content.Items? then Count(ItemAsks, message.content.items) else 0
  }

  function MessageAsks(message: Message): nat { InnerAsks(message) + Asks(message.cache) }

  function RoleOf(message: Message): Role { if message.AssistantMessage? then Assistant else User }

  function TurnOf(caps: Capabilities, ttl: Option<Ttl>, message: Message): Turn {
    Turn(RoleOf(message), Blocks(caps, ttl, message) + Mark(ttl, message.cache))
  }

  /** `pushMessage`: consecutive content of one role shares a message. */
  function Push(messages: seq<Turn>, turn: Turn): seq<Turn> {
    if messages != [] && messages[|messages| - 1].role == turn.role then
      var last := |messages| - 1;
      messages[last := messages[last].(content := messages[last].content + turn.content)]
    else messages + [turn]
  }

  function Systems(prompt: seq<Message>): seq<Message> {
    if prompt == [] then []
    else Systems(prompt[..|prompt| - 1])
         + if prompt[|prompt| - 1].SystemMessage? then [prompt[|prompt| - 1]] else []
  }

  function Others(prompt: seq<Message>): seq<Message> {
    if prompt == [] then []
    else Others(prompt[..|prompt| - 1])
         + if prompt[|prompt| - 1].SystemMessage? then [] else [prompt[|prompt| - 1]]
  }

  /** The system texts, the last one marked when caching is automatic. */
  function SystemBlocks(ttl: Option<Ttl>, autoCache: bool, systems: seq<Message>, n: nat): seq<Block>
    requires n <= |systems|
  {
    if n == 0 then []
    else
      var message := systems[n - 1];
      SystemBlocks(ttl, autoCache, systems, n - 1) + [TextBlock(if message.SystemMessage? then message.text else "")]
      + Mark(ttl, message.cache || (autoCache && n == |systems|))
  }

  function SystemAsks(autoCache: bool, systems: seq<Message>, n: nat): nat
    requires n <= |systems|
  {
    if n == 0 then 0
    else SystemAsks(autoCache, systems, n - 1) + Asks(systems[n - 1].cache || (autoCache && n == |systems|))
  }

  function Grouped(caps: Capabilities, ttl: Option<Ttl>, messages: seq<Message>): seq<Turn> {
    if messages == [] then []
    else Push(Grouped(caps, ttl, messages[..|messages| - 1]), TurnOf(caps, ttl, messages[|messages| - 1]))
  }

  function AllAsks(autoCache: bool, prompt: seq<Message>): nat {
    SystemAsks(autoCache, Systems(prompt), |Systems(prompt)|) + Count(MessageAsks, Others(prompt))
  }

  /** When no checkpoint was requested at all, the last message gets the one that automatic caching owes. */
  function WithFallback(ttl: Option<Ttl>, owed: bool, messages: seq<Turn>): seq<Turn> {
    if owed && ttl.Some? && messages != [] then
      var last := |messages| - 1;
      messages[last := messages[last].(content := messages[last].content + [CachePoint(ttl.value)])]
    else messages
  }

  /** The prompt can be sent: all media are accepted and the requested checkpoints fit. */
  predicate Acceptable(caps: Capabilities, ttl: Option<Ttl>, autoCache: bool, max: nat, prompt: seq<Message>) {
    && (forall i :: 0 <= i < |prompt| ==> Supported(caps, prompt[i]))
    && Fits(ttl, max, 0, AllAsks(autoCache, prompt))
  }

  /** `n` further checkpoints can be set after `used` of them. */
  predicate Fits(ttl: Option<Ttl>, max: nat, used: nat, n: nat) {
    n > 0 ==> ttl.Some? && used + n <= max
  }

  /** The error names its cause: no lifetime to cache with, no checkpoint left, or what is blamed for it. */
  predicate Explained(error: Error, ttl: Option<Ttl>, blamed: bool) {
    match error
    case CachingUnsupported => ttl.None?
    case TooManyCheckpoints => ttl.Some?
    case TtlUnsupported | Rejected => false
    case _ => blamed
  }

  /** The error is that of the first unsupported item. */
  ghost predicate BlamesItem(caps: Capabilities, items: seq<UserItem>, error: Error) {
    exists i :: 0 <= i < |items| && FirstRefused(caps, items, i) && error == ItemError(caps, items[i])
  }

  predicate FirstRefused(caps: Capabilities, items: seq<UserItem>, i: nat)
    requires i < |items|
  {
    !ItemSupported(caps, items[i]) && forall j :: 0 <= j < i ==> ItemSupported(caps, items[j])
  }

  ghost predicate BlamesMessage(caps: Capabilities, message: Message, error: Error) {
    match message
    case UserMessage(Items(items), _) => BlamesItem(caps, items, error)
    case FunctionMessage(_, _, _, _, _, _) => !Supported(caps, message) && error == BadMedia
    case _ => false
  }

  /** The error is that of the first unsupported message. */
  ghost predicate BlamesPrompt(caps: Capabilities, prompt: seq<Message>, error: Error) {
    exists k :: 0 <= k < |prompt| && BlamesMessage(caps, prompt[k], error)
                && forall j :: 0 <= j < k ==> Supported(caps, prompt[j])
  }

  function ItemError(caps: Capabilities, item: UserItem): Error {
    match item
    case ImageItem(_, _) => if caps.images then BadMedia else ImageUnsupported
    case FileItem(_, _) => if caps.files then BadMedia else DocumentUnsupported
    case UrlItem => UrlUnsupported
    case _ => AudioUnsupported
  }

  // --------------------------------------------------------------- the builder

  /** The arrays and the counter that the closures of `createMessages` share. */
  class Builder {
    const caps: Capabilities
    const ttl: Option<Ttl>
    const max: nat
    var messages: seq<Turn>
    var system: seq<Block>
    var cachePoints: nat

    constructor (caps: Capabilities, ttl: Option<Ttl>, max: nat)
      ensures this.caps == caps && this.ttl == ttl && this.max == max
      ensures messages == [] && system == [] && cachePoints == 0
    {
      this.caps, this.ttl, this.max := caps, ttl, max;
      messages, system, cachePoints := [], [], 0;
    }

    method AddCachePoint(target: seq<Block>, requested: bool) returns (r: Result<seq<Block>>)
      requires cachePoints <= max
      modifies this`cachePoints
      ensures r.Ok? <==> Fits(ttl, max, old(cachePoints), Asks(requested))
      ensures r.Ok? ==> r.value == target + Mark(ttl, requested) && cachePoints == old(cachePoints) + Asks(requested)
      ensures r.Err? ==> Explained(r.error, ttl, false)
      ensures cachePoints <= max
    {
      if !requested {
        return Ok(target);
      }
      if ttl.None? {
        return Err(CachingUnsupported);
      }
      if cachePoints >= max {
        return Err(TooManyCheckpoints);
      }
      cachePoints := cachePoints + 1;
      return Ok(target + [CachePoint(ttl.value)]);
    }

    method PushMessage(role: Role, content: seq<Block>)
      modifies this`messages
      ensures messages == Push(old(messages), Turn(role, content))
    {
      var n := |messages|;
      if n > 0 && messages[n - 1].role == role {
        messages := messages[n - 1 := messages[n - 1].(content := messages[n - 1].content + content)];
      } else {
        messages := messages + [Turn(role, content)];
      }
    }

    method AddSystem(systems: seq<Message>, autoCache: bool) returns (r: Result<()>)
      requires forall i :: 0 <= i < |systems| ==> systems[i].SystemMessage?
      requires cachePoints == 0 && system == []
      modifies this`system, this`cachePoints
      ensures r.Ok? <==> Fits(ttl, max, 0, SystemAsks(autoCache, systems, |systems|))
      ensures r.Err? ==> Explained(r.error, ttl, false)
      ensures r.Ok? ==> system == SystemBlocks(ttl, autoCache, systems, |systems|)
                        && cachePoints == SystemAsks(autoCache, systems, |systems|) <= max
    {
      for n := 0 to |systems|
        invariant system == SystemBlocks(ttl, autoCache, systems, n)
        invariant cachePoints == SystemAsks(autoCache, systems, n) <= max
        invariant Fits(ttl, max, 0, SystemAsks(autoCache, systems, n))
      {
        system := system + [TextBlock(systems[n].text)];
        SystemAsksGrow(autoCache, systems, n + 1, |systems|);
        var marked := AddCachePoint(system, systems[n].cache || (autoCache && n == |systems| - 1));
        if marked.Err? {
          return Err(marked.error);
        }
        system := marked.value;
      }
      return Ok(());
    }

    /** One case of the switch over a user message's items. */
    method UserItem(content: seq<Block>, item: UserItem) returns (r: Result<seq<Block>>)
      requires cachePoints <= max
      modifies this`cachePoints
      ensures r.Ok? <==> ItemSupported(caps, item) && Fits(ttl, max, old(cachePoints), ItemAsks(item))
      ensures r.Ok? ==> r.value == content + ItemMarked(ttl)(item) && cachePoints == old(cachePoints) + ItemAsks(item)
      ensures r.Err? ==> if ItemSupported(caps, item) then Explained(r.error, ttl, false)
                         else r.error == ItemError(caps, item)
      ensures cachePoints <= max
    {
      match item {
        case TextItem(text, cache) =>
          r := AddCachePoint(content + [TextBlock(text)], cache);
        case ImageItem(media, cache) =>
          if !caps.images {
            return Err(ImageUnsupported);
          }
          if !media.supported {
            return Err(BadMedia);
          }
          r := AddCachePoint(content + [ImageBlock(media.payload)], cache);
        case FileItem(media, cache) =>
          if !caps.files {
            return Err(DocumentUnsupported);
          }
          if !media.supported {
            return Err(BadMedia);
          }
          r := AddCachePoint(content + [DocumentBlock(media.payload)], cache);
        case AudioItem =>
          return Err(AudioUnsupported);
        case UrlItem =>
          return Err(UrlUnsupported);
      }
    }

    method UserItems(items: seq<UserItem>) returns (r: Result<seq<Block>>, hasDocument: bool, hasText: bool)
      requires cachePoints <= max
      modifies this`cachePoints
      ensures r.Ok? <==> (forall i :: 0 <= i < |items| ==> ItemSupported(caps, items[i]))
                         && Fits(ttl, max, old(cachePoints), Count(ItemAsks, items))
      ensures r.Ok? ==> && r.value == Concat(ItemMarked(ttl), items)
                        && cachePoints == old(cachePoints) + Count(ItemAsks, items)
                        && (hasDocument <==> exists i :: 0 <= i < |items| && items[i].FileItem?)
                        && (hasText <==> exists i :: 0 <= i < |items| && items[i].TextItem?)
      ensures r.Err? ==> Explained(r.error, ttl, BlamesItem(caps, items, r.error))
      ensures cachePoints <= max
    {
      hide ItemSupported, ItemAsks, ItemMarked, Concat, Count;
      var content: seq<Block> := [];
      hasDocument, hasText := false, false;
      Nothing<UserItem, Block>(ItemAsks, ItemMarked(ttl));
      assert items[..0] == [];
      for n := 0 to |items|
        invariant content == Concat(ItemMarked(ttl), items[..n])
        invariant cachePoints == old(cachePoints) + Count(ItemAsks, items[..n]) <= max
        invariant Fits(ttl, max, old(cachePoints), Count(ItemAsks, items[..n]))
        invariant forall i :: 0 <= i < n ==> ItemSupported(caps, items[i])
        invariant hasDocument <==> exists i :: 0 <= i < n && items[i].FileItem?
        invariant hasText <==> exists i :: 0 <= i < n && items[i].TextItem?
      {
        CountStep(ItemAsks, items, n);
        ConcatStep(ItemMarked(ttl), items, n);
        CountGrows(ItemAsks, items, n + 1);
        var marked := UserItem(content, items[n]);
        if marked.Err? {
          assert !ItemSupported(caps, items[n]) ==> FirstRefused(caps, items, n);
          return Err(marked.error), hasDocument, hasText;
        }
        content := marked.value;
        hasDocument := hasDocument || items[n].FileItem?;
        hasText := hasText || items[n].TextItem?;
      }
      assert items[..|items|] == items;
      r := Ok(content);
    }

    method ToolResults(items: seq<ToolItem>) returns (r: Result<seq<ToolContent>>)
      ensures r.Ok? <==> forall i :: 0 <= i < |items| ==> ToolItemSupported(items[i])
      ensures r == if r.Ok? then Ok(Concat(ToolContentOf, items)) else Err(BadMedia)
    {
      var content: seq<ToolContent> := [];
      for n := 0 to |items|
        invariant content == Concat(ToolContentOf, items[..n])
        invariant forall i :: 0 <= i < n ==> ToolItemSupported(items[i])
      {
        ConcatStep(ToolContentOf, items, n);
        match items[n] {
          case ToolText(text) =>
            content := content + [ResultText(text)];
          case ToolImage(media) =>
            if !media.supported {
              return Err(BadMedia);
            }
            content := content + [ResultImage(media.payload)];
          case ToolFile(media) =>
            if !media.supported {
              return Err(BadMedia);
            }
            content := content + [ResultDocument(media.payload)];
        }
      }
      assert items[..|items|] == items;
      r := Ok(content);
    }

    method AssistantContent(thoughts: seq<Thought>, reply: string, calls: seq<ToolUse>) returns (content: seq<Block>)
      ensures content == Concat(ReasoningOf, thoughts) + (if reply == "" then [] else [TextBlock(reply)])
                         + Concat(ToolUseOf, calls)
    {
      hide Concat;
      content := [];
      ThoughtsAndCalls(thoughts, calls);
      for n := 0 to |thoughts|
        invariant content == Concat(ReasoningOf, thoughts[..n])
      {
        ConcatStep(ReasoningOf, thoughts, n);
        var block := thoughts[n];
        if block.encrypted {
          content := content + [RedactedContentBlock(block.data)];
        } else {
          var signature := if block.signature == "" then None else Some(block.signature);
          content := content + [ReasoningTextBlock(block.data, signature)];
        }
      }
      assert thoughts[..|thoughts|] == thoughts;
      if reply != "" {
        content := content + [TextBlock(reply)];
      }
      ghost var spoken := content;
      for n := 0 to |calls|
        invariant content == spoken + Concat(ToolUseOf, calls[..n])
      {
        ConcatStep(ToolUseOf, calls, n);
        content := content + [ToolUseBlock(calls[n])];
      }
      assert calls[..|calls|] == calls;
    }

    /** The blocks of one message, up to its own checkpoint. */
    method Translate(message: Message) returns (r: Result<seq<Block>>)
      requires !message.SystemMessage? && cachePoints <= max
      modifies this`cachePoints
      ensures r.Ok? <==> Supported(caps, message) && Fits(ttl, max, old(cachePoints), InnerAsks(message))
      ensures r.Ok? ==> r.value == Blocks(caps, ttl, message) && cachePoints == old(cachePoints) + InnerAsks(message)
      ensures r.Err? ==> Explained(r.error, ttl, BlamesMessage(caps, message, r.error))
      ensures cachePoints <= max
    {
      hide Concat, Count, ItemAsks, ItemSupported, ToolItemSupported;
      match message {
        case UserMessage(Plain(text), _) =>
          r := Ok([TextBlock(text)]);
        case UserMessage(Items(items), _) =>
          var content, hasDocument, hasText := UserItems(items);
          if content.Err? {
            return Err(content.error);
          }
          var prompt: seq<Block> := if hasDocument && !hasText then [TextBlock(DOCUMENT_PROMPT)] else [];
          r := Ok(prompt + content.value);
        case AssistantMessage(thoughts, reply, calls, _) =>
          var content := AssistantContent(thoughts, reply, calls);
          r := Ok(content);
        case FunctionMessage(id, items, result, isJson, isError, _) =>
          var results: seq<ToolContent>;
          if items != [] {
            var made := ToolResults(items);
            if made.Err? {
              return Err(made.error);
            }
            results := made.value;
          } else {
            results := if isJson then [ResultJson(result)] else [ResultText(result)];
          }
          r := Ok([ToolResultBlock(id, results, if caps.reportsToolStatus then Some(isError) else None)]);
      }
    }

    method TakeMessage(message: Message) returns (r: Result<()>)
      requires !message.SystemMessage? && cachePoints <= max
      modifies this`messages, this`cachePoints
      ensures r.Ok? <==> Supported(caps, message) && Fits(ttl, max, old(cachePoints), MessageAsks(message))
      ensures r.Ok? ==> messages == Push(old(messages), TurnOf(caps, ttl, message))
                        && cachePoints == old(cachePoints) + MessageAsks(message)
      ensures r.Err? ==> Explained(r.error, ttl, BlamesMessage(caps, message, r.error))
      ensures cachePoints <= max
    {
      hide Supported, Blocks, InnerAsks, Push;
      var content := Translate(message);
      if content.Err? {
        return Err(content.error);
      }
      var marked := AddCachePoint(content.value, message.cache);
      if marked.Err? {
        return Err(marked.error);
      }
      PushMessage(RoleOf(message), marked.value);
      r := Ok(());
    }
  }

  /** Why an item is refused: no model takes audio or URLs, and media need the capability and a readable payload. */
  lemma RefusedBecause(caps: Capabilities, item: UserItem)
    ensures !ItemSupported(caps, item) <==>
            || item.AudioItem? || item.UrlItem?
            || (item.ImageItem? && !(caps.images && item.media.supported))
            || (item.FileItem? && !(caps.files && item.media.supported))
    ensures !ItemSupported(caps, item) ==>
              var error := ItemError(caps, item);
              && (error == AudioUnsupported <==> item.AudioItem?)
              && (error == UrlUnsupported <==> item.UrlItem?)
              && (error == ImageUnsupported <==> item.ImageItem? && !caps.images)
              && (error == DocumentUnsupported <==> item.FileItem? && !caps.files)
              && (error == BadMedia <==> (item.ImageItem? && caps.images) || (item.FileItem? && caps.files))
  {
  }

  lemma ThoughtsAndCalls(thoughts: seq<Thought>, calls: seq<ToolUse>)
    ensures Concat(ReasoningOf, thoughts[..0]) == [] && Concat(ToolUseOf, calls[..0]) == []
  {
  }

  datatype Messages = Messages(messages: seq<Turn>, system: seq<Block>)

  /** What `createMessages` returns for an acceptable prompt. */
  function Translation(caps: Capabilities, ttl: Option<Ttl>, autoCache: bool, max: nat, prompt: seq<Message>): Messages
  {
    var systems := Systems(prompt);
    var owed := autoCache && AllAsks(autoCache, prompt) == 0 && max == MAX_CHECKPOINTS;
    Messages(WithFallback(ttl, owed, Grouped(caps, ttl, Others(prompt))),
             SystemBlocks(ttl, autoCache, systems, |systems|))
  }

  method CreateMessages(caps: Capabilities, ttl: Option<Ttl>, autoCache: bool, max: nat, prompt: seq<Message>)
    returns (r: Result<Messages>)
    ensures r.Ok? <==> Acceptable(caps, ttl, autoCache, max, prompt)
    ensures r.Ok? ==> r.value == Translation(caps, ttl, autoCache, max, prompt)
    ensures r.Err? ==> Explained(r.error, ttl, BlamesPrompt(caps, prompt, r.error))
  {
    hide Supported, MessageAsks, Push, TurnOf, Grouped, SystemBlocks, SystemAsks, Count, Systems, Others;
    var builder := new Builder(caps, ttl, max);
    var systems := Systems(prompt);
    SystemsAreSystem(prompt);
    var added := builder.AddSystem(systems, autoCache);
    if added.Err? {
      return Err(added.error);
    }
    ghost var base := builder.cachePoints;
    NoMessages(caps, ttl);
    assert prompt[..0] == [];
    var n := 0;
    while n < |prompt|
      invariant 0 <= n <= |prompt|
      invariant builder.system == SystemBlocks(ttl, autoCache, systems, |systems|)
      invariant builder.messages == Grouped(caps, ttl, Others(prompt[..n]))
      invariant base + Count(MessageAsks, Others(prompt[..n])) == builder.cachePoints <= max
      invariant Fits(ttl, max, 0, builder.cachePoints)
      invariant forall i :: 0 <= i < n ==> Supported(caps, prompt[i])
    {
      OthersStep(caps, ttl, prompt, n);
      if !prompt[n].SystemMessage? {
        OthersGrow(prompt, n + 1);
        var taken := builder.TakeMessage(prompt[n]);
        if taken.Err? {
          return Err(taken.error);
        }
      }
      n := n + 1;
    }
    assert prompt[..n] == prompt;
    var messages := builder.messages;
    if autoCache && ttl.Some? && builder.cachePoints == 0 && max == MAX_CHECKPOINTS && |messages| > 0 {
      var last := |messages| - 1;
      var marked := builder.AddCachePoint(messages[last].content, true);
      messages := messages[last := messages[last].(content := marked.value)];
    }
    r := Ok(Messages(messages, builder.system));
  }

  lemma {:induction false} SystemsAreSystem(prompt: seq<Message>)
    ensures forall i :: 0 <= i < |Systems(prompt)| ==> Systems(prompt)[i].SystemMessage?
  {
    if prompt != [] {
      SystemsAreSystem(prompt[..|prompt| - 1]);
    }
  }

  lemma NoMessages(caps: Capabilities, ttl: Option<Ttl>)
    ensures Others([]) == [] && Grouped(caps, ttl, []) == [] && Count(MessageAsks, []) == 0
  {
  }

  lemma OthersStep(caps: Capabilities, ttl: Option<Ttl>, prompt: seq<Message>, n: nat)
    requires n < |prompt|
    ensures var before, after := Others(prompt[..n]), Others(prompt[..n + 1]);
            if prompt[n].SystemMessage? then after == before && Supported(caps, prompt[n])
            else
              && after == before + [prompt[n]]
              && Count(MessageAsks, after) == Count(MessageAsks, before) + MessageAsks(prompt[n])
              && Grouped(caps, ttl, after) == Push(Grouped(caps, ttl, before), TurnOf(caps, ttl, prompt[n]))
  {
    assert prompt[..n + 1][..n] == prompt[..n];
    var before := Others(prompt[..n]);
    assert (before + [prompt[n]])[..|before|] == before;
  }

  lemma {:induction false} OthersGrow(prompt: seq<Message>, n: nat)
    requires n <= |prompt|
    ensures Count(MessageAsks, Others(prompt[..n])) <= Count(MessageAsks, Others(prompt))
    decreases |prompt| - n
  {
    if n < |prompt| {
      OthersStep(Capabilities(true, true, true, [], true), None, prompt, n);
      OthersGrow(prompt, n + 1);
    } else {
      assert prompt[..n] == prompt;
    }
  }

  lemma Nothing<A, T>(count: A -> nat, of: A -> seq<T>)
    ensures Count(count, []) == 0 && Concat(of, []) == []
  {
  }

  lemma {:induction false} SystemAsksGrow(autoCache: bool, systems: seq<Message>, n: nat, m: nat)
    requires n <= m <= |systems|
    ensures SystemAsks(autoCache, systems, n) <= SystemAsks(autoCache, systems, m)
    decreases m
  {
    if n < m {
      SystemAsksGrow(autoCache, systems, n, m - 1);
    }
  }

  lemma CountStep<A>(of: A -> nat, items: seq<A>, n: nat)
    requires n < |items|
    ensures Count(of, items[..n + 1]) == Count(of, items[..n]) + of(items[n])
  {
    assert items[..n + 1][..n] == items[..n];
  }

  lemma {:induction false} CountGrows<A>(of: A -> nat, items: seq<A>, n: nat)
    requires n <= |items|
    ensures Count(of, items[..n]) <= Count(of, items)
    decreases |items| - n
  {
    if n < |items| {
      CountStep(of, items, n);
      CountGrows(of, items, n + 1);
    } else {
      assert items[..n] == items;
    }
  }
}
