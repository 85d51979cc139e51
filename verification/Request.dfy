/**
  The request a provider is sent (src/session/request.cpp): the system text, then the chain, with every
  page a newer run of its question has replaced shown as a receipt naming that run.

  `Superseded` and `NamedBy` are the definition, over every pair of pages; `SupersededPages` is the single
  backward scan.
*/
module Requests {
  import opened Wrappers
  import opened Utf8
  import opened Messages
  import opened GraphSpec
  import opened MessageGraphs
  import opened Conversations
  import OutputCapture
  import Paging
  import Retention

  // ---------------------------------------------------------------- the definition

  /** The page a message carries, if it is one. */
  function PageOf(n: Node): Option<Origin> {
    if n.payload.Receipt? then n.payload.origin else None
  }

  /** Both are pages answering the same question, `j` after `i`. */
  predicate Later(chain: seq<Node>, i: nat, j: nat) {
    && i < j < |chain| && PageOf(chain[i]).Some? && PageOf(chain[j]).Some?
    && PageOf(chain[j]).value.source == PageOf(chain[i]).value.source
  }

  function Rank(chain: seq<Node>, i: nat): nat
    requires i < |chain|
  {
    if PageOf(chain[i]).Some? then PageOf(chain[i]).value.rank else 0
  }

  predicate Outranks(chain: seq<Node>, i: nat, j: nat) { Later(chain, i, j) && Rank(chain, j) > Rank(chain, i) }

  predicate Superseded(chain: seq<Node>, i: nat) { exists j | 0 <= j < |chain| :: Outranks(chain, i, j) }

  /** `j` is the highest-ranked later page of the question, the last of them when ranks tie. */
  predicate NamedBy(chain: seq<Node>, i: nat, j: nat) {
    && Later(chain, i, j)
    && forall k | i < k < |chain| && Later(chain, i, k) :: Rank(chain, k) < Rank(chain, j) || (Rank(chain, k) == Rank(chain, j) && k <= j)
  }

  // ---------------------------------------------------------------- what the definition promises

  /** The page a receipt names is the newest of its question: nothing supersedes it. */
  lemma NamedIsNeverSuperseded(chain: seq<Node>, i: nat, j: nat)
    requires Superseded(chain, i) && NamedBy(chain, i, j)
    ensures Outranks(chain, i, j) && !Superseded(chain, j)
  {
    var k :| 0 <= k < |chain| && Outranks(chain, i, k);
    forall m | 0 <= m < |chain| ensures !Outranks(chain, j, m) {}
  }

  /** Every superseded page has a run to name, and only one. */
  lemma NamedExists(chain: seq<Node>, i: nat) returns (j: nat)
    requires Superseded(chain, i)
    ensures NamedBy(chain, i, j)
    ensures forall k: nat :: NamedBy(chain, i, k) ==> k == j
  {
    j :| 0 <= j < |chain| && Outranks(chain, i, j);
    var k := i + 1;
    while k < |chain|
      invariant i < k <= |chain| && Later(chain, i, j)
      invariant forall m | i < m < k && Later(chain, i, m) :: Rank(chain, m) < Rank(chain, j) || (Rank(chain, m) == Rank(chain, j) && m <= j)
    {
      if Later(chain, i, k) && (Rank(chain, k) > Rank(chain, j) || (Rank(chain, k) == Rank(chain, j) && k > j)) { j := k; }
      k := k + 1;
    }
  }

  /** One more message supersedes just the pages of its own question that it outranks; what was superseded stays so. */
  lemma GrownChain(chain: seq<Node>, n: Node, longer: seq<Node>, i: nat)
    requires longer == chain + [n] && i < |chain|
    ensures Superseded(longer, i) <==> Superseded(chain, i) || Outranks(longer, i, |chain|)
  {
    if Superseded(chain, i) {
      var j :| 0 <= j < |chain| && Outranks(chain, i, j);
      assert Outranks(longer, i, j);
    }
    if Superseded(longer, i) {
      var j :| 0 <= j < |longer| && Outranks(longer, i, j);
      if j < |chain| { assert Outranks(chain, i, j); }
    }
  }

  lemma {:induction false} SupersededStays(chain: seq<Node>, more: seq<Node>, i: nat)
    requires i < |chain| && Superseded(chain, i)
    ensures Superseded(chain + more, i)
    decreases |more|
  {
    if more == [] {
      assert chain + more == chain;
    } else {
      var (front, last) := (more[..|more| - 1], more[|more| - 1]);
      SupersededStays(chain, front, i);
      assert front + [last] == more;
      GrownChain(chain + front, last, chain + more, i);
    }
  }

  function HighestRank(chain: seq<Node>): nat {
    if chain == [] then 0
    else
      var (before, rank) := (HighestRank(chain[..|chain| - 1]), Rank(chain, |chain| - 1));
      if rank > before then rank else before
  }

  lemma {:induction false} HighestRankBounds(chain: seq<Node>, i: nat)
    requires i < |chain|
    ensures Rank(chain, i) <= HighestRank(chain)
  {
    if i < |chain| - 1 { HighestRankBounds(chain[..|chain| - 1], i); }
  }

  /** A run ranked above everything the chain carries supersedes every page of its question, and is the one named. */
  lemma FreshRunSupersedes(chain: seq<Node>, n: Node, longer: seq<Node>, i: nat)
    requires longer == chain + [n] && i < |chain|
    requires Later(longer, i, |chain|) && PageOf(n).value.rank > HighestRank(chain)
    ensures Superseded(longer, i) && NamedBy(longer, i, |chain|)
  {
    HighestRankBounds(chain, i);
    assert Outranks(longer, i, |chain|);
    forall k | i < k < |chain| && Later(longer, i, k) ensures Rank(longer, k) < Rank(longer, |chain|) {
      HighestRankBounds(chain, k);
    }
  }

  /** A resumed session's next run is such a run. */
  method StoreAfterResuming(pager: Retention.Pager, chain: seq<Node>, output: OutputCapture.Captured, key: Text)
      returns (b: Paging.Stored)
    requires pager.Valid()
    modifies pager
    ensures pager.Valid() && b.rank > HighestRank(chain) && b.rank >= old(pager.nextRank)
  {
    var highest := HighestRankIn(chain);
    pager.ContinueRankingFrom(highest);
    b := pager.Store(output, key);
  }

  method HighestRankIn(chain: seq<Node>) returns (highest: nat)
    ensures highest == HighestRank(chain)
  {
    highest := 0;
    for i := 0 to |chain|
      invariant highest == HighestRank(chain[..i])
    {
      assert chain[..i + 1][..i] == chain[..i];
      if PageOf(chain[i]).Some? && PageOf(chain[i]).value.rank > highest { highest := PageOf(chain[i]).value.rank; }
    }
    assert chain[..|chain|] == chain;
  }

  /** A page without a rank supersedes nothing; a ranked one supersedes it like any other. */
  lemma UnrankedPages(chain: seq<Node>, i: nat, j: nat)
    requires Later(chain, i, j)
    ensures Rank(chain, j) == 0 ==> !Outranks(chain, i, j)
    ensures Rank(chain, i) == 0 ==> (Superseded(chain, i) <==> exists k | 0 <= k < |chain| :: Later(chain, i, k) && Rank(chain, k) > 0)
  {
    if Rank(chain, i) == 0 && exists k | 0 <= k < |chain| :: Later(chain, i, k) && Rank(chain, k) > 0 {
      var k :| 0 <= k < |chain| && Later(chain, i, k) && Rank(chain, k) > 0;
      assert Outranks(chain, i, k);
    }
  }

  // ---------------------------------------------------------------- the scan

  datatype Newer = Newer(rank: nat, buffer: Text)

  /** `j` is the highest-ranked page of the question from `from` on, the last of them when ranks tie. */
  predicate Newest(chain: seq<Node>, from: nat, source: Text, j: nat) {
    && from <= j < |chain| && PageOf(chain[j]).Some? && PageOf(chain[j]).value.source == source
    && forall k | from <= k < |chain| && PageOf(chain[k]).Some? && PageOf(chain[k]).value.source == source ::
         Rank(chain, k) < Rank(chain, j) || (Rank(chain, k) == Rank(chain, j) && k <= j)
  }

  /** What the scan remembers of a question: nothing ranked yet, or the newest ranked page. */
  predicate Remembers(chain: seq<Node>, from: nat, source: Text, newer: Newer) {
    if newer.rank == 0 then
      forall k | from <= k < |chain| && PageOf(chain[k]).Some? && PageOf(chain[k]).value.source == source :: Rank(chain, k) == 0
    else
      exists j | 0 <= j < |chain| :: Newest(chain, from, source, j) && newer == Newer(Rank(chain, j), PageOf(chain[j]).value.buffer)
  }

  function NewerOf(behind: map<Text, Newer>, source: Text): Newer {
    if source in behind then behind[source] else Newer(0, [])
  }

  /** The receipts written so far: page `i` has one just when it is superseded, and it names the newest later run. */
  predicate Receipted(chain: seq<Node>, receipts: map<nat, Text>, i: nat) {
    && (i in receipts <==> Superseded(chain, i))
    && (i in receipts ==> exists j | 0 <= j < |chain| :: NamedBy(chain, i, j) && receipts[i] == PageOf(chain[j]).value.buffer)
  }

  /** Meeting page `k`: what is remembered of its question decides whether a later run supersedes it. */
  lemma PageMet(chain: seq<Node>, k: nat, newer: Newer, receipts: map<nat, Text>)
    requires k < |chain| && PageOf(chain[k]).Some? && Remembers(chain, k + 1, PageOf(chain[k]).value.source, newer)
    requires if newer.rank > Rank(chain, k) then k in receipts && receipts[k] == newer.buffer else k !in receipts
    ensures Receipted(chain, receipts, k)
  {
    var source := PageOf(chain[k]).value.source;
    if newer.rank > Rank(chain, k) {
      var j :| 0 <= j < |chain| && Newest(chain, k + 1, source, j) && newer == Newer(Rank(chain, j), PageOf(chain[j]).value.buffer);
      assert Outranks(chain, k, j) && NamedBy(chain, k, j);
    } else {
      forall m | 0 <= m < |chain| ensures !Outranks(chain, k, m) {}
    }
  }

  lemma RemembersPage(chain: seq<Node>, k: nat, newer: Newer)
    requires k < |chain| && PageOf(chain[k]).Some? && Remembers(chain, k + 1, PageOf(chain[k]).value.source, newer)
    ensures var page := PageOf(chain[k]).value;
      Remembers(chain, k, page.source, if page.rank > newer.rank then Newer(page.rank, page.buffer) else newer)
  {
    var page := PageOf(chain[k]).value;
    if page.rank > newer.rank {
      if newer.rank > 0 {
        var j :| 0 <= j < |chain| && Newest(chain, k + 1, page.source, j) && newer == Newer(Rank(chain, j), PageOf(chain[j]).value.buffer);
      }
      assert Newest(chain, k, page.source, k);
    } else if newer.rank > 0 {
      var j :| 0 <= j < |chain| && Newest(chain, k + 1, page.source, j) && newer == Newer(Rank(chain, j), PageOf(chain[j]).value.buffer);
      assert Newest(chain, k, page.source, j);
    }
  }

  lemma RemembersOther(chain: seq<Node>, k: nat, source: Text, newer: Newer)
    requires k < |chain| && Remembers(chain, k + 1, source, newer)
    requires PageOf(chain[k]) == None || PageOf(chain[k]).value.source != source
    ensures Remembers(chain, k, source, newer)
  {
    if newer.rank > 0 {
      var j :| 0 <= j < |chain| && Newest(chain, k + 1, source, j) && newer == Newer(Rank(chain, j), PageOf(chain[j]).value.buffer);
      assert Newest(chain, k, source, j);
    }
  }

  lemma RemembersNothing(chain: seq<Node>, source: Text)
    ensures Remembers(chain, |chain|, source, NewerOf(map[], source))
  {}

  /** The one-pass scan writes exactly the receipts the definition asks for. */
  method SupersededPages(chain: seq<Node>) returns (receipts: map<nat, Text>)
    ensures forall i | i in receipts :: i < |chain|
    ensures forall i | 0 <= i < |chain| :: Receipted(chain, receipts, i)
  {
    hide Receipted, Remembers, Superseded;
    receipts := map[];
    var behind: map<Text, Newer> := map[];
    forall source ensures Remembers(chain, |chain|, source, NewerOf(behind, source)) { RemembersNothing(chain, source); }
    var i := |chain|;
    while i > 0
      invariant 0 <= i <= |chain|
      invariant forall k | k in receipts :: i <= k < |chain|
      invariant forall k | i <= k < |chain| :: Receipted(chain, receipts, k)
      invariant forall source :: Remembers(chain, i, source, NewerOf(behind, source))
    {
      ghost var (receipts0, behind0) := (receipts, behind);
      i := i - 1;
      if PageOf(chain[i]).Some? {
        var page := PageOf(chain[i]).value;
        if page.source in behind && behind[page.source].rank > page.rank {
          receipts := receipts[i := behind[page.source].buffer];
        }
        behind := behind[page.source := if page.rank > NewerOf(behind, page.source).rank then Newer(page.rank, page.buffer) else NewerOf(behind, page.source)];
        PageMet(chain, i, NewerOf(behind0, page.source), receipts);
        RemembersPage(chain, i, NewerOf(behind0, page.source));
      } else {
        NoPageMet(chain, i, receipts);
      }
      forall k | i < k < |chain| ensures Receipted(chain, receipts, k) { ReceiptKept(chain, receipts0, receipts, k); }
      forall source ensures Remembers(chain, i, source, NewerOf(behind, source)) {
        if PageOf(chain[i]) == None || PageOf(chain[i]).value.source != source {
          assert NewerOf(behind, source) == NewerOf(behind0, source);
          RemembersOther(chain, i, source, NewerOf(behind0, source));
        }
      }
    }
  }

  lemma NoPageMet(chain: seq<Node>, k: nat, receipts: map<nat, Text>)
    requires k < |chain| && PageOf(chain[k]) == None && k !in receipts
    ensures Receipted(chain, receipts, k)
  {}

  lemma ReceiptKept(chain: seq<Node>, before: map<nat, Text>, receipts: map<nat, Text>, k: nat)
    requires Receipted(chain, before, k) && (k in receipts <==> k in before) && (k in receipts ==> receipts[k] == before[k])
    ensures Receipted(chain, receipts, k)
  {}

  // ---------------------------------------------------------------- the request

  function CallForProvider(c: ToolCall): Json {
    Obj(map["id" := Str(c.id), "type" := Str(Ascii("function")),
            "function" := Obj(map["name" := Str(c.name), "arguments" := c.arguments])])
  }

  function CallsForProvider(calls: seq<ToolCall>): Json {
    if calls == [] then Null else Arr(seq(|calls|, i requires 0 <= i < |calls| => CallForProvider(calls[i])))
  }

  function RenderMessage(n: Node, position: nat): ChatMessage {
    match n.payload
    case User(content, fromPeer) => ChatMessage(position, n.timestamp, USER_ROLE, content, [], Null, [], [], fromPeer)
    case Assistant(content, reasoning, calls) =>
      ChatMessage(position, n.timestamp, ASSISTANT_ROLE, content, reasoning, CallsForProvider(calls), [], [], [])
    case System(content) => ChatMessage(position, n.timestamp, SYSTEM_ROLE, content, [], Null, [], [], [])
    case Receipt(callId, toolName, content, _) =>
      ChatMessage(position, n.timestamp, TOOL_ROLE, content, [], Null, callId, toolName, [])
  }

  /** What a stored message loses by being rendered: whether its calls ran. */
  function Unstarted(calls: seq<ToolCall>): seq<ToolCall> {
    seq(|calls|, i requires 0 <= i < |calls| => calls[i].(status := Pending))
  }

  /** A rendered message, read again as an incoming one, is the message: its calls pending, its origin read anew. */
  lemma RenderedReadsBack(n: Node, position: nat, parse: Text -> Option<Json>)
    ensures var (p, again) := (n.payload, ToPayload(RenderMessage(n, position), parse));
      && again.content == p.content
      && (p.User? || p.System? ==> again == p)
      && (p.Assistant? ==> again == p.(calls := Unstarted(p.calls)))
      && (p.Receipt? ==> again == p.(origin := OriginOf(p.content, parse)))
  {
    GraphStore.RolesDiffer();
    if n.payload.Assistant? { CallsReadBack(n.payload.calls); }
  }

  lemma CallsReadBack(calls: seq<ToolCall>)
    ensures CallsFromProvider(CallsForProvider(calls)) == Unstarted(calls)
  {
    forall i | 0 <= i < |calls| ensures CallFromProvider(CallForProvider(calls[i])) == calls[i].(status := Pending) {}
    assert |CallsFromProvider(CallsForProvider(calls))| == |calls|;
  }

  datatype Inputs = Inputs(systemPrompt: Text, environment: Text)

  const BLANK_LINE: Text := [NEWLINE, NEWLINE]

  function SystemText(inputs: Inputs): Text {
    if inputs.environment == [] then inputs.systemPrompt
    else if inputs.systemPrompt == [] then inputs.environment
    else inputs.systemPrompt + BLANK_LINE + inputs.environment
  }

  function SystemMessages(inputs: Inputs): seq<ChatMessage> {
    if SystemText(inputs) == [] then [] else [ChatMessage(0, [], SYSTEM_ROLE, SystemText(inputs), [], Null, [], [], [])]
  }

  /** Message `i` of the chain as the request shows it, after `n` others. */
  predicate Shows(chain: seq<Node>, receiptFor: (Text, Text) -> Text, request: seq<ChatMessage>, n: nat, i: nat)
    requires i < |chain| && n + i < |request|
  {
    if Superseded(chain, i) then
      exists j | 0 <= j < |chain| :: NamedBy(chain, i, j)
        && request[n + i] == RenderMessage(chain[i], n + 1 + i).(content := receiptFor(chain[i].payload.content, PageOf(chain[j]).value.buffer))
    else request[n + i] == RenderMessage(chain[i], n + 1 + i)
  }

  predicate IsRequest(inputs: Inputs, chain: seq<Node>, receiptFor: (Text, Text) -> Text, request: seq<ChatMessage>) {
    var n := |SystemMessages(inputs)|;
    && |request| == n + |chain| && request[..n] == SystemMessages(inputs)
    && forall i | 0 <= i < |chain| :: Shows(chain, receiptFor, request, n, i)
  }

  /** At most one system message, then one message for each of the chain, in its order, numbered on from it. */
  method BuildRequestPath(graph: MessageGraph, inputs: Inputs, receiptFor: (Text, Text) -> Text)
      returns (messages: seq<ChatMessage>)
    requires Sound(graph.State())
    ensures IsRequest(inputs, ChainOf(graph.State()), receiptFor, messages)
  {
    hide Superseded, Sound, RenderMessage, Shows, Receipted;
    LeafGrounded(graph.State());
    var text := inputs.systemPrompt;
    if inputs.environment != [] {
      if text != [] { text := text + BLANK_LINE; }
      assert text + inputs.environment == if inputs.systemPrompt == [] then inputs.environment else text + inputs.environment;
      text := text + inputs.environment;
    }
    messages := [];
    if text != [] { messages := [ChatMessage(0, [], SYSTEM_ROLE, text, [], Null, [], [], [])]; }
    assert messages == SystemMessages(inputs);
    var n := |messages|;
    ChainNeedsKeys(graph);
    var chain := graph.Chain();
    var receipts := SupersededPages(chain);
    for i := 0 to |chain|
      invariant |messages| == n + i && messages[..n] == SystemMessages(inputs)
      invariant forall k | 0 <= k < i :: Shows(chain, receiptFor, messages, n, k)
    {
      var m := RenderMessage(chain[i], n + 1 + i);
      if i in receipts { m := m.(content := receiptFor(m.content, receipts[i])); }
      ShowsNext(chain, receiptFor, messages, n, i, receipts, m);
      messages := messages + [m];
    }
  }

  /** Prompt and environment are one system message, a blank line between them where there are both. */
  lemma SystemSays(inputs: Inputs, chain: seq<Node>, receiptFor: (Text, Text) -> Text, request: seq<ChatMessage>)
    requires IsRequest(inputs, chain, receiptFor, request)
    ensures inputs.systemPrompt == [] && inputs.environment == [] <==> |request| == |chain|
    ensures |request| != |chain| ==> |request| == |chain| + 1 && request[0].role == SYSTEM_ROLE
    ensures |request| != |chain| ==>
      var (text, p, e) := (request[0].content, inputs.systemPrompt, inputs.environment);
      var gap := if p != [] && e != [] then 2 else 0;
      && |text| == |p| + gap + |e| && text[..|p|] == p && text[|p| + gap..] == e
      && (gap == 2 ==> text[|p|] == 0x0A && text[|p| + 1] == 0x0A)
  {
    hide Shows;
    if SystemMessages(inputs) != [] { assert request[0] == request[..1][0]; }
  }

  /** A message in the chain's terms: its stamp, its role, whose it is, what it answers and whether it calls. */
  predicate SpeaksFor(n: Node, m: ChatMessage) {
    && m.timestamp == n.timestamp
    && (m.role == USER_ROLE <==> n.payload.User?) && (m.role == ASSISTANT_ROLE <==> n.payload.Assistant?)
    && (m.role == TOOL_ROLE <==> n.payload.Receipt?)
    && (n.payload.User? ==> m.fromPeer == n.payload.fromPeer)
    && (n.payload.Receipt? ==> m.toolCallId == n.payload.callId && m.toolName == n.payload.toolName)
    && (n.payload.Assistant? ==> m.reasoning == n.payload.reasoning && (m.toolCalls == Null <==> n.payload.calls == []))
  }

  lemma RenderSpeaks(n: Node, position: nat, content: Text)
    ensures var m := RenderMessage(n, position);
      m.id == position && m.content == n.payload.content && SpeaksFor(n, m) && SpeaksFor(n, m.(content := content))
  {
    GraphStore.RolesDiffer();
    hide CallForProvider;
  }

  /** Every other message of a request speaks for the chain's of its place, under its number, in its own text unless superseded. */
  lemma RequestSays(inputs: Inputs, chain: seq<Node>, receiptFor: (Text, Text) -> Text, request: seq<ChatMessage>, i: nat)
    requires IsRequest(inputs, chain, receiptFor, request) && i < |chain|
    ensures |chain| <= |request|
    ensures var n := |request| - |chain|;
      && request[n + i].id == n + i + 1 && SpeaksFor(chain[i], request[n + i])
      && (!Superseded(chain, i) ==> request[n + i].content == chain[i].payload.content)
  {
    hide Shows, SystemText, Superseded, SpeaksFor;
    var n := |SystemMessages(inputs)|;
    assert Shows(chain, receiptFor, request, n, i);
    ShownSays(chain, receiptFor, request, n, i);
  }

  lemma NoPageStays(chain: seq<Node>, i: nat)
    requires i < |chain| && !chain[i].payload.Receipt?
    ensures !Superseded(chain, i)
  {}

  lemma ShownSays(chain: seq<Node>, receiptFor: (Text, Text) -> Text, request: seq<ChatMessage>, n: nat, i: nat)
    requires i < |chain| && n + i < |request| && Shows(chain, receiptFor, request, n, i)
    ensures request[n + i].id == n + i + 1 && SpeaksFor(chain[i], request[n + i])
    ensures !Superseded(chain, i) ==> request[n + i].content == chain[i].payload.content
  {
    RenderSpeaks(chain[i], n + 1 + i, request[n + i].content);
    hide Superseded, NamedBy, RenderMessage, SpeaksFor;
  }

  lemma ShowsNext(chain: seq<Node>, receiptFor: (Text, Text) -> Text, before: seq<ChatMessage>, n: nat, i: nat,
                  receipts: map<nat, Text>, m: ChatMessage)
    requires i < |chain| && |before| == n + i && Receipted(chain, receipts, i)
    requires var plain := RenderMessage(chain[i], n + 1 + i);
      m == if i in receipts then plain.(content := receiptFor(plain.content, receipts[i])) else plain
    requires forall k | 0 <= k < i :: Shows(chain, receiptFor, before, n, k)
    ensures forall k | 0 <= k <= i :: Shows(chain, receiptFor, before + [m], n, k)
  {
    RenderedContent(chain[i], n + 1 + i);
    hide Superseded, NamedBy, RenderMessage;
    forall k | 0 <= k <= i ensures Shows(chain, receiptFor, before + [m], n, k) {
      if k < i { assert (before + [m])[n + k] == before[n + k] && Shows(chain, receiptFor, before, n, k); }
    }
  }

  lemma RenderedContent(n: Node, position: nat)
    ensures RenderMessage(n, position).content == n.payload.content
  {}

  lemma ChainNeedsKeys(graph: MessageGraph)
    requires Sound(graph.State())
    ensures Keyed(graph.nodes)
  {}
}
