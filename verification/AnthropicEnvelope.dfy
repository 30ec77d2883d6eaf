/** The same edits on an Anthropic-format history (internal/translate/compaction.go and
    handover.go), whose messages hold blocks: tool results inside user messages, and thought
    signatures, which a target outside the Anthropic family is not sent. */
module AnthropicEnvelope {
  import E = Envelope

  datatype Role = User | Assistant | OtherRole

  // A block as the estimate sees it, its signatures apart; image payloads are not weighed.
  datatype Block =
    | ToolResult(callId: string, shell: nat, content: nat, signature: nat, images: nat)
    | ToolUse(id: string, bytes: nat)
    | Other(bytes: nat, signature: nat, images: nat)

  // A message; plain-text content is part of the shell.
  datatype Message = Message(role: Role, shell: nat, blocks: seq<Block>)

  // `rest` is the body outside its messages, its signatures apart.
  datatype Body = Body(rest: nat, restSignature: nat, messages: seq<Message>)

  // --------------------------------------------------------------------- weights ----

  // What is measured of a history: of its blocks, and whether of its shells.
  datatype Measure = Measure(shells: bool, block: Block -> nat)

  const BYTES := Measure(true, (b: Block) =>
    match b
    case ToolResult(_, shell, content, signature, _) => shell + content + signature
    case ToolUse(_, bytes) => bytes
    case Other(bytes, signature, _) => bytes + signature)

  const SIGNED := Measure(false, (b: Block) => if b.ToolUse? then 0 else b.signature)

  const IMAGES := Measure(false, (b: Block) => if b.ToolUse? then 0 else b.images)

  function BlocksWeigh(bs: seq<Block>, m: Measure): nat {
    if bs == [] then 0 else m.block(bs[0]) + BlocksWeigh(bs[1..], m)
  }

  function ShellWeigh(x: Message, m: Measure): nat {
    if m.shells then x.shell else 0
  }

  function Weigh(ms: seq<Message>, m: Measure): nat {
    if ms == [] then 0 else ShellWeigh(ms[0], m) + BlocksWeigh(ms[0].blocks, m) + Weigh(ms[1..], m)
  }

  // ContextOverflowTokenEstimate.
  function Estimate(b: Body): nat {
    (b.rest + b.restSignature + Weigh(b.messages, BYTES)) / E.BYTES_PER_TOKEN
      + Weigh(b.messages, IMAGES) * E.IMAGE_TOKENS
  }

  // SignatureTokenSavings.
  function Savings(b: Body): nat {
    (b.restSignature + Weigh(b.messages, SIGNED)) / E.BYTES_PER_TOKEN
  }

  // ----------------------------------------------------------------------- edits ----

  function ResultsIn(bs: seq<Block>): nat {
    if bs == [] then 0 else (if bs[0].ToolResult? then 1 else 0) + ResultsIn(bs[1..])
  }

  // The tool results of user messages.
  function ToolCount(ms: seq<Message>): nat {
    if ms == [] then 0 else (if ms[0].role.User? then ResultsIn(ms[0].blocks) else 0) + ToolCount(ms[1..])
  }

  function ClearBlocks(bs: seq<Block>, n: nat): seq<Block> {
    if bs == [] || n == 0 then bs
    else if bs[0].ToolResult? then
      [bs[0].(content := E.PLACEHOLDER, signature := 0, images := 0)] + ClearBlocks(bs[1..], n - 1)
    else [bs[0]] + ClearBlocks(bs[1..], n)
  }

  // The first n tool results replaced by the placeholder.
  function ClearFirst(ms: seq<Message>, n: nat): seq<Message> {
    if ms == [] || n == 0 then ms
    else if ms[0].role.User? then
      var k := ResultsIn(ms[0].blocks);
      [ms[0].(blocks := ClearBlocks(ms[0].blocks, n))] + ClearFirst(ms[1..], if n > k then n - k else 0)
    else [ms[0]] + ClearFirst(ms[1..], n)
  }

  function ClearOldToolResults(b: Body, keepRecent: int): (Body, nat) {
    var cutoff := ToolCount(b.messages) - E.Max(keepRecent, 0);
    if cutoff <= 0 then (b, 0) else (b.(messages := ClearFirst(b.messages, cutoff)), cutoff)
  }

  function CallsIn(bs: seq<Block>): set<string> {
    if bs == [] then {} else (if bs[0].ToolUse? && bs[0].id != "" then {bs[0].id} else {}) + CallsIn(bs[1..])
  }

  function Calls(ms: seq<Message>): set<string> {
    if ms == [] then {} else (if ms[0].role.Assistant? then CallsIn(ms[0].blocks) else {}) + Calls(ms[1..])
  }

  function DropFrom(bs: seq<Block>, known: set<string>): seq<Block> {
    if bs == [] then []
    else (if bs[0].ToolResult? && bs[0].callId !in known then [] else [bs[0]]) + DropFrom(bs[1..], known)
  }

  // Tool results whose call is not among `known` go, and user messages they leave empty.
  function DropOrphans(ms: seq<Message>, known: set<string>): seq<Message> {
    if ms == [] then []
    else
      var kept := DropFrom(ms[0].blocks, known);
      (if !ms[0].role.User? || kept == ms[0].blocks then [ms[0]]
       else if kept == [] then []
       else [ms[0].(blocks := kept)]) + DropOrphans(ms[1..], known)
  }

  // TrimLastNMessages.
  function TrimLast(b: Body, n: int): (Body, nat) {
    var n := if n <= 0 then 3 else n;
    if |b.messages| <= n then (b, 0)
    else
      var kept := b.messages[|b.messages| - n..];
      (b.(messages := DropOrphans(kept, Calls(kept))), |b.messages| - n)
  }

  function Users(ms: seq<Message>): seq<bool> {
    seq(|ms|, i requires 0 <= i < |ms| => ms[i].role.User?)
  }

  // RewriteForCompaction: the summary, of that many bytes, and the recent messages.
  function RewriteBehind(b: Body, summary: nat, keepRecent: int): Body {
    if b.messages == [] then b
    else
      var kept := b.messages[E.UserAlignedStart(Users(b.messages), E.Max(keepRecent, 1))..];
      b.(messages := [Message(Assistant, summary, [])] + DropOrphans(kept, Calls(kept)))
  }

  // ---------------------------------------------------------------------- lemmas ----

  lemma {:induction false} WeighConcat(a: seq<Message>, b: seq<Message>, m: Measure)
    ensures Weigh(a + b, m) == Weigh(a, m) + Weigh(b, m)
    decreases |a|
  {
    if a == [] {
      assert a + b == b;
    } else {
      assert (a + b)[1..] == a[1..] + b;
      WeighConcat(a[1..], b, m);
    }
  }

  lemma SuffixWeighs(ms: seq<Message>, n: nat, m: Measure)
    requires n <= |ms|
    ensures Weigh(ms[n..], m) <= Weigh(ms, m)
  {
    assert ms == ms[..n] + ms[n..];
    WeighConcat(ms[..n], ms[n..], m);
  }

  lemma {:induction false} DroppedBlocksWeigh(bs: seq<Block>, known: set<string>, m: Measure)
    ensures BlocksWeigh(DropFrom(bs, known), m) <= BlocksWeigh(bs, m)
  {
    if bs != [] {
      DroppedBlocksWeigh(bs[1..], known, m);
      if !(bs[0].ToolResult? && bs[0].callId !in known) {
        assert DropFrom(bs, known)[1..] == DropFrom(bs[1..], known);
      } else {
        assert DropFrom(bs, known) == DropFrom(bs[1..], known);
      }
    }
  }

  lemma {:induction false} OrphansWeighNothing(ms: seq<Message>, known: set<string>, m: Measure)
    ensures Weigh(DropOrphans(ms, known), m) <= Weigh(ms, m)
  {
    if ms != [] {
      OrphansWeighNothing(ms[1..], known, m);
      var kept := DropFrom(ms[0].blocks, known);
      DroppedBlocksWeigh(ms[0].blocks, known, m);
      var rest := DropOrphans(ms[1..], known);
      if !ms[0].role.User? || kept == ms[0].blocks {
        WeighConcat([ms[0]], rest, m);
      } else if kept == [] {
        assert DropOrphans(ms, known) == rest;
      } else {
        WeighConcat([ms[0].(blocks := kept)], rest, m);
      }
    }
  }

  lemma TrimWeighs(b: Body, n: int, m: Measure)
    ensures Weigh(TrimLast(b, n).0.messages, m) <= Weigh(b.messages, m)
  {
    var n := if n <= 0 then 3 else n;
    if |b.messages| > n {
      var kept := b.messages[|b.messages| - n..];
      SuffixWeighs(b.messages, |b.messages| - n, m);
      OrphansWeighNothing(kept, Calls(kept), m);
    }
  }

  /** Trimming raises neither the estimate nor the signature savings, and reports zero only
      when it leaves the body alone. */
  lemma TrimNeverRaises(b: Body, n: int)
    ensures var (t, count) := TrimLast(b, n);
            && Estimate(t) <= Estimate(b) && Savings(t) <= Savings(b)
            && (count == 0 ==> t == b)
  {
    TrimWeighs(b, n, BYTES);
    TrimWeighs(b, n, SIGNED);
    TrimWeighs(b, n, IMAGES);
  }

  // -------------------------------------------------------------- what an edit keeps ----

  // Not a tool result whose call is missing.
  function Answers(known: set<string>): Block -> bool { (b: Block) => b.ToolResult? ==> b.callId in known }

  lemma {:induction false} DropFromFilters(bs: seq<Block>, known: set<string>)
    ensures DropFrom(bs, known) == E.Filter(bs, Answers(known))
  {
    if bs != [] { DropFromFilters(bs[1..], known); }
  }

  // A message without the results whose call is missing; only user messages hold any.
  function Pruned(x: Message, known: set<string>): Message {
    if x.role.User? then x.(blocks := E.Filter(x.blocks, Answers(known))) else x
  }

  function PrunedAll(ms: seq<Message>, known: set<string>): seq<Message> {
    seq(|ms|, i requires 0 <= i < |ms| => Pruned(ms[i], known))
  }

  // All but the user messages that are nothing but results whose call is missing.
  function Stays(known: set<string>): Message -> bool {
    (x: Message) => x.role.User? && x.blocks != [] ==> exists b | b in x.blocks :: Answers(known)(b)
  }

  lemma OnePruned(x: Message, known: set<string>)
    ensures DropOrphans([x], known) == if Stays(known)(x) then [Pruned(x, known)] else []
  {
    DropFromFilters(x.blocks, known);
    E.FilterHolds(x.blocks, Answers(known));
    assert DropOrphans([x][1..], known) == [];
    if E.Filter(x.blocks, Answers(known)) != [] {
      assert E.Filter(x.blocks, Answers(known))[0] in E.Filter(x.blocks, Answers(known));
    }
  }

  lemma DropOrphansFirst(ms: seq<Message>, known: set<string>)
    requires ms != []
    ensures DropOrphans(ms, known) == DropOrphans([ms[0]], known) + DropOrphans(ms[1..], known)
  {
    assert DropOrphans([ms[0]][1..], known) == [];
  }

  lemma {:induction false} DropOrphansPrunes(ms: seq<Message>, known: set<string>)
    ensures DropOrphans(ms, known) == PrunedAll(E.Filter(ms, Stays(known)), known)
  {
    if ms != [] {
      DropOrphansFirst(ms, known);
      OnePruned(ms[0], known);
      DropOrphansPrunes(ms[1..], known);
      hide Pruned, Stays, DropOrphans;
    }
  }

  // An assistant message of ms makes the call.
  predicate Called(ms: seq<Message>, id: string) {
    id != "" && exists m | m in ms :: m.role.Assistant? && exists b | b in m.blocks :: b.ToolUse? && b.id == id
  }

  lemma {:induction false} CallsInAreMade(bs: seq<Block>, id: string)
    ensures id in CallsIn(bs) <==> id != "" && exists b | b in bs :: b.ToolUse? && b.id == id
  {
    if bs != [] {
      CallsInAreMade(bs[1..], id);
      assert bs == [bs[0]] + bs[1..];
    }
  }

  lemma {:induction false} CallsAreMade(ms: seq<Message>, id: string)
    ensures id in Calls(ms) <==> Called(ms, id)
  {
    if ms != [] {
      CallsAreMade(ms[1..], id);
      CallsInAreMade(ms[0].blocks, id);
      assert ms == [ms[0]] + ms[1..];
    }
  }

  // Every tool result in a user message of ms answers a call an assistant message makes.
  predicate NoOrphans(ms: seq<Message>) {
    forall m, b | m in ms && m.role.User? && b in m.blocks && b.ToolResult? :: Called(ms, b.callId)
  }

  // The messages of kept in order, without the results whose call is missing and without the
  // user messages that were nothing else.
  function Kept(kept: seq<Message>): seq<Message> {
    PrunedAll(E.Filter(kept, Stays(Calls(kept))), Calls(kept))
  }

  lemma PrunedHolds(ms: seq<Message>, known: set<string>, y: Message)
    ensures y in PrunedAll(ms, known) <==> exists x | x in ms :: y == Pruned(x, known)
  {
    if y in PrunedAll(ms, known) {
      var i :| 0 <= i < |ms| && PrunedAll(ms, known)[i] == y;
      assert ms[i] in ms;
    }
    if x :| x in ms && y == Pruned(x, known) {
      var i :| 0 <= i < |ms| && ms[i] == x;
      assert PrunedAll(ms, known)[i] == y;
    }
  }

  lemma CallersStay(kept: seq<Message>, id: string)
    requires Called(kept, id)
    ensures Called(Kept(kept), id)
  {
    var m :| m in kept && m.role.Assistant? && exists b | b in m.blocks :: b.ToolUse? && b.id == id;
    E.FilterHolds(kept, Stays(Calls(kept)));
    PrunedHolds(E.Filter(kept, Stays(Calls(kept))), Calls(kept), m);
    assert Pruned(m, Calls(kept)) == m && Stays(Calls(kept))(m);
  }

  lemma RecentAreKept(kept: seq<Message>)
    ensures DropOrphans(kept, Calls(kept)) == Kept(kept) && NoOrphans(Kept(kept))
  {
    var known, out := Calls(kept), Kept(kept);
    DropOrphansPrunes(kept, known);
    forall m, b | m in out && m.role.User? && b in m.blocks && b.ToolResult? ensures Called(out, b.callId) {
      PrunedHolds(E.Filter(kept, Stays(known)), known, m);
      var x :| x in E.Filter(kept, Stays(known)) && m == Pruned(x, known);
      E.FilterHolds(x.blocks, Answers(known));
      assert Answers(known)(b);
      CallsAreMade(kept, b.callId);
      CallersStay(kept, b.callId);
    }
  }

  /** What a trim keeps of a history of more than n messages (more than three, for an n that is
      not positive): its last n, in order, without the tool results whose call was cut off. */
  lemma TrimKeepsTheNewest(b: Body, n: int)
    ensures var (t, count) := TrimLast(b, n);
            var n := if n <= 0 then 3 else n;
            if |b.messages| <= n then t == b && count == 0
            else
              && count == |b.messages| - n && t.rest == b.rest && t.restSignature == b.restSignature
              && t.messages == Kept(b.messages[|b.messages| - n..]) && NoOrphans(t.messages)
  {
    hide DropOrphans, Kept, Calls, NoOrphans;
    var n := if n <= 0 then 3 else n;
    if |b.messages| > n { RecentAreKept(b.messages[|b.messages| - n..]); }
  }

  /** What a rewrite keeps behind its summary, an assistant message without signatures: the
      messages from a user turn on, the first one among the last keepRecent or else the last
      there is, without the tool results whose call was cut off. */
  lemma RewriteKeepsTheNewest(b: Body, summary: nat, keepRecent: int)
    requires keepRecent >= 1 && b.messages != []
    ensures var out := RewriteBehind(b, summary, keepRecent);
            && out.rest == b.rest && out.restSignature == b.restSignature
            && exists start: nat :: StartsWindow(b.messages, keepRecent, start)
                 && out.messages == [Message(Assistant, summary, [])] + Kept(b.messages[start..])
                 && NoOrphans(Kept(b.messages[start..]))
  {
    var ms := b.messages;
    E.AlignedStart(Users(ms), keepRecent);
    assert forall i | 0 <= i < |ms| :: Users(ms)[i] == ms[i].role.User?;
    var start := E.UserAlignedStart(Users(ms), keepRecent);
    assert StartsWindow(ms, keepRecent, start) by { UsersMark(ms); }
    hide DropOrphans, Kept, Calls, NoOrphans, StartsWindow, E.UserAlignedStart;
    RecentAreKept(ms[start..]);
  }

  // A window of the recent messages starts at start: at the first user turn among the last
  // keepRecent, else at the last user turn before them, else nowhere.
  predicate StartsWindow(ms: seq<Message>, keepRecent: int, start: nat) {
    && start <= |ms| && (start < |ms| ==> ms[start].role.User?)
    && (start == |ms| ==> forall m | m in ms :: !m.role.User?)
    && (start >= |ms| - keepRecent ==> forall i | E.Max(|ms| - keepRecent, 0) <= i < start :: !ms[i].role.User?)
    && (start < |ms| - keepRecent ==> forall i | start < i < |ms| :: !ms[i].role.User?)
  }

  lemma UsersMark(ms: seq<Message>)
    ensures true in Users(ms) <==> exists m | m in ms :: m.role.User?
  {
    if true in Users(ms) {
      var i :| 0 <= i < |ms| && Users(ms)[i];
      assert ms[i] in ms;
    }
    if m :| m in ms && m.role.User? {
      var i :| 0 <= i < |ms| && ms[i] == m;
      assert Users(ms)[i];
    }
  }

  lemma {:induction false} BlocksClearedButTheRecent(bs: seq<Block>, n: nat, j: nat)
    requires j < |bs|
    ensures var c := ClearBlocks(bs, n);
            && |c| == |bs|
            && c[j] == if bs[j].ToolResult? && ResultsIn(bs[j + 1..]) + n >= ResultsIn(bs)
                       then bs[j].(content := E.PLACEHOLDER, signature := 0, images := 0) else bs[j]
  {
    ResultsBehind(bs, j);
    if n > 0 && |bs| > 1 {
      assert j > 0 ==> bs[j + 1..] == bs[1..][j..];
      BlocksClearedButTheRecent(bs[1..], if bs[0].ToolResult? then n - 1 else n, if j > 0 then j - 1 else 0);
    }
  }

  lemma {:induction false} ResultsBehind(bs: seq<Block>, j: nat)
    requires j < |bs|
    ensures ResultsIn(bs[j + 1..]) + (if bs[j].ToolResult? then 1 else 0) <= ResultsIn(bs)
  {
    if j > 0 {
      assert bs[j + 1..] == bs[1..][j..];
      ResultsBehind(bs[1..], j - 1);
    }
  }

  lemma {:induction false} ToolsBehind(ms: seq<Message>, i: nat)
    requires i < |ms|
    ensures ToolCount(ms[i + 1..]) + (if ms[i].role.User? then ResultsIn(ms[i].blocks) else 0) <= ToolCount(ms)
  {
    if i > 0 {
      assert ms[i + 1..] == ms[1..][i..];
      ToolsBehind(ms[1..], i - 1);
    }
  }

  // Tool results behind block j of message i.
  function ResultsAfter(ms: seq<Message>, i: nat, j: nat): nat
    requires i < |ms| && j < |ms[i].blocks|
  {
    ResultsIn(ms[i].blocks[j + 1..]) + ToolCount(ms[i + 1..])
  }

  lemma {:induction false} MessagesCleared(ms: seq<Message>, n: nat, i: nat)
    requires i < |ms| && n <= ToolCount(ms)
    ensures var c := ClearFirst(ms, n);
            && |c| == |ms|
            && var left := n - (ToolCount(ms) - ToolCount(ms[i..]));
               c[i] == if ms[i].role.User? then ms[i].(blocks := ClearBlocks(ms[i].blocks, E.Max(left, 0))) else ms[i]
  {
    ToolsFrom(ms, i);
    if n == 0 {
      assert ClearBlocks(ms[i].blocks, 0) == ms[i].blocks;
    } else if i == 0 {
      assert ms[0..] == ms;
      if |ms| > 1 {
        var k := if ms[0].role.User? then ResultsIn(ms[0].blocks) else 0;
        MessagesCleared(ms[1..], if n > k then n - k else 0, 0);
      }
    } else {
      assert ms[i..] == ms[1..][i - 1..];
      var k := if ms[0].role.User? then ResultsIn(ms[0].blocks) else 0;
      var m := if n > k then n - k else 0;
      assert ClearFirst(ms, n)[1..] == ClearFirst(ms[1..], m);
      ToolsFrom(ms[1..], i - 1);
      MessagesCleared(ms[1..], m, i - 1);
      assert ms[1..][i - 1] == ms[i] && ClearFirst(ms, n)[i] == ClearFirst(ms[1..], m)[i - 1];
    }
  }

  lemma {:induction false} ToolsFrom(ms: seq<Message>, i: nat)
    requires i <= |ms|
    ensures ToolCount(ms[i..]) <= ToolCount(ms)
  {
    if i > 0 {
      assert ms[i..] == ms[1..][i - 1..];
      ToolsFrom(ms[1..], i - 1);
    } else {
      assert ms[0..] == ms;
    }
  }

  /** On the body: the last keepRecent tool results of user messages stay as they are, every
      older one becomes the placeholder, without signature or images, and nothing else is
      touched. */
  lemma ClearingKeepsTheRecent(b: Body, keepRecent: int, i: nat, j: nat)
    requires i < |b.messages| && j < |b.messages[i].blocks|
    ensures var (c, count) := ClearOldToolResults(b, keepRecent);
            && count == E.Max(ToolCount(b.messages) - E.Max(keepRecent, 0), 0)
            && c.rest == b.rest && c.restSignature == b.restSignature && |c.messages| == |b.messages|
            && var was, m := b.messages[i], c.messages[i];
               && m.role == was.role && m.shell == was.shell && |m.blocks| == |was.blocks|
               && m.blocks[j] == if was.role.User? && was.blocks[j].ToolResult?
                                      && ResultsAfter(b.messages, i, j) >= keepRecent
                                 then was.blocks[j].(content := E.PLACEHOLDER, signature := 0, images := 0)
                                 else was.blocks[j]
  {
    var ms := b.messages;
    var cutoff := ToolCount(ms) - E.Max(keepRecent, 0);
    ToolsBehind(ms, i);
    ResultsBehind(ms[i].blocks, j);
    assert ms[i..][0] == ms[i] && ms[i..][1..] == ms[i + 1..];
    if cutoff > 0 {
      MessagesCleared(ms, cutoff, i);
      var left := cutoff - (ToolCount(ms) - ToolCount(ms[i..]));
      BlocksClearedButTheRecent(ms[i].blocks, E.Max(left, 0), j);
    }
  }

  // Content and signature bytes of the first n tool results.
  function FirstContentsIn(bs: seq<Block>, n: nat): nat {
    if bs == [] || n == 0 then 0
    else if bs[0].ToolResult? then bs[0].content + bs[0].signature + FirstContentsIn(bs[1..], n - 1)
    else FirstContentsIn(bs[1..], n)
  }

  function FirstContents(ms: seq<Message>, n: nat): nat {
    if ms == [] || n == 0 then 0
    else if ms[0].role.User? then
      var k := ResultsIn(ms[0].blocks);
      FirstContentsIn(ms[0].blocks, n) + FirstContents(ms[1..], if n > k then n - k else 0)
    else FirstContents(ms[1..], n)
  }

  lemma {:induction false} ClearedBlocksWeigh(bs: seq<Block>, n: nat)
    ensures BlocksWeigh(ClearBlocks(bs, n), BYTES) + FirstContentsIn(bs, n)
         == BlocksWeigh(bs, BYTES) + E.PLACEHOLDER * if n <= ResultsIn(bs) then n else ResultsIn(bs)
    ensures BlocksWeigh(ClearBlocks(bs, n), SIGNED) <= BlocksWeigh(bs, SIGNED)
    ensures BlocksWeigh(ClearBlocks(bs, n), IMAGES) <= BlocksWeigh(bs, IMAGES)
  {
    if bs != [] && n > 0 {
      if bs[0].ToolResult? {
        ClearedBlocksWeigh(bs[1..], n - 1);
        assert ClearBlocks(bs, n)[1..] == ClearBlocks(bs[1..], n - 1);
      } else {
        ClearedBlocksWeigh(bs[1..], n);
        assert ClearBlocks(bs, n)[1..] == ClearBlocks(bs[1..], n);
      }
    }
  }

  lemma {:induction false} ClearWeight(ms: seq<Message>, n: nat)
    requires n <= ToolCount(ms)
    ensures Weigh(ClearFirst(ms, n), BYTES) + FirstContents(ms, n) == Weigh(ms, BYTES) + E.PLACEHOLDER * n
    ensures Weigh(ClearFirst(ms, n), SIGNED) <= Weigh(ms, SIGNED)
    ensures Weigh(ClearFirst(ms, n), IMAGES) <= Weigh(ms, IMAGES)
  {
    if ms != [] && n > 0 {
      if ms[0].role.User? {
        var k := ResultsIn(ms[0].blocks);
        var left := if n > k then n - k else 0;
        ClearedBlocksWeigh(ms[0].blocks, n);
        ClearWeight(ms[1..], left);
        assert ClearFirst(ms, n)[1..] == ClearFirst(ms[1..], left);
      } else {
        ClearWeight(ms[1..], n);
        assert ClearFirst(ms, n)[1..] == ClearFirst(ms[1..], n);
      }
    }
  }

  /** Clearing never raises the signature savings, reports zero only when it leaves the body
      alone, and does not raise the estimate when the results it clears hold, together, at
      least a placeholder each. */
  lemma ClearingLongResultsNeverRaises(b: Body, keepRecent: int)
    ensures var (c, count) := ClearOldToolResults(b, keepRecent);
            && (count == 0 ==> c == b) && Savings(c) <= Savings(b)
            && (FirstContents(b.messages, count) >= E.PLACEHOLDER * count ==> Estimate(c) <= Estimate(b))
  {
    var (c, count) := ClearOldToolResults(b, keepRecent);
    ClearWeight(b.messages, count);
  }

  /** A summary brings no signatures, so rewriting behind one never raises the savings. */
  lemma RewriteKeepsNoMoreSignatures(b: Body, summary: nat, keepRecent: int)
    ensures Savings(RewriteBehind(b, summary, keepRecent)) <= Savings(b)
  {
    if b.messages != [] {
      var start := E.UserAlignedStart(Users(b.messages), E.Max(keepRecent, 1));
      var kept := b.messages[start..];
      SuffixWeighs(b.messages, start, SIGNED);
      OrphansWeighNothing(kept, Calls(kept), SIGNED);
      WeighConcat([Message(Assistant, summary, [])], DropOrphans(kept, Calls(kept)), SIGNED);
    }
  }
}
