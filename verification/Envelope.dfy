/** The message edits of internal/translate that compaction uses (compaction.go and
    handover.go), on an OpenAI-format history: clearing old tool results, trimming to
    recent messages, and rewriting behind a summary; and the token estimate they are
    measured by. */
module Envelope {

  datatype Role = System | User | Assistant | Tool

  // A message as the estimate sees it.  `bytes` is everything but a tool result's
  // content and its images' base64 payloads.
  datatype Message = Message(
    role: Role,
    bytes: nat,
    content: nat,            // a tool result's content
    images: nat,
    calls: set<string>,      // tool calls an assistant message makes
    callId: string)          // the tool call a tool message answers

  // `rest` is the body outside its messages.
  datatype Body = Body(rest: nat, messages: seq<Message>)

  const BYTES_PER_TOKEN := 4
  const IMAGE_TOKENS := 1600
  // The placeholder's 33 characters and its quotes.
  const PLACEHOLDER := 35

  function Bytes(ms: seq<Message>): nat {
    if ms == [] then 0 else ms[0].bytes + ms[0].content + Bytes(ms[1..])
  }

  function Images(ms: seq<Message>): nat {
    if ms == [] then 0 else ms[0].images + Images(ms[1..])
  }

  // ContextOverflowTokenEstimate.
  function Estimate(b: Body): nat {
    (b.rest + Bytes(b.messages)) / BYTES_PER_TOKEN + Images(b.messages) * IMAGE_TOKENS
  }

  // ---------------------------------------------------------------------- edits ----

  function ToolCount(ms: seq<Message>): nat {
    if ms == [] then 0 else (if ms[0].role.Tool? then 1 else 0) + ToolCount(ms[1..])
  }

  function Cleared(m: Message): Message {
    m.(content := PLACEHOLDER, images := 0)
  }

  // The first n tool results replaced by the placeholder.
  function ClearFirst(ms: seq<Message>, n: nat): seq<Message> {
    if ms == [] || n == 0 then ms
    else if ms[0].role.Tool? then [Cleared(ms[0])] + ClearFirst(ms[1..], n - 1)
    else [ms[0]] + ClearFirst(ms[1..], n)
  }

  function Max(a: int, b: int): int {
    if a >= b then a else b
  }

  // ClearOldToolResults: the edited body and how many results were cleared.
  function ClearOldToolResults(b: Body, keepRecent: int): (Body, nat) {
    var cutoff := ToolCount(b.messages) - Max(keepRecent, 0);
    if cutoff <= 0 then (b, 0) else (b.(messages := ClearFirst(b.messages, cutoff)), cutoff)
  }

  function WithRole(ms: seq<Message>, systems: bool): seq<Message> {
    if ms == [] then []
    else (if ms[0].role.System? == systems then [ms[0]] else []) + WithRole(ms[1..], systems)
  }

  function Calls(ms: seq<Message>): set<string> {
    if ms == [] then {} else (if ms[0].role.Assistant? then ms[0].calls else {}) + Calls(ms[1..])
  }

  // Tool messages whose call is not among `known` go.
  function DropOrphans(ms: seq<Message>, known: set<string>): seq<Message> {
    if ms == [] then []
    else (if ms[0].role.Tool? && ms[0].callId !in known then [] else [ms[0]]) + DropOrphans(ms[1..], known)
  }

  // TrimLastNMessages: system messages and the last n others, without orphans.
  function TrimLast(b: Body, n: int): (Body, nat) {
    var n := if n <= 0 then 3 else n;
    var others := WithRole(b.messages, false);
    if |others| <= n then (b, 0)
    else
      var kept := others[|others| - n..];
      (b.(messages := WithRole(b.messages, true) + DropOrphans(kept, Calls(kept))), |others| - n)
  }

  function FirstUser(users: seq<bool>, from: nat): (r: nat)
    requires from <= |users|
    ensures from <= r <= |users|
    decreases |users| - from
  {
    if from == |users| || users[from] then from else FirstUser(users, from + 1)
  }

  function LastUser(users: seq<bool>, upTo: nat): (r: nat)
    requires upTo <= |users|
    ensures r <= |users|
  {
    if upTo == 0 then |users| else if users[upTo - 1] then upTo - 1 else LastUser(users, upTo - 1)
  }

  // Where a window of the recent messages starts so that it begins with a user turn, given
  // which messages are users'.
  function UserAlignedStart(users: seq<bool>, keepRecent: int): (r: nat)
    requires keepRecent >= 1
    ensures r <= |users|
  {
    var start := FirstUser(users, Max(|users| - keepRecent, 0));
    if start < |users| then start else LastUser(users, |users|)
  }

  function Users(ms: seq<Message>): seq<bool> {
    seq(|ms|, i requires 0 <= i < |ms| => ms[i].role.User?)
  }

  // RewriteForCompaction: system messages, the summary, and the recent others.
  function RewriteBehind(b: Body, summary: Message, keepRecent: int): Body {
    var others := WithRole(b.messages, false);
    if others == [] then b
    else
      var kept := others[UserAlignedStart(Users(others), Max(keepRecent, 1))..];
      b.(messages := WithRole(b.messages, true) + [summary] + DropOrphans(kept, Calls(kept)))
  }

  // --------------------------------------------------------------------- lemmas ----

  lemma {:induction false} BytesConcat(a: seq<Message>, b: seq<Message>)
    ensures Bytes(a + b) == Bytes(a) + Bytes(b)
    ensures Images(a + b) == Images(a) + Images(b)
    decreases |a|
  {
    if a == [] {
      assert a + b == b;
    } else {
      assert (a + b)[1..] == a[1..] + b;
      BytesConcat(a[1..], b);
    }
  }

  lemma {:induction false} OrphansWeighNothing(ms: seq<Message>, known: set<string>)
    ensures Bytes(DropOrphans(ms, known)) <= Bytes(ms)
    ensures Images(DropOrphans(ms, known)) <= Images(ms)
  {
    if ms != [] {
      OrphansWeighNothing(ms[1..], known);
      BytesConcat([ms[0]], DropOrphans(ms[1..], known));
      BytesConcat([ms[0]], ms[1..]);
      assert ms == [ms[0]] + ms[1..];
      if ms[0].role.Tool? && ms[0].callId !in known {
        assert DropOrphans(ms, known) == DropOrphans(ms[1..], known);
      }
    }
  }

  lemma {:induction false} RolesPartition(ms: seq<Message>)
    ensures Bytes(WithRole(ms, true)) + Bytes(WithRole(ms, false)) == Bytes(ms)
    ensures Images(WithRole(ms, true)) + Images(WithRole(ms, false)) == Images(ms)
  {
    if ms != [] {
      RolesPartition(ms[1..]);
      assert forall b :: ms[0].role.System? == b ==> WithRole(ms, b)[1..] == WithRole(ms[1..], b);
      assert forall b :: ms[0].role.System? != b ==> WithRole(ms, b) == WithRole(ms[1..], b);
    }
  }

  /** Trimming never raises the estimate, and reports zero exactly when it leaves the
      body alone. */
  lemma TrimNeverRaises(b: Body, n: int)
    ensures var (t, count) := TrimLast(b, n);
            && Estimate(t) <= Estimate(b)
            && (count == 0 ==> t == b)
  {
    var n := if n <= 0 then 3 else n;
    var systems, others := WithRole(b.messages, true), WithRole(b.messages, false);
    if |others| > n {
      var kept := others[|others| - n..];
      RolesPartition(b.messages);
      assert others == others[..|others| - n] + kept;
      BytesConcat(others[..|others| - n], kept);
      OrphansWeighNothing(kept, Calls(kept));
      BytesConcat(systems, DropOrphans(kept, Calls(kept)));
    }
  }

  // -------------------------------------------------------------- what an edit keeps ----

  // The members of s that keep holds for, in order.
  function Filter<T>(s: seq<T>, keep: T -> bool): seq<T> {
    if s == [] then [] else (if keep(s[0]) then [s[0]] else []) + Filter(s[1..], keep)
  }

  lemma {:induction false} FilterHolds<T>(s: seq<T>, keep: T -> bool)
    ensures forall x :: x in Filter(s, keep) <==> x in s && keep(x)
    ensures |Filter(s, keep)| <= |s|
  {
    if s != [] {
      FilterHolds(s[1..], keep);
      assert s == [s[0]] + s[1..];
    }
  }

  function IsSystem(): Message -> bool { (m: Message) => m.role.System? }

  function IsOther(): Message -> bool { (m: Message) => !m.role.System? }

  // Not a tool message whose call is missing.
  function Answers(known: set<string>): Message -> bool { (m: Message) => m.role.Tool? ==> m.callId in known }

  lemma {:induction false} WithRoleFilters(ms: seq<Message>)
    ensures WithRole(ms, true) == Filter(ms, IsSystem()) && WithRole(ms, false) == Filter(ms, IsOther())
  {
    if ms != [] { WithRoleFilters(ms[1..]); }
  }

  lemma {:induction false} DropOrphansFilters(ms: seq<Message>, known: set<string>)
    ensures DropOrphans(ms, known) == Filter(ms, Answers(known))
  {
    if ms != [] { DropOrphansFilters(ms[1..], known); }
  }

  // An assistant message of ms makes the call.
  predicate Called(ms: seq<Message>, id: string) {
    exists m | m in ms :: m.role.Assistant? && id in m.calls
  }

  lemma {:induction false} CallsAreMade(ms: seq<Message>, id: string)
    ensures id in Calls(ms) <==> Called(ms, id)
  {
    if ms != [] {
      CallsAreMade(ms[1..], id);
      assert ms == [ms[0]] + ms[1..];
    }
  }

  // Every tool message of ms answers a call an assistant message of ms makes.
  predicate NoOrphans(ms: seq<Message>) {
    forall m | m in ms && m.role.Tool? :: Called(ms, m.callId)
  }

  lemma KeptHaveNoOrphans(kept: seq<Message>)
    ensures NoOrphans(Filter(kept, Answers(Calls(kept))))
  {
    var out := Filter(kept, Answers(Calls(kept)));
    FilterHolds(kept, Answers(Calls(kept)));
    forall m | m in out && m.role.Tool? ensures Called(out, m.callId) {
      CallsAreMade(kept, m.callId);
      var c :| c in kept && c.role.Assistant? && m.callId in c.calls;
      assert c in out;
    }
  }

  lemma NoOrphansBehind(front: seq<Message>, out: seq<Message>)
    requires NoOrphans(out) && forall m | m in front :: !m.role.Tool?
    ensures NoOrphans(front + out)
  {
    forall m | m in front + out && m.role.Tool? ensures Called(front + out, m.callId) {
      assert m in out;
      var c :| c in out && c.role.Assistant? && m.callId in c.calls;
      assert c in front + out;
    }
  }

  // The system messages of b, all of them and in order, then head, then the messages of kept
  // in order but for tool results whose call is missing.
  function Kept(b: Body, head: seq<Message>, kept: seq<Message>): seq<Message> {
    Filter(b.messages, IsSystem()) + head + Filter(kept, Answers(Calls(kept)))
  }

  lemma RecentAreKept(b: Body, head: seq<Message>, kept: seq<Message>)
    requires forall m | m in head :: !m.role.Tool?
    ensures WithRole(b.messages, true) + head + DropOrphans(kept, Calls(kept)) == Kept(b, head, kept)
    ensures NoOrphans(Kept(b, head, kept))
  {
    WithRoleFilters(b.messages);
    DropOrphansFilters(kept, Calls(kept));
    FilterHolds(b.messages, IsSystem());
    KeptHaveNoOrphans(kept);
    NoOrphansBehind(Filter(b.messages, IsSystem()) + head, Filter(kept, Answers(Calls(kept))));
  }

  /** What a trim keeps, out of a history with more than n messages besides its system ones
      (more than three, for an n that is not positive): the system messages and the last n
      others, without the tool results whose call was cut off, of which none is left, and
      nothing else missing.  The count is that of the messages in front of them. */
  lemma TrimKeepsTheNewest(b: Body, n: int)
    ensures var (t, count) := TrimLast(b, n);
            var others, n := Filter(b.messages, IsOther()), if n <= 0 then 3 else n;
            if |others| <= n then t == b && count == 0
            else
              && count == |others| - n && t.rest == b.rest
              && t.messages == Kept(b, [], others[|others| - n..]) && NoOrphans(t.messages)
  {
    hide Filter, DropOrphans, WithRole, NoOrphans, Kept, Calls;
    WithRoleFilters(b.messages);
    var others, n := Filter(b.messages, IsOther()), if n <= 0 then 3 else n;
    if |others| > n {
      RecentAreKept(b, [], others[|others| - n..]);
      assert WithRole(b.messages, true) + [] == WithRole(b.messages, true);
    }
  }

  // Where the recent window may start: at a user turn inside it, or at the last one before it.
  lemma AlignedStart(users: seq<bool>, keepRecent: int)
    requires keepRecent >= 1
    ensures var r := UserAlignedStart(users, keepRecent);
            && (r < |users| ==> users[r])
            && (r == |users| <==> true !in users)
            && (r >= |users| - keepRecent ==> forall i | Max(|users| - keepRecent, 0) <= i < r :: !users[i])
            && (r < |users| - keepRecent ==> forall i | r < i < |users| :: !users[i])
  {
    var from := Max(|users| - keepRecent, 0);
    FirstUserIsFirst(users, from);
    LastUserIsLast(users, |users|);
  }

  lemma {:induction false} FirstUserIsFirst(users: seq<bool>, from: nat)
    requires from <= |users|
    ensures var r := FirstUser(users, from);
            from <= r && (r < |users| ==> users[r]) && forall i | from <= i < r :: !users[i]
    decreases |users| - from
  {
    if from < |users| && !users[from] { FirstUserIsFirst(users, from + 1); }
  }

  lemma {:induction false} LastUserIsLast(users: seq<bool>, upTo: nat)
    requires upTo <= |users|
    ensures var r := LastUser(users, upTo);
            && (r < |users| ==> r < upTo && users[r] && forall i | r < i < upTo :: !users[i])
            && (r == |users| ==> forall i | 0 <= i < upTo :: !users[i])
  {
    if upTo > 0 && !users[upTo - 1] { LastUserIsLast(users, upTo - 1); }
  }

  lemma UsersMark(ms: seq<Message>)
    ensures true in Users(ms) <==> exists m | m in ms :: m.role.User?
  {
    if true in Users(ms) {
      var i :| 0 <= i < |ms| && Users(ms)[i];
      assert ms[i] in ms;
    }
    if m :| m in ms && m.role.User? {
      var i :| 0 <= i < |ms| && ms[i] == m;
      assert Users(ms)[i];
    }
  }

  /** What a rewrite keeps behind its summary: the system messages in front, and of the others
      those from a user turn on, the first one among the last keepRecent or else the last
      there is, without the tool results whose call was cut off, of which none is left, and
      nothing else missing. */
  lemma RewriteKeepsTheNewest(b: Body, summary: Message, keepRecent: int)
    requires summary.role.Assistant? && keepRecent >= 1
    ensures var others, out := Filter(b.messages, IsOther()), RewriteBehind(b, summary, keepRecent);
            if others == [] then out == b
            else
              exists start: nat :: StartsWindow(others, keepRecent, start)
                && out.rest == b.rest && out.messages == Kept(b, [summary], others[start..]) && NoOrphans(out.messages)
  {
    WithRoleFilters(b.messages);
    var others := WithRole(b.messages, false);
    if others != [] {
      var start := StartOfWindow(others, keepRecent);
      RecentAreKept(b, [summary], others[start..]);
      hide Filter, DropOrphans, WithRole, NoOrphans, Kept, StartsWindow, UserAlignedStart;
      assert RewriteBehind(b, summary, keepRecent).messages == Kept(b, [summary], others[start..]);
    }
  }

  // A window of the recent messages starts at start: at the first user turn among the last
  // keepRecent, else at the last user turn before them, else nowhere.
  predicate StartsWindow(ms: seq<Message>, keepRecent: int, start: nat) {
    && start <= |ms| && (start < |ms| ==> ms[start].role.User?)
    && (start == |ms| ==> forall m | m in ms :: !m.role.User?)
    && (start >= |ms| - keepRecent ==> forall i | Max(|ms| - keepRecent, 0) <= i < start :: !ms[i].role.User?)
    && (start < |ms| - keepRecent ==> forall i | start < i < |ms| :: !ms[i].role.User?)
  }

  lemma StartOfWindow(others: seq<Message>, keepRecent: int) returns (start: nat)
    requires keepRecent >= 1
    ensures start == UserAlignedStart(Users(others), keepRecent) && StartsWindow(others, keepRecent, start)
  {
    AlignedStart(Users(others), keepRecent);
    start := UserAlignedStart(Users(others), keepRecent);
    UsersMark(others);
    hide UserAlignedStart;
    assert forall i | 0 <= i < |others| :: Users(others)[i] == others[i].role.User?;
  }

  /** Clearing replaces exactly the tool results with at least keepRecent others behind them,
      and touches no other message; the count is how many those are. */
  lemma {:induction false} ClearsAllButTheRecent(ms: seq<Message>, n: nat, i: nat)
    requires n <= ToolCount(ms) && i < |ms|
    ensures var c := ClearFirst(ms, n);
            && |c| == |ms|
            && c[i] == if ms[i].role.Tool? && ToolCount(ms[i + 1..]) >= ToolCount(ms) - n then Cleared(ms[i]) else ms[i]
  {
    ToolsBehind(ms, i);
    if n > 0 {
      var m := if ms[0].role.Tool? then n - 1 else n;
      if i > 0 {
        assert ms[i + 1..] == ms[1..][i..];
        ClearsAllButTheRecent(ms[1..], m, i - 1);
      } else if |ms| > 1 {
        ClearsAllButTheRecent(ms[1..], m, 0);
      }
    }
  }

  lemma {:induction false} ToolsBehind(ms: seq<Message>, i: nat)
    requires i < |ms|
    ensures ToolCount(ms[i + 1..]) + (if ms[i].role.Tool? then 1 else 0) <= ToolCount(ms)
  {
    if i > 0 {
      assert ms[i + 1..] == ms[1..][i..];
      ToolsBehind(ms[1..], i - 1);
    }
  }

  /** On the body: the last keepRecent tool results stay as they are, every older one becomes
      the placeholder without images, and the rest of the body is not touched. */
  lemma ClearingKeepsTheRecent(b: Body, keepRecent: int, i: nat)
    requires i < |b.messages|
    ensures var (c, count) := ClearOldToolResults(b, keepRecent);
            && count == Max(ToolCount(b.messages) - Max(keepRecent, 0), 0)
            && c.rest == b.rest && |c.messages| == |b.messages|
            && c.messages[i] == if b.messages[i].role.Tool? && ToolCount(b.messages[i + 1..]) >= keepRecent
                                then b.messages[i].(content := PLACEHOLDER, images := 0) else b.messages[i]
  {
    var cutoff := ToolCount(b.messages) - Max(keepRecent, 0);
    if cutoff > 0 {
      ClearsAllButTheRecent(b.messages, cutoff, i);
    } else {
      ToolsBehind(b.messages, i);
    }
  }

  // The content bytes of the first n tool results.
  function FirstContents(ms: seq<Message>, n: nat): nat {
    if ms == [] || n == 0 then 0
    else if ms[0].role.Tool? then ms[0].content + FirstContents(ms[1..], n - 1)
    else FirstContents(ms[1..], n)
  }

  lemma {:induction false} ClearWeight(ms: seq<Message>, n: nat)
    requires n <= ToolCount(ms)
    ensures Bytes(ClearFirst(ms, n)) == Bytes(ms) - FirstContents(ms, n) + PLACEHOLDER * n
    ensures Images(ClearFirst(ms, n)) <= Images(ms)
    ensures FirstContents(ms, n) <= Bytes(ms)
  {
    if ms != [] && n > 0 {
      if ms[0].role.Tool? {
        ClearWeight(ms[1..], n - 1);
        assert ClearFirst(ms, n)[1..] == ClearFirst(ms[1..], n - 1);
      } else {
        ClearWeight(ms[1..], n);
        assert ClearFirst(ms, n)[1..] == ClearFirst(ms[1..], n);
      }
    }
  }

  /** Clearing reports zero only when it leaves the body alone, and it does not raise the
      estimate when the results it clears hold, together, at least a placeholder each. */
  lemma ClearingLongResultsNeverRaises(b: Body, keepRecent: int)
    ensures var (c, count) := ClearOldToolResults(b, keepRecent);
            && (count == 0 ==> c == b)
            && (FirstContents(b.messages, count) >= PLACEHOLDER * count ==> Estimate(c) <= Estimate(b))
  {
    var (c, count) := ClearOldToolResults(b, keepRecent);
    ClearWeight(b.messages, count);
  }
}
