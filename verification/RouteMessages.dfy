/** The message window the policy client sends (internal/policyclient/client.go), and
    the predicate that tells whether it left anything out. */
module RouteMessages {

  // Texts are byte strings; IsSpace is ASCII white space.
  predicate IsSpace(c: char) {
    c == ' ' || c == '\t' || c == '\n' || c == '\r' || c as int == 11 || c as int == 12
  }

  lemma SixSpaces(c: char)
    ensures IsSpace(c) <==> c == ' ' || 9 <= c as int <= 13
  { }

  function TrimLeft(s: string): string {
    if s != "" && IsSpace(s[0]) then TrimLeft(s[1..]) else s
  }

  function TrimRight(s: string): string {
    if s != "" && IsSpace(s[|s| - 1]) then TrimRight(s[..|s| - 1]) else s
  }

  // strings.TrimSpace.
  function Trim(s: string): string {
    TrimRight(TrimLeft(s))
  }

  // clipRouteText.
  function Clip(text: string, limit: int): string {
    var t := Trim(text);
    if limit <= 0 || |t| <= limit then t else Trim(t[..limit])
  }

  datatype ToolCall = ToolCall(name: string, inputKeys: seq<string>, inputJson: string)

  datatype ToolResult = ToolResult(toolUseId: string, text: string, isError: bool, present: bool)

  datatype Message = Message(role: string, text: string, calls: seq<ToolCall>, results: seq<ToolResult>)

  datatype RouteCall = RouteCall(name: string, inputKeys: seq<string>, inputJson: string)

  datatype RouteResult = RouteResult(toolUseId: string, text: string, isError: bool, present: bool)

  datatype RouteMessage = RouteMessage(role: string, text: string, calls: seq<RouteCall>, results: seq<RouteResult>)

  // A limit that is not positive is no limit.  `roleOf` is the role a message is sent
  // under, "" for none.
  datatype Limits = Limits(
    maxMessages: int, maxTextChars: int, maxTotalTextChars: int,
    maxInputKeys: int, maxInputChars: int, includeInput: bool, includeResultText: bool,
    roleOf: string -> string)

  predicate Standard(lim: Limits) {
    && lim.maxMessages == 96 && lim.maxTextChars == 3000 && lim.maxTotalTextChars == 48000
    && lim.maxInputKeys == 24 && lim.maxInputChars == 80 && !lim.includeInput && !lim.includeResultText
  }

  function Lower(s: string): string {
    if s == "" then ""
    else [if 'A' <= s[0] <= 'Z' then (s[0] as int + 32) as char else s[0]] + Lower(s[1..])
  }

  function RouteRole(role: string): string {
    var r := Trim(Lower(role));
    if r == "system" || r == "developer" || r == "user" || r == "assistant" then r
    else if r == "model" then "assistant"
    else ""
  }

  // routeMessages sends under these.
  const ROUTE_LIMITS := Limits(96, 3000, 48000, 24, 80, false, false, RouteRole)

  lemma RouteLimitsAreStandard()
    ensures Standard(ROUTE_LIMITS)
  { }

  /** The roles that are sent: case and surrounding white space do not matter, "model" is sent
      as the assistant's, and what is sent would be sent as itself again. */
  lemma RolesSent(role: string)
    ensures RouteRole(role) in {"system", "developer", "user", "assistant", ""}
    ensures RouteRole(role) == RouteRole(Trim(Lower(role)))
    ensures RouteRole("system") == "system" && RouteRole("developer") == "developer" && RouteRole("user") == "user"
    ensures RouteRole("assistant") == "assistant" && RouteRole("model") == "assistant" && RouteRole("tool") == ""
    ensures RouteRole(RouteRole(role)) == RouteRole(role)
  {
    hide RouteRole, Lower, Trim;
    RoleOf(role);
    SentAsThemselves();
  }

  lemma SentAsThemselves()
    ensures RouteRole("system") == "system" && RouteRole("developer") == "developer" && RouteRole("user") == "user"
    ensures RouteRole("assistant") == "assistant" && RouteRole("model") == "assistant" && RouteRole("tool") == ""
    ensures RouteRole("") == ""
  {
    hide RouteRole, Lower, Trim;
    RoleOfWord("system");
    RoleOfWord("developer");
    RoleOfWord("user");
    RoleOfWord("assistant");
    RoleOfWord("model");
    RoleOfWord("tool");
    RoleOfWord("");
  }

  // The same letter, in either case.
  predicate SameLetter(a: char, b: char) {
    a == b || ('A' <= a <= 'Z' && b as int == a as int + 32) || ('A' <= b <= 'Z' && a as int == b as int + 32)
  }

  lemma {:induction false} CaseIsLost(a: string, b: string)
    requires |a| == |b| && forall i | 0 <= i < |a| :: SameLetter(a[i], b[i])
    ensures Lower(a) == Lower(b)
  {
    if a != "" {
      assert SameLetter(a[0], b[0]);
      forall i | 0 <= i < |a[1..]| ensures SameLetter(a[1..][i], b[1..][i]) { assert SameLetter(a[i + 1], b[i + 1]); }
      CaseIsLost(a[1..], b[1..]);
    }
  }

  /** Two spellings of a role that differ in case alone are sent alike. */
  lemma CaseDoesNotMatter(a: string, b: string)
    requires |a| == |b| && forall i | 0 <= i < |a| :: SameLetter(a[i], b[i])
    ensures RouteRole(a) == RouteRole(b)
  {
    CaseIsLost(a, b);
  }

  lemma RoleOf(role: string)
    ensures RouteRole(role) in {"system", "developer", "user", "assistant", ""}
    ensures RouteRole(role) == RouteRole(Trim(Lower(role)))
  {
    LowerTrimmed(role);
    hide Trim, Lower;
  }

  lemma RoleOfWord(w: string)
    requires forall c | c in w :: 'a' <= c <= 'z'
    ensures RouteRole(w) == if w == "model" then "assistant"
                            else if w == "system" || w == "developer" || w == "user" || w == "assistant" then w else ""
  {
    PlainWord(w);
    hide Trim, Lower;
  }

  // A word of small letters.
  lemma PlainWord(w: string)
    requires forall c | c in w :: 'a' <= c <= 'z'
    ensures Trim(Lower(w)) == w
  {
    LowerLeaves(w);
    if w != "" { assert w[0] in w && w[|w| - 1] in w; }
  }

  lemma {:induction false} LowerLeaves(s: string)
    requires forall c | c in s :: !('A' <= c <= 'Z')
    ensures Lower(s) == s
  {
    if s != "" {
      assert s[0] in s && forall c | c in s[1..] :: c in s;
      LowerLeaves(s[1..]);
    }
  }

  lemma {:induction false} LowerIsLower(s: string)
    ensures forall c | c in Lower(s) :: !('A' <= c <= 'Z')
  {
    if s != "" { LowerIsLower(s[1..]); }
  }

  lemma TrimDraws(s: string)
    ensures forall c | c in Trim(s) :: c in s
  {
    TrimLeftFacts(s);
    TrimRightFacts(TrimLeft(s));
  }

  lemma LowerTrimmed(s: string)
    ensures Trim(Lower(Trim(Lower(s)))) == Trim(Lower(s))
  {
    LowerIsLower(s);
    TrimDraws(Lower(s));
    LowerLeaves(Trim(Lower(s)));
    TrimFacts(Lower(s));
  }

  // ------------------------------------------------------------------ conversion ----

  function TakeKeys(keys: seq<string>, limit: int): seq<string> {
    if limit > 0 && |keys| > limit then keys[..limit] else keys
  }

  function ClipKeys(keys: seq<string>, limit: int): seq<string> {
    if keys == [] then []
    else (if Clip(keys[0], limit) != "" then [Clip(keys[0], limit)] else []) + ClipKeys(keys[1..], limit)
  }

  // A call with an empty name is left out.
  function ConvertCall(c: ToolCall, lim: Limits): seq<RouteCall> {
    if Clip(c.name, lim.maxInputChars) == "" then []
    else
      [RouteCall(Clip(c.name, lim.maxInputChars),
                 ClipKeys(TakeKeys(c.inputKeys, lim.maxInputKeys), lim.maxInputChars),
                 if lim.includeInput then Clip(c.inputJson, lim.maxTextChars) else "")]
  }

  function ConvertCalls(calls: seq<ToolCall>, lim: Limits): seq<RouteCall> {
    if calls == [] then [] else ConvertCall(calls[0], lim) + ConvertCalls(calls[1..], lim)
  }

  function ConvertResults(results: seq<ToolResult>, lim: Limits): seq<RouteResult> {
    if results == [] then []
    else
      [RouteResult(Clip(results[0].toolUseId, lim.maxInputChars),
                   if lim.includeResultText then Clip(results[0].text, lim.maxTextChars) else "",
                   results[0].isError,
                   results[0].present || results[0].toolUseId != "" || results[0].text != "")]
      + ConvertResults(results[1..], lim)
  }

  // The text a message keeps when `used` bytes of text are already taken.
  function BudgetedText(text: string, used: nat, lim: Limits): string {
    var t := Clip(text, lim.maxTextChars);
    if lim.maxTotalTextChars > 0 && used + |t| > lim.maxTotalTextChars then
      if lim.maxTotalTextChars - used <= 0 then "" else Clip(t, lim.maxTotalTextChars - used)
    else t
  }

  function Convert(m: Message, used: nat, lim: Limits): RouteMessage {
    RouteMessage(lim.roleOf(m.role), BudgetedText(m.text, used, lim), ConvertCalls(m.calls, lim),
                 ConvertResults(m.results, lim))
  }

  predicate IsEmpty(m: RouteMessage) {
    m.text == "" && m.calls == [] && m.results == []
  }

  // What one message adds, and the text it takes of the budget.
  function Kept(m: Message, used: nat, lim: Limits): seq<RouteMessage> {
    if lim.roleOf(m.role) == "" || IsEmpty(Convert(m, used, lim)) then [] else [Convert(m, used, lim)]
  }

  function Spent(m: Message, used: nat, lim: Limits): nat {
    if lim.roleOf(m.role) == "" then 0 else |BudgetedText(m.text, used, lim)|
  }

  // What a message adds and takes, as a step of the backward walk.
  function Turn(lim: Limits): (Message, nat) -> (seq<RouteMessage>, nat) {
    (m: Message, used: nat) => (Kept(m, used, lim), Spent(m, used, lim))
  }

  // A walk from the last message to the first, with the text taken so far.
  function WalkedBack(ms: seq<Message>, used: nat,
                      turn: (Message, nat) -> (seq<RouteMessage>, nat)): seq<RouteMessage> {
    if ms == [] then []
    else
      var (kept, spent) := turn(ms[|ms| - 1], used);
      WalkedBack(ms[..|ms| - 1], used + spent, turn) + kept
  }

  // Messages converted from the last to the first, the newest drawing on the text
  // budget first.
  function ConvertAll(ms: seq<Message>, used: nat, lim: Limits): seq<RouteMessage> {
    WalkedBack(ms, used, Turn(lim))
  }

  function Window(ms: seq<Message>, lim: Limits): seq<Message> {
    if lim.maxMessages > 0 && |ms| > lim.maxMessages then ms[|ms| - lim.maxMessages..] else ms
  }

  function ConvertRouteMessages(ms: seq<Message>, lim: Limits): seq<RouteMessage> {
    ConvertAll(Window(ms, lim), 0, lim)
  }

  // ------------------------------------------------------------------- text lemmas ----

  lemma {:induction false} TrimLeftFacts(s: string)
    ensures |TrimLeft(s)| <= |s|
    ensures TrimLeft(s) != "" ==> !IsSpace(TrimLeft(s)[0])
    ensures exists k | 0 <= k <= |s| :: TrimLeft(s) == s[k..]
  {
    if s != "" && IsSpace(s[0]) {
      TrimLeftFacts(s[1..]);
      var k :| 0 <= k <= |s[1..]| && TrimLeft(s[1..]) == s[1..][k..];
      assert s[1..][k..] == s[k + 1..];
    } else {
      assert s == s[0..];
    }
  }

  lemma {:induction false} TrimRightFacts(s: string)
    ensures |TrimRight(s)| <= |s|
    ensures TrimRight(s) == s[..|TrimRight(s)|]
    ensures TrimRight(s) != "" ==> !IsSpace(TrimRight(s)[|TrimRight(s)| - 1])
  {
    if s != "" && IsSpace(s[|s| - 1]) {
      TrimRightFacts(s[..|s| - 1]);
    }
  }

  /** Trimming never lengthens a text, and trimming twice is trimming once. */
  lemma TrimFacts(s: string)
    ensures |Trim(s)| <= |s|
    ensures Trim(Trim(s)) == Trim(s)
  {
    TrimLeftFacts(s);
    TrimRightFacts(TrimLeft(s));
    var t := Trim(s);
    if t != "" {
      assert t[0] == TrimLeft(s)[0];
      assert TrimLeft(t) == t && TrimRight(t) == t;
    }
  }

  lemma ClipFacts(text: string, limit: int)
    ensures |Clip(text, limit)| <= |Trim(text)| <= |text|
    ensures limit > 0 ==> |Clip(text, limit)| <= limit
    ensures limit <= 0 || |Trim(text)| <= limit ==> Clip(text, limit) == Trim(text)
    ensures Trim(Clip(text, limit)) == Clip(text, limit)
  {
    TrimFacts(text);
    if limit > 0 && |Trim(text)| > limit { TrimFacts(Trim(text)[..limit]); }
  }

  // ------------------------------------------------------------------------ bounds ----

  function TotalText(ms: seq<RouteMessage>): nat {
    if ms == [] then 0 else |ms[0].text| + TotalText(ms[1..])
  }

  lemma {:induction false} TotalConcat(a: seq<RouteMessage>, b: seq<RouteMessage>)
    ensures TotalText(a + b) == TotalText(a) + TotalText(b)
    decreases |a|
  {
    if a == [] {
      assert a + b == b;
    } else {
      assert (a + b)[1..] == a[1..] + b;
      TotalConcat(a[1..], b);
    }
  }

  lemma BudgetFacts(text: string, used: nat, lim: Limits)
    requires lim.maxTotalTextChars > 0 && used <= lim.maxTotalTextChars && lim.maxTextChars > 0
    ensures var t := BudgetedText(text, used, lim);
            |t| <= lim.maxTextChars && used + |t| <= lim.maxTotalTextChars
  {
    ClipFacts(text, lim.maxTextChars);
    var t := Clip(text, lim.maxTextChars);
    if lim.maxTotalTextChars - used > 0 {
      ClipFacts(t, lim.maxTotalTextChars - used);
    }
  }

  lemma KeptFacts(m: Message, used: nat, lim: Limits)
    ensures |Kept(m, used, lim)| <= 1
    ensures TotalText(Kept(m, used, lim)) == Spent(m, used, lim)
    ensures forall r | r in Kept(m, used, lim) ::
              r.role == lim.roleOf(m.role) != "" && r.text == BudgetedText(m.text, used, lim)
  {
    if lim.roleOf(m.role) != "" && !IsEmpty(Convert(m, used, lim)) {
      assert TotalText([Convert(m, used, lim)]) == |BudgetedText(m.text, used, lim)|;
    }
  }

  // A turn that adds at most one message, takes exactly its text, and stays in budget.
  ghost predicate Frugal(turn: (Message, nat) -> (seq<RouteMessage>, nat), maxText: int, maxTotal: int) {
    forall m: Message, u: nat | u <= maxTotal ::
      && |turn(m, u).0| <= 1 && TotalText(turn(m, u).0) == turn(m, u).1
      && u + turn(m, u).1 <= maxTotal
      && forall r | r in turn(m, u).0 :: |r.text| <= maxText
  }

  lemma {:induction false} WalkedBounds(ms: seq<Message>, used: nat, turn: (Message, nat) -> (seq<RouteMessage>, nat),
                                        maxText: int, maxTotal: int)
    requires Frugal(turn, maxText, maxTotal) && used <= maxTotal
    ensures |WalkedBack(ms, used, turn)| <= |ms|
    ensures used + TotalText(WalkedBack(ms, used, turn)) <= maxTotal
    ensures forall m | m in WalkedBack(ms, used, turn) :: |m.text| <= maxText
    decreases |ms|
  {
    if ms != [] {
      var (kept, spent) := turn(ms[|ms| - 1], used);
      WalkedBounds(ms[..|ms| - 1], used + spent, turn, maxText, maxTotal);
      TotalConcat(WalkedBack(ms[..|ms| - 1], used + spent, turn), kept);
    }
  }

  lemma TurnIsFrugal(lim: Limits)
    requires lim.maxTotalTextChars > 0 && lim.maxTextChars > 0
    ensures Frugal(Turn(lim), lim.maxTextChars, lim.maxTotalTextChars)
  {
    forall m: Message, u: nat | u <= lim.maxTotalTextChars
      ensures |Kept(m, u, lim)| <= 1 && TotalText(Kept(m, u, lim)) == Spent(m, u, lim)
      ensures u + Spent(m, u, lim) <= lim.maxTotalTextChars
      ensures forall r | r in Kept(m, u, lim) :: |r.text| <= lim.maxTextChars
    {
      KeptFacts(m, u, lim);
      BudgetFacts(m.text, u, lim);
    }
  }

  /** What is sent never exceeds 96 messages, 3000 bytes in a text, or 48000 bytes of text
      in all. */
  lemma SentWithinLimits(ms: seq<Message>, lim: Limits)
    requires Standard(lim)
    ensures var out := ConvertRouteMessages(ms, lim);
            |out| <= 96 && TotalText(out) <= 48000 && forall m | m in out :: |m.text| <= 3000
  {
    TurnIsFrugal(lim);
    WalkedBounds(Window(ms, lim), 0, Turn(lim), 3000, 48000);
  }

  // The message sent for m: its role, the front of its text, and its own calls and results.
  predicate SentFor(r: RouteMessage, m: Message, lim: Limits) {
    && r.role == lim.roleOf(m.role) != ""
    && r.text <= Trim(m.text)
    && r.calls == ConvertCalls(m.calls, lim)
    && r.results == ConvertResults(m.results, lim)
  }

  // A message that is sent whatever budget is left for its text.
  predicate AlwaysSent(m: Message, lim: Limits) {
    lim.roleOf(m.role) != "" && (ConvertCalls(m.calls, lim) != [] || m.results != [])
  }

  // Where each sent message came from: positions of the originals, in order, none before
  // from, with no message from there on left out over its text alone.
  ghost predicate Sources(out: seq<RouteMessage>, ms: seq<Message>, at: seq<nat>, from: nat, lim: Limits) {
    && |at| == |out|
    && (forall i | 0 <= i < |at| :: from <= at[i] < |ms|)
    && (forall i, j | 0 <= i < j < |at| :: at[i] < at[j])
    && (forall i | 0 <= i < |at| :: SentFor(out[i], ms[at[i]], lim))
    && (forall j: nat | from <= j < |ms| && AlwaysSent(ms[j], lim) :: j in at)
  }

  // Clipping a trimmed text keeps its front.
  lemma ClipIsPrefix(text: string, limit: int)
    ensures Clip(text, limit) <= Trim(text)
  {
    var t := Trim(text);
    if 0 < limit < |t| {
      TrimFacts(text);
      TrimLeftFacts(text);
      TrimRightFacts(TrimLeft(text));
      assert TrimLeft(t[..limit]) == t[..limit];
      TrimRightFacts(t[..limit]);
    }
  }

  lemma BudgetedIsPrefix(text: string, used: nat, lim: Limits)
    ensures BudgetedText(text, used, lim) <= Trim(text)
  {
    ClipIsPrefix(text, lim.maxTextChars);
    ClipFacts(text, lim.maxTextChars);
    ClipIsPrefix(Clip(text, lim.maxTextChars), lim.maxTotalTextChars - used);
  }

  lemma SourcesStep(out: seq<RouteMessage>, ms: seq<Message>, at: seq<nat>, m: Message, kept: seq<RouteMessage>,
                    lim: Limits)
    requires Sources(out, ms, at, 0, lim) && |kept| <= 1
    requires forall r | r in kept :: SentFor(r, m, lim)
    requires kept == [] ==> !AlwaysSent(m, lim)
    ensures Sources(out + kept, ms + [m], at + (if kept == [] then [] else [|ms|]), 0, lim)
  {
    if kept == [] {
      assert out + kept == out && at + [] == at;
    } else {
      assert kept[0] in kept;
    }
  }

  lemma ConvertAllStep(ms: seq<Message>, used: nat, lim: Limits)
    requires ms != []
    ensures var front, last := ms[..|ms| - 1], ms[|ms| - 1];
            ConvertAll(ms, used, lim)
              == ConvertAll(front, used + Spent(last, used, lim), lim) + Kept(last, used, lim)
  { }

  lemma KeptIsSentFor(m: Message, used: nat, lim: Limits)
    ensures |Kept(m, used, lim)| <= 1 && forall r | r in Kept(m, used, lim) :: SentFor(r, m, lim)
    ensures Kept(m, used, lim) == [] ==> !AlwaysSent(m, lim)
  {
    BudgetedIsPrefix(m.text, used, lim);
  }

  lemma {:induction false} WalkedInOrder(ms: seq<Message>, used: nat, lim: Limits) returns (at: seq<nat>)
    ensures Sources(ConvertAll(ms, used, lim), ms, at, 0, lim)
    decreases |ms|
  {
    at := [];
    if ms != [] {
      hide ConvertAll, Sources, SentFor, AlwaysSent, Kept, Spent;
      var front, last := ms[..|ms| - 1], ms[|ms| - 1];
      assert ms == front + [last];
      var kept := Kept(last, used, lim);
      ConvertAllStep(ms, used, lim);
      at := WalkedInOrder(front, used + Spent(last, used, lim), lim);
      KeptIsSentFor(last, used, lim);
      SourcesStep(ConvertAll(front, used + Spent(last, used, lim), lim), front, at, last, kept, lim);
      at := at + (if kept == [] then [] else [|front|]);
    }
  }

  /** The messages sent are some of the last 96, in the order given: each with the role and
      the front of the text of its original, and with its calls and results.  One of them
      that has a call or a result to send is never left out. */
  lemma SentInOrder(ms: seq<Message>, lim: Limits) returns (at: seq<nat>)
    requires Standard(lim)
    ensures Sources(ConvertRouteMessages(ms, lim), ms, at, if |ms| > 96 then |ms| - 96 else 0, lim)
  {
    var w, from := Window(ms, lim), if |ms| > 96 then |ms| - 96 else 0;
    var there := WalkedInOrder(w, 0, lim);
    assert w == ms[from..];
    at := SourcesShift(ConvertRouteMessages(ms, lim), ms, from, there, lim);
  }

  lemma SourcesShift(out: seq<RouteMessage>, ms: seq<Message>, from: nat, there: seq<nat>, lim: Limits)
    returns (at: seq<nat>)
    requires from <= |ms| && Sources(out, ms[from..], there, 0, lim)
    ensures Sources(out, ms, at, from, lim)
  {
    hide SentFor, AlwaysSent;
    var w := ms[from..];
    at := seq(|there|, i requires 0 <= i < |there| => there[i] + from);
    forall i | 0 <= i < |at| ensures SentFor(out[i], ms[at[i]], lim) {
      assert SentFor(out[i], w[there[i]], lim);
    }
    forall j: nat | from <= j < |ms| && AlwaysSent(ms[j], lim) ensures j in at {
      assert w[j - from] == ms[j];
      var i :| 0 <= i < |there| && there[i] == j - from;
      assert at[i] == j;
    }
  }

  lemma {:induction false} WalkSplits(a: seq<Message>, b: seq<Message>, used: nat, lim: Limits)
    ensures ConvertAll(a + b, used, lim)
         == ConvertAll(a, used + TotalText(ConvertAll(b, used, lim)), lim) + ConvertAll(b, used, lim)
    decreases |b|
  {
    hide ConvertAll, Kept, Spent, TotalText;
    if b == [] {
      assert a + b == a;
      NothingToWalk(used, lim);
      assert ConvertAll(a, used, lim) + [] == ConvertAll(a, used, lim);
    } else {
      var front, last := b[..|b| - 1], b[|b| - 1];
      var spent, kept := Spent(last, used, lim), Kept(last, used, lim);
      assert (a + b)[..|a + b| - 1] == a + front && (a + b)[|a + b| - 1] == last;
      WalkSplits(a, front, used + spent, lim);
      ConvertAllStep(a + b, used, lim);
      ConvertAllStep(b, used, lim);
      KeptFacts(last, used, lim);
      var x := ConvertAll(front, used + spent, lim);
      TotalConcat(x, kept);
      var head := ConvertAll(a, used + spent + TotalText(x), lim);
      assert (head + x) + kept == head + (x + kept);
    }
  }

  lemma NothingToWalk(used: nat, lim: Limits)
    ensures ConvertAll([], used, lim) == [] && TotalText([]) == 0
  { }

  // The text a message with `left` bytes of budget may keep: all of it when it fits, no more
  // than fits, and something of any text while anything is left.
  predicate KeepsText(r: seq<RouteMessage>, m: Message, left: int, lim: Limits) {
    && |r| <= 1
    && (r != [] ==> SentFor(r[0], m, lim) && |r[0].text| <= 3000 && |r[0].text| <= (if left > 0 then left else 0))
    && (r != [] && |Trim(m.text)| <= 3000 && |Trim(m.text)| <= left ==> r[0].text == Trim(m.text))
    && (r == [] ==> lim.roleOf(m.role) == "" || Trim(m.text) == "" || left <= 0)
    && (r != [] && left > 0 && Trim(m.text) != "" ==> r[0].text != "")
  }

  lemma ClipKeepsSomething(text: string, limit: int)
    requires Trim(text) != "" && limit > 0
    ensures Clip(text, limit) != ""
  {
    var t := Trim(text);
    TrimFacts(text);
    TrimLeftFacts(text);
    TrimRightFacts(TrimLeft(text));
    if limit < |t| {
      assert t[0] == TrimLeft(text)[0] && !IsSpace(t[0]);
      FrontSurvives(t[..limit]);
    }
  }

  lemma {:induction false} FrontSurvives(s: string)
    requires s != "" && !IsSpace(s[0])
    ensures Trim(s) != ""
  {
    assert TrimLeft(s) == s;
    if IsSpace(s[|s| - 1]) {
      FrontSurvives(s[..|s| - 1]);
      assert TrimLeft(s[..|s| - 1]) == s[..|s| - 1];
    }
  }

  lemma KeptKeepsText(m: Message, used: nat, lim: Limits)
    requires Standard(lim) && used <= 48000
    ensures KeepsText(Kept(m, used, lim), m, 48000 - used, lim)
  {
    KeptIsSentFor(m, used, lim);
    ClipFacts(m.text, 3000);
    var t := Clip(m.text, 3000);
    ClipFacts(t, 48000 - used);
    if Trim(m.text) != "" {
      ClipKeepsSomething(m.text, 3000);
      if used < 48000 { ClipKeepsSomething(t, 48000 - used); }
    }
  }

  /** The budget goes to the newest: what any message of the window sends depends on the
      messages behind it only through the bytes of text they sent, and it keeps its whole
      text when that and its own limit leave room, and is left out over its text only when
      they leave none. */
  lemma BudgetGoesToTheNewest(a: seq<Message>, m: Message, b: seq<Message>, lim: Limits)
    requires Standard(lim)
    ensures var later := ConvertAll(b, 0, lim);
            var kept := Kept(m, TotalText(later), lim);
            && ConvertAll(a + [m] + b, 0, lim) == ConvertAll(a, TotalText(later) + TotalText(kept), lim) + kept + later
            && KeepsText(kept, m, 48000 - TotalText(later), lim)
  {
    hide ConvertAll, Kept, TotalText, KeepsText, Standard;
    var later := ConvertAll(b, 0, lim);
    var used := TotalText(later);
    WalkWithinBudget(b, lim);
    KeptKeepsText(m, used, lim);
    KeptFacts(m, used, lim);
    WalkSplits(a + [m], b, 0, lim);
    ConvertAllStep(a + [m], used, lim);
    assert (a + [m])[..|a + [m]| - 1] == a && (a + [m])[|a + [m]| - 1] == m;
  }

  lemma WalkWithinBudget(ms: seq<Message>, lim: Limits)
    requires Standard(lim)
    ensures TotalText(ConvertAll(ms, 0, lim)) <= 48000
  {
    TurnIsFrugal(lim);
    WalkedBounds(ms, 0, Turn(lim), 3000, 48000);
  }

  // The call sent for c.
  predicate CallSentFor(r: RouteCall, c: ToolCall) {
    && r.name != "" && r.name <= Trim(c.name) && |r.name| <= 80 && (|Trim(c.name)| <= 80 ==> r.name == Trim(c.name))
    && r.inputKeys == ClipKeys(if |c.inputKeys| > 24 then c.inputKeys[..24] else c.inputKeys, 80)
    && r.inputJson == ""
  }

  lemma {:induction false} CallsSplit(a: seq<ToolCall>, b: seq<ToolCall>, lim: Limits)
    ensures ConvertCalls(a + b, lim) == ConvertCalls(a, lim) + ConvertCalls(b, lim)
    decreases |a|
  {
    if a == [] {
      assert a + b == b;
    } else {
      assert (a + b)[1..] == a[1..] + b;
      CallsSplit(a[1..], b, lim);
    }
  }

  /** A limit that is not positive limits nothing; a positive one keeps the first keys and the
      last messages, as many as it says. */
  lemma WhatLimitsKeep(lim: Limits, text: string, used: nat, keys: seq<string>, limit: int, ms: seq<Message>)
    ensures limit <= 0 ==> Clip(text, limit) == Trim(text) && TakeKeys(keys, limit) == keys
    ensures lim.maxTotalTextChars <= 0 ==> BudgetedText(text, used, lim) == Clip(text, lim.maxTextChars)
    ensures limit > 0 ==> TakeKeys(keys, limit) <= keys
                          && |TakeKeys(keys, limit)| == if |keys| <= limit then |keys| else limit
    ensures lim.maxMessages <= 0 ==> Window(ms, lim) == ms
    ensures lim.maxMessages > 0 ==>
              var n := if |ms| <= lim.maxMessages then |ms| else lim.maxMessages;
              Window(ms, lim) == ms[|ms| - n..]
  {
    ClipFacts(text, limit);
  }

  /** What becomes of one of a message's calls, wherever it stands among them: it is sent in its
      place, exactly when it is named, under a front of its name, with the first 24 of its
      input keys and without the input itself. */
  lemma CallsAreCut(a: seq<ToolCall>, c: ToolCall, b: seq<ToolCall>, lim: Limits)
    requires Standard(lim)
    ensures var one := ConvertCall(c, lim);
            && ConvertCalls(a + [c] + b, lim) == ConvertCalls(a, lim) + one + ConvertCalls(b, lim)
            && (if Trim(c.name) == "" then one == [] else |one| == 1 && CallSentFor(one[0], c))
  {
    CallsSplit(a + [c], b, lim);
    CallsSplit(a, [c], lim);
    assert ConvertCalls([c], lim) == ConvertCall(c, lim) + ConvertCalls([], lim);
    ClipIsPrefix(c.name, 80);
    ClipFacts(c.name, 80);
    if Trim(c.name) != "" { ClipKeepsSomething(c.name, 80); }
  }

  lemma {:induction false} KeysSplit(a: seq<string>, b: seq<string>, limit: int)
    ensures ClipKeys(a + b, limit) == ClipKeys(a, limit) + ClipKeys(b, limit)
    decreases |a|
  {
    if a == [] {
      assert a + b == b;
    } else {
      assert (a + b)[1..] == a[1..] + b;
      KeysSplit(a[1..], b, limit);
    }
  }

  /** And of one of its input keys: sent in its place exactly when it is not blank, whole up to
      the limit and cut to a front of it past that. */
  lemma KeysAreCut(a: seq<string>, k: string, b: seq<string>, limit: int)
    requires limit > 0
    ensures var one := if Trim(k) == "" then [] else [Clip(k, limit)];
            && ClipKeys(a + [k] + b, limit) == ClipKeys(a, limit) + one + ClipKeys(b, limit)
            && Clip(k, limit) <= Trim(k) && |Clip(k, limit)| <= limit
            && (|Trim(k)| <= limit ==> Clip(k, limit) == Trim(k))
  {
    KeysSplit(a + [k], b, limit);
    KeysSplit(a, [k], limit);
    assert ClipKeys([k], limit) == (if Clip(k, limit) != "" then [Clip(k, limit)] else []) + ClipKeys([], limit);
    ClipIsPrefix(k, limit);
    ClipFacts(k, limit);
    if Trim(k) != "" { ClipKeepsSomething(k, limit); }
  }

  /** What becomes of one message's results: every one, in order, under a front of its call's
      ID, as an error exactly when it was one, and never with its text. */
  lemma {:induction false} ResultsAreKept(results: seq<ToolResult>, lim: Limits, i: nat)
    requires Standard(lim) && i < |results|
    ensures var out := ConvertResults(results, lim);
            && |out| == |results|
            && out[i].toolUseId <= Trim(results[i].toolUseId) && |out[i].toolUseId| <= 80
            && (|Trim(results[i].toolUseId)| <= 80 ==> out[i].toolUseId == Trim(results[i].toolUseId))
            && out[i].text == "" && out[i].isError == results[i].isError
            && (out[i].present <==> results[i].present || results[i].toolUseId != "" || results[i].text != "")
  {
    ClipIsPrefix(results[0].toolUseId, 80);
    ClipFacts(results[0].toolUseId, 80);
    if i > 0 {
      ResultsAreKept(results[1..], lim, i - 1);
    } else if |results| > 1 {
      ResultsAreKept(results[1..], lim, 0);
    }
  }

  // --------------------------------------------------------------------- truncation ----

  predicate CallCut(c: ToolCall) {
    |Trim(c.name)| > 80 || |c.inputKeys| > 24 || exists k | k in c.inputKeys :: |Trim(k)| > 80
  }

  function TrimmedText(ms: seq<Message>): nat {
    if ms == [] then 0 else |Trim(ms[0].text)| + TrimmedText(ms[1..])
  }

  // routeMessagesTruncated.
  predicate Truncated(ms: seq<Message>) {
    || |ms| > 96
    || (exists m | m in ms :: |Trim(m.text)| > 3000)
    || TrimmedText(ms) > 48000
    || (exists m | m in ms :: exists c | c in m.calls :: CallCut(c))
  }

  // The same messages with no limit at all: texts, names and keys trimmed, and what is
  // empty or has no known role left out.
  function TrimKeys(keys: seq<string>): seq<string> {
    if keys == [] then []
    else (if Trim(keys[0]) != "" then [Trim(keys[0])] else []) + TrimKeys(keys[1..])
  }

  function TrimCalls(calls: seq<ToolCall>): seq<RouteCall> {
    if calls == [] then []
    else
      (if Trim(calls[0].name) == "" then []
       else [RouteCall(Trim(calls[0].name), TrimKeys(calls[0].inputKeys), "")])
      + TrimCalls(calls[1..])
  }

  function Whole(m: Message, lim: Limits): RouteMessage {
    RouteMessage(lim.roleOf(m.role), Trim(m.text), TrimCalls(m.calls), ConvertResults(m.results, lim))
  }

  function WholeKept(m: Message, lim: Limits): seq<RouteMessage> {
    if lim.roleOf(m.role) == "" || IsEmpty(Whole(m, lim)) then [] else [Whole(m, lim)]
  }

  function AllWhole(ms: seq<Message>, lim: Limits): seq<RouteMessage> {
    if ms == [] then [] else WholeKept(ms[0], lim) + AllWhole(ms[1..], lim)
  }

  lemma {:induction false} KeysUncut(keys: seq<string>)
    requires forall k | k in keys :: |Trim(k)| <= 80
    ensures ClipKeys(keys, 80) == TrimKeys(keys)
  {
    if keys != [] {
      assert keys[0] in keys && forall k | k in keys[1..] :: k in keys;
      ClipFacts(keys[0], 80);
      KeysUncut(keys[1..]);
    }
  }

  lemma {:induction false} CallsUncut(calls: seq<ToolCall>, lim: Limits)
    requires Standard(lim)
    requires forall c | c in calls :: !CallCut(c)
    ensures ConvertCalls(calls, lim) == TrimCalls(calls)
  {
    if calls != [] {
      assert calls[0] in calls && forall c | c in calls[1..] :: c in calls;
      ClipFacts(calls[0].name, 80);
      KeysUncut(calls[0].inputKeys);
      CallsUncut(calls[1..], lim);
    }
  }

  lemma {:induction false} TrimmedSplit(a: seq<Message>, b: seq<Message>)
    ensures TrimmedText(a + b) == TrimmedText(a) + TrimmedText(b)
    decreases |a|
  {
    if a == [] {
      assert a + b == b;
    } else {
      assert (a + b)[1..] == a[1..] + b;
      TrimmedSplit(a[1..], b);
    }
  }

  lemma {:induction false} WholeSplit(a: seq<Message>, b: seq<Message>, lim: Limits)
    ensures AllWhole(a + b, lim) == AllWhole(a, lim) + AllWhole(b, lim)
    decreases |a|
  {
    if a == [] {
      assert a + b == b;
    } else {
      assert (a + b)[1..] == a[1..] + b;
      WholeSplit(a[1..], b, lim);
    }
  }

  predicate MessageUncut(m: Message) {
    |Trim(m.text)| <= 3000 && forall c | c in m.calls :: !CallCut(c)
  }

  lemma MessageKeptWhole(m: Message, used: nat, lim: Limits)
    requires Standard(lim)
    requires MessageUncut(m) && used + |Trim(m.text)| <= 48000
    ensures Kept(m, used, lim) == WholeKept(m, lim)
    ensures Spent(m, used, lim) <= |Trim(m.text)|
  {
    ClipFacts(m.text, 3000);
    CallsUncut(m.calls, lim);
    assert BudgetedText(m.text, used, lim) == Trim(m.text);
    assert Convert(m, used, lim) == Whole(m, lim);
  }

  lemma {:induction false} ConvertAllUncut(ms: seq<Message>, used: nat, lim: Limits)
    requires Standard(lim)
    requires forall m | m in ms :: MessageUncut(m)
    requires used + TrimmedText(ms) <= 48000
    ensures ConvertAll(ms, used, lim) == AllWhole(ms, lim)
    decreases |ms|
  {
    hide WholeKept, Kept, Spent, MessageUncut, Standard, Trim;
    if ms != [] {
      var front, last := ms[..|ms| - 1], ms[|ms| - 1];
      assert last in ms && forall m | m in front :: m in ms;
      assert TrimmedText(ms) == TrimmedText(front) + |Trim(last.text)| by {
        assert ms == front + [last];
        TrimmedSplit(front, [last]);
        assert TrimmedText([last]) == |Trim(last.text)|;
      }
      MessageKeptWhole(last, used, lim);
      ConvertAllUncut(front, used + Spent(last, used, lim), lim);
      assert AllWhole(ms, lim) == AllWhole(front, lim) + WholeKept(last, lim) by {
        assert ms == front + [last];
        WholeSplit(front, [last], lim);
        assert AllWhole([last], lim) == WholeKept(last, lim) + AllWhole([], lim);
      }
    }
  }

  /** When the messages are not reported truncated, every message with a known role and
      anything in it is sent, its text, tool names and input keys whole but for white
      space. */
  lemma NotTruncatedIsLossless(ms: seq<Message>, lim: Limits)
    requires Standard(lim) && !Truncated(ms)
    ensures ConvertRouteMessages(ms, lim) == AllWhole(ms, lim)
  {
    assert forall m | m in ms :: MessageUncut(m);
    ConvertAllUncut(ms, 0, lim);
  }

  // A message every part of which is worth sending: a known role, something in it, and no
  // call, key or result that would be left out as blank.
  predicate Solid(m: Message, lim: Limits) {
    && lim.roleOf(m.role) != "" && (Trim(m.text) != "" || m.calls != [] || m.results != [])
    && forall c | c in m.calls :: Trim(c.name) != "" && forall k | k in c.inputKeys :: Trim(k) != ""
  }

  lemma {:induction false} SolidKeys(keys: seq<string>)
    requires forall k | k in keys :: Trim(k) != ""
    ensures |TrimKeys(keys)| == |keys| && forall i | 0 <= i < |keys| :: TrimKeys(keys)[i] == Trim(keys[i])
  {
    if keys != [] {
      assert keys[0] in keys && forall k | k in keys[1..] :: k in keys;
      SolidKeys(keys[1..]);
    }
  }

  lemma {:induction false} SolidCalls(calls: seq<ToolCall>)
    requires forall c | c in calls :: Trim(c.name) != ""
    ensures |TrimCalls(calls)| == |calls|
    ensures forall i | 0 <= i < |calls| ::
              TrimCalls(calls)[i] == RouteCall(Trim(calls[i].name), TrimKeys(calls[i].inputKeys), "")
  {
    if calls != [] {
      assert calls[0] in calls && forall c | c in calls[1..] :: c in calls;
      SolidCalls(calls[1..]);
    }
  }

  lemma {:induction false} SolidMessages(ms: seq<Message>, lim: Limits)
    requires forall m | m in ms :: Solid(m, lim)
    ensures |AllWhole(ms, lim)| == |ms| && TotalText(AllWhole(ms, lim)) == TrimmedText(ms)
    ensures forall i | 0 <= i < |ms| :: AllWhole(ms, lim)[i] == Whole(ms[i], lim)
  {
    if ms != [] {
      assert ms[0] in ms && forall m | m in ms[1..] :: m in ms;
      assert Solid(ms[0], lim);
      SolidMessages(ms[1..], lim);
      SolidCalls(ms[0].calls);
      assert WholeKept(ms[0], lim) == [Whole(ms[0], lim)];
      TotalConcat([Whole(ms[0], lim)], AllWhole(ms[1..], lim));
      assert TotalText([Whole(ms[0], lim)]) == |Trim(ms[0].text)|;
    }
  }

  predicate CallWithinLimits(c: RouteCall) {
    |c.name| <= 80 && |c.inputKeys| <= 24 && forall k | k in c.inputKeys :: |k| <= 80
  }

  lemma {:induction false} KeysWithinLimits(keys: seq<string>)
    ensures |ClipKeys(keys, 80)| <= |keys| && forall k | k in ClipKeys(keys, 80) :: |k| <= 80
  {
    if keys != [] {
      ClipFacts(keys[0], 80);
      KeysWithinLimits(keys[1..]);
    }
  }

  lemma {:induction false} CallsWithinLimits(calls: seq<ToolCall>, lim: Limits)
    requires Standard(lim)
    ensures forall c | c in ConvertCalls(calls, lim) :: CallWithinLimits(c)
  {
    if calls != [] {
      ClipFacts(calls[0].name, 80);
      KeysWithinLimits(TakeKeys(calls[0].inputKeys, 24));
      CallsWithinLimits(calls[1..], lim);
    }
  }

  lemma SentCallsAreUncut(m: Message, lim: Limits, c: ToolCall)
    requires Standard(lim) && Solid(m, lim) && c in m.calls && TrimCalls(m.calls) == ConvertCalls(m.calls, lim)
    ensures !CallCut(c)
  {
    SolidCalls(m.calls);
    CallsWithinLimits(m.calls, lim);
    var i :| 0 <= i < |m.calls| && m.calls[i] == c;
    SolidKeys(c.inputKeys);
    var sent := TrimCalls(m.calls)[i];
    assert sent in TrimCalls(m.calls);
    forall k | k in c.inputKeys ensures |Trim(k)| <= 80 {
      var j :| 0 <= j < |c.inputKeys| && c.inputKeys[j] == k;
      assert TrimKeys(c.inputKeys)[j] in sent.inputKeys;
    }
  }

  lemma SentWholeIsUncut(m: Message, lim: Limits)
    requires Standard(lim) && Solid(m, lim) && SentFor(Whole(m, lim), m, lim) && |Whole(m, lim).text| <= 3000
    ensures MessageUncut(m)
  {
    forall c | c in m.calls ensures !CallCut(c) { SentCallsAreUncut(m, lim, c); }
  }

  lemma UncutIsNotTruncated(ms: seq<Message>)
    ensures |ms| <= 96 && TrimmedText(ms) <= 48000 && (forall m | m in ms :: MessageUncut(m)) ==> !Truncated(ms)
  { }

  lemma LosslessIsUncut(ms: seq<Message>, lim: Limits, i: nat)
    requires Standard(lim) && i < |ms| && Solid(ms[i], lim)
    requires var sent := ConvertRouteMessages(ms, lim);
             |sent| == |ms| && sent[i] == Whole(ms[i], lim) && SentFor(sent[i], ms[i], lim)
    ensures MessageUncut(ms[i])
  {
    SentWithinLimits(ms, lim);
    hide ConvertRouteMessages, SentFor, Solid, Whole, TotalText, MessageUncut;
    assert ConvertRouteMessages(ms, lim)[i] in ConvertRouteMessages(ms, lim);
    SentWholeIsUncut(ms[i], lim);
  }

  lemma LosslessIsNotTruncated(ms: seq<Message>, lim: Limits)
    requires Standard(lim) && forall m | m in ms :: Solid(m, lim)
    requires ConvertRouteMessages(ms, lim) == AllWhole(ms, lim)
    ensures !Truncated(ms)
  {
    hide ConvertRouteMessages, AllWhole, Solid, Truncated, TotalText, TrimmedText, Sources, SentFor, MessageUncut;
    hide Whole;
    UncutIsNotTruncated(ms);
    SentWithinLimits(ms, lim);
    SolidMessages(ms, lim);
    var at := SentInOrder(ms, lim);
    assert |ms| <= 96;
    SameSources(ms, at, AllWhole(ms, lim), lim);
    forall m | m in ms ensures MessageUncut(m) {
      var i :| 0 <= i < |ms| && ms[i] == m;
      LosslessIsUncut(ms, lim, i);
    }
  }

  // Ascending positions, as many as there are messages, are all of them.
  lemma SameSources(ms: seq<Message>, at: seq<nat>, sent: seq<RouteMessage>, lim: Limits)
    requires Sources(sent, ms, at, 0, lim) && |sent| == |ms|
    ensures forall i | 0 <= i < |ms| :: at[i] == i && SentFor(sent[i], ms[i], lim)
  {
    hide SentFor, AlwaysSent;
    forall i | 0 <= i < |ms| ensures at[i] >= i { AtLeast(at, i); }
    forall i | 0 <= i < |ms| ensures at[i] <= i { AtMost(at, |ms|, i); }
  }

  lemma {:induction false} AtLeast(at: seq<nat>, i: nat)
    requires i < |at| && forall i, j | 0 <= i < j < |at| :: at[i] < at[j]
    ensures at[i] >= i
  {
    if i > 0 { AtLeast(at, i - 1); }
  }

  lemma {:induction false} AtMost(at: seq<nat>, n: nat, i: nat)
    requires |at| == n && i < n && (forall i | 0 <= i < n :: at[i] < n)
    requires forall i, j | 0 <= i < j < |at| :: at[i] < at[j]
    ensures at[i] <= i
    decreases n - i
  {
    if i < n - 1 { AtMost(at, n, i + 1); }
  }

  /** On messages without blank parts the report is exact: they are reported truncated if and
      only if what is sent is not all of them, whole but for white space. */
  lemma TruncatedExactlyWhenLossy(ms: seq<Message>, lim: Limits)
    requires Standard(lim) && forall m | m in ms :: Solid(m, lim)
    ensures Truncated(ms) <==> ConvertRouteMessages(ms, lim) != AllWhole(ms, lim)
  {
    if !Truncated(ms) { NotTruncatedIsLossless(ms, lim); }
    if ConvertRouteMessages(ms, lim) == AllWhole(ms, lim) { LosslessIsNotTruncated(ms, lim); }
  }

  /** The report says nothing of tool-result IDs: clearing or lengthening results never
      changes it, though their IDs are clipped to 80 bytes. */
  lemma {:induction false} ReportIgnoresResults(ms: seq<Message>, others: seq<Message>)
    requires |ms| == |others|
    requires forall i | 0 <= i < |ms| :: others[i].text == ms[i].text && others[i].calls == ms[i].calls
    ensures Truncated(ms) <==> Truncated(others)
  {
    SameTrimmedText(ms, others);
    ReportImplies(ms, others);
    ReportImplies(others, ms);
  }

  lemma ReportImplies(ms: seq<Message>, others: seq<Message>)
    requires |ms| == |others| && TrimmedText(ms) == TrimmedText(others)
    requires forall i | 0 <= i < |ms| :: others[i].text == ms[i].text && others[i].calls == ms[i].calls
    ensures Truncated(ms) ==> Truncated(others)
  {
    if m :| m in ms && |Trim(m.text)| > 3000 {
      var i :| 0 <= i < |ms| && ms[i] == m;
      assert others[i] in others;
    }
    if m :| m in ms && exists c | c in m.calls :: CallCut(c) {
      var i :| 0 <= i < |ms| && ms[i] == m;
      assert others[i] in others;
    }
  }

  lemma {:induction false} SameTrimmedText(ms: seq<Message>, others: seq<Message>)
    requires |ms| == |others| && forall i | 0 <= i < |ms| :: others[i].text == ms[i].text
    ensures TrimmedText(ms) == TrimmedText(others)
  {
    if ms != [] {
      forall i | 0 <= i < |ms[1..]| ensures others[1..][i].text == ms[1..][i].text {
        assert others[i + 1].text == ms[i + 1].text;
      }
      SameTrimmedText(ms[1..], others[1..]);
    }
  }

  // ---------------------------------------------------------------------- the loops ----

  function Reversed(s: seq<RouteMessage>): seq<RouteMessage> {
    if s == [] then [] else Reversed(s[1..]) + [s[0]]
  }

  lemma {:induction false} ReversedAppend(s: seq<RouteMessage>, x: RouteMessage)
    ensures Reversed(s + [x]) == [x] + Reversed(s)
    decreases |s|
  {
    if s != [] {
      assert (s + [x])[1..] == s[1..] + [x];
      ReversedAppend(s[1..], x);
    } else {
      assert s + [x] == [x];
    }
  }

  lemma PushKept(front: seq<RouteMessage>, kept: seq<RouteMessage>, reversed: seq<RouteMessage>)
    requires |kept| <= 1
    ensures (front + kept) + Reversed(reversed) == front + Reversed(reversed + kept)
  {
    if kept == [] {
      assert reversed + kept == reversed;
    } else {
      assert kept == [kept[0]];
      ReversedAppend(reversed, kept[0]);
    }
  }

  lemma ClipKeysStep(done: seq<string>, keys: seq<string>, j: nat, limit: int)
    requires j < |keys|
    ensures var one := if Clip(keys[j], limit) != "" then [Clip(keys[j], limit)] else [];
            (done + one) + ClipKeys(keys[j + 1..], limit) == done + ClipKeys(keys[j..], limit)
  {
    hide Clip;
    assert keys[j..][0] == keys[j] && keys[j..][1..] == keys[j + 1..];
  }

  method ClipKeysLoop(keys: seq<string>, limit: int) returns (out: seq<string>)
    ensures out == ClipKeys(keys, limit)
  {
    hide Clip, ClipKeys;
    out := [];
    assert keys[0..] == keys;
    for j := 0 to |keys|
      invariant out + ClipKeys(keys[j..], limit) == ClipKeys(keys, limit)
    {
      ClipKeysStep(out, keys, j, limit);
      var clipped := Clip(keys[j], limit);
      if clipped != "" {
        out := out + [clipped];
      } else {
        assert out + [] == out;
      }
    }
    NoKeys(keys, limit);
  }

  lemma NoKeys(keys: seq<string>, limit: int)
    ensures ClipKeys(keys[|keys|..], limit) == []
  { }

  method ConvertOneCall(c: ToolCall, lim: Limits) returns (out: seq<RouteCall>)
    ensures out == ConvertCall(c, lim)
  {
    var name := Clip(c.name, lim.maxInputChars);
    if name == "" {
      return [];
    }
    var inputKeys := ClipKeysLoop(TakeKeys(c.inputKeys, lim.maxInputKeys), lim.maxInputChars);
    return [RouteCall(name, inputKeys, if lim.includeInput then Clip(c.inputJson, lim.maxTextChars) else "")];
  }

  lemma ConvertCallsStep(done: seq<RouteCall>, calls: seq<ToolCall>, i: nat, lim: Limits)
    requires i < |calls|
    ensures (done + ConvertCall(calls[i], lim)) + ConvertCalls(calls[i + 1..], lim)
         == done + ConvertCalls(calls[i..], lim)
  {
    hide ConvertCall;
    assert calls[i..][0] == calls[i] && calls[i..][1..] == calls[i + 1..];
  }

  lemma NoCalls(calls: seq<ToolCall>, lim: Limits)
    ensures ConvertCalls(calls[|calls|..], lim) == []
  { }

  method ConvertCallsLoop(calls: seq<ToolCall>, lim: Limits) returns (out: seq<RouteCall>)
    ensures out == ConvertCalls(calls, lim)
  {
    hide ConvertCall, ConvertCalls;
    out := [];
    assert calls[0..] == calls;
    for i := 0 to |calls|
      invariant out + ConvertCalls(calls[i..], lim) == ConvertCalls(calls, lim)
    {
      ConvertCallsStep(out, calls, i, lim);
      var one := ConvertOneCall(calls[i], lim);
      out := out + one;
    }
    NoCalls(calls, lim);
  }

  // One message of the walk: what it adds, at most one, and the text it spends.
  method ConvertOne(m: Message, used: nat, lim: Limits) returns (kept: seq<RouteMessage>, spent: nat)
    ensures kept == Kept(m, used, lim) && spent == Spent(m, used, lim) && |kept| <= 1
  {
    if lim.roleOf(m.role) == "" {
      return [], 0;
    }
    var text := BudgetedText(m.text, used, lim);
    var calls := ConvertCallsLoop(m.calls, lim);
    var c := RouteMessage(lim.roleOf(m.role), text, calls, ConvertResults(m.results, lim));
    if text == "" && |c.calls| == 0 && |c.results| == 0 {
      return [], 0;
    }
    return [c], |text|;
  }

  lemma WalkedStep(w: seq<Message>, i: nat, used: nat, turn: (Message, nat) -> (seq<RouteMessage>, nat))
    requires i < |w|
    ensures WalkedBack(w[..i + 1], used, turn)
         == WalkedBack(w[..i], used + turn(w[i], used).1, turn) + turn(w[i], used).0
  {
    assert w[..i + 1][|w[..i + 1]| - 1] == w[i] && w[..i + 1][..i] == w[..i];
  }

  // One step of the backward walk.
  method StepBack(w: seq<Message>, i: nat, used: nat, reversed: seq<RouteMessage>, lim: Limits,
                  ghost turn: (Message, nat) -> (seq<RouteMessage>, nat))
    returns (used': nat, reversed': seq<RouteMessage>)
    requires i < |w| && turn(w[i], used) == (Kept(w[i], used, lim), Spent(w[i], used, lim))
    ensures WalkedBack(w[..i], used', turn) + Reversed(reversed')
         == WalkedBack(w[..i + 1], used, turn) + Reversed(reversed)
  {
    WalkedStep(w, i, used, turn);
    var kept, spent := ConvertOne(w[i], used, lim);
    PushKept(WalkedBack(w[..i], used + spent, turn), kept, reversed);
    return used + spent, reversed + kept;
  }

  // The backward walk.
  method WalkBack(w: seq<Message>, lim: Limits, ghost turn: (Message, nat) -> (seq<RouteMessage>, nat))
    returns (reversed: seq<RouteMessage>)
    requires forall m, u: nat {:trigger Kept(m, u, lim)} :: turn(m, u) == (Kept(m, u, lim), Spent(m, u, lim))
    ensures Reversed(reversed) == WalkedBack(w, 0, turn)
  {
    reversed := [];
    var totalText: nat := 0;
    var i := |w|;
    assert w[..|w|] == w;
    while i > 0
      invariant 0 <= i <= |w|
      invariant WalkedBack(w[..i], totalText, turn) + Reversed(reversed) == WalkedBack(w, 0, turn)
    {
      i := i - 1;
      totalText, reversed := StepBack(w, i, totalText, reversed, lim, turn);
    }
    assert WalkedBack(w[..0], totalText, turn) == [];
  }

  /** convertRouteMessages: walks the window backwards, then reverses what it kept. */
  method ConvertRouteMessagesLoop(ms: seq<Message>, lim: Limits) returns (out: seq<RouteMessage>)
    ensures out == ConvertRouteMessages(ms, lim)
  {
    var w := Window(ms, lim);
    var reversed := WalkBack(w, lim, Turn(lim));
    out := Reverse(reversed);
  }

  method Reverse(reversed: seq<RouteMessage>) returns (out: seq<RouteMessage>)
    ensures out == Reversed(reversed)
  {
    out := [];
    var i := |reversed|;
    assert reversed[..|reversed|] == reversed;
    while i > 0
      invariant 0 <= i <= |reversed|
      invariant out + Reversed(reversed[..i]) == Reversed(reversed)
    {
      i := i - 1;
      assert reversed[..i + 1] == reversed[..i] + [reversed[i]];
      ReversedAppend(reversed[..i], reversed[i]);
      assert out + ([reversed[i]] + Reversed(reversed[..i])) == (out + [reversed[i]]) + Reversed(reversed[..i]);
      out := out + [reversed[i]];
    }
    assert reversed[..0] == [];
  }

  /** routeMessagesTruncated. */
  method RouteMessagesTruncated(ms: seq<Message>) returns (truncated: bool)
    ensures truncated == Truncated(ms)
  {
    if |ms| > 96 {
      return true;
    }
    var total: nat := 0;
    for i := 0 to |ms|
      invariant total == TrimmedText(ms[..i]) <= 48000
      invariant forall m | m in ms[..i] :: |Trim(m.text)| <= 3000 && forall c | c in m.calls :: !CallCut(c)
    {
      var m := ms[i];
      assert ms[..i + 1] == ms[..i] + [m] && m in ms;
      TrimmedSplit(ms[..i], [m]);
      assert TrimmedText([m]) == |Trim(m.text)|;
      if |Trim(m.text)| > 3000 {
        return true;
      }
      total := total + |Trim(m.text)|;
      if total > 48000 {
        assert ms == ms[..i + 1] + ms[i + 1..];
        TrimmedSplit(ms[..i + 1], ms[i + 1..]);
        return true;
      }
      for j := 0 to |m.calls|
        invariant forall c | c in m.calls[..j] :: !CallCut(c)
      {
        assert m.calls[..j + 1] == m.calls[..j] + [m.calls[j]] && m.calls[j] in m.calls;
        if CallCut(m.calls[j]) {
          return true;
        }
      }
      assert m.calls[..|m.calls|] == m.calls;
    }
    assert ms[..|ms|] == ms;
    return false;
  }
}
