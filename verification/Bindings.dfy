/** The ordered binding list a dispatch walks: resolveBindingsForDispatch and
    prioritizeSelectedArmBinding of internal/proxy/fallback.go, over one catalog row. */
module Bindings {
  import opened Wrappers

  datatype Binding = Binding(provider: string, upstreamId: string)

  datatype Indexed = Indexed(index: nat, binding: Binding)

  // The arm a policy selected, when it selected one.
  datatype Arm = Arm(upstreamId: string, index: int)

  datatype Request = Request(
    model: string,
    provider: string,                  // the routing decision's provider
    userForced: bool,
    arm: Option<Arm>,
    mayFailOver: bool,                 // shouldFailover
    keyed: Option<set<string>>,        // deploymentKeyedProviders; None in legacy mode
    struckOut: set<string>,            // providers disabled for the session
    row: Option<seq<Binding>>)         // the model's catalog row, in catalog order

  // ------------------------------------------------------------ specification ----

  // The row's bindings at available providers, with their catalog positions.
  function Enumerate(row: seq<Binding>, available: set<string>, from: nat): seq<Indexed>
    requires from <= |row|
    decreases |row| - from
  {
    if from == |row| then []
    else (if row[from].provider in available then [Indexed(from, row[from])] else [])
         + Enumerate(row, available, from + 1)
  }

  function Plain(s: seq<Indexed>): seq<Binding> {
    seq(|s|, i requires 0 <= i < |s| => s[i].binding)
  }

  function WithoutProvider(s: seq<Binding>, provider: string): seq<Binding> {
    if s == [] then []
    else (if s[0].provider != provider then [s[0]] else []) + WithoutProvider(s[1..], provider)
  }

  function WithoutIndex(s: seq<Indexed>, index: int): seq<Binding> {
    if s == [] then []
    else (if s[0].index != index then [s[0].binding] else []) + WithoutIndex(s[1..], index)
  }

  function UpstreamIdFor(model: string, upstreamId: string): string {
    if upstreamId != "" then upstreamId else model
  }

  predicate Matches(b: Indexed, provider: string, arm: Arm) {
    b.index == arm.index && b.binding.provider == provider
  }

  // The first position the arm names, or |s|.
  function ArmPosition(s: seq<Indexed>, provider: string, arm: Arm, from: nat): (k: nat)
    requires from <= |s|
    ensures from <= k <= |s|
    ensures k < |s| ==> Matches(s[k], provider, arm)
    ensures forall i | from <= i < k :: !Matches(s[i], provider, arm)
    decreases |s| - from
  {
    if from == |s| || Matches(s[from], provider, arm) then from else ArmPosition(s, provider, arm, from + 1)
  }

  function Prioritized(s: seq<Indexed>, model: string, provider: string, arm: Arm): Option<seq<Binding>> {
    var k := ArmPosition(s, provider, arm, 0);
    if k == |s| || UpstreamIdFor(model, s[k].binding.upstreamId) != arm.upstreamId then None
    else Some([s[k].binding] + WithoutIndex(s, arm.index))
  }

  predicate FailsOver(r: Request) {
    r.mayFailOver && r.keyed.Some?
  }

  // The providers failover may use at all.
  function Eligible(r: Request): set<string>
    requires r.keyed.Some?
  {
    r.keyed.value - r.struckOut
  }

  function Candidates(r: Request): seq<Indexed>
    requires r.keyed.Some?
  {
    if r.row.None? then [] else Enumerate(r.row.value, Eligible(r), 0)
  }

  function Resolve(r: Request): seq<Binding> {
    var primary := Binding(r.provider, "");
    if !FailsOver(r) then [primary]
    else
      var indexed := Candidates(r);
      var bindings := Plain(indexed);
      var struck := r.provider in r.struckOut;
      if bindings == [] then
        if struck || (r.userForced && r.row.Some?) then [] else [primary]
      else
        var prioritized := if r.arm.Some? then Prioritized(indexed, r.model, r.provider, r.arm.value) else None;
        if prioritized.Some? then prioritized.value
        else if |bindings| == 1 && !struck then [primary]
        else if bindings[0].provider != r.provider && !struck then
          [primary] + WithoutProvider(bindings, r.provider)
        else bindings
  }

  // ------------------------------------------------------------------- lemmas ----

  ghost predicate DistinctProviders(s: seq<Binding>) {
    forall i, j | 0 <= i < j < |s| :: s[i].provider != s[j].provider
  }

  ghost predicate DistinctRow(r: Request) {
    r.row.Some? ==> DistinctProviders(r.row.value)
  }

  ghost predicate Ascending(s: seq<Indexed>) {
    forall i, j | 0 <= i < j < |s| :: s[i].index < s[j].index
  }

  // Every entry of s is a binding of the row, at its own position and available.
  ghost predicate DrawnFrom(s: seq<Indexed>, row: seq<Binding>, available: set<string>, from: nat) {
    forall b | b in s :: from <= b.index < |row| && b.binding == row[b.index] && b.binding.provider in available
  }

  lemma {:induction false} EnumerateFacts(row: seq<Binding>, available: set<string>, from: nat)
    requires from <= |row|
    ensures Ascending(Enumerate(row, available, from))
    ensures DrawnFrom(Enumerate(row, available, from), row, available, from)
    decreases |row| - from
  {
    if from < |row| {
      EnumerateFacts(row, available, from + 1);
      var rest := Enumerate(row, available, from + 1);
      assert DrawnFrom(rest, row, available, from + 1);
      forall i | 0 <= i < |rest| ensures from < rest[i].index { assert rest[i] in rest; }
    }
  }

  lemma {:induction false} WithoutProviderFacts(s: seq<Binding>, provider: string)
    requires DistinctProviders(s)
    ensures var t := WithoutProvider(s, provider);
            && DistinctProviders(t)
            && (forall k | 0 <= k < |t| :: t[k] in s && t[k].provider != provider)
            && (forall b | b in s && b.provider != provider :: b in t)
  {
    if s != [] {
      forall i, j | 0 <= i < j < |s[1..]| ensures s[1..][i].provider != s[1..][j].provider {
        assert s[i + 1].provider != s[j + 1].provider;
      }
      WithoutProviderFacts(s[1..], provider);
      var t := WithoutProvider(s[1..], provider);
      forall k | 0 <= k < |t| ensures t[k].provider != s[0].provider {
        var m :| 0 <= m < |s[1..]| && s[1..][m] == t[k];
        assert s[m + 1] == t[k];
      }
    }
  }

  lemma PlainStep(s: seq<Indexed>)
    requires s != []
    ensures Plain(s) == [s[0].binding] + Plain(s[1..])
  {
  }

  lemma {:induction false} WithoutIndexSplits(s: seq<Indexed>, k: nat)
    requires k < |s| && Ascending(s)
    ensures WithoutIndex(s, s[k].index) == Plain(s[..k]) + Plain(s[k + 1..])
    decreases |s|
  {
    if k == 0 {
      WithoutAbsentIndex(s[1..], s[0].index);
      assert Plain(s[..0]) == [];
    } else {
      WithoutIndexSplits(s[1..], k - 1);
      assert s[1..][k - 1] == s[k] && s[0].index < s[k].index;
      assert s[k + 1..] == s[1..][k..];
      assert Plain(s[..k]) == [s[0].binding] + Plain(s[1..][..k - 1]) by {
        PlainStep(s[..k]);
        assert s[..k][1..] == s[1..][..k - 1];
      }
      assert WithoutIndex(s, s[k].index) == [s[0].binding] + WithoutIndex(s[1..], s[k].index);
    }
  }

  lemma {:induction false} WithoutAbsentIndex(s: seq<Indexed>, index: int)
    requires forall b | b in s :: b.index != index
    ensures WithoutIndex(s, index) == Plain(s)
  {
    if s != [] {
      WithoutAbsentIndex(s[1..], index);
      assert s[0] in s;
      assert Plain(s) == [s[0].binding] + Plain(s[1..]);
    }
  }

  lemma CandidateFacts(r: Request)
    requires r.keyed.Some? && DistinctRow(r)
    ensures var s := Candidates(r);
            && Ascending(s)
            && DistinctProviders(Plain(s))
            && (forall b | b in Plain(s) :: b.provider in r.keyed.value && b.provider !in r.struckOut)
  {
    if r.row.Some? {
      EnumerateFacts(r.row.value, Eligible(r), 0);
      var s := Candidates(r);
      assert DrawnFrom(s, r.row.value, Eligible(r), 0);
      forall i, j | 0 <= i < j < |s| ensures Plain(s)[i].provider != Plain(s)[j].provider {
        assert s[i] in s && s[j] in s && s[i].index < s[j].index;
      }
      forall b | b in Plain(s) ensures b.provider in Eligible(r) {
        var k :| 0 <= k < |s| && Plain(s)[k] == b;
        assert s[k] in s;
      }
    }
  }

  /** When the selected arm matches, the list is the eligible bindings with that arm's
      moved to the front and every other one in its catalog order. */
  lemma SelectedArmMovesToFront(r: Request, k: nat)
    requires FailsOver(r) && DistinctRow(r) && r.arm.Some?
    requires k < |Candidates(r)| && Matches(Candidates(r)[k], r.provider, r.arm.value)
    requires UpstreamIdFor(r.model, Candidates(r)[k].binding.upstreamId) == r.arm.value.upstreamId
    ensures var all := Plain(Candidates(r));
            && Resolve(r) == [all[k]] + all[..k] + all[k + 1..]
            && multiset(Resolve(r)) == multiset(all)
  {
    hide Candidates, UpstreamIdFor, WithoutProvider;
    CandidateFacts(r);
    var s, all := Candidates(r), Plain(Candidates(r));
    var at := ArmPosition(s, r.provider, r.arm.value, 0);
    assert at <= k;
    assert !(at < k);
    WithoutIndexSplits(s, k);
    assert Plain(s[..k]) == all[..k] && Plain(s[k + 1..]) == all[k + 1..];
    assert Resolve(r) == [all[k]] + (all[..k] + all[k + 1..]) == [all[k]] + all[..k] + all[k + 1..];
    FrontingPermutes(all, k);
  }

  lemma FrontingPermutes(all: seq<Binding>, k: nat)
    requires k < |all|
    ensures multiset([all[k]] + all[..k] + all[k + 1..]) == multiset(all)
  {
    assert all == all[..k] + [all[k]] + all[k + 1..];
  }

  /** The resolved list never repeats a provider, and under deployment-keyed failover
      it holds no provider struck out for the session: every binding in it is keyed and
      not struck out, or is the decision's own provider and not struck out. */
  lemma ResolvedListIsSound(r: Request)
    requires DistinctRow(r)
    ensures DistinctProviders(Resolve(r))
    ensures FailsOver(r) ==> forall b | b in Resolve(r) ::
              b.provider !in r.struckOut && (b.provider in r.keyed.value || b.provider == r.provider)
  {
    if FailsOver(r) {
      CandidateFacts(r);
      var s, all := Candidates(r), Plain(Candidates(r));
      WithoutProviderFacts(all, r.provider);
      if r.arm.Some? && all != [] {
        var k := ArmPosition(s, r.provider, r.arm.value, 0);
        if k < |s| && UpstreamIdFor(r.model, s[k].binding.upstreamId) == r.arm.value.upstreamId {
          SelectedArmMovesToFront(r, k);
          MovedDistinct(all, k);
        }
      }
    }
  }

  lemma MovedDistinct(all: seq<Binding>, k: nat)
    requires k < |all| && DistinctProviders(all)
    ensures DistinctProviders([all[k]] + all[..k] + all[k + 1..])
    ensures forall b | b in [all[k]] + all[..k] + all[k + 1..] :: b in all
  {
  }

  predicate ArmMatched(r: Request)
    requires r.keyed.Some?
  {
    r.arm.Some? && Prioritized(Candidates(r), r.model, r.provider, r.arm.value).Some?
  }

  /** Whatever provider an eligible binding is at, the resolved list reaches it, with
      one exception: a sole candidate gives way to the decision's own provider, even a
      different one, unless that provider is struck out or the selected arm matched. */
  lemma CandidateReachedExactlyWhen(r: Request, b: Binding)
    requires FailsOver(r) && DistinctRow(r) && b in Plain(Candidates(r))
    ensures (exists c | c in Resolve(r) :: c.provider == b.provider) <==>
            !(|Candidates(r)| == 1 && r.provider !in r.struckOut && !ArmMatched(r) && b.provider != r.provider)
  {
    CandidateFacts(r);
    var s, all := Candidates(r), Plain(Candidates(r));
    WithoutProviderFacts(all, r.provider);
    if ArmMatched(r) {
      var k := ArmPosition(s, r.provider, r.arm.value, 0);
      SelectedArmMovesToFront(r, k);
      assert b in multiset(all);
      assert b in Resolve(r);
    } else if |all| == 1 && r.provider !in r.struckOut {
      assert Resolve(r) == [Binding(r.provider, "")];
      assert Resolve(r)[0] in Resolve(r);
    } else if all[0].provider != r.provider && r.provider !in r.struckOut {
      assert Resolve(r)[0] == Binding(r.provider, "");
      if b.provider != r.provider { assert b in WithoutProvider(all, r.provider); }
    }
  }

  /** The list is empty exactly when failover applies, nothing is eligible, and the
      decision's own provider is struck out or the user forced a catalog model. */
  lemma EmptyExactlyWhen(r: Request)
    ensures Resolve(r) == [] <==>
            && FailsOver(r) && Candidates(r) == []
            && (r.provider in r.struckOut || (r.userForced && r.row.Some?))
  {
    if FailsOver(r) && Candidates(r) != [] { assert |Plain(Candidates(r))| > 0; }
  }

  // ------------------------------------------------------- the list, told by the row ----

  // Position j of the catalog row may serve: keyed, and not struck out.
  predicate EligibleAt(r: Request, j: int) {
    && r.keyed.Some? && r.row.Some? && 0 <= j < |r.row.value|
    && r.row.value[j].provider in r.keyed.value && r.row.value[j].provider !in r.struckOut
  }

  // The selected arm names an eligible position, at the decision's provider and with the
  // upstream ID that position serves the model under.
  predicate ArmNames(r: Request) {
    && r.arm.Some? && EligibleAt(r, r.arm.value.index)
    && var b := r.row.value[r.arm.value.index];
       b.provider == r.provider && r.arm.value.upstreamId == (if b.upstreamId == "" then r.model else b.upstreamId)
  }

  ghost predicate Sole(r: Request) {
    exists j :: EligibleAt(r, j) && forall i | EligibleAt(r, i) :: i == j
  }

  // An eligible position, and for others one at another provider than the decision's.
  predicate Wanted(r: Request, j: int, others: bool) {
    EligibleAt(r, j) && (others ==> r.row.value[j].provider != r.provider)
  }

  // The bindings at the wanted positions of the row from `from` on, in catalog order.
  function Listed(r: Request, from: nat, others: bool): seq<Binding>
    requires r.row.Some? && from <= |r.row.value|
    decreases |r.row.value| - from
  {
    if from == |r.row.value| then []
    else (if Wanted(r, from, others) then [r.row.value[from]] else []) + Listed(r, from + 1, others)
  }

  predicate Indexes(s: seq<Indexed>, j: int) { exists k :: 0 <= k < |s| && s[k].index == j }

  // The candidates are the eligible positions.
  lemma {:induction false} EnumeratedAreListed(r: Request, from: nat)
    requires r.keyed.Some? && r.row.Some? && from <= |r.row.value|
    ensures var s := Enumerate(r.row.value, Eligible(r), from);
            && Plain(s) == Listed(r, from, false)
            && (forall j :: Indexes(s, j) <==> from <= j && EligibleAt(r, j))
            && (forall k | 0 <= k < |s| :: EligibleAt(r, s[k].index) && s[k].binding == r.row.value[s[k].index])
    decreases |r.row.value| - from
  {
    if from < |r.row.value| {
      EnumeratedAreListed(r, from + 1);
      var s, rest := Enumerate(r.row.value, Eligible(r), from), Enumerate(r.row.value, Eligible(r), from + 1);
      hide Enumerate;
      if EligibleAt(r, from) {
        assert s == [Indexed(from, r.row.value[from])] + rest;
        assert Plain(s) == [r.row.value[from]] + Plain(rest);
        OneMoreIndex(r, from, rest);
      } else {
        assert s == rest;
      }
    }
  }

  lemma OneMoreIndex(r: Request, from: nat, rest: seq<Indexed>)
    requires r.row.Some? && from < |r.row.value| && EligibleAt(r, from)
    requires forall j :: Indexes(rest, j) <==> from + 1 <= j && EligibleAt(r, j)
    ensures forall j :: Indexes([Indexed(from, r.row.value[from])] + rest, j) <==> from <= j && EligibleAt(r, j)
  {
    var s := [Indexed(from, r.row.value[from])] + rest;
    forall j ensures Indexes(s, j) <==> j == from || Indexes(rest, j) {
      if Indexes(s, j) && j != from {
        var k :| 0 <= k < |s| && s[k].index == j;
        assert rest[k - 1].index == j;
      }
      if Indexes(rest, j) {
        var k :| 0 <= k < |rest| && rest[k].index == j;
        assert s[k + 1].index == j;
      }
      assert s[0].index == from;
    }
  }

  lemma WithoutFirst(b: Binding, rest: seq<Binding>, provider: string)
    ensures WithoutProvider([b] + rest, provider)
         == (if b.provider != provider then [b] else []) + WithoutProvider(rest, provider)
  {
    assert ([b] + rest)[1..] == rest;
  }

  lemma {:induction false} WithoutIsOthers(r: Request, from: nat)
    requires r.row.Some? && from <= |r.row.value|
    ensures WithoutProvider(Listed(r, from, false), r.provider) == Listed(r, from, true)
    decreases |r.row.value| - from
  {
    if from < |r.row.value| {
      WithoutIsOthers(r, from + 1);
      var b, rest := r.row.value[from], Listed(r, from + 1, false);
      if EligibleAt(r, from) {
        assert Listed(r, from, false) == [b] + rest;
        WithoutFirst(b, rest, r.provider);
      } else {
        assert Listed(r, from, false) == rest;
      }
    }
  }

  lemma {:induction false} NoneToDrop(s: seq<Binding>, provider: string)
    requires forall b | b in s :: b.provider != provider
    ensures WithoutProvider(s, provider) == s
  {
    if s != [] {
      assert s[0] in s && forall b | b in s[1..] :: b in s;
      NoneToDrop(s[1..], provider);
    }
  }

  lemma {:induction false} BetweenOthers(a: seq<Binding>, b: Binding, c: seq<Binding>, provider: string)
    requires b.provider == provider
    requires (forall x | x in a :: x.provider != provider) && forall x | x in c :: x.provider != provider
    ensures WithoutProvider(a + [b] + c, provider) == a + c
    decreases |a|
  {
    if a == [] {
      assert a + [b] + c == [b] + c && a + c == c;
      WithoutFirst(b, c, provider);
      NoneToDrop(c, provider);
    } else {
      assert a + [b] + c == [a[0]] + (a[1..] + [b] + c) && a + c == [a[0]] + (a[1..] + c);
      assert a[0] in a && forall x | x in a[1..] :: x in a;
      WithoutFirst(a[0], a[1..] + [b] + c, provider);
      BetweenOthers(a[1..], b, c, provider);
    }
  }

  // Leaving out the one binding at a provider is leaving out the provider.
  lemma DroppedIsWithout(s: seq<Binding>, k: nat, provider: string)
    requires DistinctProviders(s) && k < |s| && s[k].provider == provider
    ensures s[..k] + s[k + 1..] == WithoutProvider(s, provider)
  {
    hide WithoutProvider;
    assert s == s[..k] + [s[k]] + s[k + 1..];
    BetweenOthers(s[..k], s[k], s[k + 1..], provider);
  }

  lemma ArmMatchedExactlyWhen(r: Request)
    requires FailsOver(r) && DistinctRow(r)
    ensures ArmMatched(r) <==> ArmNames(r)
    ensures ArmMatched(r) ==>
              exists k | 0 <= k < |Candidates(r)| ::
                Candidates(r)[k] == Indexed(r.arm.value.index, r.row.value[r.arm.value.index])
  {
    if r.row.Some? && r.arm.Some? {
      EnumeratedAreListed(r, 0);
      hide Enumerate, Listed;
      var s := Candidates(r);
      var k := ArmPosition(s, r.provider, r.arm.value, 0);
      if ArmNames(r) {
        assert Indexes(s, r.arm.value.index);
        var i :| 0 <= i < |s| && s[i].index == r.arm.value.index;
        assert Matches(s[i], r.provider, r.arm.value);
      }
      if k < |s| { assert EligibleAt(r, s[k].index); }
    }
  }

  /** The whole list under deployment-keyed failover, told by the catalog row alone.  When
      nothing is eligible it is the decision's own provider or nothing.  When the decision's
      provider is struck out it is the eligible bindings in catalog order.  Otherwise it
      starts with the decision's provider, and behind it come the eligible bindings at other
      providers, in catalog order, but for a sole one the arm does not name. */
  lemma ResolvesTo(r: Request)
    requires FailsOver(r) && DistinctRow(r)
    ensures var out := Resolve(r);
            if forall j :: !EligibleAt(r, j) then
              out == if r.provider in r.struckOut || (r.userForced && r.row.Some?) then []
                     else [Binding(r.provider, "")]
            else if r.provider in r.struckOut then out == Listed(r, 0, false)
            else
              && out != [] && out[0].provider == r.provider
              && out[1..] == if Sole(r) && !ArmNames(r) then [] else Listed(r, 0, true)
  {
    hide Enumerate, Listed, WithoutProvider;
    if r.row.Some? {
      EnumeratedAreListed(r, 0);
      var s := Candidates(r);
      if s != [] {
        assert EligibleAt(r, s[0].index);
        SoleExactlyWhen(r);
        ResolvesToSome(r);
      } else {
        assert forall j :: !Indexes(s, j);
      }
    }
  }

  lemma SoleExactlyWhen(r: Request)
    requires FailsOver(r) && DistinctRow(r) && r.row.Some? && Candidates(r) != []
    ensures Sole(r) <==> |Candidates(r)| == 1
  {
    EnumeratedAreListed(r, 0);
    CandidateFacts(r);
    hide Enumerate, Listed;
    var s := Candidates(r);
    if |s| == 1 {
      forall i | EligibleAt(r, i) ensures i == s[0].index {
        assert Indexes(s, i);
      }
      assert EligibleAt(r, s[0].index);
    } else {
      assert EligibleAt(r, s[0].index) && EligibleAt(r, s[1].index) && s[0].index < s[1].index;
    }
  }

  lemma ResolvesToSome(r: Request)
    requires FailsOver(r) && DistinctRow(r) && r.row.Some? && Candidates(r) != []
    ensures var out := Resolve(r);
            if r.provider in r.struckOut then out == Listed(r, 0, false)
            else
              && out != [] && out[0].provider == r.provider
              && out[1..] == if |Candidates(r)| == 1 && !ArmNames(r) then [] else Listed(r, 0, true)
  {
    hide Enumerate, Listed, WithoutProvider, Resolve, ArmMatched, ArmNames, DistinctProviders, EligibleAt;
    EnumeratedAreListed(r, 0);
    CandidateFacts(r);
    ArmMatchedExactlyWhen(r);
    WithoutIsOthers(r, 0);
    if ArmMatched(r) {
      ResolvesToArm(r);
    } else {
      ResolvesPlainly(r);
    }
  }

  lemma ResolvesPlainly(r: Request)
    requires FailsOver(r) && DistinctRow(r) && Candidates(r) != [] && !ArmMatched(r)
    ensures var out, all := Resolve(r), Plain(Candidates(r));
            if r.provider in r.struckOut then out == all
            else
              && out != [] && out[0].provider == r.provider
              && out[1..] == if |Candidates(r)| == 1 then [] else WithoutProvider(all, r.provider)
  {
    CandidateFacts(r);
    var all := Plain(Candidates(r));
    hide Candidates, WithoutProvider;
    if all[0].provider == r.provider {
      DroppedIsWithout(all, 0, r.provider);
      assert all[..0] + all[1..] == all[1..];
    }
  }

  lemma ResolvesToArm(r: Request)
    requires FailsOver(r) && DistinctRow(r) && r.row.Some? && ArmMatched(r)
    ensures var out := Resolve(r);
            && out != [] && out[0].provider == r.provider && r.provider !in r.struckOut
            && out[1..] == WithoutProvider(Plain(Candidates(r)), r.provider)
  {
    hide Resolve, ArmMatched, Candidates, WithoutProvider, Plain, DistinctProviders, EligibleAt;
    CandidateFacts(r);
    var k := ArmStandsAt(r);
    FrontedTail(Plain(Candidates(r)), k, Resolve(r), r.provider);
  }

  lemma FrontedTail(all: seq<Binding>, k: nat, out: seq<Binding>, provider: string)
    requires DistinctProviders(all) && k < |all| && all[k].provider == provider
    requires out == [all[k]] + all[..k] + all[k + 1..]
    ensures out != [] && out[0].provider == provider && out[1..] == WithoutProvider(all, provider)
  {
    DroppedIsWithout(all, k, provider);
    assert out[1..] == all[..k] + all[k + 1..];
  }

  lemma ArmStandsAt(r: Request) returns (k: nat)
    requires FailsOver(r) && DistinctRow(r) && r.row.Some? && ArmMatched(r)
    ensures k < |Plain(Candidates(r))| && Plain(Candidates(r))[k].provider == r.provider && r.provider !in r.struckOut
    ensures var all := Plain(Candidates(r)); Resolve(r) == [all[k]] + all[..k] + all[k + 1..]
  {
    ArmMatchedExactlyWhen(r);
    hide Resolve, ArmMatched, Prioritized, Enumerate;
    k :| 0 <= k < |Candidates(r)| && Candidates(r)[k] == Indexed(r.arm.value.index, r.row.value[r.arm.value.index]);
    SelectedArmMovesToFront(r, k);
  }

  /** Every list but the empty one starts with the provider the router decided on, unless
      failover applies and that provider is struck out, and then it is nowhere in the list.
      Where failover does not apply that provider is the whole list. */
  lemma DecisionLeads(r: Request)
    requires DistinctRow(r)
    ensures !FailsOver(r) ==> Resolve(r) == [Binding(r.provider, "")]
    ensures Resolve(r) != [] ==>
              (Resolve(r)[0].provider == r.provider <==> !(FailsOver(r) && r.provider in r.struckOut))
  {
    ResolvedListIsSound(r);
    if FailsOver(r) && Resolve(r) != [] {
      ResolvesTo(r);
      assert Resolve(r)[0] in Resolve(r);
    }
  }

  /** The binding in front is the catalog's own, upstream ID and all, when the arm names it
      or it stands first among several eligible ones; otherwise only its provider is known. */
  lemma LeadBinding(r: Request)
    requires FailsOver(r) && DistinctRow(r) && Resolve(r) != [] && r.provider !in r.struckOut
    ensures var lead := Resolve(r)[0];
            if ArmNames(r) then lead == r.row.value[r.arm.value.index]
            else if |Candidates(r)| > 1 && Candidates(r)[0].binding.provider == r.provider
            then lead == Candidates(r)[0].binding
            else lead == Binding(r.provider, "")
  {
    ArmMatchedExactlyWhen(r);
    if ArmMatched(r) {
      var k :| 0 <= k < |Candidates(r)|
               && Candidates(r)[k] == Indexed(r.arm.value.index, r.row.value[r.arm.value.index]);
      SelectedArmMovesToFront(r, k);
    }
  }

  // ------------------------------------------------------------------ the loops ----

  method EnumerateBindings(row: seq<Binding>, available: set<string>) returns (out: seq<Indexed>)
    ensures out == Enumerate(row, available, 0)
  {
    out := [];
    for i := 0 to |row|
      invariant out + Enumerate(row, available, i) == Enumerate(row, available, 0)
    {
      ghost var rest := Enumerate(row, available, i + 1);
      if row[i].provider in available {
        assert Enumerate(row, available, i) == [Indexed(i, row[i])] + rest;
        assert out + ([Indexed(i, row[i])] + rest) == (out + [Indexed(i, row[i])]) + rest;
        out := out + [Indexed(i, row[i])];
      } else {
        assert Enumerate(row, available, i) == rest;
      }
    }
  }

  method PrioritizeSelectedArmBinding(bindings: seq<Indexed>, model: string, provider: string, arm: Arm)
    returns (ordered: Option<seq<Binding>>)
    ensures ordered == Prioritized(bindings, model, provider, arm)
  {
    var found := 0;
    while found < |bindings| && !Matches(bindings[found], provider, arm)
      invariant found <= |bindings|
      invariant ArmPosition(bindings, provider, arm, found) == ArmPosition(bindings, provider, arm, 0)
    {
      found := found + 1;
    }
    if found == |bindings| || UpstreamIdFor(model, bindings[found].binding.upstreamId) != arm.upstreamId {
      return None;
    }
    var out := [bindings[found].binding];
    for i := 0 to |bindings|
      invariant out + WithoutIndex(bindings[i..], arm.index)
             == [bindings[found].binding] + WithoutIndex(bindings, arm.index)
    {
      assert bindings[i..][0] == bindings[i] && bindings[i..][1..] == bindings[i + 1..];
      if bindings[i].index != arm.index {
        out := out + [bindings[i].binding];
      }
    }
    assert out + WithoutIndex(bindings[|bindings|..], arm.index) == out;
    return Some(out);
  }

  method PlainOf(indexed: seq<Indexed>) returns (bindings: seq<Binding>)
    ensures bindings == Plain(indexed)
  {
    bindings := [];
    for i := 0 to |indexed|
      invariant bindings == Plain(indexed[..i])
    {
      bindings := bindings + [indexed[i].binding];
    }
    assert indexed[..|indexed|] == indexed;
  }

  // primary first, then every binding at another provider.
  method LeadingWith(primary: Binding, bindings: seq<Binding>) returns (out: seq<Binding>)
    ensures out == [primary] + WithoutProvider(bindings, primary.provider)
  {
    out := [primary];
    for i := 0 to |bindings|
      invariant out + WithoutProvider(bindings[i..], primary.provider)
             == [primary] + WithoutProvider(bindings, primary.provider)
    {
      assert bindings[i..][0] == bindings[i] && bindings[i..][1..] == bindings[i + 1..];
      if bindings[i].provider != primary.provider {
        out := out + [bindings[i]];
      }
    }
    assert bindings[|bindings|..] == [];
  }

  /** resolveBindingsForDispatch. */
  method ResolveBindingsForDispatch(r: Request) returns (out: seq<Binding>)
    ensures out == Resolve(r)
  {
    hide Enumerate, Plain, Prioritized, WithoutProvider;
    var primary := Binding(r.provider, "");
    if !r.mayFailOver || r.keyed.None? {
      return [primary];
    }
    var available := r.keyed.value - r.struckOut;
    var struck := r.provider in r.struckOut;
    var indexed: seq<Indexed> := [];
    if r.row.Some? {
      indexed := EnumerateBindings(r.row.value, available);
    }
    var bindings := PlainOf(indexed);
    if |bindings| == 0 {
      if struck || (r.userForced && r.row.Some?) {
        return [];
      }
      return [primary];
    }
    if r.arm.Some? {
      var prioritized := PrioritizeSelectedArmBinding(indexed, r.model, r.provider, r.arm.value);
      if prioritized.Some? {
        return prioritized.value;
      }
    }
    if |bindings| == 1 && !struck {
      return [primary];
    }
    if bindings[0].provider != r.provider {
      if struck {
        return bindings;
      }
      out := LeadingWith(primary, bindings);
      return;
    }
    return bindings;
  }
}
