/** Loop signals read off one request's full tool-call history: the wide re-read cycle of
    internal/proxy/loop_detection.go and the stateless signals of spiral_detection.go. */
module LoopDetectors {
  import opened Wrappers

  const NUL := '\0'

  // A rendered input digest: hexadecimal text, so never a NUL.
  type Hash = s: string | NUL !in s

  datatype Sig = Sig(name: string, hash: Hash)

  const NO_SIG := Sig("", "")

  // `edits` below is any set of tools whose calls count as progress; the router's is Edit,
  // Write, MultiEdit and NotebookEdit.

  const WINDOW_SIZE := 30
  const MIN_CALLS := 24
  const REPEAT_WINDOW := 12

  // The map key a signature is counted under.
  function Key(s: Sig): string { s.name + [NUL] + s.hash }

  // The last NUL of a key is the separator, so equal keys split at the same place.
  lemma LastNulSeparates(a: Sig, b: Sig)
    requires Key(a) == Key(b)
    ensures |a.name| >= |b.name|
  {
    var k := Key(a);
    assert forall i | |a.name| < i < |k| :: k[i] in a.hash;
    assert k[|b.name|] == NUL;
  }

  /** The counting key tells signatures apart, whatever the tool names hold. */
  lemma KeyTellsApart(a: Sig, b: Sig)
    requires Key(a) == Key(b)
    ensures a == b
  {
    LastNulSeparates(a, b);
    LastNulSeparates(b, a);
    assert a.name == Key(a)[..|a.name|] && b.name == Key(b)[..|b.name|];
    assert a.hash == Key(a)[|a.name| + 1..] && b.hash == Key(b)[|b.name| + 1..];
  }

  // ------------------------------------------------------------ counting signatures ----

  function Distinct(w: seq<Sig>): set<Sig> { set s | s in w }

  // The entry of key k counts the signature keys[k] in w.
  predicate Entry(w: seq<Sig>, counts: map<string, nat>, keys: map<string, Sig>, k: string) {
    && k in counts && k in keys
    && Key(keys[k]) == k && keys[k] in w && counts[k] == multiset(w)[keys[k]]
  }

  // counts and keys hold exactly the signatures of w, with their multiplicities.
  predicate Tallies(w: seq<Sig>, counts: map<string, nat>, keys: map<string, Sig>) {
    && (forall s | s in w :: Key(s) in counts)
    && (forall k | k in counts :: Entry(w, counts, keys, k))
    && |counts| == |Distinct(w)|
  }

  lemma EntryGrows(w: seq<Sig>, counts: map<string, nat>, keys: map<string, Sig>, s: Sig, k: string)
    requires Entry(w, counts, keys, k) && k != Key(s)
    ensures multiset(w + [s])[keys[k]] == counts[k]
  {
    assert keys[k] != s;
  }

  lemma DistinctGrows(w: seq<Sig>, s: Sig)
    ensures Distinct(w + [s]) == Distinct(w) + {s}
  { }

  lemma SizeGrows(counts: map<string, nat>, d: set<Sig>, key: string, s: Sig, n: nat)
    requires |counts| == |d| && (key in counts <==> s in d)
    ensures |counts[key := n]| == |d + {s}|
  {
    if key in counts {
      assert d + {s} == d;
      assert counts[key := n].Keys == counts.Keys;
    } else {
      assert counts[key := n].Keys == counts.Keys + {key};
    }
  }

  lemma KnownKey(w: seq<Sig>, counts: map<string, nat>, keys: map<string, Sig>, s: Sig)
    requires Tallies(w, counts, keys)
    ensures Key(s) in counts <==> s in w
  {
    if Key(s) in counts {
      assert Entry(w, counts, keys, Key(s));
      KeyTellsApart(keys[Key(s)], s);
    }
  }

  lemma OccurrencesGrow(w: seq<Sig>, counts: map<string, nat>, keys: map<string, Sig>, s: Sig)
    requires Tallies(w, counts, keys)
    ensures multiset(w + [s])[s] == (if Key(s) in counts then counts[Key(s)] else 0) + 1
  {
    if Key(s) in counts {
      assert Entry(w, counts, keys, Key(s));
      KeyTellsApart(keys[Key(s)], s);
    } else {
      assert s !in w;
    }
  }

  // counts[key]++ (and keys[key] = s).
  method CountOne(ghost w: seq<Sig>, counts: map<string, nat>, ghost keys: map<string, Sig>, s: Sig)
    returns (counts': map<string, nat>)
    requires Tallies(w, counts, keys)
    ensures Tallies(w + [s], counts', keys[Key(s) := s])
  {
    var key := Key(s);
    counts' := counts[key := (if key in counts then counts[key] else 0) + 1];
    OccurrencesGrow(w, counts, keys, s);
    KnownKey(w, counts, keys, s);
    DistinctGrows(w, s);
    SizeGrows(counts, Distinct(w), key, s, counts'[key]);
    forall k | k in counts' ensures Entry(w + [s], counts', keys[key := s], k) {
      if k != key { EntryGrows(w, counts, keys, s, k); }
    }
  }

  lemma TallyOf(w: seq<Sig>, counts: map<string, nat>, keys: map<string, Sig>, s: Sig)
    requires Tallies(w, counts, keys) && s in w
    ensures Key(s) in counts && keys[Key(s)] == s && counts[Key(s)] == multiset(w)[s]
  {
    assert Entry(w, counts, keys, Key(s));
    KeyTellsApart(keys[Key(s)], s);
  }

  // If no element of m occurs more than most times, m has at most most times |d| elements.
  lemma {:induction false} Pigeonhole(m: multiset<Sig>, d: set<Sig>, most: nat)
    requires forall s | s in m :: s in d && m[s] <= most
    ensures |m| <= most * |d|
    decreases |d|
  {
    if d == {} {
      assert m == multiset{};
    } else {
      var s :| s in d;
      var rest := m[s := 0];
      Pigeonhole(rest, d - {s}, most);
      assert |m| == |rest| + m[s];
      assert most * |d| == most * |d - {s}| + most;
    }
  }

  // ------------------------------------------------------------- the wide re-read cycle ----

  function Window(sigs: seq<Sig>): seq<Sig> {
    if |sigs| > WINDOW_SIZE then sigs[|sigs| - WINDOW_SIZE..] else sigs
  }

  predicate EditFree(edits: set<string>, w: seq<Sig>) { forall s | s in w :: s.name !in edits }

  // Few distinct signatures for the window's length: a ratio below two fifths.
  predicate Narrow(w: seq<Sig>) { 5 * |Distinct(w)| < 2 * |w| }

  function Ratio(w: seq<Sig>): real
    requires w != []
  {
    |Distinct(w)| as real / |w| as real
  }

  predicate Cycles(edits: set<string>, sigs: seq<Sig>) {
    |sigs| >= MIN_CALLS && EditFree(edits, Window(sigs)) && Narrow(Window(sigs))
  }

  /** When a run of calls is a wide re-read cycle: there are 24 of them or more, and of the last
      30 none is an edit and fewer than two in five are different. */
  lemma CyclesExactlyWhen(edits: set<string>, sigs: seq<Sig>)
    ensures Cycles(edits, sigs) <==>
            var w := if |sigs| <= 30 then sigs else sigs[|sigs| - 30..];
            && |sigs| >= 24 && (forall s | s in w :: s.name !in edits) && 5 * |set s | s in w| < 2 * |w|
  { }

  lemma NothingTallied()
    ensures Tallies([], map[], map[])
  {
    assert Distinct([]) == {};
  }

  method Tally(edits: set<string>, w: seq<Sig>) returns (edit: bool, counts: map<string, nat>, keys: map<string, Sig>)
    ensures edit <==> !EditFree(edits, w)
    ensures !edit ==> Tallies(w, counts, keys)
  {
    hide Tallies;
    counts, keys := map[], map[];
    ghost var seen: seq<Sig> := [];
    NothingTallied();
    for i := 0 to |w|
      invariant seen == w[..i]
      invariant EditFree(edits, seen)
      invariant Tallies(seen, counts, keys)
    {
      var s := w[i];
      if s.name in edits {
        assert s in w;
        return true, counts, keys;
      }
      counts := CountOne(seen, counts, keys, s);
      keys := keys[Key(s) := s];
      EditFreeGrows(edits, seen, s);
      seen := seen + [s];
    }
    assert seen == w;
    edit := false;
  }

  lemma EditFreeGrows(edits: set<string>, w: seq<Sig>, s: Sig)
    requires EditFree(edits, w) && s.name !in edits
    ensures EditFree(edits, w + [s])
  { }

  // The most frequent tallied signature; ties fall to map iteration order.
  method Commonest(ghost w: seq<Sig>, counts: map<string, nat>, keys: map<string, Sig>)
    returns (top: Sig, topCount: nat)
    requires w != [] && Tallies(w, counts, keys)
    ensures IsCommonest(w, top, topCount)
  {
    top, topCount := NO_SIG, 0;
    var left := counts.Keys;
    while left != {}
      invariant left <= counts.Keys
      invariant forall k | k in counts && k !in left :: counts[k] <= topCount
      invariant topCount == 0 || (top in w && topCount == multiset(w)[top])
      decreases |left|
    {
      var k :| k in left;
      assert Entry(w, counts, keys, k);
      if counts[k] > topCount {
        topCount, top := counts[k], keys[k];
      }
      left := left - {k};
    }
    forall s ensures multiset(w)[s] <= topCount {
      if s in w { TallyOf(w, counts, keys, s); }
    }
    assert w[0] in w && multiset(w)[w[0]] > 0;
  }

  predicate NoneAbove(w: seq<Sig>, most: int) { forall s | s in w :: multiset(w)[s] <= most }

  // top is in w, topCount times, and nothing is there more often.
  predicate IsCommonest(w: seq<Sig>, top: Sig, topCount: nat) {
    top in w && topCount == multiset(w)[top] && NoneAbove(w, topCount)
  }

  /** Fires exactly on a wide re-read cycle, and then some signature occurs at least three
      times: the one reported, whose count is the window's highest. */
  method DetectCyclicToolCallLoop(edits: set<string>, sigs: seq<Sig>)
    returns (looped: bool, top: Sig, topCount: nat, ratio: real, total: nat)
    ensures looped <==> Cycles(edits, sigs)
    ensures looped ==> IsCommonest(Window(sigs), top, topCount) && topCount >= 3
    ensures !looped ==> top == NO_SIG && topCount == 0
    ensures total == if |sigs| < MIN_CALLS then 0 else |Window(sigs)|
    ensures total > 0 && EditFree(edits, Window(sigs)) ==> ratio == Ratio(Window(sigs))
  {
    if |sigs| < MIN_CALLS {
      return false, NO_SIG, 0, 0.0, 0;
    }
    var start := 0;
    if |sigs| > WINDOW_SIZE {
      start := |sigs| - WINDOW_SIZE;
    }
    var window := sigs[start..];
    assert window == Window(sigs);
    looped, top, topCount, ratio := JudgeWindow(edits, window);
    total := |window|;
  }

  // The rest of detectCyclicToolCallLoop, over the chosen window.
  method JudgeWindow(edits: set<string>, window: seq<Sig>) returns (looped: bool, top: Sig, topCount: nat, ratio: real)
    requires window != []
    ensures looped <==> EditFree(edits, window) && Narrow(window)
    ensures looped ==> IsCommonest(window, top, topCount) && topCount >= 3
    ensures !looped ==> top == NO_SIG && topCount == 0
    ensures EditFree(edits, window) ==> ratio == Ratio(window)
  {
    var edit, counts, keys := Tally(edits, window);
    if edit {
      return false, NO_SIG, 0, 0.0;
    }
    ratio := |counts| as real / |window| as real;
    RatioIsNarrow(window);
    if ratio >= 0.4 {
      return false, NO_SIG, 0, ratio;
    }
    top, topCount := Commonest(window, counts, keys);
    NarrowRepeats(window, topCount);
    looped := true;
  }

  lemma RatioBelow(count: real, n: real)
    requires n > 0.0
    ensures count / n >= 0.4 <==> count >= 0.4 * n
  {
    var ratio := count / n;
    assert ratio * n == count;
  }

  // Two counts up to thirty: their ratio, rounded to a double, compares with two fifths as
  // the exact ratio does.
  lemma RatioIsNarrow(w: seq<Sig>)
    requires w != []
    ensures Ratio(w) >= 0.4 <==> !Narrow(w)
  {
    RatioBelow(|Distinct(w)| as real, |w| as real);
    ScaleByFive(|Distinct(w)|, |w|);
  }

  lemma ScaleByFive(count: nat, n: nat)
    ensures count as real >= 0.4 * n as real <==> 5 * count >= 2 * n
  { }

  /** The pigeonhole behind the detector: a narrow window repeats something three times. */
  lemma NarrowRepeats(w: seq<Sig>, most: nat)
    requires Narrow(w) && NoneAbove(w, most)
    ensures most >= 3
  {
    assert !NoneAbove(w, 2) by {
      if NoneAbove(w, 2) { Pigeonhole(multiset(w), Distinct(w), 2); }
    }
    assert most <= 2 ==> NoneAbove(w, 2);
  }

  // ---------------------------------------------------------------- A/B/A/B alternation ----

  function Last<T>(s: seq<T>, n: nat): seq<T>
    requires n <= |s|
  {
    s[|s| - n..]
  }

  // s is a, b, a, b, ... for two different signatures.
  predicate AlternationOf(s: seq<Sig>, a: Sig, b: Sig) {
    a != b && forall i | 0 <= i < |s| :: s[i] == if i % 2 == 0 then a else b
  }

  ghost predicate Alternates(s: seq<Sig>) { exists a, b :: AlternationOf(s, a, b) }

  // Each signature reappears two places later.
  predicate StepsByTwo(s: seq<Sig>) { forall i | 0 <= i && i + 2 < |s| :: s[i] == s[i + 2] }

  lemma {:induction false} SteppingIsConstant(s: seq<Sig>, i: nat)
    requires StepsByTwo(s) && i < |s|
    ensures s[i] == s[i % 2]
  {
    if i >= 2 {
      SteppingIsConstant(s, i - 2);
      assert s[i - 2] == s[i - 2 + 2];
    }
  }

  lemma AlternatingSteps(s: seq<Sig>, a: Sig, b: Sig)
    requires |s| >= 2 && AlternationOf(s, a, b)
    ensures s[|s| - 1] != s[|s| - 2] && StepsByTwo(s)
  {
    forall i | 0 <= i && i + 2 < |s| ensures s[i] == s[i + 2] {
      assert i % 2 == (i + 2) % 2;
    }
  }

  lemma SteppingAlternates(s: seq<Sig>)
    requires |s| >= 2 && s[|s| - 1] != s[|s| - 2] && StepsByTwo(s)
    ensures AlternationOf(s, s[0], s[1])
  {
    SteppingIsConstant(s, |s| - 1);
    SteppingIsConstant(s, |s| - 2);
    forall i | 0 <= i < |s| ensures s[i] == if i % 2 == 0 then s[0] else s[1] { SteppingIsConstant(s, i); }
    assert (|s| - 1) % 2 != (|s| - 2) % 2;
  }

  lemma AlternatesIsStepping(s: seq<Sig>)
    requires |s| >= 2
    ensures Alternates(s) <==> s[|s| - 1] != s[|s| - 2] && StepsByTwo(s)
  {
    if Alternates(s) {
      var a, b :| AlternationOf(s, a, b);
      AlternatingSteps(s, a, b);
    }
    if s[|s| - 1] != s[|s| - 2] && StepsByTwo(s) {
      SteppingAlternates(s);
    }
  }

  lemma StepsByTwoGrows(sigs: seq<Sig>, i: nat)
    requires i + 2 < |sigs|
    ensures StepsByTwo(sigs[i..]) <==> StepsByTwo(sigs[i + 1..]) && sigs[i] == sigs[i + 2]
  {
    var wide, tail := sigs[i..], sigs[i + 1..];
    assert forall j | 0 <= j < |tail| :: tail[j] == wide[j + 1];
    if StepsByTwo(wide) {
      assert wide[0] == wide[0 + 2];
      forall j | 0 <= j && j + 2 < |tail| ensures tail[j] == tail[j + 2] { assert wide[j + 1] == wide[j + 1 + 2]; }
    }
    if StepsByTwo(tail) && sigs[i] == sigs[i + 2] {
      forall j | 0 <= j && j + 2 < |wide| ensures wide[j] == wide[j + 2] {
        if j > 0 { assert tail[j - 1] == tail[j - 1 + 2]; }
      }
    }
  }

  ghost predicate NothingLongerAlternates(sigs: seq<Sig>, n: nat) {
    forall m | n < m <= |sigs| :: !Alternates(Last(sigs, m))
  }

  /** The length of the longest suffix strictly alternating two distinct signatures, or
      zero when that is under four. */
  method TrailingPingPongLen(sigs: seq<Sig>) returns (len: nat)
    ensures len == 0 || 4 <= len <= |sigs|
    ensures len > 0 ==> Alternates(Last(sigs, len)) && NothingLongerAlternates(sigs, len)
    ensures len == 0 ==> NothingLongerAlternates(sigs, 3)
  {
    hide StepsByTwo, Alternates, Key, AlternationOf;
    if |sigs| < 4 {
      return 0;
    }
    var last, prev := sigs[|sigs| - 1], sigs[|sigs| - 2];
    if Key(last) == Key(prev) {
      KeyTellsApart(last, prev);
      EqualTailNeverAlternates(sigs);
      return 0;
    }
    assert last != prev;
    var run := CountRun(sigs);
    StoppedRunIsLongest(sigs, run);
    return if run < 4 then 0 else run;
  }

  lemma EqualTailNeverAlternates(sigs: seq<Sig>)
    requires |sigs| >= 2 && sigs[|sigs| - 1] == sigs[|sigs| - 2]
    ensures NothingLongerAlternates(sigs, 1)
  {
    forall m | 1 < m <= |sigs| ensures !Alternates(Last(sigs, m)) { AlternatesIsStepping(Last(sigs, m)); }
  }

  // The backward scan, until a call differs from the one two places later.
  method CountRun(sigs: seq<Sig>) returns (run: nat)
    requires |sigs| >= 2
    ensures 2 <= run <= |sigs| && StepsByTwo(Last(sigs, run))
    ensures run < |sigs| ==> sigs[|sigs| - run - 1] != sigs[|sigs| - run + 1]
  {
    run := 2;
    assert StepsByTwo(sigs[|sigs| - 2..]);
    hide StepsByTwo, Key;
    var i := |sigs| - 3;
    while i >= 0
      invariant -1 <= i <= |sigs| - 3 && run == |sigs| - 1 - i
      invariant StepsByTwo(sigs[i + 1..])
    {
      if Key(sigs[i]) != Key(sigs[i + 2]) {
        return;
      }
      KeyTellsApart(sigs[i], sigs[i + 2]);
      StepsByTwoGrows(sigs, i);
      run := run + 1;
      i := i - 1;
    }
  }

  lemma StoppedRunIsLongest(sigs: seq<Sig>, run: nat)
    requires 2 <= run <= |sigs| && sigs[|sigs| - 1] != sigs[|sigs| - 2]
    requires StepsByTwo(Last(sigs, run))
    requires run < |sigs| ==> sigs[|sigs| - run - 1] != sigs[|sigs| - run + 1]
    ensures Alternates(Last(sigs, run)) && NothingLongerAlternates(sigs, run)
  {
    AlternatesIsStepping(Last(sigs, run));
    forall m | run < m <= |sigs| ensures !Alternates(Last(sigs, m)) {
      AlternatesIsStepping(Last(sigs, m));
      var w, j := Last(sigs, m), m - run - 1;
      assert w[j] == sigs[|sigs| - run - 1] && w[j + 2] == sigs[|sigs| - run + 1];
    }
  }

  // ------------------------------------------------------------- steps since progress ----

  datatype Outcome = Outcome(name: string, resolved: bool, errored: bool)

  // An edit that did not come back as an error; one still in flight counts.
  predicate Progress(edits: set<string>, o: Outcome) { o.name in edits && (!o.resolved || !o.errored) }

  /** The calls made after the last progress, or zero while no edit was ever attempted. */
  method StepsSinceProgress(edits: set<string>, outcomes: seq<Outcome>) returns (steps: nat, attempted: bool)
    ensures attempted <==> exists o :: o in outcomes && o.name in edits
    ensures steps <= |outcomes|
    ensures forall o | o in Last(outcomes, steps) && o.name in edits :: o.resolved && o.errored
    ensures attempted && steps < |outcomes| ==>
              var o := outcomes[|outcomes| - 1 - steps]; o.name in edits && (!o.resolved || !o.errored)
    ensures !attempted ==> steps == 0
  {
    var lastProgress := -1;
    attempted := false;
    for i := 0 to |outcomes|
      invariant attempted <==> exists j :: 0 <= j < i && outcomes[j].name in edits
      invariant -1 <= lastProgress < i
      invariant lastProgress >= 0 ==> Progress(edits, outcomes[lastProgress])
      invariant forall j | lastProgress < j < i :: !Progress(edits, outcomes[j])
    {
      if outcomes[i].name in edits {
        attempted := true;
        if !outcomes[i].resolved || !outcomes[i].errored {
          lastProgress := i;
        }
      }
    }
    if !attempted {
      return 0, false;
    }
    steps := |outcomes| - 1 - lastProgress;
    assert Last(outcomes, steps) == outcomes[lastProgress + 1..];
  }

  // -------------------------------------------------------------- the repeat window ----

  // How many places of w hold a signature of d that occurs more than once in all.
  function RepeatsAmong(w: seq<Sig>, all: seq<Sig>, d: set<Sig>): nat {
    if w == [] then 0
    else (if w[0] in d && multiset(all)[w[0]] > 1 then 1 else 0) + RepeatsAmong(w[1..], all, d)
  }

  lemma {:induction false} OneMoreSignature(w: seq<Sig>, all: seq<Sig>, d: set<Sig>, s: Sig)
    requires s !in d
    ensures RepeatsAmong(w, all, d + {s})
         == RepeatsAmong(w, all, d) + if multiset(all)[s] > 1 then multiset(w)[s] else 0
  {
    if w != [] {
      OneMoreSignature(w[1..], all, d, s);
      assert w == [w[0]] + w[1..];
    }
  }

  lemma {:induction false} RepeatsAmongNone(w: seq<Sig>, all: seq<Sig>)
    ensures RepeatsAmong(w, all, {}) == 0
  {
    if w != [] { RepeatsAmongNone(w[1..], all); }
  }

  // The summing loop over the counts.
  method SumRepeats(w: seq<Sig>, counts: map<string, nat>, ghost keys: map<string, Sig>) returns (repeated: nat)
    requires Tallies(w, counts, keys)
    ensures repeated == RepeatsAmong(w, w, Distinct(w))
  {
    repeated := 0;
    var left := counts.Keys;
    ghost var done: set<Sig> := {};
    RepeatsAmongNone(w, w);
    while left != {}
      invariant left <= counts.Keys
      invariant forall s | s in done :: s in w && Key(s) !in left
      invariant forall k | k in counts && k !in left :: k in keys && keys[k] in done
      invariant repeated == RepeatsAmong(w, w, done)
      decreases |left|
    {
      var k :| k in left;
      assert Entry(w, counts, keys, k);
      OneMoreSignature(w, w, done, keys[k]);
      if counts[k] > 1 {
        repeated := repeated + counts[k];
      }
      done := done + {keys[k]};
      left := left - {k};
    }
    forall s | s in w ensures s in done { TallyOf(w, counts, keys, s); }
    assert done == Distinct(w);
  }

  method CountAll(w: seq<Sig>) returns (counts: map<string, nat>, ghost keys: map<string, Sig>)
    ensures Tallies(w, counts, keys)
  {
    hide Tallies;
    counts, keys := map[], map[];
    ghost var seen: seq<Sig> := [];
    NothingTallied();
    for i := 0 to |w|
      invariant seen == w[..i]
      invariant Tallies(seen, counts, keys)
    {
      var s := w[i];
      counts := CountOne(seen, counts, keys, s);
      keys := keys[Key(s) := s];
      seen := seen + [s];
    }
    assert seen == w;
  }

  /** How many of the last twelve calls repeat another of them; None while there are fewer.
      The recorded fraction is this over twelve. */
  method RepeatedInWindow(sigs: seq<Sig>) returns (repeated: Option<nat>)
    ensures repeated.None? <==> |sigs| < REPEAT_WINDOW
    ensures repeated.Some? ==> var w := Last(sigs, REPEAT_WINDOW); repeated.value == RepeatsAmong(w, w, Distinct(w))
  {
    if |sigs| < REPEAT_WINDOW {
      return None;
    }
    var w := Last(sigs, REPEAT_WINDOW);
    ghost var keys;
    var counts;
    counts, keys := CountAll(w);
    var n := SumRepeats(w, counts, keys);
    repeated := Some(n);
  }

  /** The sum over the counts is the number of places whose signature stands at another
      place too: it is zero exactly when all the calls differ. */
  lemma {:induction false} NoRepeatsExactlyWhenDistinct(w: seq<Sig>, all: seq<Sig>)
    requires forall s | s in w :: s in all
    ensures RepeatsAmong(w, all, Distinct(all)) == 0 <==> forall s | s in w :: multiset(all)[s] == 1
  {
    if w != [] {
      NoRepeatsExactlyWhenDistinct(w[1..], all);
      assert w == [w[0]] + w[1..];
      assert w[0] in w;
      assert w[0] in all;
      assert multiset(all)[w[0]] >= 1;
    }
  }
}
