/** The compaction cascade of internal/proxy/compaction.go, over any body format whose edits
    keep a few laws, the two formats that do, and the per-model window checks the cascade is
    there to satisfy. */
module Compaction {
  import opened Wrappers
  import O = Envelope
  import A = AnthropicEnvelope

  // --------------------------------------------------------------------- formats ----

  // What the cascade uses of a request body: its two measures, and its edits with their
  // counts.  A summary is known by its message's bytes.
  datatype Edits<!B> = Edits(
    estimate: B -> nat,                  // ContextOverflowTokenEstimate
    savings: B -> nat,                   // SignatureTokenSavings
    clear: (B, int) -> (B, nat),         // ClearOldToolResults
    trim: (B, int) -> (B, nat),          // TrimLastNMessages
    rewrite: (B, nat, int) -> B)         // RewriteForCompaction

  predicate ClearLaw<B(==)>(f: Edits<B>, b: B, keep: int) {
    var (c, count) := f.clear(b, keep);
    (count == 0 ==> c == b) && f.savings(c) <= f.savings(b)
  }

  predicate TrimLaw<B(==)>(f: Edits<B>, b: B, n: int) {
    var (t, count) := f.trim(b, n);
    (count == 0 ==> t == b) && f.estimate(t) <= f.estimate(b) && f.savings(t) <= f.savings(b)
  }

  predicate RewriteLaw<B>(f: Edits<B>, b: B, summary: nat, keep: int) {
    f.savings(f.rewrite(b, summary, keep)) <= f.savings(b)
  }

  // A count of zero means nothing changed, trimming never raises the estimate, and no edit
  // raises the signature savings.  Nothing is said of what clearing or a summary weighs.
  ghost predicate Lawful<B(!new)>(f: Edits<B>) {
    && (forall b, keep :: ClearLaw(f, b, keep))
    && (forall b, n :: TrimLaw(f, b, n))
    && (forall b, summary, keep :: RewriteLaw(f, b, summary, keep))
  }

  const OPENAI: Edits<O.Body> := Edits(
    (b: O.Body) => O.Estimate(b),
    (b: O.Body) => 0,
    (b: O.Body, keep: int) => O.ClearOldToolResults(b, keep),
    (b: O.Body, n: int) => O.TrimLast(b, n),
    (b: O.Body, summary: nat, keep: int) => O.RewriteBehind(b, O.Message(O.Assistant, summary, 0, 0, {}, ""), keep))

  const ANTHROPIC: Edits<A.Body> := Edits(
    (b: A.Body) => A.Estimate(b),
    (b: A.Body) => A.Savings(b),
    (b: A.Body, keep: int) => A.ClearOldToolResults(b, keep),
    (b: A.Body, n: int) => A.TrimLast(b, n),
    (b: A.Body, summary: nat, keep: int) => A.RewriteBehind(b, summary, keep))

  /** Both formats the cascade runs on keep the laws. */
  lemma FormatsAreLawful()
    ensures Lawful(OPENAI) && Lawful(ANTHROPIC)
  {
    forall b, n ensures ClearLaw(OPENAI, b, n) && TrimLaw(OPENAI, b, n) {
      O.ClearingLongResultsNeverRaises(b, n);
      O.TrimNeverRaises(b, n);
    }
    forall b, n ensures ClearLaw(ANTHROPIC, b, n) && TrimLaw(ANTHROPIC, b, n) {
      A.ClearingLongResultsNeverRaises(b, n);
      A.TrimNeverRaises(b, n);
    }
    forall b, summary, keep ensures RewriteLaw(ANTHROPIC, b, summary, keep) {
      A.RewriteKeepsNoMoreSignatures(b, summary, keep);
    }
  }

  // ------------------------------------------------------------------- policies ----

  datatype Policy = Policy(recentTurns: int, toolResultKeep: int, deferToClient: bool, clientBuffer: int)

  function PolicyFor(clientApp: string): Policy {
    if clientApp == "claude-code" then Policy(12, 5, true, 13_000) else Policy(12, 5, false, 0)
  }

  // WithCompaction: zero disables the cascade, and an out-of-range fraction is replaced.
  function TriggerPct(configured: real): (pct: real)
    ensures 0.0 <= pct <= 1.0
  {
    if configured < 0.0 || configured > 1.0 then 0.85 else configured
  }

  // --------------------------------------------------------------------- windows ----

  // The catalog, as far as context windows go.
  datatype Catalog = Catalog(
    window: string -> int,                     // the model-level window
    bindingWindow: (string, string) -> int,    // by model and provider
    providers: string -> seq<string>,
    strips: string -> bool)                    // drops Anthropic signatures

  function MinOver(c: Catalog, model: string, ps: seq<string>, enabled: set<string>, best: int): (w: int)
    ensures w <= best
    ensures forall p | p in ps && p in enabled :: w <= c.bindingWindow(model, p)
    ensures w == best || exists p | p in ps && p in enabled :: w == c.bindingWindow(model, p)
  {
    if ps == [] then best
    else
      var w := c.bindingWindow(model, ps[0]);
      MinOver(c, model, ps[1..], enabled, if ps[0] in enabled && w < best then w else best)
  }

  // The smallest window any enabled binding of the model may serve with.
  function MinWindow(c: Catalog, model: string, enabled: set<string>): int {
    if enabled == {} then c.window(model)
    else MinOver(c, model, c.providers(model), enabled, c.window(model))
  }

  function EffectiveWindow(c: Catalog, model: string, enabled: set<string>, savings: int): int {
    MinWindow(c, model, enabled) + (if savings > 0 && c.strips(model) then savings else 0)
  }

  // w is what maxEligibleContextWindow computes over the eligible models.
  ghost predicate IsMaxWindow(c: Catalog, eligible: set<string>, enabled: set<string>, savings: int, w: int) {
    && w >= 0
    && (forall m | m in eligible :: EffectiveWindow(c, m, enabled, savings) <= w)
    && (w == 0 || exists m | m in eligible :: EffectiveWindow(c, m, enabled, savings) == w)
  }

  /** maxEligibleContextWindow. */
  method MaxEligibleContextWindow(c: Catalog, available: set<string>, excluded: set<string>, enabled: set<string>,
                                  savings: int)
    returns (w: int)
    ensures IsMaxWindow(c, available - excluded, enabled, savings, w)
  {
    w := 0;
    var left := available;
    while left != {}
      invariant left <= available
      invariant IsMaxWindow(c, available - excluded - left, enabled, savings, w)
      decreases |left|
    {
      var model :| model in left;
      left := left - {model};
      if model in excluded {
        assert available - excluded - left == available - excluded - (left + {model});
        continue;
      }
      assert available - excluded - left == (available - excluded - (left + {model})) + {model};
      var mw := EffectiveWindow(c, model, enabled, savings);
      if mw > w {
        w := mw;
      }
    }
    assert available - excluded - left == available - excluded;
  }

  // The pre-filter's check of one model (excludeContextOverflowModels).
  predicate ModelFits(c: Catalog, model: string, enabled: set<string>, est: int, savings: int, reserve: int) {
    est <= 0
    || est + reserve - (if savings > 0 && c.strips(model) then savings else 0) <= MinWindow(c, model, enabled)
  }

  // siblingFitsContext.
  predicate SiblingFits(c: Catalog, model: string, provider: string, est: int, savings: int, reserve: int) {
    est <= 0
    || est + reserve - (if savings > 0 && c.strips(model) then savings else 0)
       <= (if provider != "" then c.bindingWindow(model, provider) else c.window(model))
  }

  /** For a request with a positive estimate, some eligible model passes the window
      check exactly when estimate and reserve fit the largest eligible window, the two
      being computed with the same signature savings. */
  lemma SomeModelFitsExactlyWhen(c: Catalog, eligible: set<string>, enabled: set<string>, savings: int, w: int,
                                 est: int, reserve: int)
    requires IsMaxWindow(c, eligible, enabled, savings, w) && est > 0
    requires w > 0 || reserve >= 0
    ensures (exists m | m in eligible :: ModelFits(c, m, enabled, est, savings, reserve)) <==> est + reserve <= w
  {
    if est + reserve <= w {
      var m :| m in eligible && EffectiveWindow(c, m, enabled, savings) == w;
      assert ModelFits(c, m, enabled, est, savings, reserve);
    }
    if m :| m in eligible && ModelFits(c, m, enabled, est, savings, reserve) {
      assert EffectiveWindow(c, m, enabled, savings) <= w;
    }
  }

  lemma FittingModelFitsEveryBinding(c: Catalog, m: string, enabled: set<string>, est: int, savings: int, reserve: int,
                                     p: string)
    requires ModelFits(c, m, enabled, est, savings, reserve)
    requires p in c.providers(m) && p in enabled && p != ""
    ensures SiblingFits(c, m, p, est, savings, reserve)
  {
  }

  // ----------------------------------------------------------------- summarizers ----

  const SUMMARY_RESERVE := 4_000 + 8_000
  const DEFAULT_SUMMARIZER := "motif-technologies/motif-3"
  const LARGE_SUMMARIZER := "moonshotai/kimi-k3"

  datatype Summarizers = Summarizers(
    window: string -> int,             // catalog.ContextWindowFor
    eligible: string -> bool,          // summarizerEligible
    configured: string,                // ROUTER_COMPACTION_MODEL, or ""
    allowed: bool,                     // the tenant boundary permits the call
    answer: string -> Option<nat>)     // by model: None on failure, else the summary message's bytes

  function AddNew(out: seq<string>, m: string): seq<string> {
    if m == "" || m in out then out else out + [m]
  }

  function Candidates(s: Summarizers, preferred: string): seq<string> {
    AddNew(AddNew(if s.eligible(preferred) then AddNew([], preferred) else [],
                  if s.configured != "" then s.configured else DEFAULT_SUMMARIZER), LARGE_SUMMARIZER)
  }

  function FirstWithRoom(s: Summarizers, models: seq<string>, need: int): string {
    if models == [] then ""
    else if s.window(models[0]) >= need then models[0]
    else FirstWithRoom(s, models[1..], need)
  }

  function SelectSummarizer(s: Summarizers, history: int, preferred: string): string {
    FirstWithRoom(s, Candidates(s, preferred), history + SUMMARY_RESERVE)
  }

  lemma {:induction false} FirstWithRoomIsFirst(s: Summarizers, models: seq<string>, need: int)
    requires "" !in models
    ensures var m := FirstWithRoom(s, models, need);
            && (m == "" <==> forall x | x in models :: s.window(x) < need)
            && (m != "" ==> exists i | 0 <= i < |models| ::
                  models[i] == m && s.window(m) >= need && forall j | 0 <= j < i :: s.window(models[j]) < need)
  {
    if models != [] && s.window(models[0]) < need {
      FirstWithRoomIsFirst(s, models[1..], need);
      var m := FirstWithRoom(s, models[1..], need);
      if m != "" {
        var i :| 0 <= i < |models[1..]| && models[1..][i] == m && s.window(m) >= need
                 && forall j | 0 <= j < i :: s.window(models[1..][j]) < need;
        assert models[i + 1] == m;
        assert forall j | 0 <= j < i + 1 :: s.window(models[j]) < need by {
          forall j | 0 <= j < i + 1 ensures s.window(models[j]) < need {
            if j > 0 { assert models[j] == models[1..][j - 1]; }
          }
        }
      }
    }
  }

  /** The selected summarizer is the first candidate with room for the history and the
      summary: the session's own model when it is eligible, then the default, then the
      large-window model; none exactly when none has room. */
  lemma SelectsFirstCandidateWithRoom(s: Summarizers, history: int, preferred: string)
    ensures var m := SelectSummarizer(s, history, preferred);
            && (m == "" <==> forall x | x in Candidates(s, preferred) :: s.window(x) < history + SUMMARY_RESERVE)
            && (m != "" ==> exists i | 0 <= i < |Candidates(s, preferred)| ::
                  Candidates(s, preferred)[i] == m && s.window(m) >= history + SUMMARY_RESERVE
                  && forall j | 0 <= j < i :: s.window(Candidates(s, preferred)[j]) < history + SUMMARY_RESERVE)
            && (preferred != "" && s.eligible(preferred) && s.window(preferred) >= history + SUMMARY_RESERVE
                ==> m == preferred)
  {
    FirstWithRoomIsFirst(s, Candidates(s, preferred), history + SUMMARY_RESERVE);
  }

  // --------------------------------------------------------------------- cascade ----

  datatype Config = Config(
    configured: real,               // ROUTER_COMPACTION_TRIGGER_PCT, as given to WithCompaction
    summarizers: Option<Summarizers>,
    authoritative: bool,            // authoritativePerTurnSelection
    hardPinned: bool,               // isHardPinnedTurn
    clientWindow: string -> int)    // catalog.ContextWindowFor

  datatype Input = Input(reserve: int, maxWindow: int, requestedModel: string, clientApp: string, preferred: string)

  datatype Report = Report(
    applied: bool, cleared: nat, summarized: bool, summaryModel: string,
    trimmedTo: int, finalEstimate: int, deferred: bool)

  const NOTHING := Report(false, 0, false, "", 0, 0, false)

  datatype Compacted<B> = Compacted(body: B, report: Report, exceeded: bool)

  function Needed<B>(f: Edits<B>, b: B, inp: Input): int {
    f.estimate(b) + inp.reserve
  }

  predicate Fits<B>(f: Edits<B>, b: B, inp: Input) {
    Needed(f, b, inp) <= inp.maxWindow
  }

  predicate Active(cfg: Config, inp: Input) {
    TriggerPct(cfg.configured) > 0.0 && inp.maxWindow > 0 && !cfg.hardPinned
  }

  function Trigger(cfg: Config, inp: Input): int {
    (inp.maxWindow as real * TriggerPct(cfg.configured)).Floor
  }

  predicate ClientWouldCompact(cfg: Config, inp: Input) {
    var pol := PolicyFor(inp.clientApp);
    pol.deferToClient && inp.requestedModel != ""
    && cfg.clientWindow(inp.requestedModel) - pol.clientBuffer <= inp.maxWindow
  }

  // runCompactionSummary: the model and the summary message's bytes, when there is one.
  function RunSummary(s: Summarizers, history: int, preferred: string): Option<(string, nat)> {
    var model := SelectSummarizer(s, history, preferred);
    if model == "" || !s.allowed then None
    else
      var answer := s.answer(model);
      if answer.None? || answer.value == 0 then None else Some((model, answer.value))
  }

  // Tier 3, with its revert of a rewrite that would make a fitting request overflow.
  function Summarize<B>(f: Edits<B>, cfg: Config, inp: Input, b: B, r: Report): (B, Report) {
    if cfg.summarizers.None? || cfg.authoritative then (b, r)
    else
      var summary := RunSummary(cfg.summarizers.value, f.estimate(b), inp.preferred);
      if summary.None? then (b, r)
      else
        var rewritten := f.rewrite(b, summary.value.1, PolicyFor(inp.clientApp).recentTurns);
        var r := r.(applied := true, summaryModel := summary.value.0);
        if Fits(f, b, inp) && !Fits(f, rewritten, inp) then (b, r) else (rewritten, r.(summarized := true))
  }

  // The rescue: progressively narrower trims until the request fits.
  function Rescue<B>(f: Edits<B>, inp: Input, widths: seq<int>, b: B, r: Report): Compacted<B> {
    if widths == [] then Compacted(b, r.(finalEstimate := Needed(f, b, inp)), true)
    else
      var (t, count) := f.trim(b, widths[0]);
      var r := if count > 0 then r.(applied := true, trimmedTo := widths[0]) else r;
      if Fits(f, t, inp) then Compacted(t, r.(finalEstimate := Needed(f, t, inp)), false)
      else Rescue(f, inp, widths[1..], t, r)
  }

  function Widths(inp: Input): seq<int> { [PolicyFor(inp.clientApp).recentTurns, 6, 3, 1] }

  function ClearedBody<B>(f: Edits<B>, inp: Input, b: B): B {
    f.clear(b, PolicyFor(inp.clientApp).toolResultKeep).0
  }

  // The report once old tool results were cleared.
  function ClearedReport<B>(f: Edits<B>, inp: Input, b: B): Report {
    var n := f.clear(b, PolicyFor(inp.clientApp).toolResultKeep).1;
    if n > 0 then NOTHING.(applied := true, cleared := n) else NOTHING
  }

  // The three tiers, once the cascade engages.
  function Tiers<B>(f: Edits<B>, cfg: Config, inp: Input, b: B): Compacted<B> {
    var c, r := ClearedBody(f, inp, b), ClearedReport(f, inp, b);
    if Needed(f, c, inp) < Trigger(cfg, inp) then Compacted(c, r.(finalEstimate := Needed(f, c, inp)), false)
    else
      var (s, r) := Summarize(f, cfg, inp, c, r);
      if Fits(f, s, inp) then Compacted(s, r.(finalEstimate := Needed(f, s, inp)), false)
      else Rescue(f, inp, Widths(inp), s, r)
  }

  function MaybeCompact<B>(f: Edits<B>, cfg: Config, inp: Input, b: B): Compacted<B> {
    if !Active(cfg, inp) || Needed(f, b, inp) < Trigger(cfg, inp) then Compacted(b, NOTHING, false)
    else if Fits(f, b, inp) && ClientWouldCompact(cfg, inp) then Compacted(b, NOTHING.(deferred := true), false)
    else Tiers(f, cfg, inp, b)
  }

  // ---------------------------------------------------------------------- lemmas ----

  lemma TriggerWithinWindow(cfg: Config, inp: Input)
    requires inp.maxWindow > 0
    ensures Trigger(cfg, inp) <= inp.maxWindow
  {
    var w := inp.maxWindow as real;
    assert w * TriggerPct(cfg.configured) <= w * 1.0;
  }

  lemma {:induction false} RescueFacts<B(!new)>(f: Edits<B>, inp: Input, widths: seq<int>, b: B, r: Report)
    requires Lawful(f) && (r.applied || r.trimmedTo == 0)
    ensures var o := Rescue(f, inp, widths, b, r);
            && (o.exceeded <==> !Fits(f, o.body, inp) || (widths == [] && Fits(f, b, inp)))
            && (!o.report.applied ==> o.body == b && !r.applied)
            && o.report.finalEstimate == Needed(f, o.body, inp)
            && f.estimate(o.body) <= f.estimate(b) && f.savings(o.body) <= f.savings(b)
            && o.report.cleared == r.cleared && o.report.summarized == r.summarized && o.report.deferred == r.deferred
    decreases |widths|
  {
    if widths != [] {
      assert TrimLaw(f, b, widths[0]);
      var (t, count) := f.trim(b, widths[0]);
      var r' := if count > 0 then r.(applied := true, trimmedTo := widths[0]) else r;
      if !Fits(f, t, inp) {
        RescueFacts(f, inp, widths[1..], t, r');
      }
    }
  }

  /** An active cascade returns an error exactly when the body it leaves does not fit:
      whenever it returns nil, the request fits the largest eligible window. */
  lemma NilExactlyWhenFits<B(!new)>(f: Edits<B>, cfg: Config, inp: Input, b: B)
    requires Lawful(f) && Active(cfg, inp)
    ensures var o := MaybeCompact(f, cfg, inp, b);
            !o.exceeded <==> Fits(f, o.body, inp)
  {
    TriggerWithinWindow(cfg, inp);
    var (s, r) := Summarize(f, cfg, inp, ClearedBody(f, inp, b), ClearedReport(f, inp, b));
    RescueFacts(f, inp, Widths(inp), s, r);
  }

  /** A report of nothing applied means the body is untouched, and once the cascade has
      engaged the reported estimate is that of the body it leaves. */
  lemma ReportIsHonest<B(!new)>(f: Edits<B>, cfg: Config, inp: Input, b: B)
    requires Lawful(f)
    ensures var o := MaybeCompact(f, cfg, inp, b);
            && (!o.report.applied ==> o.body == b)
            && (o.report.deferred ==> o.body == b && !o.report.applied && Fits(f, b, inp))
            && (Active(cfg, inp) && Needed(f, b, inp) >= Trigger(cfg, inp) && !o.report.deferred ==>
                  o.report.finalEstimate == Needed(f, o.body, inp))
  {
    assert ClearLaw(f, b, PolicyFor(inp.clientApp).toolResultKeep);
    var (s, r) := Summarize(f, cfg, inp, ClearedBody(f, inp, b), ClearedReport(f, inp, b));
    RescueFacts(f, inp, Widths(inp), s, r);
  }

  /** The cascade never raises the signature savings. */
  lemma SavingsNeverRise<B(!new)>(f: Edits<B>, cfg: Config, inp: Input, b: B)
    requires Lawful(f)
    ensures f.savings(MaybeCompact(f, cfg, inp, b).body) <= f.savings(b)
  {
    assert ClearLaw(f, b, PolicyFor(inp.clientApp).toolResultKeep);
    var c := ClearedBody(f, inp, b);
    var (s, r) := Summarize(f, cfg, inp, c, ClearedReport(f, inp, b));
    if cfg.summarizers.Some? {
      var summary := RunSummary(cfg.summarizers.value, f.estimate(c), inp.preferred);
      if summary.Some? { assert RewriteLaw(f, c, summary.value.1, PolicyFor(inp.clientApp).recentTurns); }
    }
    RescueFacts(f, inp, Widths(inp), s, r);
  }

  /** Exactly when a request is handed on untouched for the client to compact: the cascade is
      on and past its trigger, the request fits, and it is Claude Code's, for a named model
      whose window, less the client's own buffer of 13000, is within the largest eligible one. */
  lemma DefersExactlyWhen<B>(f: Edits<B>, cfg: Config, inp: Input, b: B)
    ensures var o := MaybeCompact(f, cfg, inp, b);
            && (o.report.deferred <==>
                  && Active(cfg, inp) && Needed(f, b, inp) >= Trigger(cfg, inp) && Fits(f, b, inp)
                  && inp.clientApp == "claude-code" && inp.requestedModel != ""
                  && cfg.clientWindow(inp.requestedModel) <= inp.maxWindow + 13_000)
            && (o.report.deferred ==> o == Compacted(b, NOTHING.(deferred := true), false))
  {
    if Engages(f, cfg, inp, b) {
      var c, r := ClearedBody(f, inp, b), ClearedReport(f, inp, b);
      var (s, r') := Summarize(f, cfg, inp, c, r);
      RescueKeepsDeferral(f, inp, Widths(inp), s, r');
    }
  }

  lemma {:induction false} RescueKeepsDeferral<B>(f: Edits<B>, inp: Input, widths: seq<int>, b: B, r: Report)
    ensures var o := Rescue(f, inp, widths, b, r).report;
            && o.deferred == r.deferred && o.cleared == r.cleared
            && o.summarized == r.summarized && o.summaryModel == r.summaryModel
    decreases |widths|
  {
    if widths != [] {
      var (t, count) := f.trim(b, widths[0]);
      if !Fits(f, t, inp) {
        RescueKeepsDeferral(f, inp, widths[1..], t,
                            if count > 0 then r.(applied := true, trimmedTo := widths[0]) else r);
      }
    }
  }

  /** A request is past the trigger when no whole token is left under the configured fraction
      of the window, 85 percent when the configured one is out of range; at zero the cascade is
      off. */
  lemma TriggerIsTheFraction(cfg: Config, inp: Input, needed: int)
    ensures var pct := if 0.0 <= cfg.configured <= 1.0 then cfg.configured else 0.85;
            needed < Trigger(cfg, inp) <==> needed as real + 1.0 <= inp.maxWindow as real * pct
    ensures Active(cfg, inp) <==> cfg.configured != 0.0 && inp.maxWindow > 0 && !cfg.hardPinned
  { }

  // The model that summarizes a history, and the bytes of its summary message.
  ghost predicate SummaryBy(s: Summarizers, history: int, preferred: string, model: string, bytes: nat) {
    && s.allowed && bytes > 0 && s.answer(model) == Some(bytes)
    && exists i | 0 <= i < |Candidates(s, preferred)| ::
         && Candidates(s, preferred)[i] == model && s.window(model) >= history + 12_000
         && forall j | 0 <= j < i :: s.window(Candidates(s, preferred)[j]) < history + 12_000
  }

  /** The candidates, none named twice: the session's own model when it is eligible, in front;
      the configured summarizer or else the default one; and the large-window model, behind
      all it is not one of. */
  lemma CandidatesAreNamed(s: Summarizers, preferred: string)
    ensures var out, own := Candidates(s, preferred), s.eligible(preferred) && preferred != "";
            var main := if s.configured == "" then "motif-technologies/motif-3" else s.configured;
            && (set m | m in out) == (if own then {preferred} else {}) + {main, "moonshotai/kimi-k3"}
            && (forall i, j | 0 <= i < j < |out| :: out[i] != out[j])
            && out[0] == (if own then preferred else main)
            && ("moonshotai/kimi-k3" !in {main} + (if own then {preferred} else {}) ==>
                  out[|out| - 1] == "moonshotai/kimi-k3")
            && "" !in out
  {
    hide AddNew;
    ThreeAdded(s.eligible(preferred), preferred, if s.configured == "" then DEFAULT_SUMMARIZER else s.configured,
               LARGE_SUMMARIZER);
  }

  lemma ThreeAdded(eligible: bool, preferred: string, main: string, large: string)
    requires main != "" && large != ""
    ensures var out, own := AddNew(AddNew(if eligible then AddNew([], preferred) else [], main), large),
                            eligible && preferred != "";
            && (set m | m in out) == (if own then {preferred} else {}) + {main, large}
            && (forall i, j | 0 <= i < j < |out| :: out[i] != out[j])
            && out[0] == (if own then preferred else main)
            && (large !in {main} + (if own then {preferred} else {}) ==> out[|out| - 1] == large)
            && "" !in out
  { }

  lemma RunSummaryExactlyWhen(s: Summarizers, history: int, preferred: string, model: string, bytes: nat)
    ensures RunSummary(s, history, preferred) == Some((model, bytes)) <==>
            SummaryBy(s, history, preferred, model, bytes)
  {
    CandidatesAreNamed(s, preferred);
    SelectsFirstCandidateWithRoom(s, history, preferred);
    if SummaryBy(s, history, preferred, model, bytes) {
      var m := SelectSummarizer(s, history, preferred);
      assert model in Candidates(s, preferred);
      var i :| 0 <= i < |Candidates(s, preferred)| && Candidates(s, preferred)[i] == model
            && s.window(model) >= history + 12_000
            && forall j | 0 <= j < i :: s.window(Candidates(s, preferred)[j]) < history + 12_000;
      var k :| 0 <= k < |Candidates(s, preferred)| && Candidates(s, preferred)[k] == m
            && s.window(m) >= history + SUMMARY_RESERVE
            && forall j | 0 <= j < k :: s.window(Candidates(s, preferred)[j]) < history + SUMMARY_RESERVE;
      assert i == k;
    }
  }

  // The cascade engages and clearing is not enough.
  predicate GoesOn<B>(f: Edits<B>, cfg: Config, inp: Input, b: B) {
    Engages(f, cfg, inp, b) && Needed(f, f.clear(b, 5).0, inp) >= Trigger(cfg, inp)
  }

  // A summary is asked for, and this is what comes of it.
  ghost predicate SummaryComes<B>(f: Edits<B>, cfg: Config, inp: Input, b: B, model: string, bytes: nat) {
    && GoesOn(f, cfg, inp, b) && cfg.summarizers.Some? && !cfg.authoritative
    && SummaryBy(cfg.summarizers.value, f.estimate(f.clear(b, 5).0), inp.preferred, model, bytes)
  }

  /** What a summary does.  When one comes, the report names its model, and the history is
      rewritten behind it with its last twelve turns, unless that would push a request that
      fits out of the window; a rewrite that fits ends the cascade. */
  lemma SummaryIsUsed<B(!new)>(f: Edits<B>, cfg: Config, inp: Input, b: B, model: string, bytes: nat)
    requires SummaryComes(f, cfg, inp, b, model, bytes)
    ensures var c := f.clear(b, 5).0;
            var rewritten := f.rewrite(c, bytes, 12);
            var o := MaybeCompact(f, cfg, inp, b);
            && o.report.summaryModel == model
            && (o.report.summarized <==> Fits(f, rewritten, inp) || !Fits(f, c, inp))
            && (Fits(f, rewritten, inp) ==> o.body == rewritten && o.report.trimmedTo == 0 && !o.exceeded)
            && (Fits(f, c, inp) && !Fits(f, rewritten, inp) ==> o.body == c && o.report.trimmedTo == 0 && !o.exceeded)
            && (!Fits(f, c, inp) && !Fits(f, rewritten, inp) ==> AfterTier3(f, cfg, inp, b) == rewritten)
  {
    var c := f.clear(b, 5).0;
    assert ClearedBody(f, inp, b) == c;
    RunSummaryExactlyWhen(cfg.summarizers.value, f.estimate(c), inp.preferred, model, bytes);
    var (s, r) := Summarize(f, cfg, inp, c, ClearedReport(f, inp, b));
    RescueKeepsDeferral(f, inp, Widths(inp), s, r);
  }

  /** And only then: without one nothing is rewritten, no model is named, and the cascade goes
      on from the cleared history. */
  lemma SummarizedOnlyWhen<B(!new)>(f: Edits<B>, cfg: Config, inp: Input, b: B)
    requires forall model, bytes :: !SummaryComes(f, cfg, inp, b, model, bytes)
    ensures !MaybeCompact(f, cfg, inp, b).report.summarized && MaybeCompact(f, cfg, inp, b).report.summaryModel == ""
    ensures GoesOn(f, cfg, inp, b) ==> AfterTier3(f, cfg, inp, b) == f.clear(b, 5).0
  {
    if GoesOn(f, cfg, inp, b) {
      var c := f.clear(b, 5).0;
      assert ClearedBody(f, inp, b) == c;
      if cfg.summarizers.Some? && !cfg.authoritative {
        var sums := cfg.summarizers.value;
        var summary := RunSummary(sums, f.estimate(c), inp.preferred);
        if summary.Some? {
          RunSummaryExactlyWhen(sums, f.estimate(c), inp.preferred, summary.value.0, summary.value.1);
          assert SummaryComes(f, cfg, inp, b, summary.value.0, summary.value.1);
        }
      }
      var (s, r) := Summarize(f, cfg, inp, c, ClearedReport(f, inp, b));
      RescueKeepsDeferral(f, inp, Widths(inp), s, r);
    }
  }

  /** Clearing comes first: an engaged cascade clears all but the last five tool results,
      reports how many it cleared, and stops there when that takes the request under the
      trigger. */
  lemma ClearsFirst<B(!new)>(f: Edits<B>, cfg: Config, inp: Input, b: B)
    ensures var o := MaybeCompact(f, cfg, inp, b);
            if Engages(f, cfg, inp, b) then
              && o.report.cleared == f.clear(b, 5).1
              && (!GoesOn(f, cfg, inp, b) ==> o.body == f.clear(b, 5).0 && o.report.trimmedTo == 0 && !o.exceeded)
            else o == Compacted(b, NOTHING.(deferred := o.report.deferred), false)
  {
    if Engages(f, cfg, inp, b) {
      var (s, r) := Summarize(f, cfg, inp, ClearedBody(f, inp, b), ClearedReport(f, inp, b));
      RescueKeepsDeferral(f, inp, Widths(inp), s, r);
    }
  }

  // The history trimmed, one width after another, to twelve, six, three messages and one.
  function TrimmedTo<B>(f: Edits<B>, b: B, times: nat): B
    requires times <= 4
  {
    if times == 0 then b else f.trim(TrimmedTo(f, b, times - 1), [12, 6, 3, 1][times - 1]).0
  }

  /** The rescue keeps as much as fits: what is left after the summary that still does not fit
      is trimmed to twelve, six, three messages and one, and the first that fits is sent; when
      none does the request is refused. */
  lemma RescueStopsAtTheFirstFit<B(!new)>(f: Edits<B>, cfg: Config, inp: Input, b: B) returns (times: nat)
    requires GoesOn(f, cfg, inp, b) && !Fits(f, AfterTier3(f, cfg, inp, b), inp)
    ensures 1 <= times <= 4
    ensures var s, o := AfterTier3(f, cfg, inp, b), MaybeCompact(f, cfg, inp, b);
            && o.body == TrimmedTo(f, s, times)
            && (forall k | 1 <= k < times :: !Fits(f, TrimmedTo(f, s, k), inp))
            && (Fits(f, TrimmedTo(f, s, times), inp) || times == 4)
            && (o.exceeded <==> !Fits(f, o.body, inp))
            && (f.trim(TrimmedTo(f, s, times - 1), [12, 6, 3, 1][times - 1]).1 > 0 ==>
                  o.report.applied && o.report.trimmedTo == [12, 6, 3, 1][times - 1])
  {
    var c, r := ClearedBody(f, inp, b), ClearedReport(f, inp, b);
    SummarizeBody(f, cfg, inp, c, r, NOTHING);
    var (s, r') := Summarize(f, cfg, inp, c, r);
    assert Widths(inp) == [12, 6, 3, 1];
    times := RescueSteps(f, inp, s, s, r', 0);
  }

  lemma {:induction false} RescueSteps<B>(f: Edits<B>, inp: Input, s: B, b: B, r: Report, done: nat)
    returns (times: nat)
    requires done < 4 && b == TrimmedTo(f, s, done)
    ensures done < times <= 4
    ensures var o := Rescue(f, inp, [12, 6, 3, 1][done..], b, r);
            && o.body == TrimmedTo(f, s, times)
            && (forall k | done < k < times :: !Fits(f, TrimmedTo(f, s, k), inp))
            && (Fits(f, TrimmedTo(f, s, times), inp) || times == 4)
            && (o.exceeded <==> !Fits(f, o.body, inp))
            && (f.trim(TrimmedTo(f, s, times - 1), [12, 6, 3, 1][times - 1]).1 > 0 ==>
                  o.report.applied && o.report.trimmedTo == [12, 6, 3, 1][times - 1])
    decreases 4 - done
  {
    var widths := [12, 6, 3, 1];
    var (t, count) := f.trim(b, widths[done]);
    assert widths[done..][0] == widths[done] && widths[done..][1..] == widths[done + 1..];
    assert t == TrimmedTo(f, s, done + 1);
    if Fits(f, t, inp) || done == 3 {
      times := done + 1;
    } else {
      times := RescueSteps(f, inp, s, t, if count > 0 then r.(applied := true, trimmedTo := widths[done]) else r,
                           done + 1);
    }
  }

  // The body the rescue starts from, when it comes to a rescue.
  function AfterTier3<B>(f: Edits<B>, cfg: Config, inp: Input, b: B): B {
    Summarize(f, cfg, inp, ClearedBody(f, inp, b), NOTHING).0
  }

  predicate Engages<B>(f: Edits<B>, cfg: Config, inp: Input, b: B) {
    Active(cfg, inp) && Needed(f, b, inp) >= Trigger(cfg, inp) && !(Fits(f, b, inp) && ClientWouldCompact(cfg, inp))
  }

  // The request is neither trimmed nor refused.
  predicate Served<B>(f: Edits<B>, cfg: Config, inp: Input, b: B) {
    var o := MaybeCompact(f, cfg, inp, b);
    !o.exceeded && o.report.trimmedTo == 0
  }

  lemma SummarizeBody<B>(f: Edits<B>, cfg: Config, inp: Input, c: B, r: Report, r2: Report)
    ensures Summarize(f, cfg, inp, c, r).0 == Summarize(f, cfg, inp, c, r2).0
    ensures Summarize(f, cfg, inp, c, r).1.trimmedTo == r.trimmedTo
  {
  }

  lemma {:induction false} RescueTouches<B(!new)>(f: Edits<B>, inp: Input, widths: seq<int>, b: B, r: Report)
    requires Lawful(f) && !Fits(f, b, inp) && 0 !in widths
    ensures var o := Rescue(f, inp, widths, b, r);
            o.exceeded || o.report.trimmedTo != 0
    decreases |widths|
  {
    if widths != [] {
      assert widths[0] in widths;
      assert TrimLaw(f, b, widths[0]);
      var (t, count) := f.trim(b, widths[0]);
      if !Fits(f, t, inp) {
        RescueTouches(f, inp, widths[1..], t, if count > 0 then r.(applied := true, trimmedTo := widths[0]) else r);
      }
    }
  }

  /** A request that fits is trimmed or refused exactly when the cascade engages and
      neither clearing nor summarizing leaves it fitting. */
  lemma FittingIsRescuedExactlyWhen<B(!new)>(f: Edits<B>, cfg: Config, inp: Input, b: B)
    requires Lawful(f) && Fits(f, b, inp)
    ensures !Served(f, cfg, inp, b) <==> Engages(f, cfg, inp, b) && !Fits(f, AfterTier3(f, cfg, inp, b), inp)
  {
    if Engages(f, cfg, inp, b) {
      TriggerWithinWindow(cfg, inp);
      var c, r := ClearedBody(f, inp, b), ClearedReport(f, inp, b);
      SummarizeBody(f, cfg, inp, c, r, NOTHING);
      var (s, r') := Summarize(f, cfg, inp, c, r);
      if !Fits(f, s, inp) {
        RescueTouches(f, inp, Widths(inp), s, r');
      }
    }
  }

  /** A request that fits is served whatever the summarizers are and answer, exactly when
      the cascade does not engage or the request fits once old tool results are cleared. */
  lemma ServedWhateverTheSummaryExactlyWhen<B(!new)>(f: Edits<B>, cfg: Config, inp: Input, b: B)
    requires Lawful(f) && Fits(f, b, inp)
    ensures (forall s :: Served(f, cfg.(summarizers := s), inp, b)) <==>
            !Engages(f, cfg, inp, b) || Fits(f, ClearedBody(f, inp, b), inp)
  {
    forall s ensures Served(f, cfg.(summarizers := s), inp, b) <==>
      !Engages(f, cfg, inp, b) || Fits(f, AfterTier3(f, cfg.(summarizers := s), inp, b), inp)
    {
      FittingIsRescuedExactlyWhen(f, cfg.(summarizers := s), inp, b);
    }
    assert AfterTier3(f, cfg.(summarizers := None), inp, b) == ClearedBody(f, inp, b);
  }

  /** In particular: a request that fits, before and after its old tool results are
      cleared, is never trimmed and never refused. */
  lemma FittingAfterClearingIsServed<B(!new)>(f: Edits<B>, cfg: Config, inp: Input, b: B)
    requires Lawful(f) && Fits(f, b, inp) && Fits(f, ClearedBody(f, inp, b), inp)
    ensures Served(f, cfg, inp, b)
  {
    ServedWhateverTheSummaryExactlyWhen(f, cfg, inp, b);
    assert cfg.(summarizers := cfg.summarizers) == cfg;
  }

  // No summarizer, and the cascade engages only at the window itself.
  const BARE := Config(1.0, None, false, false, _ => 0)

  lemma BareTrigger(inp: Input)
    ensures Trigger(BARE, inp) == inp.maxWindow
  {
    assert inp.maxWindow as real * 1.0 == inp.maxWindow as real;
  }

  /** Clearing may itself raise the estimate: any history whose old results weigh, a
      token's worth together, less than their placeholders is trimmed or refused at a
      window it fits. */
  lemma ShortResultsCostAFittingRequest(b: O.Body)
    requires O.Images(b.messages) == 0
    requires var n := O.ClearOldToolResults(b, 5).1;
             n > 0 && O.FirstContents(b.messages, n) + O.BYTES_PER_TOKEN <= O.PLACEHOLDER * n
    requires O.Estimate(b) > 0
    ensures var inp := Input(0, O.Estimate(b), "", "codex", "");
            Fits(OPENAI, b, inp) && !Served(OPENAI, BARE, inp, b)
  {
    var inp := Input(0, O.Estimate(b), "", "codex", "");
    var (c, n) := O.ClearOldToolResults(b, 5);
    O.ClearWeight(b.messages, n);
    assert O.Estimate(c) > O.Estimate(b);
    BareTrigger(inp);
    assert PolicyFor("codex").toolResultKeep == 5 && !ClientWouldCompact(BARE, inp);
    assert AfterTier3(OPENAI, BARE, inp, b) == c;
    FormatsAreLawful();
    FittingIsRescuedExactlyWhen(OPENAI, BARE, inp, b);
  }

  /** And there are such histories: six tool results of two bytes each. */
  lemma SixShortResultsAreNotServed()
    ensures exists b: O.Body, inp :: Fits(OPENAI, b, inp) && !Served(OPENAI, BARE, inp, b)
  {
    var m := O.Message(O.Tool, 20, 2, 0, {}, "t");
    var ms := [m, m, m, m, m, m];
    var b := O.Body(0, ms);
    SameTools(m, ms);
    assert O.FirstContents(ms, 1) == 2;
    ShortResultsCostAFittingRequest(b);
  }

  lemma {:induction false} SameTools(m: O.Message, ms: seq<O.Message>)
    requires m.role.Tool? && m.images == 0 && forall x | x in ms :: x == m
    ensures O.ToolCount(ms) == |ms| && O.Images(ms) == 0 && (ms != [] ==> O.Bytes(ms) >= m.bytes)
  {
    if ms != [] {
      assert forall x | x in ms[1..] :: x in ms;
      SameTools(m, ms[1..]);
      assert ms[0] in ms;
    }
  }

  // ---------------------------------------------------- a model for the request ----

  predicate AnyFits(c: Catalog, eligible: set<string>, enabled: set<string>, est: int, savings: int, reserve: int) {
    exists m | m in eligible :: ModelFits(c, m, enabled, est, savings, reserve)
  }

  /** When the cascade returns nil, some eligible model passes the pre-filter's window
      check, with the signature savings the window was computed with. */
  lemma CompactedRequestHasAModel<B(!new)>(f: Edits<B>, cfg: Config, inp: Input, b: B, c: Catalog,
                                           eligible: set<string>, enabled: set<string>, savings: int)
    requires Lawful(f) && Active(cfg, inp)
    requires IsMaxWindow(c, eligible, enabled, savings, inp.maxWindow)
    requires !MaybeCompact(f, cfg, inp, b).exceeded
    ensures AnyFits(c, eligible, enabled, f.estimate(MaybeCompact(f, cfg, inp, b).body), savings, inp.reserve)
  {
    NilExactlyWhenFits(f, cfg, inp, b);
    var est := f.estimate(MaybeCompact(f, cfg, inp, b).body);
    if est > 0 {
      SomeModelFitsExactlyWhen(c, eligible, enabled, savings, inp.maxWindow, est, inp.reserve);
    } else {
      var m :| m in eligible && EffectiveWindow(c, m, enabled, savings) == inp.maxWindow;
      assert ModelFits(c, m, enabled, est, savings, inp.reserve);
    }
  }

  // Some model that keeps signatures has the whole window by itself.
  predicate KeeperHasTheWindow(c: Catalog, eligible: set<string>, enabled: set<string>, w: int) {
    exists m | m in eligible :: !c.strips(m) && MinWindow(c, m, enabled) == w
  }

  // The pre-filter recomputes the savings on the compacted body.
  predicate AnyFitsRecomputed<B>(f: Edits<B>, c: Catalog, eligible: set<string>, enabled: set<string>, b: B,
                                 reserve: int) {
    AnyFits(c, eligible, enabled, f.estimate(b), f.savings(b), reserve)
  }

  /** After a nil return some eligible model passes the recomputed check whenever compaction
      lost no savings, or a signature-keeping model has the window by itself, or the reserve
      alone takes the window up. */
  lemma RecomputedCheckPasses<B(!new)>(f: Edits<B>, cfg: Config, inp: Input, b: B, c: Catalog, eligible: set<string>,
                                       enabled: set<string>)
    requires Lawful(f) && Active(cfg, inp)
    requires IsMaxWindow(c, eligible, enabled, f.savings(b), inp.maxWindow)
    requires !MaybeCompact(f, cfg, inp, b).exceeded
    requires var after := MaybeCompact(f, cfg, inp, b).body;
             || f.savings(after) == f.savings(b) || f.savings(b) == 0
             || KeeperHasTheWindow(c, eligible, enabled, inp.maxWindow) || inp.reserve >= inp.maxWindow
    ensures AnyFitsRecomputed(f, c, eligible, enabled, MaybeCompact(f, cfg, inp, b).body, inp.reserve)
  {
    var after := MaybeCompact(f, cfg, inp, b).body;
    SavingsNeverRise(f, cfg, inp, b);
    NilExactlyWhenFits(f, cfg, inp, b);
    if f.savings(after) == f.savings(b) {
      CompactedRequestHasAModel(f, cfg, inp, b, c, eligible, enabled, f.savings(b));
    } else if KeeperHasTheWindow(c, eligible, enabled, inp.maxWindow) {
      var m :| m in eligible && !c.strips(m) && MinWindow(c, m, enabled) == inp.maxWindow;
      assert ModelFits(c, m, enabled, f.estimate(after), f.savings(after), inp.reserve);
    } else {
      var m :| m in eligible && EffectiveWindow(c, m, enabled, f.savings(b)) == inp.maxWindow;
      assert ModelFits(c, m, enabled, f.estimate(after), f.savings(after), inp.reserve);
    }
  }

  // A nil return for any body with these savings, under any configuration, leaves a model
  // that passes the recomputed check.
  ghost predicate SafeToRecompute(c: Catalog, eligible: set<string>, enabled: set<string>, savings: nat, w: int,
                                  reserve: int) {
    forall cfg: Config, inp: Input, b: A.Body |
      && A.Savings(b) == savings && inp.maxWindow == w && inp.reserve == reserve && Active(cfg, inp)
      && !MaybeCompact(ANTHROPIC, cfg, inp, b).exceeded ::
      AnyFitsRecomputed(ANTHROPIC, c, eligible, enabled, MaybeCompact(ANTHROPIC, cfg, inp, b).body, reserve)
  }

  // A signed assistant turn in front of twelve user turns that fill the window exactly.
  function SignedHistory(savings: nat, room: nat): A.Body {
    A.Body(4 * room - 12 * (room / 3), 0,
           [A.Message(A.Assistant, 32, [A.Other(64, 4 * savings, 0)])] + Plain(12, room / 3))
  }

  function Plain(n: nat, shell: nat): (ms: seq<A.Message>)
    ensures |ms| == n
  {
    if n == 0 then [] else [A.Message(A.User, shell, [])] + Plain(n - 1, shell)
  }

  lemma {:induction false} PlainFacts(n: nat, shell: nat, known: set<string>)
    ensures var ms := Plain(n, shell);
            && A.Weigh(ms, A.BYTES) == n * shell && A.Weigh(ms, A.SIGNED) == 0 && A.Weigh(ms, A.IMAGES) == 0
            && A.ToolCount(ms) == 0 && A.DropOrphans(ms, known) == ms
  {
    if n > 0 {
      PlainFacts(n - 1, shell, known);
      assert Plain(n, shell)[1..] == Plain(n - 1, shell);
      assert A.DropFrom([], known) == [];
    }
  }

  lemma SignedHistoryWeighs(savings: nat, room: nat)
    ensures var b := SignedHistory(savings, room);
            && A.Savings(b) == savings && A.Estimate(b) >= room + savings + 24 && A.ToolCount(b.messages) == 0
            && A.TrimLast(b, 12).1 > 0
            && A.Estimate(A.TrimLast(b, 12).0) == room && A.Savings(A.TrimLast(b, 12).0) == 0
  {
    var b := SignedHistory(savings, room);
    var tail := Plain(12, room / 3);
    PlainFacts(12, room / 3, A.Calls(tail));
    var first := b.messages[0];
    assert b.messages[1..] == tail && b.messages[|b.messages| - 12..] == tail;
    assert first.blocks[1..] == [];
    assert A.BlocksWeigh(first.blocks, A.BYTES) == 64 + 4 * savings;
    assert A.BlocksWeigh(first.blocks, A.SIGNED) == 4 * savings && A.BlocksWeigh(first.blocks, A.IMAGES) == 0;
  }

  // The cascade trims the signed turn away, and the rest fits to the byte.
  lemma SignedHistoryLosesItsSavings(savings: nat, reserve: int, w: int)
    requires w > 0 && reserve < w
    ensures var inp, b := Input(reserve, w, "", "", ""), SignedHistory(savings, w - reserve);
            && Active(BARE, inp) && !MaybeCompact(ANTHROPIC, BARE, inp, b).exceeded
            && var after := MaybeCompact(ANTHROPIC, BARE, inp, b).body;
               A.Savings(b) == savings && ANTHROPIC.savings(after) == 0 && ANTHROPIC.estimate(after) == w - reserve
  {
    hide A.Savings, A.Estimate, SignedHistory;
    var inp, b := Input(reserve, w, "", "", ""), SignedHistory(savings, w - reserve);
    SignedHistoryWeighs(savings, w - reserve);
    BareTrigger(inp);
    assert PolicyFor("") == Policy(12, 5, false, 0);
    assert ClearedBody(ANTHROPIC, inp, b) == b && ClearedReport(ANTHROPIC, inp, b) == NOTHING;
    assert !Fits(ANTHROPIC, b, inp) && Fits(ANTHROPIC, A.TrimLast(b, 12).0, inp);
    assert Widths(inp)[0] == 12;
    assert MaybeCompact(ANTHROPIC, BARE, inp, b).body == A.TrimLast(b, 12).0;
  }

  lemma SafeWhen(c: Catalog, eligible: set<string>, enabled: set<string>, savings: nat, w: int, reserve: int)
    requires w > 0 && IsMaxWindow(c, eligible, enabled, savings, w)
    requires savings == 0 || KeeperHasTheWindow(c, eligible, enabled, w) || reserve >= w
    ensures SafeToRecompute(c, eligible, enabled, savings, w, reserve)
  {
    FormatsAreLawful();
    hide MaybeCompact, IsMaxWindow, KeeperHasTheWindow, AnyFitsRecomputed, Active, Lawful;
    forall cfg: Config, inp: Input, b: A.Body |
      && A.Savings(b) == savings && inp.maxWindow == w && inp.reserve == reserve && Active(cfg, inp)
      && !MaybeCompact(ANTHROPIC, cfg, inp, b).exceeded
      ensures AnyFitsRecomputed(ANTHROPIC, c, eligible, enabled, MaybeCompact(ANTHROPIC, cfg, inp, b).body, reserve)
    {
      RecomputedCheckPasses(ANTHROPIC, cfg, inp, b, c, eligible, enabled);
    }
  }

  lemma NoModelHasTheWindowUnsigned(c: Catalog, eligible: set<string>, enabled: set<string>, savings: nat, w: int,
                                    reserve: int)
    requires IsMaxWindow(c, eligible, enabled, savings, w) && savings > 0
             && !KeeperHasTheWindow(c, eligible, enabled, w)
    requires reserve < w
    ensures !AnyFits(c, eligible, enabled, w - reserve, 0, reserve)
  {
    forall m | m in eligible ensures !ModelFits(c, m, enabled, w - reserve, 0, reserve) {
      assert EffectiveWindow(c, m, enabled, savings) <= w;
    }
  }

  // The claim below in one direction: some body, run through the whole cascade, is left
  // without a model.
  lemma SavingsLostToCompactionCostTheModel(c: Catalog, eligible: set<string>, enabled: set<string>, savings: nat,
                                            w: int, reserve: int)
    requires w > 0 && IsMaxWindow(c, eligible, enabled, savings, w)
    requires savings > 0 && !KeeperHasTheWindow(c, eligible, enabled, w) && reserve < w
    ensures !SafeToRecompute(c, eligible, enabled, savings, w, reserve)
  {
    var inp, b := Input(reserve, w, "", "", ""), SignedHistory(savings, w - reserve);
    hide MaybeCompact, IsMaxWindow, KeeperHasTheWindow, AnyFits, Active, SignedHistory, A.Savings, SafeToRecompute;
    SignedHistoryLosesItsSavings(savings, reserve, w);
    NoModelHasTheWindowUnsigned(c, eligible, enabled, savings, w, reserve);
    OneRefutes(c, eligible, enabled, savings, w, reserve, BARE, inp, b);
  }

  lemma OneRefutes(c: Catalog, eligible: set<string>, enabled: set<string>, savings: nat, w: int, reserve: int,
                   cfg: Config, inp: Input, b: A.Body)
    requires A.Savings(b) == savings && inp.maxWindow == w && inp.reserve == reserve && Active(cfg, inp)
    requires !MaybeCompact(ANTHROPIC, cfg, inp, b).exceeded
    requires !AnyFitsRecomputed(ANTHROPIC, c, eligible, enabled, MaybeCompact(ANTHROPIC, cfg, inp, b).body, reserve)
    ensures !SafeToRecompute(c, eligible, enabled, savings, w, reserve)
  {
    hide MaybeCompact, AnyFitsRecomputed, Active, A.Savings;
  }

  /** Exactly when the window computed before compaction can be relied on after it: when the
      request brings no savings, or a signature-keeping model has that window by itself, or
      the reserve leaves no room at all.  Otherwise there is, for that very catalog, window
      and savings, a request the cascade returns nil for and no eligible model then fits. */
  lemma SafeToRecomputeExactlyWhen(c: Catalog, eligible: set<string>, enabled: set<string>, savings: nat, w: int,
                                   reserve: int)
    requires w > 0 && IsMaxWindow(c, eligible, enabled, savings, w)
    ensures SafeToRecompute(c, eligible, enabled, savings, w, reserve) <==>
            savings == 0 || KeeperHasTheWindow(c, eligible, enabled, w) || reserve >= w
  {
    hide SafeToRecompute, IsMaxWindow, KeeperHasTheWindow;
    if savings == 0 || KeeperHasTheWindow(c, eligible, enabled, w) || reserve >= w {
      SafeWhen(c, eligible, enabled, savings, w, reserve);
    } else {
      SavingsLostToCompactionCostTheModel(c, eligible, enabled, savings, w, reserve);
    }
  }

  // ------------------------------------------------------------- the cascade in place ----

  class RequestEnvelope<B> {
    const edits: Edits<B>
    var body: B

    constructor (edits: Edits<B>, b: B)
      ensures this.edits == edits && body == b
    {
      this.edits := edits;
      body := b;
    }

    method ClearOldToolResults(keepRecent: int) returns (count: nat)
      modifies this
      ensures (body, count) == edits.clear(old(body), keepRecent)
    {
      var (c, n) := edits.clear(body, keepRecent);
      body, count := c, n;
    }

    method TrimLastNMessages(n: int) returns (count: nat)
      modifies this
      ensures (body, count) == edits.trim(old(body), n)
    {
      var (t, k) := edits.trim(body, n);
      body, count := t, k;
    }

    method RewriteForCompaction(summary: nat, keepRecent: int)
      modifies this
      ensures body == edits.rewrite(old(body), summary, keepRecent)
    {
      body := edits.rewrite(body, summary, keepRecent);
    }
  }

  method TrySummary<B>(cfg: Config, inp: Input, env: RequestEnvelope<B>, r: Report) returns (out: Report)
    modifies env
    ensures (env.body, out) == Summarize(env.edits, cfg, inp, old(env.body), r)
  {
    out := r;
    if cfg.summarizers.None? || cfg.authoritative {
      return;
    }
    var summary := RunSummary(cfg.summarizers.value, env.edits.estimate(env.body), inp.preferred);
    if summary.None? {
      return;
    }
    var fitBefore, before := Fits(env.edits, env.body, inp), env.body;
    env.RewriteForCompaction(summary.value.1, PolicyFor(inp.clientApp).recentTurns);
    out := out.(applied := true, summaryModel := summary.value.0);
    if fitBefore && !Fits(env.edits, env.body, inp) {
      env.body := before;
    } else {
      out := out.(summarized := true);
    }
  }

  method TrimUntilFits<B>(inp: Input, widths: seq<int>, env: RequestEnvelope<B>, r: Report)
    returns (out: Report, exceeded: bool)
    modifies env
    ensures Compacted(env.body, out, exceeded) == Rescue(env.edits, inp, widths, old(env.body), r)
  {
    out := r;
    var i := 0;
    while i < |widths|
      invariant 0 <= i <= |widths|
      invariant Rescue(env.edits, inp, widths[i..], env.body, out) == Rescue(env.edits, inp, widths, old(env.body), r)
    {
      assert widths[i..][0] == widths[i] && widths[i..][1..] == widths[i + 1..];
      var count := env.TrimLastNMessages(widths[i]);
      if count > 0 {
        out := out.(applied := true, trimmedTo := widths[i]);
      }
      if Fits(env.edits, env.body, inp) {
        return out.(finalEstimate := Needed(env.edits, env.body, inp)), false;
      }
      i := i + 1;
    }
    return out.(finalEstimate := Needed(env.edits, env.body, inp)), true;
  }

  method RunTiers<B>(cfg: Config, inp: Input, env: RequestEnvelope<B>, trigger: int)
    returns (report: Report, exceeded: bool)
    requires trigger == Trigger(cfg, inp)
    modifies env
    ensures Compacted(env.body, report, exceeded) == Tiers(env.edits, cfg, inp, old(env.body))
  {
    report, exceeded := NOTHING, false;
    var pol := PolicyFor(inp.clientApp);
    var n := env.ClearOldToolResults(pol.toolResultKeep);
    if n > 0 {
      report := report.(applied := true, cleared := n);
    }
    if Needed(env.edits, env.body, inp) < trigger {
      report := report.(finalEstimate := Needed(env.edits, env.body, inp));
      return;
    }
    report := TrySummary(cfg, inp, env, report);
    if Fits(env.edits, env.body, inp) {
      report := report.(finalEstimate := Needed(env.edits, env.body, inp));
      return;
    }
    report, exceeded := TrimUntilFits(inp, [pol.recentTurns, 6, 3, 1], env, report);
  }

  /** maybeCompact, on the envelope in place. */
  method MaybeCompactInPlace<B>(cfg: Config, inp: Input, env: RequestEnvelope<B>)
    returns (report: Report, exceeded: bool)
    modifies env
    ensures Compacted(env.body, report, exceeded) == MaybeCompact(env.edits, cfg, inp, old(env.body))
  {
    if TriggerPct(cfg.configured) <= 0.0 || inp.maxWindow <= 0 || cfg.hardPinned {
      return NOTHING, false;
    }
    var b, trigger := env.body, Trigger(cfg, inp);
    if Needed(env.edits, b, inp) < trigger {
      return NOTHING, false;
    }
    if Fits(env.edits, b, inp) && ClientWouldCompact(cfg, inp) {
      return NOTHING.(deferred := true), false;
    }
    report, exceeded := RunTiers(cfg, inp, env, trigger);
  }
}
