/**
 The agent loop as a step machine (packages/forge-agent/src/agent-loop.ts:938-1028 with the
 stages at 1230-1481). The model, the tools, the planners and the completion gate are
 inputs of each iteration; the theorems are about whole runs.
 */
module AgentLoop {
  import opened Text
  import opened Stages
  import opened Conversation
  import WireMessages

  datatype ProbePlan = ProbePlan(call: WireMessages.ToolCall, reason: string, result: string, treeChanged: bool)

  /**
   A verification action: whether its command (if there is one) passed, and the claims whose
   evidence the changed files touch.
   */
  datatype VerifyRun = VerifyRun(action: string, command: Option<bool>, touched: set<nat>)

  datatype EntryStatus = EntryPassed | EntryFailed | EntryNeedsReview

  /** What VERIFY writes into the verification matrix. */
  datatype MatrixEntry = MatrixEntry(action: string, status: EntryStatus)

  /** Without a command the action counts as passed. */
  predicate Passes(v: VerifyRun) {
    v.command != Some(false)
  }

  /** What one iteration finds outside: budget, planners, gate, model and diagnosis. */
  datatype Inputs = Inputs(overBudget: bool, summary: string, probe: Option<ProbePlan>, verify: Option<VerifyRun>,
                           canComplete: bool, completion: Completion, diagnosis: Diagnosis)

  /** The control fields of `InternalState`; `tops` records the top hypothesis of every refresh. */
  datatype Control = Control(iteration: nat, stage: StageName, probesThisPass: nat, passId: nat, verifyFailed: bool,
                             trace: seq<StageName>, lastTop: Option<nat>, tops: seq<Option<nat>>)

  datatype State = State(control: Control, beliefs: Beliefs, claims: seq<Claim>, chat: Chat, verdict: Verdict)

  function TopId(rows: seq<Hypothesis>): Option<nat> {
    var top := TopHypothesis(rows);
    if top.Some? then Some(top.value.id) else None
  }

  predicate Differ(a: Option<nat>, b: Option<nat>) {
    a.Some? && b.Some? && a != b
  }

  /** One more iteration, with a fresh probe budget when the top hypothesis has changed. */
  function Refreshed(c: Control, top: Option<nat>): Control {
    c.(iteration := c.iteration + 1, lastTop := top, tops := c.tops + [top],
       probesThisPass := if Differ(c.lastTop, top) then 0 else c.probesThisPass)
  }

  function ContextOf(c: Control, rows: seq<Hypothesis>, claims: seq<Claim>, e: Inputs): StageContext {
    StageContext(TopHypothesis(rows), OpenClaims(rows, claims), e.probe.Some?, e.canComplete, c.verifyFailed,
                 c.probesThisPass)
  }

  function Chosen(c: Control, rows: seq<Hypothesis>, claims: seq<Claim>, e: Inputs): StageName {
    if c.iteration == 1 then Localize else NextStage(ContextOf(c, rows, claims, e))
  }

  function Entered(c: Control, rows: seq<Hypothesis>, claims: seq<Claim>, e: Inputs): Control {
    var d := Refreshed(c, TopId(rows));
    d.(stage := Chosen(d, rows, claims, e), trace := d.trace + [Chosen(d, rows, claims, e)])
  }

  function NewPass(c: Control): Control {
    c.(verifyFailed := false, probesThisPass := 0, passId := c.passId + 1)
  }

  function Shortened(c: Chat, e: Inputs): Chat {
    if e.overBudget || |c.log| > 400 then Compact(c, false, e.summary) else c
  }

  function Probed(c: Chat, p: ProbePlan): Chat {
    c.(log := c.log + [Said(p.reason, [p.call])] + [Answer(p.call.id, p.result)],
       tests := Touched(c.tests, p.treeChanged))
  }

  /** What the stage just entered does to the control fields; a failed check or a repair starts a new pass. */
  function NextControl(c: Control, e: Inputs): Control {
    match c.stage
    case Probe => if e.probe.Some? then c.(probesThisPass := c.probesThisPass + 1) else c
    case Verify =>
      if e.verify.None? then c
      else if Passes(e.verify.value) then c.(verifyFailed := false)
      else NewPass(c)
    case Repair => NewPass(c)
    case _ => c
  }

  function NextBeliefs(b: Beliefs, stage: StageName, e: Inputs): Beliefs {
    if stage.Repair? then Repaired(b, e.diagnosis) else b
  }

  /** The first `n` claims of a snapshot that are verified at least in part and touched become stale. */
  function Staled(claims: seq<Claim>, snapshot: seq<Claim>, touched: set<nat>, n: nat): seq<Claim>
    requires n <= |snapshot|
  {
    if n == 0 then claims
    else
      var before, c := Staled(claims, snapshot, touched, n - 1), snapshot[n - 1];
      if IsStale(c, touched)
      then RegradedAll(before, c.id, if c.confidence < 0.49 then c.confidence else 0.49, StaleClaim)
      else before
  }

  predicate IsStale(c: Claim, touched: set<nat>) {
    (c.status.VerifiedClaim? || c.status.PartiallyVerified?) && c.id in touched
  }

  /**
   Exactly the claims that were verified at least in part and are touched become stale, at
   confidence 0.49 if they had more; all others, and all ids and texts, stay.
   */
  lemma {:induction false} StaledMeaning(claims: seq<Claim>, touched: set<nat>, n: nat)
    requires n <= |claims| && forall j, k :: 0 <= j < k < |claims| ==> claims[j].id != claims[k].id
    ensures var after := Staled(claims, claims, touched, n);
            && |after| == |claims|
            && forall k :: 0 <= k < |claims| ==>
                 && (k < n && IsStale(claims[k], touched) ==>
                       after[k] == Claim(claims[k].id, claims[k].text, StaleClaim,
                                         Clamp(if claims[k].confidence < 0.49 then claims[k].confidence else 0.49)))
                 && (k >= n || !IsStale(claims[k], touched) ==> after[k] == claims[k])
  {
    if n > 0 { StaledMeaning(claims, touched, n - 1); }
  }

  /** A verification marks stale claims, and a passed one verifies the first claim. */
  function Reclaimed(rows: seq<Hypothesis>, claims: seq<Claim>, verify: Option<VerifyRun>): seq<Claim> {
    if verify.None? || rows == [] then claims
    else
      var staled := Staled(claims, claims, verify.value.touched, |claims|);
      if Passes(verify.value) && claims != [] then RegradedAll(staled, claims[0].id, 0.85, VerifiedClaim) else staled
  }

  /** What a verification makes of claims with different ids. */
  lemma ReclaimedMeaning(rows: seq<Hypothesis>, claims: seq<Claim>, v: VerifyRun, k: nat)
    requires rows != [] && k < |claims| && forall i, j :: 0 <= i < j < |claims| ==> claims[i].id != claims[j].id
    ensures |Reclaimed(rows, claims, Some(v))| == |claims|
    ensures Reclaimed(rows, claims, Some(v))[k]
            == if k == 0 && v.command != Some(false) then Claim(claims[k].id, claims[k].text, VerifiedClaim, 0.85)
               else if IsStale(claims[k], v.touched)
               then Claim(claims[k].id, claims[k].text, StaleClaim,
                          Clamp(if claims[k].confidence < 0.49 then claims[k].confidence else 0.49))
               else claims[k]
  {
    StaledMeaning(claims, v.touched, |claims|);
  }

  /** Only a verification changes claims. */
  function NextClaims(rows: seq<Hypothesis>, claims: seq<Claim>, stage: StageName, e: Inputs): seq<Claim> {
    if stage.Verify? then Reclaimed(rows, claims, e.verify) else claims
  }

  function NextChat(c: Chat, stage: StageName, e: Inputs): Turnout {
    match stage
    case Localize => Converse(c, false, e.canComplete, e.completion)
    case Edit => Converse(c, true, e.canComplete, e.completion)
    case Probe => Turnout(if e.probe.Some? then Probed(c, e.probe.value) else c, Going)
    case Finalize => Turnout(c, Ended(Completed))
    case _ => Turnout(c, Going)
  }

  function Acted(s: State, e: Inputs): State {
    var t := NextChat(s.chat, s.control.stage, e);
    State(NextControl(s.control, e), NextBeliefs(s.beliefs, s.control.stage, e),
          NextClaims(s.beliefs.rows, s.claims, s.control.stage, e), t.chat, t.verdict)
  }

  /** The control fields of a state once its next stage is chosen. */
  function Next(s: State, e: Inputs): Control {
    Entered(s.control, s.beliefs.rows, s.claims, e)
  }

  function Step(s: State, e: Inputs): State {
    Acted(s.(control := Next(s, e), chat := Shortened(s.chat, e)), e)
  }

  /** A run stops at its first terminal stage, or when its budget of iterations is used up. */
  function Run(s: State, es: seq<Inputs>): State
    decreases |es|
  {
    if es == [] || s.verdict.Ended? then s else Run(Step(s, es[0]), es[1..])
  }

  /** A run starts with what the belief store holds and, when resumed, with one message. */
  function Start(b: Beliefs, claims: seq<Claim>, resumed: Option<string>): State {
    State(Control(0, Localize, 0, 0, false, [], None, []), b, claims,
          Chat(if resumed.Some? then [Note(resumed.value)] else [], Tests(false, 0, None, []), {}, 0, 0, 0, false, 0),
          Going)
  }

  // ---------------------------------------------------------------- stages of a run

  function Count(trace: seq<StageName>, stage: StageName): nat {
    if trace == [] then 0
    else Count(trace[..|trace| - 1], stage) + (if trace[|trace| - 1] == stage then 1 else 0)
  }

  /** How often the top hypothesis changed from one refresh to the next. */
  function Changes(tops: seq<Option<nat>>): nat {
    if |tops| < 2 then 0
    else Changes(tops[..|tops| - 1]) + (if Differ(tops[|tops| - 2], tops[|tops| - 1]) then 1 else 0)
  }

  predicate InLoop(stage: StageName) {
    stage.Probe? || stage.Edit? || stage.Repair? || stage.Finalize?
  }

  ghost predicate TraceForm(c: Control, ended: bool) {
    && |c.trace| == c.iteration == |c.tops|
    && (forall k :: 0 <= k < |c.trace| ==> if k == 0 then c.trace[k].Localize? else InLoop(c.trace[k]))
    && (forall k :: 0 <= k < |c.trace| && c.trace[k].Finalize? ==> k == |c.trace| - 1 && ended)
  }

  ghost predicate Counted(c: Control) {
    && !c.verifyFailed
    && c.lastTop == (if c.tops == [] then None else c.tops[|c.tops| - 1])
    && c.passId == Count(c.trace, Repair)
    && c.probesThisPass <= MAX_PROBES_PER_PASS
    && Count(c.trace, Probe) <= MAX_PROBES_PER_PASS * (c.passId + Changes(c.tops)) + c.probesThisPass
  }

  lemma CountSnoc(trace: seq<StageName>, last: StageName, stage: StageName)
    ensures Count(trace + [last], stage) == Count(trace, stage) + (if last == stage then 1 else 0)
  {
    assert (trace + [last])[..|trace|] == trace;
  }

  lemma ChangesSnoc(tops: seq<Option<nat>>, top: Option<nat>)
    ensures Changes(tops + [top])
            == Changes(tops) + (if tops != [] && Differ(tops[|tops| - 1], top) then 1 else 0)
  {
    assert (tops + [top])[..|tops|] == tops;
  }

  lemma EnteredForm(c: Control, rows: seq<Hypothesis>, claims: seq<Claim>, e: Inputs)
    requires TraceForm(c, false) && Counted(c)
    ensures var d := Entered(c, rows, claims, e);
            && TraceForm(d, d.stage.Finalize?) && d.trace == c.trace + [d.stage]
            && (d.stage.Localize? || InLoop(d.stage)) && !d.verifyFailed
            && (d.stage.Finalize? ==> e.canComplete)
            && (d.stage.Probe? ==> d.probesThisPass < MAX_PROBES_PER_PASS && e.probe.Some?)
  {
    assert c.trace == [] <==> c.iteration == 0;
  }

  lemma EnteredCounted(c: Control, rows: seq<Hypothesis>, claims: seq<Claim>, e: Inputs)
    requires Counted(c)
    ensures var d := Entered(c, rows, claims, e);
            && d.lastTop == d.tops[|d.tops| - 1] && d.passId == c.passId
            && d.probesThisPass <= MAX_PROBES_PER_PASS
            && Count(d.trace, Repair) == c.passId + (if d.stage.Repair? then 1 else 0)
            && Count(d.trace, Probe) <= MAX_PROBES_PER_PASS * (c.passId + Changes(d.tops)) + d.probesThisPass
                                        + (if d.stage.Probe? then 1 else 0)
  {
    var d := Entered(c, rows, claims, e);
    CountSnoc(c.trace, d.stage, Repair);
    CountSnoc(c.trace, d.stage, Probe);
    ChangesSnoc(c.tops, TopId(rows));
  }

  lemma StepControl(s: State, e: Inputs)
    requires TraceForm(s.control, false) && Counted(s.control) && s.verdict.Going?
    ensures var t := Step(s, e); TraceForm(t.control, t.verdict == Ended(Completed)) && Counted(t.control)
    ensures Step(s, e).control.trace == s.control.trace + [Next(s, e).stage]
  {
    EnteredForm(s.control, s.beliefs.rows, s.claims, e);
    EnteredCounted(s.control, s.beliefs.rows, s.claims, e);
  }

  /**
   LOCALIZE once and first, then only PROBE, EDIT, REPAIR and FINALIZE, with FINALIZE only
   last; passes count the repairs; probes are at most two per repair or change of the top
   hypothesis, and two more. VERIFY is never entered and no verify failure is ever pending.
   */
  lemma {:induction false} RunStages(s: State, es: seq<Inputs>)
    requires TraceForm(s.control, s.verdict == Ended(Completed)) && Counted(s.control)
    ensures var t := Run(s, es); TraceForm(t.control, t.verdict == Ended(Completed)) && Counted(t.control)
    decreases |es|
  {
    if es != [] && s.verdict.Going? {
      StepControl(s, es[0]);
      RunStages(Step(s, es[0]), es[1..]);
    }
  }

  /** How many probes a run has made since its last repair or change of the top hypothesis. */
  function ProbesSince(trace: seq<StageName>, tops: seq<Option<nat>>, n: nat): nat
    requires n <= |trace| && n <= |tops|
  {
    if n == 0 || trace[n - 1].Repair? then 0
    else
      (if n > 1 && Differ(tops[n - 2], tops[n - 1]) then 0 else ProbesSince(trace, tops, n - 1))
      + (if trace[n - 1].Probe? then 1 else 0)
  }

  lemma {:induction false} ProbesSincePrefix(trace: seq<StageName>, tops: seq<Option<nat>>, more: seq<StageName>,
                                             next: seq<Option<nat>>, n: nat)
    requires n <= |trace| && n <= |tops| && trace <= more && tops <= next
    ensures ProbesSince(trace, tops, n) == ProbesSince(more, next, n)
  {
    if n > 0 { ProbesSincePrefix(trace, tops, more, next, n - 1); }
  }

  ghost predicate Budgeted(c: Control) {
    |c.trace| == |c.tops| && c.probesThisPass == ProbesSince(c.trace, c.tops, |c.trace|)
  }

  lemma StepBudgeted(s: State, e: Inputs)
    requires TraceForm(s.control, false) && Counted(s.control) && s.verdict.Going? && Budgeted(s.control)
    ensures Budgeted(Step(s, e).control)
  {
    var c, d := s.control, Next(s, e);
    EnteredForm(c, s.beliefs.rows, s.claims, e);
    assert d.trace == c.trace + [d.stage] && d.tops == c.tops + [TopId(s.beliefs.rows)];
    ProbesSincePrefix(c.trace, c.tops, d.trace, d.tops, |c.trace|);
  }

  /** Over every run the budget of a pass counts the probes since the last repair or change of the top hypothesis. */
  lemma {:induction false} RunBudgeted(s: State, es: seq<Inputs>)
    requires TraceForm(s.control, s.verdict == Ended(Completed)) && Counted(s.control) && Budgeted(s.control)
    ensures Budgeted(Run(s, es).control)
    decreases |es|
  {
    if es != [] && s.verdict.Going? {
      StepControl(s, es[0]);
      StepBudgeted(s, es[0]);
      RunBudgeted(Step(s, es[0]), es[1..]);
    }
  }

  lemma StageTrace(b: Beliefs, claims: seq<Claim>, resumed: Option<string>, es: seq<Inputs>)
    ensures var c := Run(Start(b, claims, resumed), es).control;
            var ended := Run(Start(b, claims, resumed), es).verdict == Ended(Completed);
            && |c.trace| <= |es|
            && (c.trace != [] ==> c.trace[0] == Localize)
            && (forall k :: 1 <= k < |c.trace| ==> InLoop(c.trace[k]))
            && (forall k :: 0 <= k < |c.trace| && c.trace[k] == Finalize ==> k == |c.trace| - 1 && ended)
            && c.passId == Count(c.trace, Repair)
            && Count(c.trace, Probe) <= 2 * (1 + Count(c.trace, Repair) + Changes(c.tops))
            && Budgeted(c) && c.probesThisPass <= 2
  {
    RunBudgeted(Start(b, claims, resumed), es);
    RunStages(Start(b, claims, resumed), es);
    RunLength(Start(b, claims, resumed), es);
  }

  lemma {:induction false} RunLength(s: State, es: seq<Inputs>)
    ensures |Run(s, es).control.trace| <= |s.control.trace| + |es|
    ensures Run(s, es).verdict.Going? ==> |Run(s, es).control.trace| == |s.control.trace| + |es|
    decreases |es|
  {
    if es != [] && s.verdict.Going? {
      assert Step(s, es[0]).control.trace == Next(s, es[0]).trace;
      RunLength(Step(s, es[0]), es[1..]);
    }
  }

  // ---------------------------------------------------------------- hypotheses of a run

  lemma StepBeliefs(s: State, e: Inputs)
    ensures var stage := Step(s, e).control.stage;
            stage == Next(s, e).stage
            && Step(s, e).beliefs == if stage.Repair? then Repaired(s.beliefs, e.diagnosis) else s.beliefs
  {
  }

  /** Only REPAIR touches the hypotheses, and the disproven stay disproven. */
  lemma {:induction false} RunBeliefs(s: State, es: seq<Inputs>)
    requires Distinct(s.beliefs)
    ensures Distinct(Run(s, es).beliefs)
    ensures DisprovenIds(s.beliefs.rows) <= DisprovenIds(Run(s, es).beliefs.rows)
    decreases |es|
  {
    if es != [] && s.verdict.Going? {
      StepBeliefs(s, es[0]);
      RepairDisprovesTop(s.beliefs, es[0].diagnosis);
      RunBeliefs(Step(s, es[0]), es[1..]);
    }
  }

  /**
   A REPAIR disproves exactly the hypothesis that was on top, some hypothesis is on top
   after it, and however the run goes on, the disproven one is never on top again.
   */
  lemma RepairedNeverOnTop(s: State, e: Inputs, es: seq<Inputs>)
    requires Distinct(s.beliefs) && Step(s, e).control.stage.Repair?
    ensures var t, top := Step(s, e), TopId(s.beliefs.rows);
            && TopId(t.beliefs.rows).Some?
            && (top.None? ==> DisprovenIds(t.beliefs.rows) == DisprovenIds(s.beliefs.rows))
            && (top.Some? ==> top.value !in DisprovenIds(s.beliefs.rows)
                              && DisprovenIds(t.beliefs.rows) == DisprovenIds(s.beliefs.rows) + {top.value}
                              && TopId(Run(t, es).beliefs.rows) != top)
  {
    StepBeliefs(s, e);
    RepairDisprovesTop(s.beliefs, e.diagnosis);
    RunBeliefs(Step(s, e), es);
    DisprovenNotTop(Run(Step(s, e), es).beliefs);
  }

  // ---------------------------------------------------------------- claims and repairs

  ghost predicate Regular(s: State) {
    TraceForm(s.control, s.verdict == Ended(Completed)) && Counted(s.control)
  }

  lemma StepRegular(s: State, e: Inputs)
    requires Regular(s) && s.verdict.Going?
    ensures Regular(Step(s, e)) && Step(s, e).claims == s.claims
    ensures Step(s, e).control.trace == s.control.trace + [Next(s, e).stage]
    ensures Step(s, e).control.tops == s.control.tops + [TopId(s.beliefs.rows)]
  {
    StepControl(s, e);
    EnteredForm(s.control, s.beliefs.rows, s.claims, e);
  }

  /** No run changes a claim: what VERIFY would do never happens. */
  lemma {:induction false} RunClaims(s: State, es: seq<Inputs>)
    requires Regular(s)
    ensures Run(s, es).claims == s.claims
    decreases |es|
  {
    if es != [] && s.verdict.Going? {
      StepRegular(s, es[0]);
      RunClaims(Step(s, es[0]), es[1..]);
    }
  }

  /** A probe is due: one is planned, of the pass's two one is left, and some open claim is below one half. */
  predicate ProbeDue(s: State, e: Inputs) {
    var top := TopHypothesis(s.beliefs.rows);
    && e.probe.Some?
    && (s.control.probesThisPass < 2
        || (s.control.lastTop.Some? && top.Some? && s.control.lastTop.value != top.value.id))
    && s.beliefs.rows != []
    && exists c :: c in s.claims && Open(c) && c.confidence < 0.5
  }

  /** The hypothesis on top is contradicted. */
  predicate TopRefuted(rows: seq<Hypothesis>) {
    TopHypothesis(rows).Some? && TopHypothesis(rows).value.status.Contradicted?
  }

  predicate TopConfident(rows: seq<Hypothesis>) {
    && TopHypothesis(rows).Some?
    && TopHypothesis(rows).value.confidence >= 0.6 && !TopHypothesis(rows).value.status.Unknown?
  }

  /** Which stage comes after LOCALIZE, said of the store, the gate and the planner's probe. */
  lemma NextStageIff(s: State, e: Inputs)
    requires Regular(s) && s.verdict.Going? && s.control.iteration > 0
    ensures var stage, rows, open := Next(s, e).stage, s.beliefs.rows, s.beliefs.rows != [] && !NoneOpen(s.claims);
            && (stage.Finalize? <==> e.canComplete)
            && (stage.Probe? <==> !e.canComplete && ProbeDue(s, e))
            && (stage.Edit? <==> !e.canComplete && !ProbeDue(s, e) && !TopRefuted(rows) && (TopConfident(rows) || open))
            && (stage.Repair? <==>
                  !e.canComplete && !ProbeDue(s, e) && (TopRefuted(rows) || (!TopConfident(rows) && !open)))
  {
    StageIff(ContextOf(Refreshed(s.control, TopId(s.beliefs.rows)), s.beliefs.rows, s.claims, e));
    OpenClaimsIff(s.beliefs.rows, s.claims);
    DoubtIff(s.beliefs.rows, s.claims);
    TopMeaning(s.beliefs.rows, |s.beliefs.rows|);
  }

  /** LOCALIZE comes first, and REPAIR of a task with hypotheses exactly so. */
  lemma RepairIff(s: State, e: Inputs)
    requires Regular(s) && s.verdict.Going? && s.beliefs.rows != []
    ensures Next(s, e).stage.Localize? <==> s.control.iteration == 0
    ensures Next(s, e).stage.Repair? <==>
              && s.control.iteration > 0 && !e.canComplete && !ProbeDue(s, e)
              && (TopRefuted(s.beliefs.rows) || (!TopConfident(s.beliefs.rows) && NoneOpen(s.claims)))
  {
    if s.control.iteration > 0 { NextStageIff(s, e); }
  }

  /** With an open claim REPAIR needs a contradicted top, and takes one off the contradicted hypotheses. */
  lemma StepContradictions(s: State, e: Inputs)
    requires Regular(s) && s.verdict.Going? && Distinct(s.beliefs) && s.beliefs.rows != [] && !NoneOpen(s.claims)
    ensures var rows, t := s.beliefs.rows, Step(s, e);
            && Distinct(t.beliefs) && t.beliefs.rows != []
            && Contradictions(t.beliefs.rows, |t.beliefs.rows|) + (if Next(s, e).stage.Repair? then 1 else 0)
               == Contradictions(rows, |rows|)
  {
    StepBeliefs(s, e);
    if Next(s, e).stage.Repair? {
      RepairIff(s, e);
      TopMeaning(s.beliefs.rows, |s.beliefs.rows|);
      RepairContradictions(s.beliefs, e.diagnosis);
      RepairDisprovesTop(s.beliefs, e.diagnosis);
    }
  }

  /**
   As long as a claim is open, every REPAIR of a run is paid for by a contradicted hypothesis
   of its start: repairs made and contradicted hypotheses left always add up to those.
   */
  lemma {:induction false} RepairsConserve(s: State, es: seq<Inputs>)
    requires Regular(s) && Distinct(s.beliefs) && s.beliefs.rows != [] && !NoneOpen(s.claims)
    ensures var t := Run(s, es);
            Count(t.control.trace, Repair) + Contradictions(t.beliefs.rows, |t.beliefs.rows|)
            == Count(s.control.trace, Repair) + Contradictions(s.beliefs.rows, |s.beliefs.rows|)
    decreases |es|
  {
    if es != [] && s.verdict.Going? {
      StepRegular(s, es[0]);
      StepContradictions(s, es[0]);
      CountSnoc(s.control.trace, Next(s, es[0]).stage, Repair);
      RepairsConserve(Step(s, es[0]), es[1..]);
    }
  }

  ghost predicate SameTops(tops: seq<Option<nat>>, top: Option<nat>) {
    forall k :: 0 <= k < |tops| ==> tops[k] == top
  }

  lemma {:induction false} SameTopsUnchanged(tops: seq<Option<nat>>, top: Option<nat>)
    requires SameTops(tops, top)
    ensures Changes(tops) == 0
    decreases |tops|
  {
    if |tops| >= 2 { SameTopsUnchanged(tops[..|tops| - 1], top); }
  }

  /** Without a contradicted hypothesis and with an open claim a run leaves the hypotheses as they are. */
  lemma {:induction false} RunKeepsBeliefs(s: State, es: seq<Inputs>)
    requires Regular(s) && Distinct(s.beliefs) && s.beliefs.rows != [] && !NoneOpen(s.claims)
    requires Contradictions(s.beliefs.rows, |s.beliefs.rows|) == 0 && SameTops(s.control.tops, TopId(s.beliefs.rows))
    ensures Run(s, es).beliefs == s.beliefs && SameTops(Run(s, es).control.tops, TopId(s.beliefs.rows))
    decreases |es|
  {
    if es != [] && s.verdict.Going? {
      StepRegular(s, es[0]);
      StepContradictions(s, es[0]);
      StepBeliefs(s, es[0]);
      RunKeepsBeliefs(Step(s, es[0]), es[1..]);
    }
  }

  /** The hypothesis every fresh task starts with. */
  const INITIAL := Beliefs([Hypothesis(0, Plausible, 0.5)], 1)

  /** The start of a fresh task: the initial hypothesis, and an open claim for each of its acceptance criteria. */
  function FreshStart(criteria: seq<string>, next: nat): State {
    Start(INITIAL, Seeded([], criteria, next), None)
  }

  /**
   A fresh task has a claim open in every iteration, so its runs never repair: after LOCALIZE
   they probe at most twice in all, edit, and finalize at the end. No hypothesis and no claim
   ever changes.
   */
  lemma FreshTaskNeverRepairs(criteria: seq<string>, next: nat, es: seq<Inputs>)
    requires criteria != []
    ensures var t := Run(FreshStart(criteria, next), es);
            && t.beliefs == INITIAL && t.claims == Seeded([], criteria, next) && !NoneOpen(t.claims)
            && t.control.passId == 0 && Count(t.control.trace, Repair) == 0
            && Count(t.control.trace, Probe) <= MAX_PROBES_PER_PASS
            && (forall k :: 1 <= k < |t.control.trace| ==>
                  t.control.trace[k].Probe? || t.control.trace[k].Edit? || t.control.trace[k].Finalize?)
  {
    var s, t := FreshStart(criteria, next), Run(FreshStart(criteria, next), es);
    SeededForm([], criteria, next);
    assert criteria[0] in criteria && !HasText([], criteria[0]);
    assert Open(s.claims[0]);
    assert Contradictions(INITIAL.rows, 1) == Contradictions(INITIAL.rows, 0);
    RunStages(s, es);
    RunClaims(s, es);
    RepairsConserve(s, es);
    RunKeepsBeliefs(s, es);
    SameTopsUnchanged(t.control.tops, TopId(INITIAL.rows));
    forall k | 0 <= k < |t.control.trace|
      ensures !t.control.trace[k].Repair?
    {
      CountZero(t.control.trace, Repair, k);
    }
  }

  lemma {:induction false} CountZero(trace: seq<StageName>, stage: StageName, k: nat)
    requires Count(trace, stage) == 0 && k < |trace|
    ensures trace[k] != stage
    decreases |trace|
  {
    if k < |trace| - 1 { CountZero(trace[..|trace| - 1], stage, k); }
  }

  ghost predicate Unconfident(rows: seq<Hypothesis>) {
    forall k :: 0 <= k < |rows| && Candidate(rows[k]) ==>
      rows[k].confidence < EDIT_CONFIDENCE && !rows[k].status.Contradicted?
  }

  /** With no confident hypothesis, the next stage is REPAIR exactly when the gate is shut and no claim is open. */
  lemma UnconfidentRepairs(s: State, e: Inputs)
    requires Regular(s) && s.verdict.Going? && s.control.iteration > 0
    requires Unconfident(s.beliefs.rows) && s.beliefs.rows != []
    ensures Next(s, e).stage.Repair? <==> !e.canComplete && NoneOpen(s.claims)
  {
    RepairIff(s, e);
    OpenClaimsIff(s.beliefs.rows, s.claims);
    TopMeaning(s.beliefs.rows, |s.beliefs.rows|);
  }

  /** A task under way whose store holds no open claim. */
  ghost predicate Adrift(s: State) {
    && Regular(s) && s.verdict.Going? && s.control.iteration > 0
    && NoneOpen(s.claims) && Distinct(s.beliefs)
  }

  predicate Shut(e: Inputs) {
    !e.canComplete && !e.diagnosis.DatabaseFailure?
  }

  /** With the gate shut such a task edits when the hypothesis on top can be acted on, and repairs otherwise. */
  lemma AdriftNext(s: State, e: Inputs)
    requires Adrift(s) && !e.canComplete
    ensures var top := TopHypothesis(s.beliefs.rows);
            Next(s, e).stage == if top.Some? && Actionable(top.value) then Edit else Repair
  {
    StageIff(ContextOf(Refreshed(s.control, TopId(s.beliefs.rows)), s.beliefs.rows, s.claims, e));
    OpenClaimsIff(s.beliefs.rows, s.claims);
    TopMeaning(s.beliefs.rows, |s.beliefs.rows|);
  }

  /** What such a repair leaves: still adrift, hopeless exactly as before, and one blocking hypothesis fewer. */
  lemma AdriftRepair(s: State, e: Inputs)
    requires Adrift(s) && Shut(e) && Next(s, e).stage.Repair?
    ensures var t, top := Step(s, e), TopHypothesis(s.beliefs.rows);
            && Adrift(t) && t.control.trace == s.control.trace + [Repair] && t.chat == Shortened(s.chat, e)
            && (Hopeless(t.beliefs.rows) <==> Hopeless(s.beliefs.rows))
            && Blockers(t.beliefs.rows, |t.beliefs.rows|) + (if top.Some? && Blocking(top.value) then 1 else 0)
               == Blockers(s.beliefs.rows, |s.beliefs.rows|)
  {
    AdriftNext(s, e);
    StepRegular(s, e);
    RepairHopeless(s.beliefs, e.diagnosis);
    RepairDisprovesTop(s.beliefs, e.diagnosis);
  }

  function Repairs(n: nat): seq<StageName> {
    seq(n, _ => Repair)
  }

  /** `t` is `s` after `n` repairs and nothing else. */
  ghost predicate OnlyRepaired(s: State, t: State, n: nat) {
    && Adrift(t) && t.control.trace == s.control.trace + Repairs(n)
    && t.chat.cuts >= s.chat.cuts && (t.chat.cuts == s.chat.cuts ==> t.chat == s.chat)
  }

  lemma NoRepairs(s: State)
    requires Adrift(s)
    ensures OnlyRepaired(s, s, 0)
  {
    assert s.control.trace + Repairs(0) == s.control.trace;
  }

  lemma RepairedOnce(s: State, r: State, e: Inputs, t: State, n: nat)
    requires OnlyRepaired(s, r, n) && Adrift(t)
    requires t.control.trace == r.control.trace + [Repair] && t.chat == Shortened(r.chat, e)
    ensures OnlyRepaired(s, t, n + 1)
  {
    assert s.control.trace + Repairs(n) + [Repair] == s.control.trace + Repairs(n + 1);
  }

  lemma OneMoreRepair(s: State, r: State, e: Inputs, n: nat)
    requires OnlyRepaired(s, r, n) && Shut(e) && Next(r, e).stage.Repair?
    ensures OnlyRepaired(s, Step(r, e), n + 1)
  {
    AdriftRepair(r, e);
    RepairedOnce(s, r, e, Step(r, e), n);
  }

  /**
   With no hypothesis that could be acted on, a run repairs for as long as the gate stays shut
   and no database failure is diagnosed: the model is not asked, and the log does not change
   unless it is compacted.
   */
  lemma {:induction false} HopelessRepairs(s: State, es: seq<Inputs>)
    requires Adrift(s) && Hopeless(s.beliefs.rows) && forall k :: 0 <= k < |es| ==> Shut(es[k])
    ensures OnlyRepaired(s, Run(s, es), |es|) && Hopeless(Run(s, es).beliefs.rows)
    decreases |es|
  {
    if es == [] {
      NoRepairs(s);
    } else {
      var front, e := es[..|es| - 1], es[|es| - 1];
      assert es == front + [e];
      HopelessRepairs(s, front);
      RunSnoc(s, front, e);
      HopelessStep(s, Run(s, front), e, |front|);
    }
  }

  lemma HopelessStep(s: State, r: State, e: Inputs, n: nat)
    requires OnlyRepaired(s, r, n) && Hopeless(r.beliefs.rows) && Shut(e)
    ensures OnlyRepaired(s, Step(r, e), n + 1) && Hopeless(Step(r, e).beliefs.rows)
  {
    AdriftNext(r, e);
    TopMeaning(r.beliefs.rows, |r.beliefs.rows|);
    OneMoreRepair(s, r, e, n);
    AdriftRepair(r, e);
  }

  /** A run that repairs `n` times and then enters EDIT. */
  ghost predicate EditsAfter(s: State, es: seq<Inputs>, n: nat) {
    && n < |es| && Run(s, es[..n]).verdict.Going?
    && Run(s, es[..n]).control.trace == s.control.trace + Repairs(n)
    && Next(Run(s, es[..n]), es[n]).stage.Edit?
  }

  /** With one that can be acted on, EDIT is reached: each repair takes one of those above it away, and adds none. */
  lemma {:induction false} EditReached(s: State, es: seq<Inputs>) returns (n: nat)
    requires Adrift(s) && !Hopeless(s.beliefs.rows) && forall k :: 0 <= k < |es| ==> Shut(es[k])
    requires |es| > Blockers(s.beliefs.rows, |s.beliefs.rows|)
    ensures n <= Blockers(s.beliefs.rows, |s.beliefs.rows|) && EditsAfter(s, es, n)
    decreases |es|
  {
    TopBlocks(s.beliefs.rows);
    AdriftNext(s, es[0]);
    if Next(s, es[0]).stage.Edit? {
      n := 0;
      assert es[..0] == [] && s.control.trace + Repairs(0) == s.control.trace;
    } else {
      AdriftRepair(s, es[0]);
      var m := EditReached(Step(s, es[0]), es[1..]);
      EditsLater(s, es, m);
      n := m + 1;
    }
  }

  lemma EditsLater(s: State, es: seq<Inputs>, m: nat)
    requires es != [] && s.verdict.Going? && Step(s, es[0]).control.trace == s.control.trace + [Repair]
    requires EditsAfter(Step(s, es[0]), es[1..], m)
    ensures EditsAfter(s, es, m + 1)
  {
    assert es[..m + 1][0] == es[0] && es[..m + 1][1..] == es[1..][..m];
    assert s.control.trace + [Repair] + Repairs(m) == s.control.trace + Repairs(m + 1);
  }

  lemma RunMore(r: State, e: Inputs, t: State)
    requires Regular(r) && t == if r.verdict.Ended? then r else Step(r, e)
    ensures r.control.trace <= t.control.trace
    ensures r.verdict.Going? ==> t.control.trace == r.control.trace + [Next(r, e).stage]
  {
    if r.verdict.Going? { StepRegular(r, e); }
  }

  /** The trace of a run begins with the trace of a shorter one. */
  lemma {:induction false} TraceGrows(s: State, es: seq<Inputs>, n: nat)
    requires Regular(s) && n <= |es|
    ensures Run(s, es[..n]).control.trace <= Run(s, es).control.trace
    decreases |es|
  {
    if n == |es| {
      assert es[..n] == es;
    } else {
      var front, e := es[..|es| - 1], es[|es| - 1];
      TraceGrows(s, front, n);
      assert front[..n] == es[..n] && front + [e] == es;
      RunSnoc(s, front, e);
      RunStages(s, front);
      RunMore(Run(s, front), e, Run(s, es));
    }
  }

  lemma EditsInTrace(s: State, es: seq<Inputs>, n: nat)
    requires Regular(s) && EditsAfter(s, es, n)
    ensures s.control.trace + Repairs(n) + [Edit] <= Run(s, es).control.trace
  {
    assert es[..n + 1] == es[..n] + [es[n]];
    RunSnoc(s, es[..n], es[n]);
    RunStages(s, es[..n]);
    RunMore(Run(s, es[..n]), es[n], Run(s, es[..n + 1]));
    TraceGrows(s, es, n + 1);
  }

  /**
   Exactly when a task repairs for ever: with no open claim, which no run brings about but a
   resumed task may be given, the gate shut and no database failure diagnosed, a run at least
   as long as the list of hypotheses repairs in every iteration if and only if none of them
   can be acted on. Otherwise it edits after at most one repair for each that blocks it.
   */
  lemma RepairsForEverIff(s: State, es: seq<Inputs>)
    requires Adrift(s) && forall k :: 0 <= k < |es| ==> Shut(es[k])
    requires |es| >= |s.beliefs.rows| && es != []
    ensures Run(s, es).control.trace == s.control.trace + Repairs(|es|) <==> Hopeless(s.beliefs.rows)
    ensures Hopeless(s.beliefs.rows) ==> OnlyRepaired(s, Run(s, es), |es|)
    ensures !Hopeless(s.beliefs.rows) ==> Blockers(s.beliefs.rows, |s.beliefs.rows|) < |s.beliefs.rows|
    ensures !Hopeless(s.beliefs.rows) ==>
              exists n: nat :: EditsAfter(s, es, n) && n <= Blockers(s.beliefs.rows, |s.beliefs.rows|)
  {
    if Hopeless(s.beliefs.rows) {
      HopelessRepairs(s, es);
    } else {
      BlockersBound(s.beliefs.rows);
      var n := EditReached(s, es);
      EditsInTrace(s, es, n);
      var edited := s.control.trace + Repairs(n) + [Edit];
      assert edited[|edited| - 1] == Run(s, es).control.trace[|edited| - 1];
    }
  }

  /** A task is adrift once LOCALIZE has gone on, and hopeless then, exactly as it was entered. */
  lemma AdriftStart(b: Beliefs, claims: seq<Claim>, resumed: Option<string>, e: Inputs)
    requires Distinct(b) && Step(Start(b, claims, resumed), e).verdict.Going?
    ensures Adrift(Step(Start(b, claims, resumed), e)) <==> NoneOpen(claims)
    ensures Step(Start(b, claims, resumed), e).beliefs == b
  {
    StepRegular(Start(b, claims, resumed), e);
    StepBeliefs(Start(b, claims, resumed), e);
  }

  // ---------------------------------------------------------------- the log of a run

  /** The log is compacted before an iteration exactly when it is over 30 messages, and over 400 or over the budget. */
  lemma ShortenedIff(c: Chat, e: Inputs)
    ensures Shortened(c, e).cuts == c.cuts + (if |c.log| > 400 || (e.overBudget && |c.log| > 30) then 1 else 0)
    ensures Shortened(c, e) == c.(log := Shortened(c, e).log, cuts := Shortened(c, e).cuts)
    ensures Shortened(c, e).cuts > c.cuts ==> Shortened(c, e).log == Compacted(c.log, false, e.summary)
    ensures Shortened(c, e).cuts == c.cuts ==> Shortened(c, e) == c
  {
  }

  lemma StepTests(s: State, e: Inputs)
    requires Spaced(s.chat.tests)
    ensures Spaced(Step(s, e).chat.tests)
  {
    var stage, chat := Next(s, e).stage, Shortened(s.chat, e);
    ConverseSpaced(chat, stage.Edit?, e.canComplete, e.completion);
    if e.probe.Some? { TouchedSpaced(chat.tests, e.probe.value.treeChanged); }
  }

  lemma {:induction false} RunSpaced(s: State, es: seq<Inputs>)
    requires Spaced(s.chat.tests)
    ensures Spaced(Run(s, es).chat.tests)
    decreases |es|
  {
    if es != [] && s.verdict.Going? {
      StepTests(s, es[0]);
      RunSpaced(Step(s, es[0]), es[1..]);
    }
  }

  /** In every run, between a test or build run and a later one made in EDIT, a tracked edit was executed. */
  lemma EditBetweenTestRuns(b: Beliefs, claims: seq<Claim>, resumed: Option<string>, es: seq<Inputs>, i: nat, j: nat)
    requires var h := Run(Start(b, claims, resumed), es).chat.tests.history;
             i < j < |h| && h[i].TestRan? && h[j].TestRan? && h[j].inEdit
    ensures var h := Run(Start(b, claims, resumed), es).chat.tests.history; exists k :: i < k < j && h[k].EditRan?
  {
    RunSpaced(Start(b, claims, resumed), es);
    EditBetweenTests(Run(Start(b, claims, resumed), es).chat.tests, i, j);
  }

  /** The state in which the `k`-th call of an iteration is reached. */
  function ReachedAt(s: State, e: Inputs, k: nat): Pass
    requires e.completion.Reply? && k <= |e.completion.requests|
  {
    var requests := e.completion.requests;
    HandleAll(Opened(Shortened(s.chat, e), e.completion.content, requests), Next(s, e).stage.Edit?, requests[..k])
  }

  /**
   Over every run, and for every call it reaches: the guard blocks a test run although the
   last run no longer tells how things stand, exactly when the stage is EDIT and files were
   changed since that run, or by it, by calls the loop does not track, with no tracked edit
   in between. And where nothing has changed it always blocks.
   */
  lemma WronglyBlockedIff(b: Beliefs, claims: seq<Claim>, resumed: Option<string>, es: seq<Inputs>, e: Inputs, k: nat)
    requires var s := Run(Start(b, claims, resumed), es);
             && s.verdict.Going? && Asks(Next(s, e).stage) && e.completion.Reply? && k < |e.completion.requests|
             && ReachedAt(s, e, k).verdict.Going?
    ensures var s := Run(Start(b, claims, resumed), es);
            var p, r, editing := ReachedAt(s, e, k), e.completion.requests[k], Next(s, e).stage.Edit?;
            && (Redundant(p.tests, editing, r) && !Unchanged(p.tests.history) <==>
                  editing && IsTestRun(r) && ChangedUntracked(p.tests.history))
            && (editing && IsTestRun(r) && Unchanged(p.tests.history) ==> Redundant(p.tests, editing, r))
            && (Redundant(p.tests, editing, r) ==>
                  Handle(p, editing, r) == p.(replies := p.replies + [Answer(r.call.id, r.reply)]))
  {
    var s := Run(Start(b, claims, resumed), es);
    var requests, editing := e.completion.requests, Next(s, e).stage.Edit?;
    RunSpaced(Start(b, claims, resumed), es);
    HandleAllSpaced(Opened(Shortened(s.chat, e), e.completion.content, requests), editing, requests[..k]);
    GuardIff(ReachedAt(s, e, k).tests, editing, requests[k]);
  }

  /** An executed call that changes files without the loop tracking it, and asks for nothing. */
  predicate Untracked(r: Request) {
    r.decision.Allow? && !IsEdit(r) && !IsTestRun(r) && r.result.treeChanged && r.result.signal.NoSignal?
  }

  predicate PlainTest(r: Request) {
    r.decision.Allow? && IsTestRun(r) && r.result.signal.NoSignal?
  }

  lemma TestThenChange(c: Chat, test: Request, change: Request)
    requires c.tests.history == [] && !c.tests.ranSinceEdit && PlainTest(test) && Untracked(change)
    ensures var t := Converse(c, false, false, Reply("", [test, change], false));
            && t.verdict.Going? && t.chat.tests.ranSinceEdit
            && t.chat.tests.history == [TestRan(false, test.result.treeChanged), TreeChanged]
  {
    var p := Opened(c, "", [test, change]);
    assert [test, change][1..] == [change] && [change][1..] == [];
    var q := Handle(p, false, test);
    assert q.tests.history == [TestRan(false, test.result.treeChanged)] && q.verdict.Going?;
    var r := Handle(q, false, change);
    assert HandleAll(p, false, [test, change]) == HandleAll(q, false, [change]) == r;
  }

  /** One iteration of a fresh task in which the model runs the tests and then changes a file through the shell. */
  lemma ChangedAtOnce(criteria: seq<string>, next: nat, test: Request, change: Request, e: Inputs, t: State)
    requires criteria != [] && PlainTest(test) && Untracked(change)
    requires e.completion == Reply("", [test, change], false) && !e.canComplete
    requires t == Step(FreshStart(criteria, next), e)
    ensures Regular(t) && t.verdict.Going? && t.control.iteration == 1 && t.beliefs == INITIAL && !NoneOpen(t.claims)
    ensures t.chat.tests.ranSinceEdit
            && t.chat.tests.history == [TestRan(false, test.result.treeChanged), TreeChanged]
  {
    var s := FreshStart(criteria, next);
    StepRegular(s, e);
    StepBeliefs(s, e);
    SeededOpenIff([], criteria, next);
    assert criteria[0] in criteria;
    TestThenChange(Shortened(s.chat, e), test, change);
  }

  /** A run in which that happens: the next stage is EDIT, and the test run that would see the change is blocked. */
  lemma GuardMisfires(criteria: seq<string>, next: nat, test: Request, change: Request, e: Inputs, f: Inputs)
    requires criteria != [] && PlainTest(test) && Untracked(change)
    requires e.completion == Reply("", [test, change], false) && !e.canComplete
    requires f.completion == Reply("", [test], false) && !f.canComplete && f.probe.None?
    ensures var s := Run(FreshStart(criteria, next), [e]);
            && s.verdict.Going? && Next(s, f).stage.Edit?
            && Redundant(ReachedAt(s, f, 0).tests, true, test) && ChangedUntracked(ReachedAt(s, f, 0).tests.history)
  {
    var s := Step(FreshStart(criteria, next), e);
    assert [e][1..] == [] && Run(FreshStart(criteria, next), [e]) == s;
    ChangedAtOnce(criteria, next, test, change, e, s);
    StageIff(ContextOf(Refreshed(s.control, TopId(s.beliefs.rows)), s.beliefs.rows, s.claims, f));
    OpenClaimsIff(s.beliefs.rows, s.claims);
    TopMeaning(INITIAL.rows, 1);
    assert [test][..0] == [];
    var h := ReachedAt(s, f, 0).tests.history;
    assert OnlyTree(h, 0) && h[0].TestRan?;
  }

  lemma ProbedSettled(c: Chat, p: ProbePlan)
    requires Settled(c.log)
    ensures Settled(Probed(c, p).log)
  {
    Push(c.log, Said(p.reason, [p.call]));
    Push(c.log + [Said(p.reason, [p.call])], Answer(p.call.id, p.result));
    assert Ids([p.call]) == {p.call.id} by { assert [p.call][..0] == []; }
  }

  lemma ConverseCuts(c: Chat, editing: bool, canComplete: bool, completion: Completion)
    ensures Converse(c, editing, canComplete, completion).chat.cuts >= c.cuts
  {
  }

  lemma ActedSettles(s: State, e: Inputs)
    requires s.verdict.Going? && Settled(s.chat.log)
    ensures Acted(s, e).verdict.Going? && Acted(s, e).chat.cuts == s.chat.cuts ==> Settled(Acted(s, e).chat.log)
  {
    match s.control.stage
    case Probe =>
      if e.probe.Some? { ProbedSettled(s.chat, e.probe.value); }
    case Localize =>
      ConverseSettles(s.chat, false, e.canComplete, e.completion);
    case Edit =>
      ConverseSettles(s.chat, true, e.canComplete, e.completion);
    case _ =>
  }

  lemma ActedCuts(s: State, e: Inputs)
    ensures Acted(s, e).chat.cuts >= s.chat.cuts
  {
    ConverseCuts(s.chat, s.control.stage.Edit?, e.canComplete, e.completion);
  }

  lemma StepCuts(s: State, e: Inputs)
    ensures Step(s, e).chat.cuts >= Shortened(s.chat, e).cuts >= s.chat.cuts
  {
    ActedCuts(s.(control := Next(s, e), chat := Shortened(s.chat, e)), e);
  }

  lemma StepSettles(s: State, e: Inputs)
    requires s.verdict.Going? && Settled(s.chat.log)
    ensures Step(s, e).verdict.Going? && Step(s, e).chat.cuts == s.chat.cuts ==> Settled(Step(s, e).chat.log)
  {
    StepCuts(s, e);
    if Shortened(s.chat, e).cuts == s.chat.cuts {
      ActedSettles(s.(control := Next(s, e), chat := Shortened(s.chat, e)), e);
    }
  }

  lemma {:induction false} RunSettles(s: State, es: seq<Inputs>)
    requires s.verdict.Going? && s.chat.cuts == 0 ==> Settled(s.chat.log)
    ensures var t := Run(s, es); t.verdict.Going? && t.chat.cuts == 0 ==> Settled(t.chat.log)
    decreases |es|
  {
    if es != [] && s.verdict.Going? {
      StepCuts(s, es[0]);
      if s.chat.cuts == 0 { StepSettles(s, es[0]); }
      RunSettles(Step(s, es[0]), es[1..]);
    }
  }

  /** In every run that has not ended and not compacted its log, every tool call is answered. */
  lemma EveryCallAnswered(b: Beliefs, claims: seq<Claim>, resumed: Option<string>, es: seq<Inputs>)
    ensures var t := Run(Start(b, claims, resumed), es); t.verdict.Going? && t.chat.cuts == 0 ==> Settled(t.chat.log)
  {
    if resumed.Some? { PushNote([], resumed.value); assert [] + [Note(resumed.value)] == [Note(resumed.value)]; }
    RunSettles(Start(b, claims, resumed), es);
  }

  // ---------------------------------------------------------------- tolerance

  /** The stages that ask the model. */
  predicate Asks(stage: StageName) {
    stage.Localize? || stage.Edit?
  }

  /** How many of the last completions asked for, up to iteration `n`, failed in a row. */
  function FailedInARow(trace: seq<StageName>, es: seq<Inputs>, n: nat): nat
    requires n <= |trace| && n <= |es|
  {
    if n == 0 then 0
    else if !Asks(trace[n - 1]) then FailedInARow(trace, es, n - 1)
    else if es[n - 1].completion.Failed? then FailedInARow(trace, es, n - 1) + 1
    else 0
  }

  /**
   How many completions without a tool call came since the last one with some; failed and
   cut off ones do not count.
   */
  function QuietInARow(trace: seq<StageName>, es: seq<Inputs>, n: nat): nat
    requires n <= |trace| && n <= |es|
  {
    if n == 0 then 0
    else if !Asks(trace[n - 1]) || es[n - 1].completion.Failed? then QuietInARow(trace, es, n - 1)
    else if es[n - 1].completion.requests != [] then 0
    else if es[n - 1].completion.cutOff then QuietInARow(trace, es, n - 1)
    else QuietInARow(trace, es, n - 1) + 1
  }

  lemma {:induction false} InARowPrefix(t: seq<StageName>, u: seq<StageName>, es: seq<Inputs>, fs: seq<Inputs>, n: nat)
    requires n <= |t| && n <= |u| && n <= |es| && n <= |fs| && t[..n] == u[..n] && es[..n] == fs[..n]
    ensures FailedInARow(t, es, n) == FailedInARow(u, fs, n) && QuietInARow(t, es, n) == QuietInARow(u, fs, n)
  {
    if n > 0 {
      assert t[n - 1] == t[..n][n - 1] && u[n - 1] == u[..n][n - 1];
      assert es[n - 1] == es[..n][n - 1] && fs[n - 1] == fs[..n][n - 1];
      assert t[..n - 1] == t[..n][..n - 1] && u[..n - 1] == u[..n][..n - 1];
      assert es[..n - 1] == es[..n][..n - 1] && fs[..n - 1] == fs[..n][..n - 1];
      InARowPrefix(t, u, es, fs, n - 1);
    }
  }

  lemma {:induction false} RunSnoc(s: State, es: seq<Inputs>, e: Inputs)
    ensures Run(s, es + [e]) == if Run(s, es).verdict.Ended? then Run(s, es) else Step(Run(s, es), e)
    decreases |es|
  {
    if es == [] {
      assert es + [e] == [e] && [e][1..] == [];
    } else if s.verdict.Going? {
      assert (es + [e])[1..] == es[1..] + [e];
      RunSnoc(Step(s, es[0]), es[1..], e);
    }
  }

  lemma StepCounters(s: State, e: Inputs)
    requires s.verdict.Going?
    ensures var t, stage := Step(s, e), Next(s, e).stage;
            && t.control.trace == s.control.trace + [stage]
            && t.chat.errors == (if !Asks(stage) then s.chat.errors
                                 else if e.completion.Failed? then s.chat.errors + 1 else 0)
            && t.chat.noTool == (if !Asks(stage) || e.completion.Failed? then s.chat.noTool
                                 else if e.completion.requests != [] then 0
                                 else if e.completion.cutOff then s.chat.noTool else s.chat.noTool + 1)
            && (t.verdict.Going? && Asks(stage) && e.completion.Failed? ==> t.chat.errors < 5)
            && (t.verdict.Going? && t.chat.noTool > s.chat.noTool ==> t.chat.noTool < 4)
  {
    assert Shortened(s.chat, e).errors == s.chat.errors && Shortened(s.chat, e).noTool == s.chat.noTool;
  }

  ghost predicate Tolerant(t: State, es: seq<Inputs>) {
    var n := |t.control.trace|;
    && n <= |es| && (t.verdict.Going? ==> n == |es|)
    && t.chat.errors == FailedInARow(t.control.trace, es, n) && t.chat.noTool == QuietInARow(t.control.trace, es, n)
    && (t.verdict.Going? ==> t.chat.errors < 5 && t.chat.noTool < 4)
  }

  lemma TolerantMore(t: State, es: seq<Inputs>, e: Inputs)
    requires Tolerant(t, es) && t.verdict.Ended?
    ensures Tolerant(t, es + [e])
  {
    var n := |t.control.trace|;
    assert (es + [e])[..n] == es[..n];
    InARowPrefix(t.control.trace, t.control.trace, es, es + [e], n);
  }

  lemma TolerantStep(s: State, es: seq<Inputs>, e: Inputs)
    requires Tolerant(s, es) && s.verdict.Going?
    ensures Tolerant(Step(s, e), es + [e])
  {
    var t, n := Step(s, e), |es|;
    StepCounters(s, e);
    assert t.control.trace[..n] == s.control.trace[..n] && (es + [e])[..n] == es[..n];
    InARowPrefix(s.control.trace, t.control.trace, es, es + [e], n);
  }

  lemma TolerantNext(before: State, es: seq<Inputs>, e: Inputs, after: State)
    requires Tolerant(before, es) && after == if before.verdict.Ended? then before else Step(before, e)
    ensures Tolerant(after, es + [e])
  {
    if before.verdict.Ended? { TolerantMore(before, es, e); } else { TolerantStep(before, es, e); }
  }

  /**
   A run that goes on has never had five failed completions in a row, nor four quiet ones
   between two with tool calls: the counters count exactly those.
   */
  lemma {:induction false} ToleranceHolds(b: Beliefs, claims: seq<Claim>, resumed: Option<string>, es: seq<Inputs>)
    ensures Tolerant(Run(Start(b, claims, resumed), es), es)
    decreases |es|
  {
    if es != [] {
      var front, e := es[..|es| - 1], es[|es| - 1];
      ToleranceHolds(b, claims, resumed, front);
      RunSnoc(Start(b, claims, resumed), front, e);
      assert front + [e] == es;
      TolerantNext(Run(Start(b, claims, resumed), front), front, e, Run(Start(b, claims, resumed), es));
    }
  }

  // ---------------------------------------------------------------- how a run ends

  /** What of an iteration ends a run with a status, given the state it begins in. */
  ghost predicate StepEnds(s: State, e: Inputs, status: Status) {
    var stage, chat := Next(s, e).stage, Shortened(s.chat, e);
    if stage.Finalize? then status.Completed? && e.canComplete
    else
      && Asks(stage)
      && match e.completion
         case Failed(_) => status.Blocked? && s.chat.errors == 4
         case Reply(content, requests, cutOff) =>
           if requests != []
           then exists k: nat :: EndsAt(Opened(chat, content, requests), stage.Edit?, requests, k, status)
           else !cutOff && if e.canComplete then status.Completed? else status.Blocked? && s.chat.noTool == 3
  }

  lemma StepEndsIff(s: State, e: Inputs, status: Status)
    requires Regular(s) && s.verdict.Going? && s.chat.errors < 5 && s.chat.noTool < 4
    ensures Step(s, e).verdict == Ended(status) <==> StepEnds(s, e, status)
  {
    EnteredForm(s.control, s.beliefs.rows, s.claims, e);
    ConverseEnds(Shortened(s.chat, e), Next(s, e).stage.Edit?, e.canComplete, e.completion, status);
    assert Shortened(s.chat, e).errors == s.chat.errors && Shortened(s.chat, e).noTool == s.chat.noTool;
  }

  /** Of the run of `es` from `s` to `t` the `n`-th input was the last, and ended it. */
  ghost predicate EndedAt(s: State, es: seq<Inputs>, t: State, n: int) {
    0 < n <= |es| && Run(s, es[..n - 1]).verdict.Going? && t == Step(Run(s, es[..n - 1]), es[n - 1])
  }

  lemma EndedBy(s: State, front: seq<Inputs>, e: Inputs, t: State)
    requires Run(s, front).verdict.Going? && t == Step(Run(s, front), e)
    ensures EndedAt(s, front + [e], t, |front| + 1)
  {
    assert (front + [e])[..|front|] == front;
  }

  lemma EndedEarlier(s: State, front: seq<Inputs>, e: Inputs, t: State, n: int)
    requires EndedAt(s, front, t, n)
    ensures EndedAt(s, front + [e], t, n)
  {
    assert (front + [e])[..n - 1] == front[..n - 1];
  }

  /** A run that has ended did so in its last iteration, out of a run that went on. */
  lemma {:induction false} EndedLast(s: State, es: seq<Inputs>) returns (n: int)
    requires Regular(s) && s.verdict.Going? && Run(s, es).verdict.Ended?
    ensures n == |Run(s, es).control.trace| - |s.control.trace| && EndedAt(s, es, Run(s, es), n)
    decreases |es|
  {
    var front, e := es[..|es| - 1], es[|es| - 1];
    assert front + [e] == es;
    RunSnoc(s, front, e);
    if Run(s, front).verdict.Ended? {
      n := EndedLast(s, front);
      EndedEarlier(s, front, e, Run(s, es), n);
    } else {
      n := |es|;
      RunLength(s, front);
      RunStages(s, front);
      RunMore(Run(s, front), e, Run(s, es));
      EndedBy(s, front, e, Run(s, es));
    }
  }

  /**
   What the last of `n` iterations must be for a run to end with a status. Completed: FINALIZE
   or a quiet reply with the gate open, or a call. Blocked: the fifth failed completion in a
   row, the fourth quiet one under a shut gate, or a call. Any other status: a call.
   */
  ghost predicate EndsWith(before: State, trace: seq<StageName>, es: seq<Inputs>, n: nat, status: Status)
    requires 0 < n <= |trace| && n <= |es|
  {
    var stage, e := trace[n - 1], es[n - 1];
    if stage.Finalize? then status.Completed? && e.canComplete
    else
      && Asks(stage)
      && match e.completion
         case Failed(_) => status.Blocked? && FailedInARow(trace, es, n) == 5
         case Reply(content, requests, cutOff) =>
           if requests != []
           then exists k: nat ::
                  EndsAt(Opened(Shortened(before.chat, e), content, requests), stage.Edit?, requests, k, status)
           else !cutOff && if e.canComplete then status.Completed?
                           else status.Blocked? && QuietInARow(trace, es, n) == 4
  }

  /** Said of the counters of the state the last iteration begins in, or of the run so far: the same. */
  lemma EndsWithStep(before: State, front: seq<Inputs>, e: Inputs, t: State, es: seq<Inputs>, status: Status)
    requires Regular(before) && before.verdict.Going? && Tolerant(before, front) && t == Step(before, e)
    requires |front| < |es| && es[..|front|] == front && es[|front|] == e
    ensures |t.control.trace| == |front| + 1
    ensures EndsWith(before, t.control.trace, es, |front| + 1, status) <==> t.verdict == Ended(status)
  {
    var n := |front|;
    StepEndsIff(before, e, status);
    StepCounters(before, e);
    assert t.control.trace[..n] == before.control.trace[..n] && front[..n] == es[..n];
    InARowPrefix(before.control.trace, t.control.trace, front, es, n);
  }

  /** Over every run: it has ended with a status exactly when its last iteration is of the kind that status asks for. */
  lemma EndedIff(b: Beliefs, claims: seq<Claim>, resumed: Option<string>, es: seq<Inputs>, status: Status)
    ensures var s, t := Start(b, claims, resumed), Run(Start(b, claims, resumed), es); var n := |t.control.trace|;
            t.verdict == Ended(status)
            <==> EndedAt(s, es, t, n) && EndsWith(Run(s, es[..n - 1]), t.control.trace, es, n, status)
  {
    var s, t := Start(b, claims, resumed), Run(Start(b, claims, resumed), es);
    var n := |t.control.trace|;
    if t.verdict.Ended? { var _ := EndedLast(s, es); }
    if EndedAt(s, es, t, n) {
      RunStages(s, es[..n - 1]);
      ToleranceHolds(b, claims, resumed, es[..n - 1]);
      LastStepEnds(s, es, t, n, status);
    }
  }

  lemma LastStepEnds(s: State, es: seq<Inputs>, t: State, n: int, status: Status)
    requires EndedAt(s, es, t, n) && n == |t.control.trace|
    requires Regular(Run(s, es[..n - 1])) && Tolerant(Run(s, es[..n - 1]), es[..n - 1])
    ensures EndsWith(Run(s, es[..n - 1]), t.control.trace, es, n, status) <==> t.verdict == Ended(status)
  {
    EndsWithStep(Run(s, es[..n - 1]), es[..n - 1], es[n - 1], t, es, status);
  }

  // ---------------------------------------------------------------- the loop itself

  /** `InternalState` with the parts of `AgentLoop` the loop writes; the ghost fields record what happened. */
  class AgentLoop {
    const beliefStore: BeliefStore
    var iteration: nat
    var messages: seq<WireMessages.Message>
    var stage: StageName
    var probesThisPass: nat
    var passId: nat
    var verifyFailed: bool
    var stageTrace: seq<StageName>
    var lastHypothesisId: Option<nat>
    var consecutiveNoTool: nat
    var consecutiveErrors: nat
    var editPassesWithoutWrite: nat
    var discoveries: set<string>
    var wroteSinceVerify: bool
    var ranTestSinceLastEdit: bool
    var fullSuiteTotal: nat
    var remainingFailures: Option<nat>
    ghost var tops: seq<Option<nat>>
    ghost var history: seq<Ran>
    ghost var cuts: nat

    constructor (store: BeliefStore, resumed: Option<string>)
      ensures beliefStore == store && View(Going) == Start(store.View(), store.claims, resumed)
    {
      beliefStore := store;
      iteration, stage, probesThisPass, passId, verifyFailed := 0, Localize, 0, 0, false;
      messages := if resumed.Some? then [Note(resumed.value)] else [];
      stageTrace, lastHypothesisId := [], None;
      consecutiveNoTool, consecutiveErrors, editPassesWithoutWrite, discoveries := 0, 0, 0, {};
      wroteSinceVerify, ranTestSinceLastEdit, fullSuiteTotal, remainingFailures := false, false, 0, None;
      tops, history, cuts := [], [], 0;
    }

    ghost function ControlView(): Control
      reads this`iteration, this`stage, this`probesThisPass, this`passId, this`verifyFailed, this`stageTrace,
            this`lastHypothesisId, this`tops
    {
      Control(iteration, stage, probesThisPass, passId, verifyFailed, stageTrace, lastHypothesisId, tops)
    }

    ghost function TestsView(): Tests
      reads this`ranTestSinceLastEdit, this`fullSuiteTotal, this`remainingFailures, this`history
    {
      Tests(ranTestSinceLastEdit, fullSuiteTotal, remainingFailures, history)
    }

    ghost function ChatView(): Chat
      reads this`messages, this`ranTestSinceLastEdit, this`fullSuiteTotal, this`remainingFailures, this`history,
            this`discoveries, this`consecutiveNoTool, this`consecutiveErrors, this`editPassesWithoutWrite,
            this`wroteSinceVerify, this`cuts
    {
      Chat(messages, TestsView(), discoveries, consecutiveNoTool, consecutiveErrors, editPassesWithoutWrite,
           wroteSinceVerify, cuts)
    }

    ghost function View(verdict: Verdict): State
      reads this, beliefStore
    {
      State(ControlView(), beliefStore.View(), beliefStore.claims, ChatView(), verdict)
    }

    /** `compactMessages`, put back into the log. */
    method CompactMessages(force: bool, summary: string)
      modifies this`messages, this`cuts
      ensures ChatView() == Compact(old(ChatView()), force, summary)
    {
      if !force && |messages| <= 30 { return; }
      if |messages| <= 12 { return; }
      var start := messages[..KEEP_START];
      var end := if |messages| <= KEEP_END then messages else messages[|messages| - KEEP_END..];
      messages := start + [WireMessages.Message(WireMessages.System, summary, None, [], false)] + end;
      cuts := cuts + 1;
    }

    /** The state kept of a test or build run: what still fails, and whether a nudge is due. */
    method TrackTestRun(report: Option<TestReport>, ghost treeChanged: bool)
      modifies this`messages, this`ranTestSinceLastEdit, this`fullSuiteTotal, this`remainingFailures, this`history
      ensures TestsView() == Reported(old(TestsView()), report)
                             .(ranSinceEdit := true, history := old(history) + [TestRan(stage.Edit?, treeChanged)])
      ensures messages == old(messages) + Nudge(old(TestsView()), report)
    {
      ranTestSinceLastEdit := true;
      history := history + [TestRan(stage.Edit?, treeChanged)];
      if report.Some? {
        var parsed := report.value;
        if parsed.total.Some? && parsed.total.value > fullSuiteTotal { fullSuiteTotal := parsed.total.value; }
        if parsed.total.Some? && fullSuiteTotal > 0 && 2 * parsed.total.value < fullSuiteTotal {
          messages := messages + [Note("subset of the suite")];
        } else {
          var prevCount := remainingFailures;
          remainingFailures := Some(parsed.failing);
          if prevCount.Some? && parsed.failing > 0 && parsed.failing >= prevCount.value {
            messages := messages + [Note("failures not reduced")];
          }
        }
      }
    }

    ghost function PassView(replies: seq<WireMessages.Message>, changed: bool, verified: bool, newRead: bool,
                            verdict: Verdict): Pass
      reads this
    {
      Pass(messages, TestsView(), discoveries, replies, changed, verified, newRead, verdict)
    }

    ghost method NoteChange(treeChanged: bool)
      modifies this`history
      ensures TestsView() == Touched(old(TestsView()), treeChanged)
    {
      if treeChanged { history := history + [TreeChanged]; }
    }

    /** What an executed call means for the state kept of the tests. */
    method TrackTests(r: Request)
      modifies this`messages, this`ranTestSinceLastEdit, this`fullSuiteTotal, this`remainingFailures, this`history
      ensures TestsView() == Tracked(old(TestsView()), stage.Edit?, r)
      ensures messages == old(messages) + (if IsTestRun(r) then Nudge(old(TestsView()), r.result.report) else [])
    {
      if (r.kind.WriteFile? || r.kind.EditFile?) && r.hasPath {
        ranTestSinceLastEdit := false;
        history := history + [EditRan];
      }
      if r.kind.RunTests? || (r.kind.RunCommand? && r.buildOrTest) {
        TrackTestRun(r.result.report, r.result.treeChanged);
      }
      if !IsEdit(r) && !IsTestRun(r) { NoteChange(r.result.treeChanged); }
    }

    /** Reading something new is progress too. */
    method TrackDiscovery(r: Request) returns (discovered: bool)
      modifies this`discoveries
      ensures discovered == Discovers(old(discoveries), r)
      ensures discoveries == if discovered then old(discoveries) + {r.result.discovery.value} else old(discoveries)
    {
      discovered := r.result.discovery.Some? && r.result.discovery.value !in discoveries;
      if discovered { discoveries := discoveries + {r.result.discovery.value}; }
    }

    /** Whether an executed call has changed files, and whether it counts as a verification. */
    method Effects(r: Request) returns (changes: bool, verifies: bool)
      ensures changes <==> match r.kind
                           case WriteFile => r.hasPath
                           case EditFile => r.hasPath
                           case RunCommand => r.mutating && !r.result.failed && r.result.treeChanged
                           case _ => false
      ensures verifies <==> match r.kind
                            case RunTests => true
                            case RunCommand => r.buildOrTest || (r.mutating && !r.result.failed)
                            case RunVerification => true
                            case VerifyCheck => true
                            case _ => false
    {
      changes := (r.kind.WriteFile? || r.kind.EditFile?) && r.hasPath;
      verifies := r.kind.RunTests? || r.kind.RunVerification? || r.kind.VerifyCheck?
                  || (r.kind.RunCommand? && (r.buildOrTest || (r.mutating && !r.result.failed)));
      if r.kind.RunCommand? && r.mutating && !r.result.failed && r.result.treeChanged { changes := true; }
    }

    /** What an allowed and executed call leaves behind, before its signal is looked at. */
    method TrackExecuted(r: Request, replies: seq<WireMessages.Message>, changed: bool, verified: bool, newRead: bool)
      returns (replies': seq<WireMessages.Message>, changed': bool, verified': bool, newRead': bool)
      modifies this`messages, this`ranTestSinceLastEdit, this`fullSuiteTotal, this`remainingFailures, this`history,
               this`discoveries
      ensures var p := Executed(old(PassView(replies, changed, verified, newRead, Going)), stage.Edit?, r);
              && replies' == p.replies && changed' == p.changed && verified' == p.verified && newRead' == p.newRead
              && messages == p.log && TestsView() == p.tests && discoveries == p.found
    {
      var changes, verifies := Effects(r);
      TrackTests(r);
      var discovered := TrackDiscovery(r);
      changed', verified', newRead' := changed || changes, verified || verifies, newRead || discovered;
      replies' := replies + [Answer(r.call.id, r.result.content)];
    }

    /** What the result of an executed call asks for. */
    method HandleSignal(signal: Signal, replies: seq<WireMessages.Message>,
                        ghost changed: bool, ghost verified: bool, ghost newRead: bool)
      returns (replies': seq<WireMessages.Message>, verdict: Verdict)
      modifies this`messages
      ensures PassView(replies', changed, verified, newRead, verdict)
              == Signalled(old(PassView(replies, changed, verified, newRead, Going)), signal)
    {
      replies', verdict := replies, Going;
      match signal
      case NoSignal =>
      case Finish(status, uiFails) =>
        if status.Completed? && uiFails {
          messages := messages + [Note("not done yet")];
        } else {
          verdict := Ended(status);
        }
      case TestsVerified(gate) =>
        if gate { verdict := Ended(Completed); }
      case Question(requiresHuman) =>
        if requiresHuman {
          verdict := Ended(Blocked);
        } else {
          replies' := replies + [Note("autonomy policy")];
        }
    }

    /** A call that is not executed is answered all the same. */
    method RefuseToolCall(r: Request, replies: seq<WireMessages.Message>,
                          ghost changed: bool, ghost verified: bool, ghost newRead: bool)
      returns (replies': seq<WireMessages.Message>)
      requires !MayRun(TestsView(), stage.Edit?, r) && !Waits(TestsView(), stage.Edit?, r)
      ensures PassView(replies', changed, verified, newRead, Going)
              == Handle(PassView(replies, changed, verified, newRead, Going), stage.Edit?, r)
    {
      replies' := replies + [Answer(r.call.id, r.reply)];
    }

    /** A call that may run is executed, tracked and answered, and its signal followed. */
    method ExecuteToolCall(r: Request, replies: seq<WireMessages.Message>, changed: bool, verified: bool, newRead: bool)
      returns (replies': seq<WireMessages.Message>, changed': bool, verified': bool, newRead': bool, verdict: Verdict)
      requires MayRun(TestsView(), stage.Edit?, r)
      modifies this`messages, this`ranTestSinceLastEdit, this`fullSuiteTotal, this`remainingFailures, this`history,
               this`discoveries
      ensures PassView(replies', changed', verified', newRead', verdict)
              == Handle(old(PassView(replies, changed, verified, newRead, Going)), stage.Edit?, r)
    {
      replies', changed', verified', newRead' := TrackExecuted(r, replies, changed, verified, newRead);
      replies', verdict := HandleSignal(r.result.signal, replies', changed', verified', newRead');
    }

    /** One tool call of a completion. */
    method HandleToolCall(r: Request, replies: seq<WireMessages.Message>, changed: bool, verified: bool, newRead: bool)
      returns (replies': seq<WireMessages.Message>, changed': bool, verified': bool, newRead': bool, verdict: Verdict)
      modifies this`messages, this`ranTestSinceLastEdit, this`fullSuiteTotal, this`remainingFailures, this`history,
               this`discoveries
      ensures PassView(replies', changed', verified', newRead', verdict)
              == Handle(old(PassView(replies, changed, verified, newRead, Going)), stage.Edit?, r)
    {
      replies', changed', verified', newRead', verdict := replies, changed, verified, newRead, Going;
      if stage.Edit? && ranTestSinceLastEdit
         && (r.kind.RunTests? || (r.kind.RunCommand? && r.buildOrTest)) {
        replies' := RefuseToolCall(r, replies, changed, verified, newRead);
        return;
      }
      if r.decision.Deny? {
        replies' := RefuseToolCall(r, replies, changed, verified, newRead);
        return;
      }
      if r.decision.Ask? {
        if r.kind.RunCommand? {
          replies' := RefuseToolCall(r, replies, changed, verified, newRead);
        } else {
          verdict := Ended(Blocked);
        }
        return;
      }
      replies', changed', verified', newRead', verdict := ExecuteToolCall(r, replies, changed, verified, newRead);
    }

    /** All tool calls of a completion, up to the one that ends the run. */
    method HandleToolCalls(content: string, requests: seq<Request>)
      returns (replies: seq<WireMessages.Message>, changed: bool, verified: bool, newRead: bool, verdict: Verdict)
      modifies this`messages, this`ranTestSinceLastEdit, this`fullSuiteTotal, this`remainingFailures, this`history,
               this`discoveries
      ensures PassView(replies, changed, verified, newRead, verdict)
              == HandleAll(Opened(old(ChatView()), content, requests), stage.Edit?, requests)
    {
      replies, changed, verified, newRead, verdict := [Said(content, Calls(requests))], false, false, false, Going;
      ghost var all := HandleAll(Opened(ChatView(), content, requests), stage.Edit?, requests);
      assert requests[0..] == requests;
      var k := 0;
      while k < |requests| && verdict.Going?
        invariant 0 <= k <= |requests|
        invariant HandleAll(PassView(replies, changed, verified, newRead, verdict), stage.Edit?, requests[k..]) == all
      {
        assert requests[k..][0] == requests[k] && requests[k..][1..] == requests[k + 1..];
        replies, changed, verified, newRead, verdict :=
          HandleToolCall(requests[k], replies, changed, verified, newRead);
        k := k + 1;
      }
    }

    /** The write-forcing guard of the EDIT stage. */
    method GuardEdit(changed: bool, verified: bool, newRead: bool)
      modifies this`messages, this`wroteSinceVerify, this`editPassesWithoutWrite
      ensures ChatView() == Guarded(old(ChatView()), changed, verified, newRead)
    {
      if changed { wroteSinceVerify := true; }
      var productiveVerify := verified && wroteSinceVerify;
      if verified { wroteSinceVerify := false; }
      if changed || productiveVerify || newRead {
        editPassesWithoutWrite := 0;
      } else {
        editPassesWithoutWrite := editPassesWithoutWrite + 1;
        var n := editPassesWithoutWrite;
        if n == 2 {
          messages := messages + [Note("edit now")];
        } else if n >= 3 {
          messages := messages + [Note("edit now")];
        }
      }
    }

    /** A failed call is retried with a note, from the second time on with a smaller log, until the fifth. */
    method HandleFailure(summary: string, ghost canComplete: bool) returns (verdict: Verdict)
      modifies this`messages, this`cuts, this`consecutiveErrors
      ensures Turnout(ChatView(), verdict) == Converse(old(ChatView()), stage.Edit?, canComplete, Failed(summary))
    {
      consecutiveErrors := consecutiveErrors + 1;
      if consecutiveErrors >= 5 { return Ended(Blocked); }
      if consecutiveErrors >= 2 { CompactMessages(true, summary); }
      messages := messages + [Note("call failed")];
      verdict := Going;
    }

    /** A completion cut off before any tool call. */
    method HandleCutOff(content: string, ghost canComplete: bool)
      modifies this`messages, this`consecutiveErrors
      ensures Turnout(ChatView(), Going)
              == Converse(old(ChatView()), stage.Edit?, canComplete, Reply(content, [], true))
    {
      consecutiveErrors := 0;
      messages := messages + [Said(content, []), Note("cut off")];
    }

    /** A completion without tool calls. */
    method HandleQuiet(content: string, canComplete: bool) returns (verdict: Verdict)
      modifies this`messages, this`consecutiveNoTool, this`consecutiveErrors
      ensures Turnout(ChatView(), verdict)
              == Converse(old(ChatView()), stage.Edit?, canComplete, Reply(content, [], false))
    {
      consecutiveErrors := 0;
      messages := messages + [Said(content, [])];
      consecutiveNoTool := consecutiveNoTool + 1;
      if canComplete { return Ended(Completed); }
      if consecutiveNoTool >= 4 { return Ended(Blocked); }
      messages := messages + [Note("use the tools")];
      verdict := Going;
    }

    /** A completion with tool calls. */
    method HandleCalls(content: string, requests: seq<Request>, ghost cutOff: bool, ghost canComplete: bool)
      returns (verdict: Verdict)
      requires |requests| > 0
      modifies this`messages, this`ranTestSinceLastEdit, this`fullSuiteTotal, this`remainingFailures, this`history,
               this`discoveries, this`consecutiveNoTool, this`consecutiveErrors, this`wroteSinceVerify,
               this`editPassesWithoutWrite
      ensures Turnout(ChatView(), verdict)
              == Converse(old(ChatView()), stage.Edit?, canComplete, Reply(content, requests, cutOff))
    {
      consecutiveErrors, consecutiveNoTool := 0, 0;
      var replies, changed, verified, newRead;
      replies, changed, verified, newRead, verdict := HandleToolCalls(content, requests);
      messages := messages + replies;
      if stage.Edit? && verdict.Going? { GuardEdit(changed, verified, newRead); }
    }

    /** `handleCompletion`: everything the loop does with one completion. */
    method HandleCompletion(canComplete: bool, completion: Completion) returns (verdict: Verdict)
      modifies this`messages, this`ranTestSinceLastEdit, this`fullSuiteTotal, this`remainingFailures, this`history,
               this`discoveries, this`cuts, this`consecutiveNoTool, this`consecutiveErrors, this`wroteSinceVerify,
               this`editPassesWithoutWrite
      ensures Turnout(ChatView(), verdict) == Converse(old(ChatView()), stage.Edit?, canComplete, completion)
      ensures ControlView() == old(ControlView())
    {
      match completion
      case Failed(summary) =>
        verdict := HandleFailure(summary, canComplete);
      case Reply(content, requests, cutOff) =>
        if |requests| > 0 {
          verdict := HandleCalls(content, requests, cutOff, canComplete);
        } else if cutOff {
          assert completion == Reply(content, [], true);
          HandleCutOff(content, canComplete);
          verdict := Going;
        } else {
          assert completion == Reply(content, [], false);
          verdict := HandleQuiet(content, canComplete);
        }
    }

    /** A changed top hypothesis gets a fresh probe budget. */
    method RefreshTop(top: Option<nat>)
      modifies this`iteration, this`probesThisPass, this`lastHypothesisId, this`tops
      ensures ControlView() == Refreshed(old(ControlView()), top) && ChatView() == old(ChatView())
    {
      iteration := iteration + 1;
      if lastHypothesisId.Some? && top.Some? && lastHypothesisId.value != top.value { probesThisPass := 0; }
      lastHypothesisId := top;
      tops := tops + [top];
    }

    /** The choice of the stage, recorded in the trace. */
    method ChooseStage(belief: seq<Hypothesis>, e: Inputs)
      modifies this`stage, this`stageTrace
      ensures var next := Chosen(old(ControlView()), belief, beliefStore.claims, e);
              ControlView() == old(ControlView()).(stage := next, trace := old(stageTrace) + [next])
      ensures ChatView() == old(ChatView())
    {
      if iteration == 1 {
        stage := Localize;
      } else {
        stage := NextStage(StageContext(TopHypothesis(belief), OpenClaims(belief, beliefStore.claims), e.probe.Some?,
                                        e.canComplete, verifyFailed, probesThisPass));
      }
      stageTrace := stageTrace + [stage];
    }

    /** The log is compacted when the prompt or the log has grown too large. */
    method CompactAtOverflow(e: Inputs)
      modifies this`messages, this`cuts
      ensures ChatView() == Shortened(old(ChatView()), e) && ControlView() == old(ControlView())
    {
      if e.overBudget || |messages| > 400 { CompactMessages(false, e.summary); }
    }

    /** The first half of an iteration: compaction, refresh, and the choice of the stage. */
    method Enter(e: Inputs)
      modifies this`messages, this`cuts, this`iteration, this`probesThisPass, this`lastHypothesisId, this`tops,
               this`stage, this`stageTrace
      ensures ChatView() == Shortened(old(ChatView()), e)
      ensures ControlView() == Entered(old(ControlView()), beliefStore.rows, beliefStore.claims, e)
    {
      CompactAtOverflow(e);
      var belief := beliefStore.rows;
      var top := TopHypothesis(belief);
      RefreshTop(if top.Some? then Some(top.value.id) else None);
      ChooseStage(belief, e);
    }

    method RunProbeStage(probe: Option<ProbePlan>)
      modifies this`probesThisPass, this`messages, this`history
      ensures ControlView()
              == old(ControlView()).(probesThisPass := old(probesThisPass) + (if probe.Some? then 1 else 0))
      ensures ChatView() == if probe.Some? then Probed(old(ChatView()), probe.value) else old(ChatView())
      ensures probe.Some? ==>
        messages
        == old(messages)
           + [WireMessages.Message(WireMessages.Assistant, probe.value.reason, None, [probe.value.call], false)]
           + [WireMessages.Message(WireMessages.Tool, probe.value.result, Some(probe.value.call.id), [], false)]
    {
      if probe.Some? {
        probesThisPass := probesThisPass + 1;
        messages := messages + [Said(probe.value.reason, [probe.value.call])];
        messages := messages + [Answer(probe.value.call.id, probe.value.result)];
        NoteChange(probe.value.treeChanged);
      }
    }

    /** Verified claims that the changed files touch become stale. */
    method MarkStale(touched: set<nat>)
      modifies beliefStore`claims
      ensures beliefStore.claims
              == Staled(old(beliefStore.claims), old(beliefStore.claims), touched, |old(beliefStore.claims)|)
    {
      var snapshot := beliefStore.claims;
      for k := 0 to |snapshot|
        invariant beliefStore.claims == Staled(snapshot, snapshot, touched, k)
      {
        var before := snapshot[k];
        if (before.status.VerifiedClaim? || before.status.PartiallyVerified?) && before.id in touched {
          beliefStore.UpdateClaimConfidence(before.id, if before.confidence < 0.49 then before.confidence else 0.49,
                                            StaleClaim);
        }
      }
    }

    method RunVerifyStage(verify: Option<VerifyRun>) returns (repairNeeded: bool, entry: Option<MatrixEntry>)
      modifies this`verifyFailed, beliefStore`claims
      ensures repairNeeded <==> verify.Some? && !Passes(verify.value)
      ensures entry == if verify.None? then None
                       else Some(MatrixEntry(verify.value.action,
                                             if verify.value.command.None? then EntryNeedsReview
                                             else if verify.value.command.value then EntryPassed else EntryFailed))
      ensures verifyFailed == if verify.Some? then !Passes(verify.value) else old(verifyFailed)
      ensures beliefStore.claims == Reclaimed(beliefStore.rows, old(beliefStore.claims), verify)
    {
      repairNeeded, entry := false, None;
      if verify.None? { return; }
      var action := verify.value;
      var snapshot := beliefStore.claims;
      if beliefStore.rows != [] { MarkStale(action.touched); }
      var passed := true;
      if action.command.Some? {
        passed := action.command.value;
        entry := Some(MatrixEntry(action.action, if passed then EntryPassed else EntryFailed));
      } else {
        entry := Some(MatrixEntry(action.action, EntryNeedsReview));
      }
      verifyFailed := !passed;
      if passed {
        if beliefStore.rows != [] && snapshot != [] {
          beliefStore.UpdateClaimConfidence(snapshot[0].id, 0.85, VerifiedClaim);
        }
      } else {
        repairNeeded := true;
      }
    }

    /** The top hypothesis is disproven and the diagnostics are added; the loop then starts a new pass. */
    method RunRepairStage(diagnosis: Diagnosis)
      modifies beliefStore`rows, beliefStore`nextId
      ensures beliefStore.View() == Repaired(old(beliefStore.View()), diagnosis)
    {
      var diagnostics := Proposed(diagnosis);
      var top := TopHypothesis(beliefStore.rows);
      if top.Some? {
        var _ := beliefStore.InvalidateHypothesis(top.value.id, 0);
      }
      ghost var cut := beliefStore.View();
      for k := 0 to |diagnostics|
        invariant beliefStore.View() == Added(cut, diagnostics[..k])
      {
        assert diagnostics[..k + 1][..k] == diagnostics[..k];
        var _ := beliefStore.AddHypothesis(Plausible, diagnostics[k]);
      }
      assert diagnostics[..|diagnostics|] == diagnostics;
    }

    /** What the loop does when a stage asks for a repair. */
    method StartPass()
      modifies this`verifyFailed, this`probesThisPass, this`passId
      ensures ControlView() == NewPass(old(ControlView()))
    {
      verifyFailed, probesThisPass, passId := false, 0, passId + 1;
    }

    method VerifyPass(e: Inputs)
      requires stage.Verify?
      modifies this`verifyFailed, this`probesThisPass, this`passId, beliefStore`claims
      ensures ControlView() == NextControl(old(ControlView()), e)
      ensures beliefStore.claims == Reclaimed(beliefStore.rows, old(beliefStore.claims), e.verify)
    {
      var repairNeeded, _ := RunVerifyStage(e.verify);
      if repairNeeded { StartPass(); }
    }

    /** The stage just entered; a failed check or a repair starts a new pass. */
    method RunStage(e: Inputs) returns (verdict: Verdict)
      modifies this`messages, this`ranTestSinceLastEdit, this`fullSuiteTotal, this`remainingFailures, this`history,
               this`discoveries, this`cuts, this`consecutiveNoTool, this`consecutiveErrors, this`wroteSinceVerify,
               this`editPassesWithoutWrite, this`probesThisPass, this`verifyFailed, this`passId, beliefStore
      ensures ControlView() == NextControl(old(ControlView()), e)
      ensures beliefStore.View() == NextBeliefs(old(beliefStore.View()), stage, e)
      ensures beliefStore.claims == NextClaims(old(beliefStore.rows), old(beliefStore.claims), stage, e)
      ensures Turnout(ChatView(), verdict) == NextChat(old(ChatView()), stage, e)
    {
      verdict := Going;
      match stage
      case Localize => verdict := HandleCompletion(e.canComplete, e.completion);
      case Probe => RunProbeStage(e.probe);
      case Edit => verdict := HandleCompletion(e.canComplete, e.completion);
      case Verify =>
        VerifyPass(e);
      case Repair =>
        RunRepairStage(e.diagnosis);
        StartPass();
      case Finalize => verdict := Ended(Completed);
    }

    /** One iteration of the loop. */
    method Iterate(e: Inputs) returns (verdict: Verdict)
      modifies this, beliefStore
      ensures View(verdict) == Step(old(View(Going)), e)
    {
      Enter(e);
      verdict := RunStage(e);
    }

    /** `runWithId`'s loop, over one input for every iteration of its budget. */
    method RunLoop(es: seq<Inputs>) returns (verdict: Verdict)
      modifies this, beliefStore
      ensures View(verdict) == Run(old(View(Going)), es)
    {
      verdict := Going;
      assert es[0..] == es;
      var k := 0;
      while k < |es| && verdict.Going?
        invariant 0 <= k <= |es|
        invariant Run(View(verdict), es[k..]) == Run(old(View(Going)), es)
      {
        assert es[k..][0] == es[k] && es[k..][1..] == es[k + 1..];
        verdict := Iterate(es[k]);
        k := k + 1;
      }
    }
  }
}
