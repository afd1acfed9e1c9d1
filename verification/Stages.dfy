/**
 The belief-guided stage machine (packages/forge-agent/src/stages.ts:73-138) and the
 hypotheses it is driven by (packages/forge-belief/src/store.ts:205-305).
 */
module Stages {
  import opened Text

  datatype StageName = Localize | Probe | Edit | Verify | Repair | Finalize

  datatype BeliefStatus =
    | Unknown | Plausible | Likely | Verified | Contradicted | Disproven | Stale | Superseded | NeedsHumanReview

  datatype Hypothesis = Hypothesis(id: nat, status: BeliefStatus, confidence: real)

  datatype ClaimStatus =
    | Unverified | PartiallyVerified | VerifiedClaim | ContradictedClaim | Conflicted | StaleClaim
    | ReviewClaim | NotApplicable

  datatype Claim = Claim(id: nat, text: string, status: ClaimStatus, confidence: real)

  const EDIT_CONFIDENCE: real := 0.6
  const MAX_PROBES_PER_PASS := 2

  // ---------------------------------------------------------------- selectors

  predicate Candidate(h: Hypothesis) {
    !h.status.Disproven? && !h.status.Superseded?
  }

  /** Where, among the first `n` rows, the candidate of highest confidence is; rows are in order of creation. */
  function TopIndex(rows: seq<Hypothesis>, n: nat): (k: Option<nat>)
    requires n <= |rows|
    ensures k.Some? ==> k.value < n
  {
    if n == 0 then None
    else
      var before := TopIndex(rows, n - 1);
      if !Candidate(rows[n - 1]) || (before.Some? && rows[n - 1].confidence <= rows[before.value].confidence)
      then before
      else Some(n - 1)
  }

  function TopHypothesis(rows: seq<Hypothesis>): Option<Hypothesis> {
    var k := TopIndex(rows, |rows|);
    if k.None? then None else Some(rows[k.value])
  }

  /** The head of the candidates sorted by falling confidence, the older of equals first. */
  lemma {:induction false} TopMeaning(rows: seq<Hypothesis>, n: nat)
    requires n <= |rows|
    ensures var top := TopIndex(rows, n);
            if top.None? then forall j :: 0 <= j < n ==> rows[j].status.Disproven? || rows[j].status.Superseded?
            else !rows[top.value].status.Disproven? && !rows[top.value].status.Superseded?
                 && forall j :: 0 <= j < n && Candidate(rows[j]) ==>
                      rows[j].confidence <= rows[top.value].confidence
                      && (j < top.value ==> rows[j].confidence < rows[top.value].confidence)
  {
    if n > 0 { TopMeaning(rows, n - 1); }
  }

  predicate Open(c: Claim) {
    c.status.Unverified? || c.status.PartiallyVerified? || c.status.StaleClaim? || c.status.ContradictedClaim?
  }

  /** A claim is open unless it is verified, conflicted, under review or not applicable. */
  lemma OpenMeaning(c: Claim)
    ensures Open(c) <==> !(c.status.VerifiedClaim? || c.status.Conflicted? || c.status.ReviewClaim?
                           || c.status.NotApplicable?)
  {
  }

  /** Without a hypothesis there is no belief state at all, and so no claim is open. */
  function OpenClaims(rows: seq<Hypothesis>, claims: seq<Claim>): seq<Claim> {
    if rows == [] || claims == [] then []
    else (if Open(claims[0]) then [claims[0]] else []) + OpenClaims(rows, claims[1..])
  }

  predicate HighUncertainty(claims: seq<Claim>) {
    exists k :: 0 <= k < |claims| && claims[k].confidence < 0.5
  }

  datatype StageContext = StageContext(topHypothesis: Option<Hypothesis>, openClaims: seq<Claim>, hasProbe: bool,
                                       canComplete: bool, verifyFailed: bool, probesThisPass: nat)

  function NextStage(ctx: StageContext): StageName {
    if ctx.verifyFailed then Repair
    else if ctx.canComplete then Finalize
    else if ctx.hasProbe && ctx.openClaims != [] && ctx.probesThisPass < MAX_PROBES_PER_PASS
            && HighUncertainty(ctx.openClaims) then Probe
    else if ctx.topHypothesis.Some? && (ctx.topHypothesis.value.status.Disproven?
                                        || ctx.topHypothesis.value.status.Contradicted?) then Repair
    else if ctx.topHypothesis.Some? && ctx.topHypothesis.value.confidence >= EDIT_CONFIDENCE
            && !ctx.topHypothesis.value.status.Unknown? then Edit
    else if ctx.openClaims != [] then Edit
    else Repair
  }

  predicate CanProbe(ctx: StageContext) {
    ctx.hasProbe && ctx.probesThisPass < MAX_PROBES_PER_PASS && HighUncertainty(ctx.openClaims)
  }

  predicate Refuted(ctx: StageContext) {
    && ctx.topHypothesis.Some?
    && (ctx.topHypothesis.value.status.Disproven? || ctx.topHypothesis.value.status.Contradicted?)
  }

  predicate Confident(ctx: StageContext) {
    ctx.topHypothesis.Some? && ctx.topHypothesis.value.confidence >= EDIT_CONFIDENCE
    && !ctx.topHypothesis.value.status.Unknown?
  }

  /**
   The decision said for each stage on its own: when the gate decides nothing, a probe goes
   before an edit, an edit needs open claims or a confident hypothesis and no refuted one,
   and REPAIR is the rest.
   */
  lemma StageIff(ctx: StageContext)
    ensures NextStage(ctx) == Finalize <==> ctx.canComplete && !ctx.verifyFailed
    ensures NextStage(ctx) == Probe <==> !ctx.verifyFailed && !ctx.canComplete && CanProbe(ctx)
    ensures NextStage(ctx) == Edit <==>
              && !ctx.verifyFailed && !ctx.canComplete && !CanProbe(ctx)
              && !Refuted(ctx) && (Confident(ctx) || ctx.openClaims != [])
    ensures NextStage(ctx) == Repair <==>
              || ctx.verifyFailed
              || (!ctx.canComplete && !CanProbe(ctx) && (Refuted(ctx) || (!Confident(ctx) && ctx.openClaims == [])))
  {
  }

  // ---------------------------------------------------------------- the belief store

  /** The hypotheses of one task in order of creation; ids are never used twice. */
  datatype Beliefs = Beliefs(rows: seq<Hypothesis>, nextId: nat)

  ghost predicate Distinct(b: Beliefs) {
    && (forall k :: 0 <= k < |b.rows| ==> b.rows[k].id < b.nextId)
    && forall j, k :: 0 <= j < k < |b.rows| ==> b.rows[j].id != b.rows[k].id
  }

  function Patch(h: Hypothesis, id: nat, evidence: nat): Hypothesis {
    if h.id == id then Hypothesis(id, if evidence > 0 then Contradicted else Disproven, 0.05) else h
  }

  function Invalidated(rows: seq<Hypothesis>, id: nat, evidence: nat): seq<Hypothesis> {
    seq(|rows|, k requires 0 <= k < |rows| => Patch(rows[k], id, evidence))
  }

  function Clamp(confidence: real): real {
    if confidence < 0.0 then 0.0 else if confidence > 1.0 then 1.0 else confidence
  }

  function Added(b: Beliefs, confidences: seq<real>): Beliefs
    decreases |confidences|
  {
    if confidences == [] then b
    else
      var before := Added(b, confidences[..|confidences| - 1]);
      Beliefs(before.rows + [Hypothesis(before.nextId, Plausible, Clamp(confidences[|confidences| - 1]))],
              before.nextId + 1)
  }

  /** What the diagnostic engine makes of the last failure. */
  datatype Diagnosis = AuthFailure | DatabaseFailure | TypeFailure | OtherFailure

  function Proposed(d: Diagnosis): seq<real> {
    match d
    case AuthFailure => [0.55, 0.4, 0.25]
    case DatabaseFailure => [0.6]
    case TypeFailure => [0.55]
    case OtherFailure => [0.3]
  }

  /** The effect of the REPAIR stage on the hypotheses. */
  function Repaired(b: Beliefs, d: Diagnosis): Beliefs {
    var top := TopHypothesis(b.rows);
    Added(if top.Some? then b.(rows := Invalidated(b.rows, top.value.id, 0)) else b, Proposed(d))
  }

  ghost function DisprovenIds(rows: seq<Hypothesis>): set<nat> {
    set k | 0 <= k < |rows| && rows[k].status.Disproven? :: rows[k].id
  }

  lemma AppendPlausible(b: Beliefs, h: Hypothesis)
    requires Distinct(b) && h.id == b.nextId && h.status.Plausible?
    ensures Distinct(Beliefs(b.rows + [h], b.nextId + 1))
    ensures DisprovenIds(b.rows + [h]) == DisprovenIds(b.rows)
    ensures TopHypothesis(b.rows + [h]).Some?
  {
    var rows := b.rows + [h];
    TopMeaning(rows, |rows|);
    assert Candidate(rows[|b.rows|]);
    assert forall k :: 0 <= k < |b.rows| ==> rows[k] == b.rows[k];
  }

  /** Proposals are plausible and come last: they disprove nothing and give a candidate. */
  lemma {:induction false} AddedForm(b: Beliefs, confidences: seq<real>)
    requires Distinct(b)
    ensures Distinct(Added(b, confidences)) && |Added(b, confidences).rows| == |b.rows| + |confidences|
    ensures Added(b, confidences).rows[..|b.rows|] == b.rows
    ensures DisprovenIds(Added(b, confidences).rows) == DisprovenIds(b.rows)
    ensures confidences != [] ==> TopHypothesis(Added(b, confidences).rows).Some?
    decreases |confidences|
  {
    if confidences != [] {
      var before := Added(b, confidences[..|confidences| - 1]);
      AddedForm(b, confidences[..|confidences| - 1]);
      AppendPlausible(before, Hypothesis(before.nextId, Plausible, Clamp(confidences[|confidences| - 1])));
    }
  }

  lemma InvalidatedDisproves(b: Beliefs, t: nat)
    requires Distinct(b) && t < |b.rows|
    ensures var rows := Invalidated(b.rows, b.rows[t].id, 0);
            && Distinct(b.(rows := rows))
            && DisprovenIds(rows) == DisprovenIds(b.rows) + {b.rows[t].id}
            && forall k :: 0 <= k < |b.rows| && k != t ==> rows[k] == b.rows[k]
  {
    var rows := Invalidated(b.rows, b.rows[t].id, 0);
    assert rows[t].id == b.rows[t].id && rows[t].status.Disproven?;
    assert forall k :: 0 <= k < |b.rows| ==> rows[k].id == b.rows[k].id;
    assert forall k :: 0 <= k < |b.rows| && k != t ==> rows[k] == b.rows[k];
  }

  /**
   REPAIR with a top hypothesis disproves exactly that one, changes no other, and leaves
   some candidate on top; without one it only adds.
   */
  lemma RepairDisprovesTop(b: Beliefs, d: Diagnosis)
    requires Distinct(b)
    ensures Distinct(Repaired(b, d)) && TopHypothesis(Repaired(b, d).rows).Some?
    ensures TopHypothesis(b.rows).None? ==> DisprovenIds(Repaired(b, d).rows) == DisprovenIds(b.rows)
    ensures var top := TopHypothesis(b.rows);
            top.Some? ==> top.value.id !in DisprovenIds(b.rows)
                          && DisprovenIds(Repaired(b, d).rows) == DisprovenIds(b.rows) + {top.value.id}
    ensures |Repaired(b, d).rows| > |b.rows|
    ensures forall k :: 0 <= k < |b.rows| && Some(b.rows[k]) != TopHypothesis(b.rows) ==>
              Repaired(b, d).rows[k] == b.rows[k]
  {
    var top := TopHypothesis(b.rows);
    var cut := if top.Some? then b.(rows := Invalidated(b.rows, top.value.id, 0)) else b;
    if top.Some? {
      TopMeaning(b.rows, |b.rows|);
      InvalidatedDisproves(b, TopIndex(b.rows, |b.rows|).value);
      DisprovenNotTop(b);
    }
    AddedForm(cut, Proposed(d));
    var rows := Repaired(b, d).rows;
    assert forall k :: 0 <= k < |b.rows| ==> rows[k] == rows[..|cut.rows|][k];
  }

  lemma {:induction false} AddedRow(b: Beliefs, confidences: seq<real>, k: nat)
    requires k < |confidences|
    ensures |Added(b, confidences).rows| == |b.rows| + |confidences|
    ensures Added(b, confidences).nextId == b.nextId + |confidences|
    ensures Added(b, confidences).rows[|b.rows| + k] == Hypothesis(b.nextId + k, Plausible, Clamp(confidences[k]))
    decreases |confidences|
  {
    var front := confidences[..|confidences| - 1];
    if k < |front| {
      AddedRow(b, front, k);
    } else if front != [] {
      AddedRow(b, front, 0);
    }
  }

  /** What a repair adds: the proposals for the diagnosis, plausible, in order and under new ids. */
  lemma RepairAdds(b: Beliefs, d: Diagnosis, k: nat)
    requires k < |Proposed(d)|
    ensures |Repaired(b, d).rows| == |b.rows| + |Proposed(d)|
    ensures Repaired(b, d).rows[|b.rows| + k] == Hypothesis(b.nextId + k, Plausible, Proposed(d)[k])
  {
    var top := TopHypothesis(b.rows);
    AddedRow(if top.Some? then b.(rows := Invalidated(b.rows, top.value.id, 0)) else b, Proposed(d), k);
  }

  /** A disproven hypothesis is never on top. */
  lemma DisprovenNotTop(b: Beliefs)
    requires Distinct(b)
    ensures TopHypothesis(b.rows).Some? ==> TopHypothesis(b.rows).value.id !in DisprovenIds(b.rows)
  {
    TopMeaning(b.rows, |b.rows|);
  }

  /** How many of the first `n` hypotheses are contradicted. */
  function Contradictions(rows: seq<Hypothesis>, n: nat): nat
    requires n <= |rows|
  {
    if n == 0 then 0 else Contradictions(rows, n - 1) + (if rows[n - 1].status.Contradicted? then 1 else 0)
  }

  lemma {:induction false} ContradictionsSame(rows: seq<Hypothesis>, rows': seq<Hypothesis>, n: nat)
    requires n <= |rows| && n <= |rows'|
    requires forall k :: 0 <= k < n ==> (rows[k].status.Contradicted? <==> rows'[k].status.Contradicted?)
    ensures Contradictions(rows, n) == Contradictions(rows', n)
  {
    if n > 0 { ContradictionsSame(rows, rows', n - 1); }
  }

  lemma {:induction false} ContradictionsCut(b: Beliefs, t: nat, n: nat)
    requires Distinct(b) && t < |b.rows| && n <= |b.rows|
    ensures Contradictions(Invalidated(b.rows, b.rows[t].id, 0), n)
            == Contradictions(b.rows, n) - (if t < n && b.rows[t].status.Contradicted? then 1 else 0)
  {
    if n > 0 { ContradictionsCut(b, t, n - 1); }
  }

  lemma {:induction false} ContradictionsAdded(b: Beliefs, confidences: seq<real>)
    ensures var rows := Added(b, confidences).rows; Contradictions(rows, |rows|) == Contradictions(b.rows, |b.rows|)
    decreases |confidences|
  {
    if confidences != [] {
      var before := Added(b, confidences[..|confidences| - 1]).rows;
      ContradictionsAdded(b, confidences[..|confidences| - 1]);
      ContradictionsSame(before, Added(b, confidences).rows, |before|);
    }
  }

  /** REPAIR takes one off the contradicted hypotheses when the top is one, and never adds any. */
  lemma RepairContradictions(b: Beliefs, d: Diagnosis)
    requires Distinct(b)
    ensures var rows, top := Repaired(b, d).rows, TopHypothesis(b.rows);
            Contradictions(rows, |rows|) + (if top.Some? && top.value.status.Contradicted? then 1 else 0)
            == Contradictions(b.rows, |b.rows|)
  {
    var k := TopIndex(b.rows, |b.rows|);
    if k.Some? {
      ContradictionsCut(b, k.value, |b.rows|);
      ContradictionsAdded(b.(rows := Invalidated(b.rows, b.rows[k.value].id, 0)), Proposed(d));
    } else {
      ContradictionsAdded(b, Proposed(d));
    }
  }

  // ---------------------------------------------------------------- hypotheses to act on

  /** What EDIT asks of the hypothesis on top. */
  predicate Actionable(h: Hypothesis) {
    h.confidence >= EDIT_CONFIDENCE && !h.status.Unknown? && !h.status.Contradicted?
  }

  /** No candidate can be acted on, even once it is on top. */
  predicate Hopeless(rows: seq<Hypothesis>) {
    forall k :: 0 <= k < |rows| && Candidate(rows[k]) ==> !Actionable(rows[k])
  }

  /** A confident candidate that cannot be acted on. */
  predicate Blocking(h: Hypothesis) {
    Candidate(h) && h.confidence >= EDIT_CONFIDENCE && !Actionable(h)
  }

  function Blockers(rows: seq<Hypothesis>, n: nat): nat
    requires n <= |rows|
  {
    if n == 0 then 0 else Blockers(rows, n - 1) + (if Blocking(rows[n - 1]) then 1 else 0)
  }

  /** While some candidate can be acted on, the one on top can be, or blocks it. */
  lemma TopBlocks(rows: seq<Hypothesis>)
    requires !Hopeless(rows)
    ensures var top := TopHypothesis(rows); top.Some? && (Actionable(top.value) || Blocking(top.value))
  {
    TopMeaning(rows, |rows|);
  }

  lemma {:induction false} BlockersSame(rows: seq<Hypothesis>, rows': seq<Hypothesis>, n: nat)
    requires n <= |rows| && n <= |rows'| && forall k :: 0 <= k < n ==> rows[k] == rows'[k]
    ensures Blockers(rows, n) == Blockers(rows', n)
  {
    if n > 0 { BlockersSame(rows, rows', n - 1); }
  }

  lemma {:induction false} BlockersCut(b: Beliefs, t: nat, n: nat)
    requires Distinct(b) && t < |b.rows| && n <= |b.rows|
    ensures Blockers(Invalidated(b.rows, b.rows[t].id, 0), n)
            == Blockers(b.rows, n) - (if t < n && Blocking(b.rows[t]) then 1 else 0)
  {
    if n > 0 { BlockersCut(b, t, n - 1); }
  }

  lemma {:induction false} BlockersAdded(b: Beliefs, confidences: seq<real>)
    ensures var rows := Added(b, confidences).rows; Blockers(rows, |rows|) == Blockers(b.rows, |b.rows|)
    decreases |confidences|
  {
    if confidences != [] {
      var before := Added(b, confidences[..|confidences| - 1]).rows;
      BlockersAdded(b, confidences[..|confidences| - 1]);
      BlockersSame(before, Added(b, confidences).rows, |before|);
    }
  }

  lemma {:induction false} BlockersFew(rows: seq<Hypothesis>, n: nat, k: nat)
    requires n <= |rows| && k < |rows| && !Blocking(rows[k])
    ensures Blockers(rows, n) <= n - (if k < n then 1 else 0)
  {
    if n > 0 { BlockersFew(rows, n - 1, k); }
  }

  /** The blocking hypotheses are fewer than all as long as one can be acted on. */
  lemma BlockersBound(rows: seq<Hypothesis>)
    requires !Hopeless(rows)
    ensures Blockers(rows, |rows|) < |rows|
  {
    var k :| 0 <= k < |rows| && Candidate(rows[k]) && Actionable(rows[k]);
    BlockersFew(rows, |rows|, k);
  }

  lemma {:induction false} AddedHopeless(b: Beliefs, confidences: seq<real>)
    ensures Hopeless(Added(b, confidences).rows) <==>
              Hopeless(b.rows) && forall k :: 0 <= k < |confidences| ==> confidences[k] < EDIT_CONFIDENCE
    decreases |confidences|
  {
    if confidences != [] {
      var front, last := confidences[..|confidences| - 1], confidences[|confidences| - 1];
      AddedHopeless(b, front);
      assert forall k :: 0 <= k < |front| ==> front[k] == confidences[k];
      HopelessSnoc(Added(b, front).rows, Hypothesis(Added(b, front).nextId, Plausible, Clamp(last)));
    }
  }

  lemma HopelessSnoc(rows: seq<Hypothesis>, h: Hypothesis)
    ensures Hopeless(rows + [h]) <==> Hopeless(rows) && (Candidate(h) ==> !Actionable(h))
  {
    assert forall k :: 0 <= k < |rows| ==> (rows + [h])[k] == rows[k];
    assert (rows + [h])[|rows|] == h;
  }

  lemma CutHopeless(b: Beliefs, t: nat)
    requires Distinct(b) && t < |b.rows| && !Actionable(b.rows[t])
    ensures Hopeless(Invalidated(b.rows, b.rows[t].id, 0)) <==> Hopeless(b.rows)
  {
    var rows := Invalidated(b.rows, b.rows[t].id, 0);
    assert forall k :: 0 <= k < |rows| && k != t ==> rows[k] == b.rows[k];
    assert !Candidate(rows[t]);
  }

  /**
   A repair whose top cannot be acted on gives something to act on exactly when there was
   something, or a database failure is diagnosed; and it takes one off the blocking
   hypotheses when the top was one.
   */
  lemma RepairHopeless(b: Beliefs, d: Diagnosis)
    requires Distinct(b) && (TopHypothesis(b.rows).Some? ==> !Actionable(TopHypothesis(b.rows).value))
    ensures var rows, top := Repaired(b, d).rows, TopHypothesis(b.rows);
            && (Hopeless(rows) <==> Hopeless(b.rows) && !d.DatabaseFailure?)
            && Blockers(rows, |rows|) + (if top.Some? && Blocking(top.value) then 1 else 0)
               == Blockers(b.rows, |b.rows|)
  {
    var k := TopIndex(b.rows, |b.rows|);
    ProposedWeak(d);
    if k.Some? {
      var cut := b.(rows := Invalidated(b.rows, b.rows[k.value].id, 0));
      CutHopeless(b, k.value);
      BlockersCut(b, k.value, |b.rows|);
      AddedHopeless(cut, Proposed(d));
      BlockersAdded(cut, Proposed(d));
    } else {
      AddedHopeless(b, Proposed(d));
      BlockersAdded(b, Proposed(d));
    }
  }

  lemma ProposedWeak(d: Diagnosis)
    ensures (forall k :: 0 <= k < |Proposed(d)| ==> Proposed(d)[k] < EDIT_CONFIDENCE) <==> !d.DatabaseFailure?
  {
    assert d.DatabaseFailure? ==> Proposed(d)[0] == 0.6;
  }

  // ---------------------------------------------------------------- claims

  predicate NoneOpen(claims: seq<Claim>) {
    forall k :: 0 <= k < |claims| ==> !Open(claims[k])
  }

  lemma {:induction false} OpenClaimsIff(rows: seq<Hypothesis>, claims: seq<Claim>)
    ensures OpenClaims(rows, claims) == [] <==> rows == [] || NoneOpen(claims)
    decreases |claims|
  {
    if claims != [] {
      OpenClaimsIff(rows, claims[1..]);
      assert NoneOpen(claims) <==> !Open(claims[0]) && NoneOpen(claims[1..]) by {
        if !Open(claims[0]) && NoneOpen(claims[1..]) {
          assert forall k :: 1 <= k < |claims| ==> claims[k] == claims[1..][k - 1];
        }
      }
    }
  }

  lemma {:induction false} OpenMembers(rows: seq<Hypothesis>, claims: seq<Claim>, c: Claim)
    ensures c in OpenClaims(rows, claims) <==> rows != [] && c in claims && Open(c)
    decreases |claims|
  {
    if rows != [] && claims != [] {
      OpenMembers(rows, claims[1..], c);
      assert claims == [claims[0]] + claims[1..];
    }
  }

  /** Whether an open claim is below one half, which is what a probe is for, said of all claims of the store. */
  lemma DoubtIff(rows: seq<Hypothesis>, claims: seq<Claim>)
    ensures HighUncertainty(OpenClaims(rows, claims)) <==>
              rows != [] && exists c :: c in claims && Open(c) && c.confidence < 0.5
  {
    var open := OpenClaims(rows, claims);
    forall c { OpenMembers(rows, claims, c); }
    if HighUncertainty(open) {
      var k :| 0 <= k < |open| && open[k].confidence < 0.5;
      assert open[k] in claims;
    }
    if c :| rows != [] && c in claims && Open(c) && c.confidence < 0.5 {
      assert c in open;
    }
  }

  predicate HasText(claims: seq<Claim>, text: string) {
    exists k :: 0 <= k < |claims| && claims[k].text == text
  }

  /** One unverified claim per criterion whose text was not yet claimed when the task was entered. */
  function Seeded(before: seq<Claim>, texts: seq<string>, next: nat): seq<Claim> {
    if texts == [] then before
    else
      var claims, text := Seeded(before, texts[..|texts| - 1], next), texts[|texts| - 1];
      if HasText(before, text) then claims else claims + [Claim(next + |claims|, text, Unverified, 0.0)]
  }

  /** Seeding touches no claim that is there, and a criterion not claimed before leaves one open. */
  lemma {:induction false} SeededForm(before: seq<Claim>, texts: seq<string>, next: nat)
    ensures before <= Seeded(before, texts, next)
    ensures forall k :: |before| <= k < |Seeded(before, texts, next)| ==>
              var c := Seeded(before, texts, next)[k];
              c == Claim(next + k, c.text, Unverified, 0.0) && c.text in texts && !HasText(before, c.text)
    ensures (exists t :: t in texts && !HasText(before, t)) ==> |Seeded(before, texts, next)| > |before|
    decreases |texts|
  {
    if texts != [] {
      SeededForm(before, texts[..|texts| - 1], next);
      if t :| t in texts && !HasText(before, t) {
        assert t in texts[..|texts| - 1] || t == texts[|texts| - 1];
      }
    }
  }

  /** After it every criterion is claimed. */
  lemma {:induction false} SeededClaims(before: seq<Claim>, texts: seq<string>, next: nat, t: string)
    requires t in texts
    ensures HasText(Seeded(before, texts, next), t)
    decreases |texts|
  {
    var front, claims := texts[..|texts| - 1], Seeded(before, texts, next);
    SeededForm(before, front, next);
    SeededForm(before, texts, next);
    if HasText(before, t) {
      var k :| 0 <= k < |before| && before[k].text == t;
      assert claims[k].text == t;
    } else if t in front {
      SeededClaims(before, front, next, t);
      var k :| 0 <= k < |Seeded(before, front, next)| && Seeded(before, front, next)[k].text == t;
      assert claims[k].text == t;
    } else {
      assert t == texts[|texts| - 1] && claims[|claims| - 1].text == t;
    }
  }

  /** A task is entered without an open claim exactly when none was open and every criterion was already claimed. */
  lemma SeededOpenIff(before: seq<Claim>, texts: seq<string>, next: nat)
    ensures NoneOpen(Seeded(before, texts, next)) <==> NoneOpen(before) && forall t :: t in texts ==> HasText(before, t)
  {
    var claims := Seeded(before, texts, next);
    SeededForm(before, texts, next);
    assert forall k :: 0 <= k < |before| ==> claims[k] == before[k];
    if t :| t in texts && !HasText(before, t) {
      assert Open(claims[|before|]);
    } else {
      SeededNothing(before, texts, next);
    }
  }

  lemma {:induction false} SeededNothing(before: seq<Claim>, texts: seq<string>, next: nat)
    requires forall t :: t in texts ==> HasText(before, t)
    ensures Seeded(before, texts, next) == before
    decreases |texts|
  {
    if texts != [] { SeededNothing(before, texts[..|texts| - 1], next); }
  }

  function Regraded(c: Claim, id: nat, confidence: real, status: ClaimStatus): Claim {
    if c.id == id then c.(status := status, confidence := Clamp(confidence)) else c
  }

  function RegradedAll(claims: seq<Claim>, id: nat, confidence: real, status: ClaimStatus): seq<Claim> {
    seq(|claims|, k requires 0 <= k < |claims| => Regraded(claims[k], id, confidence, status))
  }

  class BeliefStore {
    var rows: seq<Hypothesis>
    var nextId: nat
    var claims: seq<Claim>

    constructor (existing: seq<Hypothesis>, next: nat, claimed: seq<Claim>)
      ensures View() == Beliefs(existing, next) && claims == claimed
    {
      rows, nextId, claims := existing, next, claimed;
    }

    function View(): Beliefs
      reads this`rows, this`nextId
    {
      Beliefs(rows, nextId)
    }

    method AddHypothesis(status: BeliefStatus, confidence: real) returns (h: Hypothesis)
      modifies this`rows, this`nextId
      ensures h == Hypothesis(old(nextId), status, Clamp(confidence))
      ensures View() == Beliefs(old(rows) + [h], old(nextId) + 1)
    {
      h := Hypothesis(nextId, status, Clamp(confidence));
      rows, nextId := rows + [h], nextId + 1;
    }

    /** False is the source's "Hypothesis not found" error. */
    method InvalidateHypothesis(id: nat, evidence: nat) returns (found: bool)
      modifies this`rows
      ensures rows == Invalidated(old(rows), id, evidence)
      ensures forall k :: 0 <= k < |rows| ==>
        rows[k] == if old(rows)[k].id != id then old(rows)[k]
                   else Hypothesis(id, if evidence > 0 then Contradicted else Disproven, 0.05)
      ensures found <==> exists k :: 0 <= k < |rows| && old(rows)[k].id == id
    {
      found := false;
      for k := 0 to |rows|
        invariant |rows| == |old(rows)|
        invariant forall j :: 0 <= j < k ==> rows[j] == Patch(old(rows)[j], id, evidence)
        invariant forall j :: k <= j < |rows| ==> rows[j] == old(rows)[j]
        invariant found <==> exists j :: 0 <= j < k && old(rows)[j].id == id
      {
        if rows[k].id == id {
          rows := rows[k := Hypothesis(id, if evidence > 0 then Contradicted else Disproven, 0.05)];
          found := true;
        }
      }
    }

    /** The claims of a new or resumed task, from the texts of its acceptance criteria. */
    method SeedClaims(texts: seq<string>, next: nat)
      modifies this`claims
      ensures claims == Seeded(old(claims), texts, next)
    {
      var existing := claims;
      for k := 0 to |texts|
        invariant claims == Seeded(existing, texts[..k], next)
      {
        assert texts[..k + 1][..k] == texts[..k];
        if !HasText(existing, texts[k]) {
          claims := claims + [Claim(next + |claims|, texts[k], Unverified, 0.0)];
        }
      }
      assert texts[..|texts|] == texts;
    }

    method UpdateClaimConfidence(id: nat, confidence: real, status: ClaimStatus)
      modifies this`claims
      ensures claims == RegradedAll(old(claims), id, confidence, status)
      ensures forall k :: 0 <= k < |claims| ==>
        claims[k] == if old(claims)[k].id != id then old(claims)[k]
                     else Claim(id, old(claims)[k].text, status,
                                if confidence < 0.0 then 0.0 else if confidence > 1.0 then 1.0 else confidence)
    {
      for k := 0 to |claims|
        invariant |claims| == |old(claims)|
        invariant forall j :: 0 <= j < k ==> claims[j] == Regraded(old(claims)[j], id, confidence, status)
        invariant forall j :: k <= j < |claims| ==> claims[j] == old(claims)[j]
      {
        if claims[k].id == id { claims := claims[k := claims[k].(status := status, confidence := Clamp(confidence))]; }
      }
    }
  }
}
