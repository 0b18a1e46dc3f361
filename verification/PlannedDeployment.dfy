/**
 * Executing a plan: the evidence it rests on is checked again, the plan is recomputed and compared, and only then the
 * transaction runs. Here the plan of two manifests and the transaction on the host meet: what an applied receipt means
 * for the candidate manifest.
 */
module PlannedDeployment {
  import opened Common
  import D = Deployment
  import P = Plan

  function Ids(changes: seq<P.Change>): (r: seq<string>)
    ensures |r| == |changes| && forall i | 0 <= i < |r| :: r[i] == changes[i].lineId
  {
    seq(|changes|, i requires 0 <= i < |changes| => changes[i].lineId)
  }

  function LinesOf(plan: P.Plan): D.Lines {
    D.Lines(Ids(plan.added), Ids(plan.changed), Ids(plan.removed))
  }

  /** The lines a manifest runs. */
  function LinesIn(m: P.Manifest): set<string> {
    P.EntriesOf(m.providers).Keys
  }

  /** The lines both manifests run, under the same unit and configuration. */
  function Unchanged(current: P.Manifest, candidate: P.Manifest): set<string> {
    var previous, next := P.EntriesOf(current.providers), P.EntriesOf(candidate.providers);
    set l | l in previous && l in next && !P.Differs(previous[l], next[l])
  }

  ghost predicate NoBlankLine(m: P.Manifest) {
    "" !in LinesIn(m)
  }

  lemma IdsAre(changes: seq<P.Change>)
    ensures D.Elements(Ids(changes)) == P.LinesOf(changes)
  {
    forall c | c in changes ensures c.lineId in Ids(changes) {
      var i :| 0 <= i < |changes| && changes[i] == c;
      assert Ids(changes)[i] == c.lineId;
    }
  }

  /** A plan names the lines that differ, each once: what the transaction asks of its input. */
  lemma PlansAreWellFormed(plan: P.Plan, current: P.Manifest, candidate: P.Manifest, preflight: P.Snapshot)
    requires P.IsPlan(plan, current, candidate, preflight) && NoBlankLine(current) && NoBlankLine(candidate)
    ensures D.WellFormed(LinesOf(plan))
    ensures var p := LinesOf(plan);
            && D.Elements(p.added) == LinesIn(candidate) - LinesIn(current)
            && D.Elements(p.removed) == LinesIn(current) - LinesIn(candidate)
            && D.Elements(p.changed) == LinesIn(current) * LinesIn(candidate) - Unchanged(current, candidate)
  {
    P.PlanTurnsCurrentIntoCandidate(plan, current, candidate, preflight);
    var p := LinesOf(plan);
    IdsAre(plan.added);
    IdsAre(plan.changed);
    IdsAre(plan.removed);
    assert forall i, j | 0 <= i < j < |plan.added| :: P.ChangeKey()(plan.added[i]) != P.ChangeKey()(plan.added[j]);
    assert forall i, j | 0 <= i < j < |plan.changed| :: P.ChangeKey()(plan.changed[i]) != P.ChangeKey()(plan.changed[j]);
    assert forall i, j | 0 <= i < j < |plan.removed| :: P.ChangeKey()(plan.removed[i]) != P.ChangeKey()(plan.removed[j]);
    assert "" in p.added ==> "" in D.Elements(p.added);
    assert "" in p.changed ==> "" in D.Elements(p.changed);
    assert "" in p.removed ==> "" in D.Elements(p.removed);
  }

  /**
   * A host on which the candidate's units and link are in place runs, of the lines of the two manifests, exactly those
   * of the candidate if and only if it ran the unchanged ones before; the apply does not look at these. The same for
   * enablement, which a changed line keeps too. Lines of neither manifest are left alone.
   */
  lemma AppliedMeansTheManifestIff(plan: P.Plan, current: P.Manifest, candidate: P.Manifest, preflight: P.Snapshot,
                                   before: D.HostState, target: string, h: D.HostState)
    requires P.IsPlan(plan, current, candidate, preflight) && NoBlankLine(current) && NoBlankLine(candidate)
    requires D.UnitsOf(h) == D.UnitsOf(D.Candidate(before, LinesOf(plan), target))
    ensures h.link == target
    ensures var managed := LinesIn(current) + LinesIn(candidate);
            && (h.active * managed == LinesIn(candidate) <==> Unchanged(current, candidate) <= before.active)
            && (h.enabled * managed == LinesIn(candidate) <==> LinesIn(current) * LinesIn(candidate) <= before.enabled)
            && h.active - managed == before.active - managed && h.enabled - managed == before.enabled - managed
    ensures forall l | l in D.LinesOf(LinesOf(plan)) :: l in h.active <==> l in LinesIn(candidate)
  {
    hide P.IsPlan;
    PlansAreWellFormed(plan, current, candidate, preflight);
    var previous, next := LinesIn(current), LinesIn(candidate);
    var kept := Unchanged(current, candidate);
    assert kept <= previous * next;
    var p := LinesOf(plan);
    assert h.active * (previous + next) == (before.active * kept) + (next - kept);
    assert h.enabled * (previous + next) == (before.enabled * (previous * next)) + (next - previous);
    if h.active * (previous + next) == next {
      assert forall l | l in kept :: l in h.active * (previous + next);
    }
    if h.enabled * (previous + next) == next {
      assert forall l | l in previous * next :: l in h.enabled * (previous + next);
    }
  }

  // ---------------------------------------------------------------- the checks before

  /** What LoadDirectory accepts, as far as the lines go. */
  ghost predicate IsManifest(m: P.Manifest) {
    && m.schemaVersion == 1 && m.catalogRevision != 0
    && (forall i | 0 <= i < |m.providers| :: Trim(m.providers[i].lineId) != "")
    && (forall i, j | 0 <= i < j < |m.providers| :: m.providers[i].lineId != m.providers[j].lineId)
  }

  lemma {:induction false} EntriesComeFrom(providers: seq<P.Entry>, l: string)
    requires l in P.EntriesOf(providers)
    ensures exists i :: 0 <= i < |providers| && providers[i].lineId == l
  {
    var last := |providers| - 1;
    if providers[last].lineId != l {
      EntriesComeFrom(providers[..last], l);
      var i :| 0 <= i < last && providers[..last][i].lineId == l;
      assert providers[i].lineId == l;
    }
  }

  lemma ManifestsHaveNoBlankLine(m: P.Manifest)
    requires IsManifest(m) || m.providers == []
    ensures NoBlankLine(m)
  {
    assert Trim("") == "";
    if "" in LinesIn(m) {
      EntriesComeFrom(m.providers, "");
    }
  }

  const NOTHING := P.Manifest(0, 0, [])

  datatype Input = Input(
    previousTarget: string,
    candidateTarget: string,
    current: P.Manifest,
    candidate: P.Manifest,
    plan: P.Plan,
    preflight: P.Snapshot)

  /** The directories that load, by path. */
  type Directories = map<string, P.Manifest>

  ghost predicate AllLoaded(directories: Directories) {
    forall t | t in directories :: IsManifest(directories[t])
  }

  /** The manifest the current link stands for. */
  predicate Stands(directories: Directories, link: string, m: P.Manifest) {
    if link == "" then m == NOTHING else link in directories && directories[link] == m
  }

  /** What Execute demands of the host and of its input. */
  ghost predicate Admits(directories: Directories, link: string, input: Input) {
    && input.plan.safe && input.plan.catalogRevision != 0 && input.candidate.catalogRevision == input.plan.catalogRevision
    && input.preflight.catalogRevision == input.plan.catalogRevision && input.candidateTarget != ""
    && link == input.previousTarget && Stands(directories, link, input.current)
    && Stands(directories, input.candidateTarget, input.candidate)
    && P.IsPlan(input.plan, input.current, input.candidate, input.preflight)
  }

  function Present(preflight: P.Snapshot): set<string> {
    var statuses := P.StatusesOf(preflight.lines);
    set l | l in statuses && statuses[l].present
  }

  /** Exactly the lines of the manifest the link stands for are active, and exactly these are enabled. */
  ghost predicate InPlace(directories: Directories, h: D.HostState) {
    exists m: P.Manifest :: Stands(directories, h.link, m) && h.active == h.enabled == LinesIn(m)
  }

  lemma AppliedIsInPlace(directories: Directories, input: Input, before: D.HostState, h: D.HostState)
    requires AllLoaded(directories) && Admits(directories, before.link, input) && InPlace(directories, before)
    requires D.UnitsOf(h) == D.UnitsOf(D.Candidate(before, LinesOf(input.plan), input.candidateTarget))
    ensures InPlace(directories, h)
  {
    ManifestsHaveNoBlankLine(input.current);
    ManifestsHaveNoBlankLine(input.candidate);
    AppliedMeansTheManifestIff(input.plan, input.current, input.candidate, input.preflight, before, input.candidateTarget, h);
    hide P.IsPlan, D.Candidate;
    var previous, next := LinesIn(input.current), LinesIn(input.candidate);
    assert before.active == before.enabled == previous;
    assert Unchanged(input.current, input.candidate) <= previous;
    assert h.active == h.active * (previous + next) + (h.active - (previous + next));
    assert h.enabled == h.enabled * (previous + next) + (h.enabled - (previous + next));
    assert Stands(directories, h.link, input.candidate);
  }

  /**
   * Execute. It runs exactly under the conditions above, on a plan that has not changed since it was made. Once the
   * candidate is applied, whether or not every line could be resumed, the host is as AppliedMeansTheManifestIff says;
   * and a host that matched its link before matches it again, also after a rollback that restores.
   */
  method Execute(apply: D.Deployment, directories: Directories, input: Input, attempts: nat) returns (state: Option<D.ReceiptState>)
    requires AllLoaded(directories)
    requires apply.journal.receipt == D.Receipt(D.Prepared, [])
    requires forall l | l in apply.drained :: apply.drained[l] != apply.lease
    modifies apply, apply.journal
    ensures state.Some? <==> Admits(directories, old(apply.link), input)
    ensures state.None? ==> apply.Host() == old(apply.Host()) && apply.journal.receipt == old(apply.journal.receipt)
    ensures state.Some? ==>
              && state.value == apply.journal.receipt.state
              && state.value == D.Outcome(apply.env, old(apply.Host()), LinesOf(input.plan), Present(input.preflight), attempts)
    ensures state.Some? && (state.value.Applied? || state.value.AppliedResumeIncomplete?) ==>
              && D.UnitsOf(apply.Host()) == D.UnitsOf(D.Candidate(old(apply.Host()), LinesOf(input.plan), input.candidateTarget))
              && (old(InPlace(directories, apply.Host())) ==> InPlace(directories, apply.Host()))
    ensures state.Some? && state.value.RolledBack? ==>
              (apply.Host() == old(apply.Host()) <==>
                D.Restores(apply.env, old(apply.Host()), LinesOf(input.plan), input.candidateTarget, Present(input.preflight)))
  {
    hide InPlace, P.IsPlan, D.Candidate, D.Restores, D.Outcome;
    var plan := input.plan;
    if !plan.safe || plan.catalogRevision == 0 || input.candidate.catalogRevision != plan.catalogRevision ||
       input.preflight.catalogRevision != plan.catalogRevision || input.candidateTarget == "" {
      return None;
    }
    if apply.link != input.previousTarget || !Stands(directories, apply.link, input.current) {
      return None;
    }
    if !Stands(directories, input.candidateTarget, input.candidate) {
      return None;
    }
    var recomputed := P.BuildPlan(input.current, input.candidate, input.preflight);
    if P.IsPlan(plan, input.current, input.candidate, input.preflight) {
      P.PlanChangesAreDetermined(plan, recomputed, input.current, input.candidate, input.preflight);
    }
    if recomputed != plan {
      return None;
    }
    ManifestsHaveNoBlankLine(input.current);
    ManifestsHaveNoBlankLine(input.candidate);
    PlansAreWellFormed(plan, input.current, input.candidate, input.preflight);
    ghost var before := apply.Host();
    var ended := apply.ExecuteLocked(LinesOf(plan), input.candidateTarget, Present(input.preflight), attempts);
    if (ended.Applied? || ended.AppliedResumeIncomplete?) && old(InPlace(directories, apply.Host())) {
      AppliedIsInPlace(directories, input, before, apply.Host());
    }
    state := Some(ended);
  }

  /** A plan of manifests that still stand is carried out if and only if it is safe, and only on the link it was made for. */
  lemma StandingPlanIsAdmittedIff(directories: Directories, link: string, input: Input)
    requires P.IsPlan(input.plan, input.current, input.candidate, input.preflight) && input.candidateTarget != ""
    requires Stands(directories, input.previousTarget, input.current) && Stands(directories, input.candidateTarget, input.candidate)
    ensures Admits(directories, link, input) <==> input.plan.safe && link == input.previousTarget
  {
    P.PlanIsSafeIff(input.plan, input.current, input.candidate, input.preflight);
    assert input.plan.catalogRevision == input.candidate.catalogRevision;
    hide P.IsPlan, Stands;
  }
}
