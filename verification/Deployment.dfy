/**
 * The provider deployment transaction: drain the affected lines, stop, disable, switch, enable and start the units of a
 * plan, compensate on any failure, and record each step in a receipt. Unit names are derived injectively from line ids,
 * so a unit is named by its line here. Receipt writes succeed. Anything else may fail, and a step that reports failure
 * may have taken effect all the same; which steps do so is the environment, an input of the apply.
 */
module Deployment {
  import opened Common

  // ---------------------------------------------------------------- the receipt

  datatype Action =
    | Drain | Stop | Disable | SwitchLink | Enable | Start | Resume
    | RollbackStop | RollbackDisable | RollbackLink | RollbackEnable | RollbackStart

  datatype StepState = Pending | Succeeded | Failed

  datatype Step = Step(action: Action, target: string, state: StepState)

  datatype ReceiptState = Prepared | Applying | Applied | RolledBack | AppliedResumeIncomplete | ManualRecovery

  datatype Receipt = Receipt(state: ReceiptState, steps: seq<Step>)

  predicate Closed(state: ReceiptState) {
    state.Applied? || state.RolledBack? || state.AppliedResumeIncomplete? || state.ManualRecovery?
  }

  /** receiptSettled: only such a receipt lets the next apply begin. */
  predicate ReceiptSettled(r: Receipt) {
    (r.state.Applied? || r.state.RolledBack?) && forall i | 0 <= i < |r.steps| :: !r.steps[i].state.Pending?
  }

  predicate NothingPending(r: Receipt) {
    forall i | 0 <= i < |r.steps| :: !r.steps[i].state.Pending?
  }

  class Journal {
    var receipt: Receipt

    constructor ()
      ensures receipt == Receipt(Prepared, [])
    {
      receipt := Receipt(Prepared, []);
    }

    method Before(action: Action, target: string) returns (index: Option<nat>)
      modifies this
      ensures index.None? <==> target == "" || Closed(old(receipt).state)
      ensures index.None? ==> receipt == old(receipt)
      ensures index.Some? ==>
                && index.value == |old(receipt).steps|
                && receipt == Receipt(Applying, old(receipt).steps + [Step(action, target, Pending)])
    {
      if target == "" || Closed(receipt.state) {
        return None;
      }
      index := Some(|receipt.steps|);
      receipt := Receipt(Applying, receipt.steps + [Step(action, target, Pending)]);
    }

    /** Complete and Fail. */
    method Settle(index: nat, ok: bool) returns (valid: bool)
      modifies this
      ensures valid <==> index < |old(receipt).steps| && old(receipt).steps[index].state.Pending?
      ensures receipt == if valid then old(receipt).(steps := old(receipt).steps[index := old(receipt).steps[index].(state := if ok then Succeeded else Failed)])
                         else old(receipt)
    {
      if index >= |receipt.steps| || !receipt.steps[index].state.Pending? {
        return false;
      }
      receipt := receipt.(steps := receipt.steps[index := receipt.steps[index].(state := if ok then Succeeded else Failed)]);
      return true;
    }

    method Finish(state: ReceiptState) returns (valid: bool)
      modifies this
      ensures valid <==> Closed(state)
      ensures receipt == if valid then old(receipt).(state := state) else old(receipt)
    {
      if !Closed(state) {
        return false;
      }
      receipt := receipt.(state := state);
      return true;
    }
  }

  // ---------------------------------------------------------------- the plan and the host

  /** The lines of a plan, as BuildPlan lists them. */
  datatype Lines = Lines(added: seq<string>, changed: seq<string>, removed: seq<string>)

  function Elements(s: seq<string>): set<string> {
    set l | l in s
  }

  ghost predicate Distinct(s: seq<string>) {
    forall i, j | 0 <= i < j < |s| :: s[i] != s[j]
  }

  ghost predicate WellFormed(p: Lines) {
    && Distinct(p.added) && Distinct(p.changed) && Distinct(p.removed)
    && Elements(p.added) !! Elements(p.changed) !! Elements(p.removed)
    && "" !in p.added && "" !in p.changed && "" !in p.removed
  }

  /** The configuration of the host an apply may change. */
  datatype HostState = HostState(active: set<string>, enabled: set<string>, link: string, drained: map<string, string>)

  // ---------------------------------------------------------------- the environment

  /** What an apply asks of systemd and of the file system. It asks for each of these once at most. */
  datatype Call =
    | Probe(line: string)
    | UnitStep(action: Action, line: string)
    | LinkStep(action: Action)
    | StartProbe(line: string)
    | Registration

  /** What the provider of a line makes of a drain: drained, drained under an answer that does not say so, or neither. */
  datatype DrainAnswer = Drains | DrainsUnnoticed | Refuses | IsAbsent

  datatype ReleaseAnswer = Releases | ReleasesUnnoticed | Keeps

  /** What becomes of the resumption of a line: reported, carried out without a report, or neither. */
  datatype ResumeAnswer = Resumes | ResumesUnnoticed | Stays

  /** The code of a line in the result of a drain request. */
  datatype DrainCode = DrainedLine | Absent | Other

  /**
   * Everything outside decides: which calls fail, and which of those take effect all the same; what each provider does;
   * of the drain request, whether Core rejects it unseen, whether the catalog moves meanwhile, and whether Core's answer
   * is lost or malformed on its way back; of the resumption after the commit, whether the status is read, which lines it
   * shows, and what becomes of each line's request; of the resumptions of a rollback, attempt by attempt, what becomes of
   * each line, and whether the request as a whole is accepted and its answer heard.
   */
  datatype Environment = Environment(
    fails: set<Call>,
    late: set<Call>,
    drain: string -> DrainAnswer,
    release: string -> ReleaseAnswer,
    rejected: bool,
    catalogMoved: bool,
    answerLost: bool,
    statusRead: bool,
    shows: string -> bool,
    resume: string -> ResumeAnswer,
    again: (nat, string) -> ResumeAnswer,
    heard: nat -> bool)

  /** Nothing fails. */
  const QUIET := Environment({}, {}, _ => Drains, _ => Releases, false, false, false, true, _ => true, _ => Resumes, (_, _) => Resumes, _ => true)

  // ---------------------------------------------------------------- what a drain request does

  predicate TakesDrain(env: Environment, d: map<string, string>, l: string) {
    l !in d && (env.drain(l).Drains? || env.drain(l).DrainsUnnoticed?)
  }

  function CodeOf(env: Environment, d: map<string, string>, l: string): DrainCode {
    if env.drain(l).IsAbsent? then Absent else if env.drain(l).Drains? && l !in d then DrainedLine else Other
  }

  /** The lines Core knows it has drained, and those drained without its knowledge. */
  function Begun(env: Environment, d: map<string, string>, lines: set<string>): set<string> {
    set l | l in lines && CodeOf(env, d, l).DrainedLine?
  }

  function Unnoticed(env: Environment, d: map<string, string>, lines: set<string>): set<string> {
    set l | l in lines && l !in d && env.drain(l).DrainsUnnoticed?
  }

  predicate SomeRefuses(env: Environment, d: map<string, string>, lines: set<string>) {
    exists l :: l in lines && CodeOf(env, d, l).Other?
  }

  predicate CoreFails(env: Environment, d: map<string, string>, lines: set<string>) {
    env.catalogMoved || SomeRefuses(env, d, lines)
  }

  predicate DrainWorks(env: Environment, d: map<string, string>, lines: set<string>) {
    !env.rejected && !CoreFails(env, d, lines) && !env.answerLost
  }

  /** The lines a drain request leaves drained: what it drained, and if it failed, what was not released again. */
  function DrainLeft(env: Environment, d: map<string, string>, lines: set<string>): set<string> {
    if env.rejected then {}
    else if CoreFails(env, d, lines) then Unnoticed(env, d, lines) + set l | l in Begun(env, d, lines) && env.release(l).Keeps?
    else Begun(env, d, lines)
  }

  /** Core reports a line it could not release, and the report arrives. */
  predicate DrainStuck(env: Environment, d: map<string, string>, lines: set<string>) {
    !env.rejected && CoreFails(env, d, lines) && !env.answerLost && exists l :: l in Begun(env, d, lines) && !env.release(l).Releases?
  }

  /** The lines of one drain, all under the apply's lease. */
  function LeaseOn(lines: set<string>, lease: string): map<string, string> {
    map l | l in lines :: lease
  }

  lemma LeaseAdded(d: map<string, string>, lines: set<string>, l: string, lease: string)
    ensures (d + LeaseOn(lines, lease))[l := lease] == d + LeaseOn(lines + {l}, lease)
  {
  }

  lemma NoDrains(env: Environment, d: map<string, string>, lease: string)
    ensures d + LeaseOn({}, lease) == d == LeasesAfter(env, d, {}, lease)
    ensures Begun(env, d, {}) + Unnoticed(env, d, {}) == {} == Begun(env, d, {})
    ensures !SomeRefuses(env, d, {})
  {
  }

  /** The leases after the workers of the given lines. */
  function LeasesAfter(env: Environment, d: map<string, string>, lines: set<string>, lease: string): map<string, string> {
    d + LeaseOn(Begun(env, d, lines) + Unnoticed(env, d, lines), lease)
  }

  /** One more worker. */
  lemma NextDrain(env: Environment, d: map<string, string>, lines: set<string>, l: string, lease: string)
    ensures Begun(env, d, lines + {l}) == if CodeOf(env, d, l).DrainedLine? then Begun(env, d, lines) + {l} else Begun(env, d, lines)
    ensures SomeRefuses(env, d, lines + {l}) <==> SomeRefuses(env, d, lines) || CodeOf(env, d, l).Other?
    ensures var now, next := LeasesAfter(env, d, lines, lease), LeasesAfter(env, d, lines + {l}, lease);
            l !in lines ==> CodeOf(env, now, l) == CodeOf(env, d, l) && next == if TakesDrain(env, now, l) then now[l := lease] else now
  {
    LeaseAdded(d, Begun(env, d, lines) + Unnoticed(env, d, lines), l, lease);
    if TakesDrain(env, d, l) {
      assert Begun(env, d, lines + {l}) + Unnoticed(env, d, lines + {l}) == Begun(env, d, lines) + Unnoticed(env, d, lines) + {l};
    } else {
      assert Begun(env, d, lines + {l}) + Unnoticed(env, d, lines + {l}) == Begun(env, d, lines) + Unnoticed(env, d, lines);
    }
  }

  /** Releasing what Core knows leaves the rest drained. */
  lemma PartlyReleased(env: Environment, d: map<string, string>, lines: set<string>, lease: string)
    requires !env.rejected && CoreFails(env, d, lines)
    ensures (d + LeaseOn(Begun(env, d, lines) + Unnoticed(env, d, lines), lease)) -
              (set l | l in Begun(env, d, lines) && !env.release(l).Keeps?) == d + LeaseOn(DrainLeft(env, d, lines), lease)
  {
  }

  lemma DrainsAmong(env: Environment, d: map<string, string>, lines: set<string>)
    ensures DrainLeft(env, d, lines) <= lines && DrainLeft(env, d, lines) !! d.Keys
  {
  }

  lemma DrainWorksMeansBegun(env: Environment, d: map<string, string>, lines: set<string>)
    requires !CoreFails(env, d, lines)
    ensures Unnoticed(env, d, lines) == {}
  {
    assert forall l | l in lines :: !CodeOf(env, d, l).Other?;
  }

  // ---------------------------------------------------------------- what a resume request does

  /** A provider ends a drain only under the very lease that holds it. */
  predicate Held(d: map<string, string>, l: string, lease: string) {
    l in d && d[l] == lease
  }

  predicate AllResume(d: map<string, string>, lines: set<string>, lease: string, answer: string -> ResumeAnswer) {
    forall l | l in lines :: Held(d, l, lease) && answer(l).Resumes?
  }

  function Undrained(d: map<string, string>, lines: set<string>, lease: string, answer: string -> ResumeAnswer): map<string, string> {
    d - set l | l in lines && Held(d, l, lease) && !answer(l).Stays?
  }

  /** One more line of a resume request. */
  lemma NextResume(d: map<string, string>, lines: set<string>, l: string, lease: string, answer: string -> ResumeAnswer)
    requires l !in lines
    ensures Held(Undrained(d, lines, lease, answer), l, lease) == Held(d, l, lease)
    ensures Undrained(d, lines + {l}, lease, answer) ==
            if Held(d, l, lease) && !answer(l).Stays? then Undrained(d, lines, lease, answer) - {l} else Undrained(d, lines, lease, answer)
    ensures AllResume(d, lines + {l}, lease, answer) <==> AllResume(d, lines, lease, answer) && Held(d, l, lease) && answer(l).Resumes?
  {
  }

  lemma OneResumes(d: map<string, string>, l: string, lease: string, answer: string -> ResumeAnswer)
    requires Held(d, l, lease)
    ensures AllResume(d, Elements([l]), lease, answer) <==> answer(l).Resumes?
    ensures answer(l).Resumes? ==> Undrained(d, Elements([l]), lease, answer) == d - {l}
  {
    assert Elements([l]) == {l};
  }

  lemma ResumingOne(d: map<string, string>, lines: seq<string>, i: nat, shows: string -> bool)
    requires i < |lines| && lines[i] !in Elements(lines[..i])
    ensures var now, next := d - (set l | l in lines[..i] && shows(l)), d - set l | l in lines[..i + 1] && shows(l);
            && next == (if shows(lines[i]) then now - {lines[i]} else now)
            && (lines[i] in d <==> lines[i] in now)
  {
    assert lines[..i + 1] == lines[..i] + [lines[i]];
  }

  predicate Undisturbed(env: Environment, lines: set<string>, k: nat) {
    forall j, l | 0 <= j < k && l in lines :: env.again(j, l).Stays?
  }

  predicate Success(env: Environment, lines: set<string>, k: nat) {
    env.heard(k) && Undisturbed(env, lines, k) && forall l | l in lines :: env.again(k, l).Resumes?
  }

  /** One attempt of a rollback's resumptions, on what the attempts before it have left. */
  lemma AttemptDecides(env: Environment, lines: set<string>, now: map<string, string>, d: map<string, string>, lease: string, k: nat)
    requires lines != {} && (Undisturbed(env, lines, k) ==> now == d)
    requires !Undisturbed(env, lines, k) ==> exists l :: l in lines && !Held(now, l, lease)
    ensures var answer := l => env.again(k, l);
            && (env.heard(k) && AllResume(now, lines, lease, answer) <==>
                 (forall l | l in lines :: Held(d, l, lease)) && Success(env, lines, k))
            && (AllResume(now, lines, lease, answer) ==> Undrained(now, lines, lease, answer) == d - lines)
            && (Undisturbed(env, lines, k + 1) ==> Undrained(now, lines, lease, answer) == d)
            && (!Undisturbed(env, lines, k + 1) ==> exists l :: l in lines && !Held(Undrained(now, lines, lease, answer), l, lease))
  {
    var answer := l => env.again(k, l);
    if Undisturbed(env, lines, k) && !Undisturbed(env, lines, k + 1) {
      var l :| l in lines && !env.again(k, l).Stays?;
      assert !Held(Undrained(now, lines, lease, answer), l, lease);
    } else if !Undisturbed(env, lines, k) {
      var l :| l in lines && !Held(now, l, lease);
      assert !Held(Undrained(now, lines, lease, answer), l, lease);
    }
  }

  /**
   * The resumptions of a rollback succeed: some attempt resumes every line and is heard, and none before it resumed any. A
   * line resumed earlier is no longer held by the lease, and its provider refuses from then on.
   */
  predicate ResumedAgain(env: Environment, lines: set<string>, attempts: nat) {
    exists k | 0 <= k <= attempts :: Success(env, lines, k)
  }

  // ---------------------------------------------------------------- what the forward steps do

  predicate UnitAction(action: Action) {
    !(action.Drain? || action.SwitchLink? || action.Resume? || action.RollbackLink?)
  }

  /** What a unit step does to a set of units. */
  function UnitsEffect(h: HostState, action: Action, lines: set<string>): HostState {
    match action
    case Stop => h.(active := h.active - lines)
    case RollbackStop => h.(active := h.active - lines)
    case Start => h.(active := h.active + lines)
    case RollbackStart => h.(active := h.active + lines)
    case Disable => h.(enabled := h.enabled - lines)
    case RollbackDisable => h.(enabled := h.enabled - lines)
    case Enable => h.(enabled := h.enabled + lines)
    case RollbackEnable => h.(enabled := h.enabled + lines)
    case _ => h
  }

  lemma UnitsEffectOfNone(h: HostState, action: Action)
    ensures UnitsEffect(h, action, {}) == h
  {
  }

  lemma UnitsEffectAppends(h: HostState, action: Action, lines: set<string>, l: string)
    ensures UnitsEffect(UnitsEffect(h, action, lines), action, {l}) == UnitsEffect(h, action, lines + {l})
  {
    assert h.active - lines - {l} == h.active - (lines + {l}) && h.active + lines + {l} == h.active + (lines + {l});
    assert h.enabled - lines - {l} == h.enabled - (lines + {l}) && h.enabled + lines + {l} == h.enabled + (lines + {l});
  }

  function Effect(h: HostState, candidate: string, call: Call): HostState {
    match call
    case UnitStep(action, line) => UnitsEffect(h, action, {line})
    case LinkStep(_) => h.(link := candidate)
    case _ => h
  }

  lemma UnitStepEffect(h: HostState, candidate: string, action: Action, l: string)
    ensures Effect(h, candidate, UnitStep(action, l)) == UnitsEffect(h, action, {l})
  {
  }

  /** What a failing call leaves behind. */
  function AfterFailure(env: Environment, h: HostState, candidate: string, failure: Option<Call>): HostState {
    if failure.Some? && failure.value in env.late then Effect(h, candidate, failure.value) else h
  }

  function UnitCalls(action: Action, lines: seq<string>, only: set<string>): seq<Call> {
    if lines == [] then []
    else
      var l := lines[|lines| - 1];
      UnitCalls(action, lines[..|lines| - 1], only) + if l in only then [UnitStep(action, l)] else []
  }

  function StartCalls(lines: seq<string>): seq<Call> {
    if lines == [] then []
    else StartCalls(lines[..|lines| - 1]) + [UnitStep(Start, lines[|lines| - 1]), StartProbe(lines[|lines| - 1])]
  }

  /** The forward phase in the order in which it runs, up to the wait for the new providers. */
  function ForwardCalls(before: HostState, p: Lines): seq<Call> {
    UnitCalls(Stop, p.changed + p.removed, before.active) + UnitCalls(Disable, p.removed, before.enabled) +
    [LinkStep(SwitchLink)] + UnitCalls(Enable, p.added, Elements(p.added)) + StartCalls(p.changed + p.added)
  }

  /** Where a series of calls stops. */
  function FirstFailure(fails: set<Call>, calls: seq<Call>): (r: Option<Call>)
    ensures r.Some? ==> r.value in calls && r.value in fails
  {
    if calls == [] then None
    else
      var earlier := FirstFailure(fails, calls[..|calls| - 1]);
      if earlier.Some? then earlier
      else if calls[|calls| - 1] in fails then Some(calls[|calls| - 1]) else None
  }

  /** The calls that worked before the first that failed. */
  function Performed(fails: set<Call>, calls: seq<Call>): seq<Call> {
    if FirstFailure(fails, calls).None? then calls
    else
      var init := calls[..|calls| - 1];
      if FirstFailure(fails, init).Some? then Performed(fails, init) else init
  }

  lemma {:induction false} PerformedJoins(fails: set<Call>, a: seq<Call>, b: seq<Call>)
    ensures Performed(fails, a + b) == if FirstFailure(fails, a).Some? then Performed(fails, a) else a + Performed(fails, b)
  {
    FirstFailureJoins(fails, a, b);
    if b == [] {
      assert a + b == a;
    } else {
      var init := b[..|b| - 1];
      assert (a + b)[..|a + b| - 1] == a + init;
      FirstFailureJoins(fails, a, init);
      PerformedJoins(fails, a, init);
    }
  }

  /** Nothing of a series fails exactly if none of its calls is among those that fail. */
  lemma {:induction false} NoFailureIff(fails: set<Call>, calls: seq<Call>)
    ensures FirstFailure(fails, calls).None? <==> forall c | c in calls :: c !in fails
  {
    if calls != [] {
      var init := calls[..|calls| - 1];
      NoFailureIff(fails, init);
      assert calls == init + [calls[|calls| - 1]];
    }
  }

  lemma {:induction false} FirstFailureJoins(fails: set<Call>, a: seq<Call>, b: seq<Call>)
    ensures FirstFailure(fails, a + b) == if FirstFailure(fails, a).Some? then FirstFailure(fails, a) else FirstFailure(fails, b)
  {
    if b == [] {
      assert a + b == a;
    } else {
      assert (a + b)[..|a + b| - 1] == a + b[..|b| - 1];
      FirstFailureJoins(fails, a, b[..|b| - 1]);
    }
  }

  /** A loop over the lines that fails at one of them has failed as a whole. */
  lemma {:induction false} UnitFailureStands(fails: set<Call>, action: Action, lines: seq<string>, only: set<string>, k: nat)
    requires k <= |lines| && FirstFailure(fails, UnitCalls(action, lines[..k], only)).Some?
    ensures FirstFailure(fails, UnitCalls(action, lines, only)) == FirstFailure(fails, UnitCalls(action, lines[..k], only))
    decreases |lines|
  {
    if k == |lines| {
      assert lines[..k] == lines;
    } else {
      var init := lines[..|lines| - 1];
      assert init[..k] == lines[..k];
      UnitFailureStands(fails, action, init, only, k);
      FirstFailureJoins(fails, UnitCalls(action, init, only), if lines[|lines| - 1] in only then [UnitStep(action, lines[|lines| - 1])] else []);
    }
  }

  lemma {:induction false} UnitsPerformed(fails: set<Call>, action: Action, lines: seq<string>, only: set<string>, k: nat)
    requires k < |lines| && FirstFailure(fails, UnitCalls(action, lines[..k], only)).None?
    requires lines[k] in only && UnitStep(action, lines[k]) in fails
    ensures Performed(fails, UnitCalls(action, lines, only)) == UnitCalls(action, lines[..k], only)
    decreases |lines|
  {
    var init, last := lines[..|lines| - 1], lines[|lines| - 1];
    var end := if last in only then [UnitStep(action, last)] else [];
    assert lines[..k] == init[..k];
    PerformedJoins(fails, UnitCalls(action, init, only), end);
    if k == |init| {
      assert end[..0] == [] && Performed(fails, end) == [];
    } else {
      NextUnitCall(fails, action, init, only, k);
      UnitFailureStands(fails, action, init, only, k + 1);
      UnitsPerformed(fails, action, init, only, k);
    }
  }

  /** What is performed of the starts when a unit, or the probe after it, fails. */
  lemma {:induction false} StartsPerformed(fails: set<Call>, lines: seq<string>, k: nat)
    requires k < |lines| && FirstFailure(fails, StartCalls(lines[..k])).None?
    requires UnitStep(Start, lines[k]) in fails || StartProbe(lines[k]) in fails
    ensures Performed(fails, StartCalls(lines)) ==
            StartCalls(lines[..k]) + if UnitStep(Start, lines[k]) in fails then [] else [UnitStep(Start, lines[k])]
    decreases |lines|
  {
    var init, last := lines[..|lines| - 1], lines[|lines| - 1];
    var unit, probe := [UnitStep(Start, last)], [StartProbe(last)];
    assert lines[..k] == init[..k] && StartCalls(lines) == StartCalls(init) + (unit + probe);
    hide Performed, FirstFailure, StartCalls;
    PerformedJoins(fails, StartCalls(init), unit + probe);
    if k == |init| {
      assert init[..k] == init;
      PerformedJoins(fails, unit, probe);
      OneCall(fails, UnitStep(Start, last));
      OneCall(fails, StartProbe(last));
    } else {
      NextStartCall(fails, init, k);
      StartFailureStands(fails, init, k + 1);
      StartsPerformed(fails, init, k);
    }
  }

  lemma {:induction false} StartFailureStands(fails: set<Call>, lines: seq<string>, k: nat)
    requires k <= |lines| && FirstFailure(fails, StartCalls(lines[..k])).Some?
    ensures FirstFailure(fails, StartCalls(lines)) == FirstFailure(fails, StartCalls(lines[..k]))
    decreases |lines|
  {
    if k == |lines| {
      assert lines[..k] == lines;
    } else {
      var init := lines[..|lines| - 1];
      assert init[..k] == lines[..k];
      StartFailureStands(fails, init, k);
      FirstFailureJoins(fails, StartCalls(init), [UnitStep(Start, lines[|lines| - 1]), StartProbe(lines[|lines| - 1])]);
    }
  }

  /** One more line of a loop whose earlier lines all worked. */
  lemma NextUnitCall(fails: set<Call>, action: Action, lines: seq<string>, only: set<string>, i: nat)
    requires i < |lines| && FirstFailure(fails, UnitCalls(action, lines[..i], only)).None?
    ensures FirstFailure(fails, UnitCalls(action, lines[..i + 1], only)) ==
            if lines[i] in only && UnitStep(action, lines[i]) in fails then Some(UnitStep(action, lines[i])) else None
  {
    assert lines[..i + 1][..i] == lines[..i];
    FirstFailureJoins(fails, UnitCalls(action, lines[..i], only), if lines[i] in only then [UnitStep(action, lines[i])] else []);
  }

  lemma NextStartCall(fails: set<Call>, lines: seq<string>, i: nat)
    requires i < |lines| && FirstFailure(fails, StartCalls(lines[..i])).None?
    ensures FirstFailure(fails, StartCalls(lines[..i + 1])) ==
            if UnitStep(Start, lines[i]) in fails then Some(UnitStep(Start, lines[i]))
            else if StartProbe(lines[i]) in fails then Some(StartProbe(lines[i])) else None
  {
    assert lines[..i + 1][..i] == lines[..i];
    var last := [UnitStep(Start, lines[i]), StartProbe(lines[i])];
    assert last == [last[0]] + [last[1]];
    FirstFailureJoins(fails, [last[0]], [last[1]]);
    FirstFailureJoins(fails, StartCalls(lines[..i]), last);
  }

  lemma UnitCallsExtend(action: Action, lines: seq<string>, only: set<string>, i: nat)
    requires i < |lines|
    ensures UnitCalls(action, lines[..i + 1], only) ==
            UnitCalls(action, lines[..i], only) + if lines[i] in only then [UnitStep(action, lines[i])] else []
  {
    assert lines[..i + 1][..i] == lines[..i];
  }

  lemma StartCallsExtend(lines: seq<string>, i: nat)
    requires i < |lines|
    ensures StartCalls(lines[..i + 1]) == StartCalls(lines[..i]) + [UnitStep(Start, lines[i]), StartProbe(lines[i])]
  {
    assert lines[..i + 1][..i] == lines[..i];
  }

  lemma NoFailureMeansAll(fails: set<Call>, calls: seq<Call>)
    ensures FirstFailure(fails, calls).None? ==> Performed(fails, calls) == calls
  {
  }

  lemma {:induction false} UnitCallsAre(action: Action, lines: seq<string>, only: set<string>, c: Call)
    requires c in UnitCalls(action, lines, only)
    ensures c.UnitStep? && c.action == action && c.line in lines && c.line in only
  {
    if c in UnitCalls(action, lines[..|lines| - 1], only) {
      UnitCallsAre(action, lines[..|lines| - 1], only, c);
    }
  }

  lemma {:induction false} StartCallsAre(lines: seq<string>, c: Call)
    requires c in StartCalls(lines)
    ensures c.StartProbe? || (c.UnitStep? && c.action.Start? && c.line in lines)
  {
    if c in StartCalls(lines[..|lines| - 1]) {
      StartCallsAre(lines[..|lines| - 1], c);
    }
  }

  lemma ElementsExtend(s: seq<string>, i: nat)
    requires i < |s|
    ensures Elements(s[..i + 1]) == Elements(s[..i]) + {s[i]}
  {
    assert s[..i + 1] == s[..i] + [s[i]];
  }

  lemma FreshLine(s: seq<string>, i: nat)
    requires Distinct(s) && i < |s|
    ensures s[i] !in Elements(s[..i]) && Elements(s[..i]) <= Elements(s)
  {
  }

  lemma ElementsAppend(s: seq<string>, l: string)
    ensures Elements(s + [l]) == Elements(s) + {l}
  {
  }

  // ---------------------------------------------------------------- what the apply promises

  predicate LineConsistent(h: HostState, p: Lines, present: set<string>, l: string) {
    if l in p.added then l !in h.active && l !in h.enabled && l !in present else l in present <==> l in h.active
  }

  predicate Consistent(h: HostState, p: Lines, present: set<string>) {
    forall l | l in p.added + p.changed + p.removed :: LineConsistent(h, p, present, l)
  }

  /** The inspection before anything is touched succeeds. */
  predicate Inspects(env: Environment, h: HostState, p: Lines, present: set<string>) {
    Consistent(h, p, present) && forall l | l in p.added + p.changed + p.removed :: Probe(l) !in env.fails
  }

  predicate Inspected(before: HostState, p: Lines) {
    Elements(p.added) !! before.active && Elements(p.added) !! before.enabled
  }

  /** The running lines a plan replaces; these are drained first. */
  function Affected(before: HostState, p: Lines): set<string> {
    Elements(p.changed + p.removed) * before.active
  }

  predicate DrainFails(env: Environment, before: HostState, p: Lines) {
    Affected(before, p) != {} && !DrainWorks(env, before.drained, Affected(before, p))
  }

  /** Every line the apply wanted to drain is drained; a line whose provider was absent then is not, and is let pass. */
  predicate AllDrained(env: Environment, before: HostState, p: Lines) {
    forall l | l in Affected(before, p) :: env.drain(l).Drains?
  }

  /** The new providers register, and each changed line that ran before is seen to hold the drain still. */
  predicate WaitWorks(env: Environment, before: HostState, p: Lines) {
    Registration !in env.fails && forall l | l in p.changed && l in before.active :: env.drain(l).Drains?
  }

  predicate ForwardWorks(env: Environment, before: HostState, p: Lines) {
    FirstFailure(env.fails, ForwardCalls(before, p)).None? && WaitWorks(env, before, p)
  }

  /** No step fails that undoes what was performed. */
  ghost predicate UndoWorks(env: Environment, before: HostState, p: Lines) {
    var performed := Performed(env.fails, ForwardCalls(before, p));
    && (forall l | UnitStep(Start, l) in performed :: UnitStep(RollbackStop, l) !in env.fails)
    && (forall l | UnitStep(Enable, l) in performed :: UnitStep(RollbackDisable, l) !in env.fails)
    && (forall l | UnitStep(Disable, l) in performed :: UnitStep(RollbackEnable, l) !in env.fails)
    && (LinkStep(SwitchLink) in performed ==> LinkStep(RollbackLink) !in env.fails)
    && (forall l | l in Affected(before, p) :: UnitStep(RollbackStart, l) !in env.fails)
  }

  ghost predicate RollbackWorks(env: Environment, before: HostState, p: Lines, attempts: nat) {
    && UndoWorks(env, before, p)
    && (Affected(before, p) != {} ==> AllDrained(env, before, p) && ResumedAgain(env, Affected(before, p), attempts))
  }

  /** Every candidate line that is drained, and that the status shows, is resumed. */
  predicate CommitWorks(env: Environment, before: HostState, p: Lines) {
    && env.statusRead
    && forall l | l in p.changed + p.added && (l in before.active || l in before.drained) && env.shows(l) :: env.resume(l).Resumes?
  }

  /** The receipt an apply ends in: which part fails first decides. */
  ghost function Outcome(env: Environment, before: HostState, p: Lines, present: set<string>, attempts: nat): ReceiptState {
    if !Inspects(env, before, p, present) then RolledBack
    else if DrainFails(env, before, p) then
      if DrainStuck(env, before.drained, Affected(before, p)) then ManualRecovery else RolledBack
    else if !ForwardWorks(env, before, p) then
      if RollbackWorks(env, before, p, attempts) then RolledBack else ManualRecovery
    else if CommitWorks(env, before, p) then Applied
    else AppliedResumeIncomplete
  }

  /** The host under an applied receipt. */
  function AppliedHost(env: Environment, before: HostState, p: Lines, candidate: string, lease: string): HostState {
    Candidate(before, p, candidate).(drained :=
      before.drained + LeaseOn(Begun(env, before.drained, Affected(before, p)), lease) - set l | l in p.changed + p.added && env.shows(l))
  }

  /** What an apply that is rolled back leaves behind of the forward step that failed: all but a stop, which is undone. */
  function LeftBehind(env: Environment, before: HostState, p: Lines, candidate: string): HostState {
    var failure := FirstFailure(env.fails, ForwardCalls(before, p));
    if failure.Some? && failure.value.UnitStep? && failure.value.action.Stop? then before
    else AfterFailure(env, before, candidate, failure)
  }

  /** The host under a rolled-back receipt. */
  function RolledBackHost(env: Environment, before: HostState, p: Lines, candidate: string, present: set<string>, lease: string): HostState {
    if !Inspects(env, before, p, present) then before
    else if DrainFails(env, before, p) then
      before.(drained := before.drained + LeaseOn(DrainLeft(env, before.drained, Affected(before, p)), lease))
    else LeftBehind(env, before, p, candidate)
  }

  /** A late effect of this failing step is undone, or changes nothing. */
  predicate UndoneWhenLate(before: HostState, candidate: string, call: Call) {
    match call
    case UnitStep(action, l) => action.Stop? || (action.Start? && l in before.active)
    case LinkStep(_) => candidate == before.link
    case _ => true
  }

  /**
   * When a rolled-back apply has put the host back, in terms of what comes in: nothing was touched; or the drain failed
   * and left no line drained; or the forward step that failed had no effect, or one that is undone.
   */
  predicate Restores(env: Environment, before: HostState, p: Lines, candidate: string, present: set<string>) {
    || !Inspects(env, before, p, present)
    || (if DrainFails(env, before, p) then DrainLeft(env, before.drained, Affected(before, p)) == {}
        else
          var failure := FirstFailure(env.fails, ForwardCalls(before, p));
          failure.Some? && failure.value in env.late ==> UndoneWhenLate(before, candidate, failure.value))
  }

  /** Rolled back means restored if and only if that holds. */
  lemma RestoresIff(env: Environment, before: HostState, p: Lines, candidate: string, present: set<string>, lease: string)
    requires forall l | l in before.drained :: before.drained[l] != lease
    ensures RolledBackHost(env, before, p, candidate, present, lease) == before <==> Restores(env, before, p, candidate, present)
  {
    var left := DrainLeft(env, before.drained, Affected(before, p));
    if Inspects(env, before, p, present) && DrainFails(env, before, p) {
      if l :| l in left {
        assert (before.drained + LeaseOn(left, lease))[l] == lease;
      } else {
        assert before.drained + LeaseOn(left, lease) == before.drained;
      }
    } else if Inspects(env, before, p, present) {
      ConsistentMeansInspected(before, p, present);
      var failure := FirstFailure(env.fails, ForwardCalls(before, p));
      if failure.Some? {
        ForwardCallsAre(before, p, failure.value);
        EffectShows(before, p, candidate, failure.value);
      }
    }
  }

  /** Every forward call would change the host it begins on, except a switch to the same target and starts of running units. */
  lemma EffectShows(before: HostState, p: Lines, candidate: string, c: Call)
    requires Inspected(before, p) && FitsPlan(before, p, c)
    ensures (c.UnitStep? && c.action.Stop?) || (Effect(before, candidate, c) == before <==> UndoneWhenLate(before, candidate, c))
  {
    if c.UnitStep? {
      var l := c.line;
      if c.action.Disable? {
        assert l !in Effect(before, candidate, c).enabled;
      } else if c.action.Enable? {
        assert l in Effect(before, candidate, c).enabled && l in Elements(p.added);
      } else if c.action.Start? {
        assert l in Effect(before, candidate, c).active;
        assert l in before.active ==> before.active + {l} == before.active;
      }
    }
  }

  /** What the forward phase does to which lines. */
  predicate FitsPlan(before: HostState, p: Lines, c: Call) {
    match c
    case UnitStep(action, l) =>
      || (action.Stop? && l in p.changed + p.removed && l in before.active)
      || (action.Disable? && l in p.removed && l in before.enabled)
      || (action.Enable? && l in p.added)
      || (action.Start? && l in p.changed + p.added)
    case LinkStep(action) => action.SwitchLink?
    case StartProbe(_) => true
    case _ => false
  }

  lemma ForwardCallsAre(before: HostState, p: Lines, c: Call)
    requires c in ForwardCalls(before, p)
    ensures FitsPlan(before, p, c)
  {
    if c in UnitCalls(Stop, p.changed + p.removed, before.active) {
      UnitCallsAre(Stop, p.changed + p.removed, before.active, c);
    } else if c in UnitCalls(Disable, p.removed, before.enabled) {
      UnitCallsAre(Disable, p.removed, before.enabled, c);
    } else if c in UnitCalls(Enable, p.added, Elements(p.added)) {
      UnitCallsAre(Enable, p.added, Elements(p.added), c);
    } else if c in StartCalls(p.changed + p.added) {
      StartCallsAre(p.changed + p.added, c);
    }
  }

  lemma ConsistentMeansInspected(h: HostState, p: Lines, present: set<string>)
    requires Consistent(h, p, present)
    ensures Inspected(h, p)
  {
    forall l | l in Elements(p.added) ensures l !in h.active && l !in h.enabled {
      assert l in p.added + p.changed + p.removed;
    }
  }

  class Deployment {
    var active: set<string>
    var enabled: set<string>
    var link: string
    var drained: map<string, string>
    const journal: Journal
    const lease: string
    const env: Environment

    function Host(): HostState
      reads this
    {
      HostState(active, enabled, link, drained)
    }

    constructor (host: HostState, lease: string, env: Environment)
      ensures Host() == host && this.lease == lease && this.env == env
      ensures fresh(journal) && journal.receipt == Receipt(Prepared, [])
    {
      active, enabled, link, drained := host.active, host.enabled, host.link, host.drained;
      this.lease, this.env := lease, env;
      journal := new Journal();
    }

    /** The receipt is open and every step in it is settled. */
    ghost predicate Running()
      reads journal
    {
      NothingPending(journal.receipt) && !Closed(journal.receipt.state)
    }

    // ------------------------------------------------------------ single steps

    /** One systemctl step; one that reports failure may have taken effect. */
    method RunUnitStep(action: Action, line: string) returns (ok: bool)
      requires Running() && line != "" && UnitAction(action)
      modifies this`active, this`enabled, journal
      ensures Running()
      ensures ok <==> UnitStep(action, line) !in env.fails
      ensures journal.receipt.steps == old(journal.receipt.steps) + [Step(action, line, if ok then Succeeded else Failed)]
      ensures Host() == if ok || UnitStep(action, line) in env.late then UnitsEffect(old(Host()), action, {line}) else old(Host())
    {
      var index := journal.Before(action, line);
      ok := UnitStep(action, line) !in env.fails;
      if ok || UnitStep(action, line) in env.late {
        if action.Stop? || action.RollbackStop? {
          active := active - {line};
        } else if action.Start? || action.RollbackStart? {
          active := active + {line};
        } else if action.Disable? || action.RollbackDisable? {
          enabled := enabled - {line};
        } else {
          enabled := enabled + {line};
        }
      }
      var _ := journal.Settle(index.value, ok);
    }

    /** SwitchLink or RemoveLink; a failure may come after the rename. */
    method RunLinkStep(action: Action, target: string) returns (ok: bool)
      requires Running() && (action.SwitchLink? || action.RollbackLink?)
      modifies this`link, journal
      ensures Running()
      ensures ok <==> LinkStep(action) !in env.fails
      ensures link == if ok || LinkStep(action) in env.late then target else old(link)
    {
      var index := journal.Before(action, if target == "" then "<absent>" else target);
      ok := LinkStep(action) !in env.fails;
      if ok || LinkStep(action) in env.late {
        link := target;
      }
      var _ := journal.Settle(index.value, ok);
    }

    // ------------------------------------------------------------ sequences of unit steps

    /** A forward loop over the lines that qualify: it stops at the first failure and returns what it did. */
    method ForwardEach(action: Action, lines: seq<string>, only: set<string>, ghost candidate: string)
      returns (ok: bool, done: seq<string>, ghost clean: HostState)
      requires Running() && UnitAction(action) && "" !in lines && Distinct(lines)
      modifies this`active, this`enabled, journal
      ensures Running()
      ensures var failure := FirstFailure(env.fails, UnitCalls(action, lines, only));
              && (ok <==> failure.None?)
              && Host() == AfterFailure(env, clean, candidate, failure)
              && (failure.Some? ==> failure.value.UnitStep? && failure.value.action == action && failure.value.line in lines
                                    && failure.value.line in only && failure.value.line !in Elements(done))
      ensures Elements(done) <= Elements(lines) * only
      ensures forall l :: l in Elements(done) <==> UnitStep(action, l) in Performed(env.fails, UnitCalls(action, lines, only))
      ensures clean == UnitsEffect(old(Host()), action, Elements(done))
      ensures ok ==> Elements(done) == Elements(lines) * only
    {
      assert lines[..0] == [];
      assert UnitCalls(action, [], only) == [] && FirstFailure(env.fails, []).None?;
      NoFailureMeansAll(env.fails, UnitCalls(action, lines, only));
      UnitsEffectOfNone(Host(), action);
      assert Elements([]) == {} == Elements([]) * only;
      hide UnitCalls, FirstFailure, Performed, UnitsEffect, Effect, Elements, Distinct;
      done, clean := [], Host();
      for i := 0 to |lines|
        invariant Running()
        invariant FirstFailure(env.fails, UnitCalls(action, lines[..i], only)).None?
        invariant Elements(done) == Elements(lines[..i]) * only
        invariant forall l :: l in Elements(done) <==> UnitStep(action, l) in UnitCalls(action, lines[..i], only)
        invariant Host() == clean == UnitsEffect(old(Host()), action, Elements(done))
      {
        ElementsExtend(lines, i);
        FreshLine(lines, i);
        NextUnitCall(env.fails, action, lines, only, i);
        UnitCallsExtend(action, lines, only, i);
        if lines[i] in only {
          ok := RunUnitStep(action, lines[i]);
          if !ok {
            UnitsPerformed(env.fails, action, lines, only, i);
            UnitFailureStands(env.fails, action, lines, only, i + 1);
            UnitStepEffect(clean, candidate, action, lines[i]);
            return;
          }
          ElementsAppend(done, lines[i]);
          UnitsEffectAppends(old(Host()), action, Elements(done), lines[i]);
          done, clean := done + [lines[i]], Host();
        }
      }
      assert lines[..|lines|] == lines;
      ok := true;
    }

    /** Starting the candidate's units; each must then be active, and is undone even when only that probe fails. */
    method StartEach(lines: seq<string>, ghost candidate: string) returns (ok: bool, started: seq<string>, ghost clean: HostState)
      requires Running() && "" !in lines && Distinct(lines)
      modifies this`active, this`enabled, journal
      ensures Running()
      ensures var failure := FirstFailure(env.fails, StartCalls(lines));
              && (ok <==> failure.None?)
              && Host() == AfterFailure(env, clean, candidate, failure)
              && (failure.Some? ==> failure.value.StartProbe? || (failure.value.UnitStep? && failure.value.action.Start?
                                    && failure.value.line in lines && failure.value.line !in Elements(started)))
      ensures Elements(started) <= Elements(lines)
      ensures forall l :: l in Elements(started) <==> UnitStep(Start, l) in Performed(env.fails, StartCalls(lines))
      ensures clean == UnitsEffect(old(Host()), Start, Elements(started))
      ensures ok ==> Elements(started) == Elements(lines)
    {
      assert lines[..0] == [];
      assert StartCalls([]) == [] && FirstFailure(env.fails, []).None?;
      NoFailureMeansAll(env.fails, StartCalls(lines));
      UnitsEffectOfNone(Host(), Start);
      assert Elements([]) == {};
      hide StartCalls, FirstFailure, Performed, UnitsEffect, Effect, Elements, Distinct;
      started, clean := [], Host();
      for i := 0 to |lines|
        invariant Running()
        invariant FirstFailure(env.fails, StartCalls(lines[..i])).None?
        invariant Elements(started) == Elements(lines[..i])
        invariant forall l :: l in Elements(started) <==> UnitStep(Start, l) in StartCalls(lines[..i])
        invariant Host() == clean == UnitsEffect(old(Host()), Start, Elements(started))
      {
        ElementsExtend(lines, i);
        FreshLine(lines, i);
        NextStartCall(env.fails, lines, i);
        StartCallsExtend(lines, i);
        if UnitStep(Start, lines[i]) in env.fails || StartProbe(lines[i]) in env.fails {
          StartsPerformed(env.fails, lines, i);
        }
        ok := RunUnitStep(Start, lines[i]);
        if !ok {
          StartFailureStands(env.fails, lines, i + 1);
          UnitStepEffect(clean, candidate, Start, lines[i]);
          return;
        }
        ElementsAppend(started, lines[i]);
        UnitsEffectAppends(old(Host()), Start, Elements(started), lines[i]);
        started, clean := started + [lines[i]], Host();
        if StartProbe(lines[i]) in env.fails {
          StartFailureStands(env.fails, lines, i + 1);
          return false, started, clean;
        }
      }
      assert lines[..|lines|] == lines;
      ok := true;
    }

    /** A compensating loop: it attempts every line and reports whether all succeeded. */
    method UndoEach(action: Action, lines: seq<string>, only: set<string>) returns (ok: bool)
      requires Running() && UnitAction(action) && "" !in lines
      modifies this`active, this`enabled, journal
      ensures Running()
      ensures ok <==> forall l | l in lines && l in only :: UnitStep(action, l) !in env.fails
      ensures ok ==> Host() == UnitsEffect(old(Host()), action, Elements(lines) * only)
      ensures !ok ==> (link, drained) == (old(link), old(drained))
    {
      UnitsEffectOfNone(Host(), action);
      assert Elements(lines[..0]) * only == {};
      hide UnitsEffect;
      ok := true;
      for i := 0 to |lines|
        invariant Running()
        invariant ok <==> forall l | l in lines[..i] && l in only :: UnitStep(action, l) !in env.fails
        invariant ok ==> Host() == UnitsEffect(old(Host()), action, Elements(lines[..i]) * only)
        invariant !ok ==> (link, drained) == (old(link), old(drained))
      {
        ElementsExtend(lines, i);
        assert forall l :: l in lines[..i + 1] <==> l in lines[..i] || l == lines[i];
        if lines[i] in only {
          UnitsEffectAppends(old(Host()), action, Elements(lines[..i]) * only, lines[i]);
          assert Elements(lines[..i + 1]) * only == Elements(lines[..i]) * only + {lines[i]};
          var done := RunUnitStep(action, lines[i]);
          ok := ok && done;
        } else {
          assert Elements(lines[..i + 1]) * only == Elements(lines[..i]) * only;
        }
      }
      assert lines[..|lines|] == lines;
    }

    // ------------------------------------------------------------ drains

    /** One worker of a drain request: what the provider of the line does, and the code of its answer. */
    method BeginDrainLine(line: string) returns (code: DrainCode)
      modifies this`drained
      ensures code == CodeOf(env, old(drained), line)
      ensures drained == if TakesDrain(env, old(drained), line) then old(drained)[line := lease] else old(drained)
    {
      match env.drain(line) {
        case Drains =>
          if line in drained {
            return Other;
          }
          drained := drained[line := lease];
          code := DrainedLine;
        case DrainsUnnoticed =>
          if line !in drained {
            drained := drained[line := lease];
          }
          code := Other;
        case Refuses =>
          code := Other;
        case IsAbsent =>
          code := Absent;
      }
    }

    /** The workers of a drain request, one per line. */
    method DrainWorkers(lines: seq<string>) returns (failed: bool, begun: set<string>)
      requires Distinct(lines)
      modifies this`drained
      ensures begun == Begun(env, old(drained), Elements(lines))
      ensures drained == LeasesAfter(env, old(drained), Elements(lines), lease)
      ensures failed <==> SomeRefuses(env, old(drained), Elements(lines))
    {
      failed, begun := false, {};
      ghost var d, done := drained, {};
      NoDrains(env, d, lease);
      assert lines[..0] == [] && Elements([]) == {};
      hide *;
      for i := 0 to |lines|
        invariant done == Elements(lines[..i]) && begun == Begun(env, d, done) && (failed <==> SomeRefuses(env, d, done))
        invariant drained == LeasesAfter(env, d, done, lease)
      {
        ElementsExtend(lines, i);
        FreshLine(lines, i);
        NextDrain(env, d, done, lines[i], lease);
        done := done + {lines[i]};
        var code := BeginDrainLine(lines[i]);
        if code.DrainedLine? {
          begun := begun + {lines[i]};
        }
        if !code.DrainedLine? && !code.Absent? {
          failed := true;
        }
      }
      assert lines[..|lines|] == lines;
    }

    /** releasePartialDrain: the lines Core knows to be drained; a release may fail, and may fail after taking effect. */
    method ReleasePartial(begun: set<string>) returns (released: bool)
      modifies this`drained
      ensures released <==> !exists l :: l in begun && !env.release(l).Releases?
      ensures drained == old(drained) - set l | l in begun && !env.release(l).Keeps?
    {
      released := true;
      var remaining := begun;
      while remaining != {}
        invariant remaining <= begun
        invariant released <==> !exists l :: l in begun - remaining && !env.release(l).Releases?
        invariant drained == old(drained) - set l | l in begun - remaining && !env.release(l).Keeps?
      {
        var line :| line in remaining;
        remaining := remaining - {line};
        assert begun - remaining == (begun - (remaining + {line})) + {line};
        if !env.release(line).Keeps? {
          drained := drained - {line};
        }
        if !env.release(line).Releases? {
          released := false;
        }
      }
      assert begun - {} == begun;
    }

    /** Core's side of a drain request: it drains every line, or releases again what it knows to be drained. */
    method Maintenance(lines: seq<string>) returns (failed: bool, stuck: bool)
      requires Distinct(lines) && !env.rejected
      modifies this`drained
      ensures failed <==> CoreFails(env, old(drained), Elements(lines))
      ensures stuck <==> failed && exists l :: l in Begun(env, old(drained), Elements(lines)) && !env.release(l).Releases?
      ensures drained == old(drained) + LeaseOn(DrainLeft(env, old(drained), Elements(lines)), lease)
    {
      hide Begun, Unnoticed, LeaseOn, CodeOf;
      var begun;
      failed, begun := DrainWorkers(lines);
      failed, stuck := failed || env.catalogMoved, false;
      if failed {
        PartlyReleased(env, old(drained), Elements(lines), lease);
        var released := ReleasePartial(begun);
        stuck := !released;
      } else {
        DrainWorksMeansBegun(env, old(drained), Elements(lines));
        assert begun + Unnoticed(env, old(drained), Elements(lines)) == begun;
      }
    }

    /** A drain request as the apply sees it: an answer that does not arrive is a failure, and never one to recover from by hand. */
    method DrainAll(lines: seq<string>) returns (ok: bool, manual: bool)
      requires Running() && Distinct(lines) && lines != [] && "" !in lines
      modifies this`drained, journal
      ensures Running()
      ensures ok <==> DrainWorks(env, old(drained), Elements(lines))
      ensures manual <==> DrainStuck(env, old(drained), Elements(lines))
      ensures drained == old(drained) + LeaseOn(DrainLeft(env, old(drained), Elements(lines)), lease)
    {
      var index := journal.Before(Drain, JoinLines(lines));
      manual := false;
      NoDrains(env, drained, lease);
      hide Begun, Unnoticed, LeaseOn, CodeOf, CoreFails, JoinLines, Elements;
      if env.rejected {
        ok := false;
      } else {
        var failed, stuck := Maintenance(lines);
        ok := !failed && !env.answerLost;
        manual := stuck && !env.answerLost;
      }
      var _ := journal.Settle(index.value, ok);
    }

    /** A resume request: each provider resumes or not; the request is a success if all report it and the answer is heard. */
    method ResumeAll(lines: seq<string>, held: string, answer: string -> ResumeAnswer, heard: bool) returns (ok: bool)
      requires Distinct(lines)
      modifies this`drained
      ensures ok <==> heard && AllResume(old(drained), Elements(lines), held, answer)
      ensures drained == Undrained(old(drained), Elements(lines), held, answer)
    {
      ok := heard;
      ghost var d := drained;
      assert Elements(lines[..0]) == {} && Undrained(d, {}, held, answer) == d;
      hide AllResume, Undrained, Elements, Distinct;
      for i := 0 to |lines|
        invariant ok <==> heard && AllResume(d, Elements(lines[..i]), held, answer)
        invariant drained == Undrained(d, Elements(lines[..i]), held, answer)
      {
        ElementsExtend(lines, i);
        FreshLine(lines, i);
        NextResume(d, Elements(lines[..i]), lines[i], held, answer);
        if lines[i] in drained && drained[lines[i]] == held {
          if !answer(lines[i]).Stays? {
            drained := drained - {lines[i]};
          }
          ok := ok && answer(lines[i]).Resumes?;
        } else {
          ok := false;
        }
      }
      assert lines[..|lines|] == lines;
    }

    /** The rollback's resume loop: retried until it succeeds or its deadline passes. */
    method ResumeUntilDeadline(lines: seq<string>, attempts: nat) returns (ok: bool)
      requires Distinct(lines) && lines != []
      modifies this`drained
      ensures ok <==> (forall l | l in Elements(lines) :: Held(old(drained), l, lease)) && ResumedAgain(env, Elements(lines), attempts)
      ensures ok ==> drained == old(drained) - Elements(lines)
    {
      ghost var all, d := Elements(lines), drained;
      assert lines[0] in all;
      hide AllResume, Undrained, Held, Elements, Distinct;
      for k := 0 to attempts + 1
        invariant Undisturbed(env, all, k) ==> drained == d
        invariant !Undisturbed(env, all, k) ==> exists l :: l in all && !Held(drained, l, lease)
        invariant (forall l | l in all :: Held(d, l, lease)) ==> forall j | 0 <= j < k :: !Success(env, all, j)
      {
        ghost var before := drained;
        ok := ResumeAll(lines, lease, l => env.again(k, l), env.heard(k));
        AttemptDecides(env, all, before, d, lease, k);
        if ok {
          return;
        }
      }
      assert ResumedAgain(env, all, attempts) ==> exists j | 0 <= j <= attempts :: Success(env, all, j);
      ok := false;
    }

    // ------------------------------------------------------------ compensation and commit

    method ActiveLines(lines: seq<string>, units: set<string>) returns (r: seq<string>)
      ensures Elements(r) == Elements(lines) * units
      ensures Distinct(lines) ==> Distinct(r)
    {
      r := [];
      for i := 0 to |lines|
        invariant Elements(r) == Elements(lines[..i]) * units
        invariant Distinct(lines) ==> Distinct(r)
      {
        ElementsExtend(lines, i);
        if lines[i] in units {
          assert Distinct(lines) ==> lines[i] !in Elements(lines[..i]);
          ElementsAppend(r, lines[i]);
          r := r + [lines[i]];
        }
      }
      assert lines[..|lines|] == lines;
    }

    /** The part of the rollback that undoes what the candidate had gained, newest first. */
    method UndoCandidate(before: HostState, p: Lines, done: Progress) returns (ok: bool)
      requires Running() && WellFormed(p) && Elements(done.started) + Elements(done.enabled) <= LinesOf(p)
      modifies this`active, this`enabled, this`link, journal
      ensures Running()
      ensures ok <==>
                && (forall l | l in Elements(done.started) :: UnitStep(RollbackStop, l) !in env.fails)
                && (forall l | l in Elements(done.enabled) :: UnitStep(RollbackDisable, l) !in env.fails)
                && (done.switched ==> LinkStep(RollbackLink) !in env.fails)
      ensures ok ==> active == old(active) - Elements(done.started)
      ensures ok ==> enabled == old(enabled) - Elements(done.enabled) && link == if done.switched then before.link else old(link)
    {
      ReverseKeepsElements(done.started);
      ReverseKeepsElements(done.enabled);
      NoBlankLines(Reverse(done.started), p);
      NoBlankLines(Reverse(done.enabled), p);
      assert forall l :: l in Reverse(done.started) <==> l in Elements(Reverse(done.started));
      assert forall l :: l in Reverse(done.enabled) <==> l in Elements(Reverse(done.enabled));
      ok := UndoEach(RollbackStop, Reverse(done.started), Elements(done.started));
      var step := UndoEach(RollbackDisable, Reverse(done.enabled), Elements(done.enabled));
      ok := ok && step;
      if done.switched {
        step := RunLinkStep(RollbackLink, before.link);
        ok := ok && step;
      }
    }

    /** The part that brings back what the previous release had: enablement of removed units, activity of replaced ones. */
    method RestorePrevious(before: HostState, p: Lines, done: Progress) returns (ok: bool)
      requires Running() && WellFormed(p) && Elements(done.disabled) <= LinesOf(p)
      modifies this`active, this`enabled, journal
      ensures Running()
      ensures ok <==>
                && (forall l | l in Elements(done.disabled) :: UnitStep(RollbackEnable, l) !in env.fails)
                && (forall l | l in Affected(before, p) :: UnitStep(RollbackStart, l) !in env.fails)
      ensures ok ==> active == old(active) + Elements(p.changed + p.removed) * before.active
      ensures ok ==> enabled == old(enabled) + Elements(done.disabled)
    {
      NoBlankLines(done.disabled, p);
      ok := UndoEach(RollbackEnable, done.disabled, Elements(done.disabled));
      var step := UndoEach(RollbackStart, p.changed + p.removed, before.active);
      ok := ok && step;
    }

    /** rollbackBeforeCommit. */
    method RollbackBeforeCommit(before: HostState, p: Lines, done: Progress, attempts: nat) returns (ok: bool)
      requires Running() && WellFormed(p) && Elements(done.started) + Elements(done.enabled) + Elements(done.disabled) <= LinesOf(p)
      modifies this`active, this`enabled, this`link, this`drained, journal
      ensures Running()
      ensures ok <==>
                && UndoneWorks(env, before, p, done)
                && (Affected(before, p) != {} ==>
                      (forall l | l in Affected(before, p) :: Held(old(drained), l, lease)) && ResumedAgain(env, Affected(before, p), attempts))
      ensures ok ==> Host() == Compensated(old(Host()), before, p, done)
      ensures ok ==> forall l | l in Affected(before, p) && l in old(drained) :: old(drained)[l] == lease
    {
      ok := UndoCandidate(before, p, done);
      var step := RestorePrevious(before, p, done);
      ok := ok && step;
      Combined(p.changed, p.removed);
      var restarted := ActiveLines(p.changed + p.removed, before.active);
      hide ResumedAgain;
      if |restarted| != 0 && ok {
        assert restarted[0] in Elements(restarted);
        ok := ResumeUntilDeadline(restarted, attempts);
      }
      assert |restarted| != 0 ==> restarted[0] in Elements(restarted);
      assert |restarted| == 0 ==> Elements(restarted) == {};
    }

    /** waitForCandidate: the new providers register before the deadline, and the drained ones still hold the drain. */
    method WaitForCandidate(lines: seq<string>, affected: set<string>) returns (ok: bool)
      ensures ok <==> Registration !in env.fails && forall l | l in lines && l in affected :: Held(drained, l, lease)
    {
      ok := Registration !in env.fails;
      for i := 0 to |lines|
        invariant ok <==> Registration !in env.fails && forall l | l in lines[..i] && l in affected :: Held(drained, l, lease)
      {
        assert forall l :: l in lines[..i + 1] <==> l in lines[..i] || l == lines[i];
        ok := ok && (lines[i] in affected ==> lines[i] in drained && drained[lines[i]] == lease);
      }
      assert lines[..|lines|] == lines;
    }

    /** The request for one line, under the lease it is drained by. */
    method ResumeLine(line: string, held: string) returns (ok: bool)
      requires Running() && line != "" && Held(drained, line, held)
      modifies this`drained, journal
      ensures Running()
      ensures ok <==> env.resume(line).Resumes?
      ensures ok ==> drained == old(drained) - {line}
    {
      OneResumes(drained, line, held, env.resume);
      var index := journal.Before(Resume, line);
      ok := ResumeAll([line], held, env.resume, true);
      var _ := journal.Settle(index.value, ok);
    }

    /** resumeCandidate: each candidate line the status shows as drained is resumed under the lease it is drained by. */
    method ResumeCandidate(lines: seq<string>, affected: set<string>) returns (ok: bool)
      requires Running() && Distinct(lines) && "" !in lines
      modifies this`drained, journal
      ensures Running()
      ensures ok <==> env.statusRead && forall l | l in Elements(lines) && l in old(drained) && env.shows(l) ::
                        (l in affected ==> old(drained)[l] == lease) && env.resume(l).Resumes?
      ensures ok ==> drained == old(drained) - set l | l in lines && env.shows(l)
    {
      if !env.statusRead {
        return false;
      }
      var statuses := map l | l in drained && env.shows(l) :: drained[l];
      ghost var d := drained;
      for i := 0 to |lines|
        invariant Running()
        invariant drained == d - set l | l in lines[..i] && env.shows(l)
        invariant forall l | l in Elements(lines[..i]) && l in statuses :: (l in affected ==> statuses[l] == lease) && env.resume(l).Resumes?
      {
        ElementsExtend(lines, i);
        FreshLine(lines, i);
        ResumingOne(d, lines, i, env.shows);
        if lines[i] in statuses {
          assert lines[i] in Elements(lines) && drained[lines[i]] == d[lines[i]];
          if lines[i] in affected && statuses[lines[i]] != lease {
            return false;
          }
          ok := ResumeLine(lines[i], statuses[lines[i]]);
          if !ok {
            return;
          }
        }
      }
      assert lines[..|lines|] == lines;
      ok := true;
    }

    method Finish(state: ReceiptState) returns (r: ReceiptState)
      requires Running() && Closed(state)
      modifies journal
      ensures r == state == journal.receipt.state && NothingPending(journal.receipt)
    {
      var _ := journal.Finish(state);
      r := state;
    }

    /** After a failed forward phase, whose failing step may have left the clean host it began on. */
    method RollbackAndFinish(before: HostState, p: Lines, candidate: string, done: Progress, ghost clean: HostState, attempts: nat)
      returns (state: ReceiptState)
      requires Running() && WellFormed(p) && Inspected(before, p) && !DrainFails(env, before, p)
      requires Elements(done.started) + Elements(done.enabled) + Elements(done.disabled) <= LinesOf(p)
      requires Undoable(clean, before, p, done, lease) && Recorded(done, Performed(env.fails, ForwardCalls(before, p)))
      requires var failure := FirstFailure(env.fails, ForwardCalls(before, p));
               Host() == AfterFailure(env, clean, candidate, failure) && (failure.Some? ==> Undone(before, p, done, failure.value))
      requires forall l | l in Affected(before, p) :: Held(drained, l, lease) <==> env.drain(l).Drains?
      modifies this, journal
      ensures NothingPending(journal.receipt) && journal.receipt.state == state
      ensures state == if RollbackWorks(env, before, p, attempts) then RolledBack else ManualRecovery
      ensures state.RolledBack? ==> Host() == LeftBehind(env, before, p, candidate)
    {
      hide Performed, ForwardCalls, FirstFailure, ResumedAgain;
      var ok := RollbackBeforeCommit(before, p, done, attempts);
      if !ok {
        state := Finish(ManualRecovery);
      } else {
        AfterFailureKeepsDrains(env, clean, candidate, FirstFailure(env.fails, ForwardCalls(before, p)));
        CompensationRestores(env, clean, before, p, candidate, done, lease);
        state := Finish(RolledBack);
      }
    }

    // ------------------------------------------------------------ the transaction

    /** waitForCandidate will find what it waits for. */
    ghost predicate WaitHolds(p: Lines, affected: set<string>)
      reads this
    {
      Registration !in env.fails && forall l | l in p.changed + p.added && l in affected :: Held(drained, l, lease)
    }

    /** Everything between the drain and the commit: stop, disable, switch, enable, start, wait. */
    method ForwardPhase(before: HostState, p: Lines, candidate: string, affected: set<string>, ghost begun: set<string>)
      returns (ok: bool, done: Progress, ghost clean: HostState)
      requires Running() && WellFormed(p) && Inspected(before, p)
      requires begun <= Affected(before, p) && begun !! before.drained.Keys
      requires forall l | l in before.drained :: before.drained[l] != lease
      requires Host() == before.(drained := before.drained + LeaseOn(begun, lease))
      modifies this`active, this`enabled, this`link, journal
      ensures Running()
      ensures Undoable(clean, before, p, done, lease)
      ensures Elements(done.started) + Elements(done.enabled) + Elements(done.disabled) <= LinesOf(p)
      ensures Recorded(done, Performed(env.fails, ForwardCalls(before, p)))
      ensures ok <==> FirstFailure(env.fails, ForwardCalls(before, p)).None? && WaitHolds(p, affected)
      ensures var failure := FirstFailure(env.fails, ForwardCalls(before, p));
              && Host() == AfterFailure(env, clean, candidate, failure) && (failure.Some? ==> !ok && Undone(before, p, done, failure.value))
      ensures ok ==> Host() == Candidate(before, p, candidate).(drained := old(drained))
    {
      var replaced := p.changed + p.removed;
      Combined(p.changed, p.removed);
      FailurePassesOn(env.fails, before, p);
      ForwardRecords(env.fails, before, p);
      hide FirstFailure, Performed, UnitCalls, ForwardCalls, CandidateCalls, Undoable, LeaseOn;
      done := Progress([], [], [], false);
      var stopped;
      ok, stopped, clean := ForwardEach(Stop, replaced, before.active, candidate);
      StoppedIsUndoable(clean, before, p, stopped, [], begun, lease);
      if !ok {
        return;
      }
      var disabled;
      ok, disabled, clean := ForwardEach(Disable, p.removed, before.enabled, candidate);
      StoppedIsUndoable(clean, before, p, stopped, disabled, begun, lease);
      done := done.(disabled := disabled);
      if !ok {
        return;
      }
      clean := Host();
      ok := RunLinkStep(SwitchLink, candidate);
      if !ok {
        return;
      }
      done := done.(switched := true);
      ok, done, clean := CandidatePhase(before, p, candidate, affected, begun, done);
    }

    method CandidatePhase(before: HostState, p: Lines, candidate: string, affected: set<string>, ghost begun: set<string>, switched: Progress)
      returns (ok: bool, done: Progress, ghost clean: HostState)
      requires Running() && WellFormed(p) && Inspected(before, p)
      requires begun <= Affected(before, p) && begun !! before.drained.Keys
      requires forall l | l in before.drained :: before.drained[l] != lease
      requires switched.started == switched.enabled == [] && switched.switched
      requires Elements(switched.disabled) == Elements(p.removed) * before.enabled
      requires Host() == HostState(before.active - Elements(p.changed + p.removed), before.enabled - Elements(p.removed), candidate,
                                   before.drained + LeaseOn(begun, lease))
      modifies this`active, this`enabled, journal
      ensures Running() && done.switched
      ensures Undoable(clean, before, p, done, lease)
      ensures Elements(done.started) + Elements(done.enabled) + Elements(done.disabled) <= LinesOf(p)
      ensures done.disabled == switched.disabled && RecordedCandidate(done, Performed(env.fails, CandidateCalls(p)))
      ensures ok <==> FirstFailure(env.fails, CandidateCalls(p)).None? && WaitHolds(p, affected)
      ensures var failure := FirstFailure(env.fails, CandidateCalls(p));
              && Host() == AfterFailure(env, clean, candidate, failure) && (failure.Some? ==> !ok && Undone(before, p, done, failure.value))
      ensures ok ==> Host() == Candidate(before, p, candidate).(drained := old(drained))
    {
      hide Compensated, Reverse;
      CandidateRecords(env.fails, p);
      hide UnitCalls, StartCalls, FirstFailure, Performed;
      FirstFailureJoins(env.fails, UnitCalls(Enable, p.added, Elements(p.added)), StartCalls(p.changed + p.added));
      Combined(p.changed, p.added);
      hide Undoable, LeaseOn;
      done := switched;
      var enabledAdded;
      ok, enabledAdded, clean := ForwardEach(Enable, p.added, Elements(p.added), candidate);
      done := done.(enabled := enabledAdded);
      CandidateIsUndoable(clean, before, p, done, begun, lease);
      if !ok {
        return;
      }
      var started;
      ok, started, clean := StartEach(p.changed + p.added, candidate);
      done := done.(started := started);
      CandidateIsUndoable(clean, before, p, done, begun, lease);
      if !ok {
        return;
      }
      ok := WaitForCandidate(p.changed + p.added, affected);
    }

    /** inspectUnits: the host agrees with the plan and with the preflight snapshot. */
    method InspectUnits(p: Lines, present: set<string>) returns (ok: bool)
      ensures ok <==> Inspects(env, Host(), p, present)
    {
      var lines := p.added + p.changed + p.removed;
      for i := 0 to |lines|
        invariant forall l | l in lines[..i] :: LineConsistent(Host(), p, present, l) && Probe(l) !in env.fails
      {
        var l := lines[i];
        if Probe(l) in env.fails {
          assert l in lines;
          return false;
        }
        if l in p.added && (l in active || l in enabled || l in present) {
          assert l in lines;
          return false;
        }
        if l !in p.added && (l in present) != (l in active) {
          assert l in lines;
          return false;
        }
      }
      assert lines[..|lines|] == lines;
      ok := true;
    }

    /**
     * executeLocked. The receipt is a function of the input, and so is the host under a receipt that lets the next apply
     * begin. Rolled back means that the host is as before if and only if Restores says so.
     */
    method ExecuteLocked(p: Lines, candidate: string, present: set<string>, attempts: nat) returns (state: ReceiptState)
      requires WellFormed(p) && candidate != ""
      requires journal.receipt == Receipt(Prepared, [])
      requires forall l | l in drained :: drained[l] != lease
      modifies this, journal
      ensures journal.receipt.state == state && Closed(state) && NothingPending(journal.receipt)
      ensures ReceiptSettled(journal.receipt) <==> state.Applied? || state.RolledBack?
      ensures state == Outcome(env, old(Host()), p, present, attempts)
      ensures state.Applied? ==> Host() == AppliedHost(env, old(Host()), p, candidate, lease)
      ensures state.AppliedResumeIncomplete? ==> UnitsOf(Host()) == UnitsOf(Candidate(old(Host()), p, candidate))
      ensures state.RolledBack? ==> Host() == RolledBackHost(env, old(Host()), p, candidate, present, lease)
      ensures state.RolledBack? ==> (Host() == old(Host()) <==> Restores(env, old(Host()), p, candidate, present))
    {
      var before := Host();
      RestoresIff(env, before, p, candidate, present, lease);
      hide Restores, ForwardWorks, RollbackWorks, CommitWorks, LeftBehind, ForwardCalls, FirstFailure, AppliedHost;
      var inspected := InspectUnits(p, present);
      if !inspected {
        state := Finish(RolledBack);
        return;
      }
      ConsistentMeansInspected(before, p, present);
      hide Inspects, Consistent, DrainLeft, DrainWorks, DrainStuck;
      Combined(p.changed, p.removed);
      Combined(p.changed, p.added);
      var affected := ActiveLines(p.changed + p.removed, before.active);
      NoDrains(env, drained, lease);
      hide LeaseOn, Begun;
      if |affected| != 0 {
        NoBlankLines(affected, p);
        assert affected[0] in Affected(before, p);
        var ok, manual := DrainAll(affected);
        if !ok {
          state := Finish(if manual then ManualRecovery else RolledBack);
          return;
        }
        DrainWorksLeavesBegun(env, before.drained, Elements(affected));
      }
      assert |affected| == 0 ==> Elements(affected) == {};
      state := Replace(before, p, candidate, Elements(affected), attempts);
    }

    /** The transaction proper, once the affected lines are drained: replace the providers, or put everything back. */
    method Replace(before: HostState, p: Lines, candidate: string, affected: set<string>, attempts: nat) returns (state: ReceiptState)
      requires Running() && WellFormed(p) && Inspected(before, p) && !DrainFails(env, before, p) && affected == Affected(before, p)
      requires forall l | l in before.drained :: before.drained[l] != lease
      requires Host() == before.(drained := before.drained + LeaseOn(Begun(env, before.drained, affected), lease))
      modifies this, journal
      ensures NothingPending(journal.receipt) && journal.receipt.state == state && Closed(state)
      ensures state == if ForwardWorks(env, before, p) then (if CommitWorks(env, before, p) then Applied else AppliedResumeIncomplete)
                       else if RollbackWorks(env, before, p, attempts) then RolledBack else ManualRecovery
      ensures state.Applied? ==> Host() == AppliedHost(env, before, p, candidate, lease)
      ensures state.AppliedResumeIncomplete? ==> UnitsOf(Host()) == UnitsOf(Candidate(before, p, candidate))
      ensures state.RolledBack? ==> Host() == LeftBehind(env, before, p, candidate)
    {
      assert Closed(RolledBack) && Closed(ManualRecovery) && Closed(Applied) && Closed(AppliedResumeIncomplete);
      hide *;
      var ok, done, clean := Advance(before, p, candidate, affected);
      if !ok {
        state := RollbackAndFinish(before, p, candidate, done, clean, attempts);
        return;
      }
      state := CommitAndFinish(before, p, candidate, affected);
    }

    /** The forward phase on lines that were drained for the apply. */
    method Advance(before: HostState, p: Lines, candidate: string, affected: set<string>)
      returns (ok: bool, done: Progress, ghost clean: HostState)
      requires Running() && WellFormed(p) && Inspected(before, p) && !DrainFails(env, before, p) && affected == Affected(before, p)
      requires forall l | l in before.drained :: before.drained[l] != lease
      requires Host() == before.(drained := before.drained + LeaseOn(Begun(env, before.drained, affected), lease))
      modifies this`active, this`enabled, this`link, journal
      ensures Running()
      ensures Undoable(clean, before, p, done, lease) && Recorded(done, Performed(env.fails, ForwardCalls(before, p)))
      ensures Elements(done.started) + Elements(done.enabled) + Elements(done.disabled) <= LinesOf(p)
      ensures ok <==> ForwardWorks(env, before, p)
      ensures ok ==> WaitHolds(p, affected)
      ensures var failure := FirstFailure(env.fails, ForwardCalls(before, p));
              Host() == AfterFailure(env, clean, candidate, failure) && (failure.Some? ==> Undone(before, p, done, failure.value))
      ensures ok ==> Host() == Candidate(before, p, candidate).(drained := before.drained + LeaseOn(Begun(env, before.drained, affected), lease))
      ensures forall l | l in Affected(before, p) :: Held(drained, l, lease) <==> env.drain(l).Drains?
    {
      BegunAre(env, before, p, lease);
      hide ForwardCalls, FirstFailure, Performed, Begun, LeaseOn, Undoable, Recorded, Undone, Candidate, AfterFailure, DrainFails;
      Combined(p.changed, p.removed);
      ok, done, clean := ForwardPhase(before, p, candidate, affected, Begun(env, before.drained, affected));
    }

    /** Once the candidate runs, drains are released; a partial release no longer rolls anything back. */
    method CommitAndFinish(before: HostState, p: Lines, candidate: string, affected: set<string>) returns (state: ReceiptState)
      requires Running() && WellFormed(p) && Inspected(before, p) && affected == Affected(before, p) && WaitHolds(p, affected)
      requires Host() == Candidate(before, p, candidate).(drained := before.drained + LeaseOn(Begun(env, before.drained, affected), lease))
      modifies this`drained, journal
      ensures NothingPending(journal.receipt) && journal.receipt.state == state
      ensures state == if CommitWorks(env, before, p) then Applied else AppliedResumeIncomplete
      ensures state.Applied? ==> Host() == AppliedHost(env, before, p, candidate, lease)
      ensures UnitsOf(Host()) == UnitsOf(Candidate(before, p, candidate))
    {
      Combined(p.changed, p.added);
      Combined(p.changed, p.removed);
      CommitDrains(env, before, p, lease);
      var ok := ResumeCandidate(p.changed + p.added, affected);
      state := Finish(if ok then Applied else AppliedResumeIncomplete);
    }
  }

  lemma DrainWorksLeavesBegun(env: Environment, d: map<string, string>, lines: set<string>)
    requires DrainWorks(env, d, lines)
    ensures DrainLeft(env, d, lines) == Begun(env, d, lines)
  {
  }

  /** After a drain that worked, the lines under the lease are those whose providers drained. */
  lemma BegunAre(env: Environment, before: HostState, p: Lines, lease: string)
    requires !DrainFails(env, before, p) && forall l | l in before.drained :: before.drained[l] != lease
    ensures var begun := Begun(env, before.drained, Affected(before, p));
            && begun <= Affected(before, p) && begun !! before.drained.Keys
            && (forall l | l in Affected(before, p) :: Held(before.drained + LeaseOn(begun, lease), l, lease) <==> env.drain(l).Drains?)
            && ((forall l | l in p.changed + p.added && l in Affected(before, p) :: Held(before.drained + LeaseOn(begun, lease), l, lease)) <==>
                forall l | l in p.changed + p.added && l in Affected(before, p) :: env.drain(l).Drains?)
  {
    var begun := Begun(env, before.drained, Affected(before, p));
    forall l | l in Affected(before, p) ensures l in begun <==> env.drain(l).Drains? {
      assert !CodeOf(env, before.drained, l).Other?;
    }
  }

  /** Once every changed line that ran is held by the lease, the resumption comes down to the answers. */
  lemma CommitDrains(env: Environment, before: HostState, p: Lines, lease: string)
    requires WellFormed(p) && Inspected(before, p)
    requires var d := before.drained + LeaseOn(Begun(env, before.drained, Affected(before, p)), lease);
             forall l | l in p.changed + p.added && l in Affected(before, p) :: Held(d, l, lease)
    ensures var d := before.drained + LeaseOn(Begun(env, before.drained, Affected(before, p)), lease);
            CommitWorks(env, before, p) <==>
              env.statusRead && forall l | l in Elements(p.changed + p.added) && l in d && env.shows(l) ::
                (l in Affected(before, p) ==> d[l] == lease) && env.resume(l).Resumes?
  {
  }

  /** No compensating step for what was done fails. */
  predicate UndoneWorks(env: Environment, before: HostState, p: Lines, done: Progress) {
    && (forall l | l in Elements(done.started) :: UnitStep(RollbackStop, l) !in env.fails)
    && (forall l | l in Elements(done.enabled) :: UnitStep(RollbackDisable, l) !in env.fails)
    && (forall l | l in Elements(done.disabled) :: UnitStep(RollbackEnable, l) !in env.fails)
    && (done.switched ==> LinkStep(RollbackLink) !in env.fails)
    && (forall l | l in Affected(before, p) :: UnitStep(RollbackStart, l) !in env.fails)
  }

  /** The recorded progress is what was performed. */
  ghost predicate Recorded(done: Progress, performed: seq<Call>) {
    && RecordedCandidate(done, performed)
    && (forall l :: l in Elements(done.disabled) <==> UnitStep(Disable, l) in performed)
    && (done.switched <==> LinkStep(SwitchLink) in performed)
  }

  ghost predicate RecordedCandidate(done: Progress, performed: seq<Call>) {
    && (forall l :: l in Elements(done.started) <==> UnitStep(Start, l) in performed)
    && (forall l :: l in Elements(done.enabled) <==> UnitStep(Enable, l) in performed)
  }

  function UnitsOf(h: HostState): (set<string>, set<string>, string) {
    (h.active, h.enabled, h.link)
  }

  lemma Combined(a: seq<string>, b: seq<string>)
    ensures Elements(a + b) == Elements(a) + Elements(b)
    ensures Distinct(a) && Distinct(b) && Elements(a) !! Elements(b) ==> Distinct(a + b)
    ensures "" !in a && "" !in b ==> "" !in a + b
  {
    if Distinct(a) && Distinct(b) && Elements(a) !! Elements(b) {
      forall i, j | 0 <= i < j < |a + b| ensures (a + b)[i] != (a + b)[j] {
        if i < |a| <= j {
          assert a[i] in Elements(a) && b[j - |a|] in Elements(b);
        }
      }
    }
  }

  /** The units and link the candidate manifest demands. */
  function Candidate(before: HostState, p: Lines, candidate: string): HostState {
    before.(
      active := before.active - Elements(p.removed) + Elements(p.changed) + Elements(p.added),
      enabled := before.enabled - Elements(p.removed) + Elements(p.added),
      link := candidate)
  }

  /** What the forward phase did, as the compensation sees it. */
  datatype Progress = Progress(started: seq<string>, enabled: seq<string>, disabled: seq<string>, switched: bool)

  function LinesOf(p: Lines): set<string> {
    Elements(p.added) + Elements(p.changed) + Elements(p.removed)
  }

  lemma NoBlankLines(s: seq<string>, p: Lines)
    requires WellFormed(p) && Elements(s) <= LinesOf(p)
    ensures "" !in s
  {
    assert "" in s ==> "" in Elements(s);
  }

  function Reverse(s: seq<string>): seq<string> {
    if s == [] then [] else [s[|s| - 1]] + Reverse(s[..|s| - 1])
  }

  lemma {:induction false} ReverseKeepsElements(s: seq<string>)
    ensures Elements(Reverse(s)) == Elements(s)
  {
    if s != [] {
      var last, rest := s[|s| - 1], s[..|s| - 1];
      ReverseKeepsElements(rest);
      ElementsAppend(rest, last);
      assert s == rest + [last];
      assert Elements([last] + Reverse(rest)) == {last} + Elements(Reverse(rest));
    }
  }

  /** The host after every compensating step has succeeded. */
  function Compensated(h: HostState, before: HostState, p: Lines, done: Progress): HostState {
    var restarted := Elements(p.changed + p.removed) * before.active;
    HostState(
      h.active - Elements(done.started) + restarted,
      h.enabled - Elements(done.enabled) + Elements(done.disabled),
      if done.switched then before.link else h.link,
      h.drained - restarted)
  }

  /** How the steps that worked may have moved the host away from where it began. */
  ghost predicate Undoable(h: HostState, before: HostState, p: Lines, done: Progress, lease: string) {
    var replaced := Elements(p.changed + p.removed) * before.active;
    && (forall l | l in before.drained :: before.drained[l] != lease)
    && before.active - replaced <= h.active && h.active <= before.active + Elements(done.started)
    && Elements(done.started) <= Elements(p.changed) + Elements(p.added)
    && Elements(p.added) !! before.active && Elements(p.added) !! before.enabled
    && h.enabled == before.enabled - Elements(done.disabled) + Elements(done.enabled)
    && Elements(done.disabled) <= before.enabled && Elements(done.enabled) <= Elements(p.added) && Elements(done.disabled) <= Elements(p.removed)
    && (!done.switched ==> h.link == before.link)
    && (exists begun: set<string> :: begun <= replaced && begun !! before.drained.Keys && h.drained == before.drained + LeaseOn(begun, lease))
  }

  lemma StoppedIsUndoable(h: HostState, before: HostState, p: Lines, stopped: seq<string>, disabled: seq<string>, begun: set<string>, lease: string)
    requires Inspected(before, p) && forall l | l in before.drained :: before.drained[l] != lease
    requires begun <= Affected(before, p) && begun !! before.drained.Keys
    requires Elements(stopped) <= Affected(before, p) && Elements(disabled) <= Elements(p.removed) * before.enabled
    requires h == HostState(before.active - Elements(stopped), before.enabled - Elements(disabled), before.link,
                            before.drained + LeaseOn(begun, lease))
    ensures Undoable(h, before, p, Progress([], [], disabled, false), lease)
  {
    hide LeaseOn;
  }

  lemma CandidateIsUndoable(h: HostState, before: HostState, p: Lines, done: Progress, begun: set<string>, lease: string)
    requires Inspected(before, p) && forall l | l in before.drained :: before.drained[l] != lease
    requires begun <= Affected(before, p) && begun !! before.drained.Keys && done.switched
    requires Elements(done.disabled) == Elements(p.removed) * before.enabled
    requires Elements(done.enabled) <= Elements(p.added) && Elements(done.started) <= Elements(p.changed + p.added)
    requires h == HostState(before.active - Elements(p.changed + p.removed) + Elements(done.started),
                            before.enabled - Elements(p.removed) + Elements(done.enabled), h.link, before.drained + LeaseOn(begun, lease))
    ensures Undoable(h, before, p, done, lease)
    ensures Elements(done.started) + Elements(done.enabled) + Elements(done.disabled) <= LinesOf(p)
  {
    hide LeaseOn;
    Combined(p.changed, p.added);
  }

  /** A forward step that is not among those done. */
  predicate Undone(before: HostState, p: Lines, done: Progress, c: Call) {
    && FitsPlan(before, p, c)
    && (c.UnitStep? && c.action.Disable? ==> c.line !in Elements(done.disabled))
    && (c.UnitStep? && c.action.Enable? ==> c.line !in Elements(done.enabled))
    && (c.UnitStep? && c.action.Start? ==> c.line !in Elements(done.started))
    && (c.LinkStep? ==> !done.switched)
  }

  lemma AfterFailureKeepsDrains(env: Environment, h: HostState, candidate: string, failure: Option<Call>)
    ensures AfterFailure(env, h, candidate, failure).drained == h.drained
  {
  }

  /** Compensating what was done restores the host, up to the late effect of the step that failed. */
  lemma CompensationRestores(env: Environment, h: HostState, before: HostState, p: Lines, candidate: string, done: Progress, lease: string)
    requires WellFormed(p) && Undoable(h, before, p, done, lease)
    requires forall l | l in Elements(p.changed + p.removed) * before.active && l in h.drained :: h.drained[l] == lease
    requires var failure := FirstFailure(env.fails, ForwardCalls(before, p)); failure.Some? ==> Undone(before, p, done, failure.value)
    ensures Compensated(AfterFailure(env, h, candidate, FirstFailure(env.fails, ForwardCalls(before, p))), before, p, done) ==
            LeftBehind(env, before, p, candidate)
  {
    hide ForwardCalls, FirstFailure;
    var failure := FirstFailure(env.fails, ForwardCalls(before, p));
    CleanCompensation(h, before, p, done, lease);
    if failure.Some? && failure.value in env.late {
      LateCompensation(h, before, p, candidate, done, failure.value);
    }
  }

  lemma CleanCompensation(h: HostState, before: HostState, p: Lines, done: Progress, lease: string)
    requires WellFormed(p) && Undoable(h, before, p, done, lease)
    requires forall l | l in Elements(p.changed + p.removed) * before.active && l in h.drained :: h.drained[l] == lease
    ensures Compensated(h, before, p, done) == before
  {
    var replaced := Elements(p.changed + p.removed) * before.active;
    var begun :| begun <= replaced && begun !! before.drained.Keys && h.drained == before.drained + LeaseOn(begun, lease);
    assert h.drained - replaced == before.drained by {
      forall l | l in before.drained ensures l !in replaced {
        assert l in h.drained && h.drained[l] == before.drained[l];
      }
    }
    assert Elements(p.changed + p.removed) == Elements(p.changed) + Elements(p.removed);
    assert h.active - Elements(done.started) + replaced == before.active;
    assert h.enabled - Elements(done.enabled) + Elements(done.disabled) == before.enabled;
  }

  lemma LateCompensation(h: HostState, before: HostState, p: Lines, candidate: string, done: Progress, c: Call)
    requires WellFormed(p) && Undone(before, p, done, c) && Compensated(h, before, p, done) == before
    requires Elements(done.enabled) <= Elements(p.added)
    ensures Compensated(Effect(h, candidate, c), before, p, done) ==
            if c.UnitStep? && c.action.Stop? then before else Effect(before, candidate, c)
  {
    var replaced := Elements(p.changed + p.removed) * before.active;
    var after := Effect(h, candidate, c);
    if c.UnitStep? {
      var l := c.line;
      if c.action.Stop? {
        assert l in replaced;
        assert after.active - Elements(done.started) + replaced == before.active;
      } else if c.action.Start? {
        assert after.active - Elements(done.started) + replaced == before.active + {l};
      } else if c.action.Disable? {
        assert l in Elements(p.removed) && l !in Elements(done.enabled);
        assert after.enabled - Elements(done.enabled) + Elements(done.disabled) == before.enabled - {l};
      } else {
        assert after.enabled - Elements(done.enabled) + Elements(done.disabled) == before.enabled + {l};
      }
    }
  }

  /** The calls after the switch. */
  function CandidateCalls(p: Lines): seq<Call> {
    UnitCalls(Enable, p.added, Elements(p.added)) + StartCalls(p.changed + p.added)
  }

  /** The first failure of the phase is that of its first part that fails. */
  lemma FailurePassesOn(fails: set<Call>, before: HostState, p: Lines)
    ensures var stops, disables := UnitCalls(Stop, p.changed + p.removed, before.active), UnitCalls(Disable, p.removed, before.enabled);
            FirstFailure(fails, ForwardCalls(before, p)) ==
              if FirstFailure(fails, stops).Some? then FirstFailure(fails, stops)
              else if FirstFailure(fails, disables).Some? then FirstFailure(fails, disables)
              else if LinkStep(SwitchLink) in fails then Some(LinkStep(SwitchLink))
              else FirstFailure(fails, CandidateCalls(p))
  {
    var stops, disables := UnitCalls(Stop, p.changed + p.removed, before.active), UnitCalls(Disable, p.removed, before.enabled);
    var switch, rest := [LinkStep(SwitchLink)], CandidateCalls(p);
    assert ForwardCalls(before, p) == ((stops + disables) + switch) + rest;
    FirstFailureJoins(fails, stops, disables);
    FirstFailureJoins(fails, stops + disables, switch);
    FirstFailureJoins(fails, (stops + disables) + switch, rest);
    assert switch[..0] == [];
  }

  // ---------------------------------------------------------------- when an apply succeeds

  /** Applied means that nothing failed, from the inspection to the last resumption. */
  lemma AppliedIff(env: Environment, before: HostState, p: Lines, present: set<string>, attempts: nat)
    ensures Outcome(env, before, p, present, attempts).Applied? <==>
              && Inspects(env, before, p, present)
              && (Affected(before, p) != {} ==> DrainWorks(env, before.drained, Affected(before, p)))
              && (forall c | c in ForwardCalls(before, p) :: c !in env.fails) && WaitWorks(env, before, p)
              && CommitWorks(env, before, p)
  {
    hide ForwardCalls, FirstFailure;
    NoFailureIff(env.fails, ForwardCalls(before, p));
  }

  /** Where nothing fails, an apply on a consistent host ends applied, unless someone else holds a line it has to drain. */
  lemma QuietAppliesIff(before: HostState, p: Lines, present: set<string>, attempts: nat)
    requires Consistent(before, p, present)
    ensures Outcome(QUIET, before, p, present, attempts).Applied? <==> Affected(before, p) !! before.drained.Keys
  {
    AppliedIff(QUIET, before, p, present, attempts);
    hide ForwardCalls, FirstFailure, Outcome;
    if l :| l in Affected(before, p) && l in before.drained {
      assert CodeOf(QUIET, before.drained, l).Other?;
    }
  }

  /** Under an applied receipt no candidate line is drained if and only if the status showed every one that was. */
  lemma AppliedIsOpenIff(env: Environment, before: HostState, p: Lines, candidate: string, lease: string)
    requires WellFormed(p) && Inspected(before, p) && !DrainFails(env, before, p) && WaitWorks(env, before, p)
    ensures (forall l | l in p.changed + p.added :: l !in AppliedHost(env, before, p, candidate, lease).drained) <==>
            forall l | l in p.changed + p.added && (l in before.active || l in before.drained) :: env.shows(l)
  {
    var begun := Begun(env, before.drained, Affected(before, p));
    forall l | l in p.changed + p.added ensures l in before.drained || l in begun <==> l in before.active || l in before.drained {
      if l in p.changed && l in before.active {
        assert l in Affected(before, p) && env.drain(l).Drains? && !CodeOf(env, before.drained, l).Other?;
      }
    }
  }

  // ---------------------------------------------------------------- what does happen

  /** With one line to add and none running, the forward phase begins with the switch. */
  lemma OneLineToAdd(fails: set<Call>, before: HostState)
    requires before.active == before.enabled == {}
    ensures LinkStep(SwitchLink) in fails ==>
              && FirstFailure(fails, ForwardCalls(before, Lines(["line"], [], []))) == Some(LinkStep(SwitchLink))
              && Performed(fails, ForwardCalls(before, Lines(["line"], [], []))) == []
  {
    var p := Lines(["line"], [], []);
    FailurePassesOn(fails, before, p);
    ForwardPerformed(fails, before, p);
    assert UnitCalls(Stop, [], {}) == UnitCalls(Disable, [], {}) == [];
  }

  /** A switch that fails after its rename is not undone: nothing else happens, and the candidate is current. */
  method SwitchLate() returns (apply: Deployment)
    ensures apply.journal.receipt.state.RolledBack? && apply.Host() == HostState({}, {}, "/p/2", map[])
  {
    var before, p := HostState({}, {}, "/p/1", map[]), Lines(["line"], [], []);
    apply := new Deployment(before, "lease", QUIET.(fails := {LinkStep(SwitchLink)}, late := {LinkStep(SwitchLink)}));
    OneLineToAdd(apply.env.fails, before);
    assert Affected(before, p) == {};
    assert RolledBackHost(apply.env, before, p, "/p/2", {}, "lease") == HostState({}, {}, "/p/2", map[]);
    hide FirstFailure, Performed, ForwardCalls;
    assert Outcome(apply.env, before, p, {}, 0) == RolledBack;
    var _ := apply.ExecuteLocked(p, "/p/2", {}, 0);
  }

  /** A drain whose answer is lost is rolled back, with every line still drained. */
  method LoseAnswer() returns (apply: Deployment)
    ensures apply.journal.receipt.state.RolledBack? && apply.drained == map["line" := "lease"]
  {
    var before, p := HostState({"line"}, {"line"}, "/p/1", map[]), Lines([], ["line"], []);
    apply := new Deployment(before, "lease", QUIET.(answerLost := true));
    assert p.changed + p.removed == ["line"] && Affected(before, p) == {"line"};
    assert DrainLeft(apply.env, map[], {"line"}) == Begun(apply.env, map[], {"line"}) == {"line"};
    var _ := apply.ExecuteLocked(p, "/p/2", {"line"}, 0);
  }

  /** So is one whose provider drained the line and could not say so. */
  method DrainUnnoticed() returns (apply: Deployment)
    ensures apply.journal.receipt.state.RolledBack? && apply.drained == map["line" := "lease"]
  {
    var before, p := HostState({"line"}, {"line"}, "/p/1", map[]), Lines([], ["line"], []);
    apply := new Deployment(before, "lease", QUIET.(drain := _ => DrainsUnnoticed));
    assert p.changed + p.removed == ["line"] && Affected(before, p) == {"line"};
    assert CodeOf(apply.env, map[], "line").Other? && Begun(apply.env, map[], {"line"}) == {};
    assert DrainLeft(apply.env, map[], {"line"}) == {"line"};
    var _ := apply.ExecuteLocked(p, "/p/2", {"line"}, 0);
  }

  /** The everyday case: a running provider is replaced, runs again, and takes calls again. */
  method ReplaceRunning() returns (apply: Deployment)
    ensures apply.journal.receipt.state.Applied? && apply.Host() == HostState({"line"}, {"line"}, "/p/2", map[])
  {
    var before, p := HostState({"line"}, {"line"}, "/p/1", map[]), Lines([], ["line"], []);
    apply := new Deployment(before, "lease", QUIET);
    assert p.changed + p.removed == p.changed + p.added == ["line"] && Affected(before, p) == {"line"};
    QuietAppliesIff(before, p, {"line"}, 0);
    assert AppliedHost(QUIET, before, p, "/p/2", "lease") == HostState({"line"}, {"line"}, "/p/2", map[]);
    hide Outcome, AppliedHost;
    var _ := apply.ExecuteLocked(p, "/p/2", {"line"}, 0);
  }

  /** If the status after the commit does not show the new provider, its line stays drained under an applied receipt. */
  method OverlookDrain() returns (apply: Deployment)
    ensures apply.journal.receipt.state.Applied? && apply.drained == map["line" := "lease"]
  {
    var before, p := HostState({"line"}, {"line"}, "/p/1", map[]), Lines([], ["line"], []);
    apply := new Deployment(before, "lease", QUIET.(shows := _ => false));
    assert p.changed + p.removed == p.changed + p.added == ["line"] && Affected(before, p) == {"line"};
    assert Begun(apply.env, map[], {"line"}) == {"line"};
    NoFailureIff({}, ForwardCalls(before, p));
    hide ForwardCalls, FirstFailure;
    var _ := apply.ExecuteLocked(p, "/p/2", {"line"}, 0);
  }

  /** Two providers that come back at different times make every later attempt of a rollback fail: it ends in recovery by hand. */
  method ReturnApart(attempts: nat) returns (apply: Deployment)
    ensures apply.journal.receipt.state.ManualRecovery?
    ensures apply.env.fails == {Registration} && forall k | k > 0 :: apply.env.heard(k) && forall l :: apply.env.again(k, l).Resumes?
  {
    var before, p := HostState({"a", "b"}, {"a", "b"}, "/p/1", map[]), Lines([], ["a", "b"], []);
    var env := QUIET.(fails := {Registration}, again := (k, l) => if k == 0 && l == "b" then Stays else Resumes);
    apply := new Deployment(before, "lease", env);
    BackApart(env, before, p, attempts);
    hide Outcome;
    var _ := apply.ExecuteLocked(p, "/p/2", {"a", "b"}, attempts);
  }

  lemma BackApart(env: Environment, before: HostState, p: Lines, attempts: nat)
    requires before == HostState({"a", "b"}, {"a", "b"}, "/p/1", map[]) && p == Lines([], ["a", "b"], [])
    requires env.fails == {Registration} && !env.rejected && !env.catalogMoved && !env.answerLost
    requires env.drain("a").Drains? && env.drain("b").Drains? && env.again(0, "a").Resumes? && env.again(0, "b").Stays?
    ensures WellFormed(p) && Outcome(env, before, p, {"a", "b"}, attempts).ManualRecovery?
  {
    assert p.changed + p.removed == ["a", "b"] && Affected(before, p) == {"a", "b"};
    hide FirstFailure, ForwardCalls, UndoWorks;
    assert !ForwardWorks(env, before, p);
    assert !ResumedAgain(env, {"a", "b"}, attempts);
  }

  // ---------------------------------------------------------------- records

  lemma {:induction false} PerformedAmong(fails: set<Call>, calls: seq<Call>, c: Call)
    requires c in Performed(fails, calls)
    ensures c in calls
  {
    if FirstFailure(fails, calls).Some? && FirstFailure(fails, calls[..|calls| - 1]).Some? {
      PerformedAmong(fails, calls[..|calls| - 1], c);
    }
  }

  /** What is performed of the calls after the switch, by kind. */
  lemma CandidateRecords(fails: set<Call>, p: Lines)
    ensures var enables, starts := UnitCalls(Enable, p.added, Elements(p.added)), StartCalls(p.changed + p.added);
            var performed := Performed(fails, CandidateCalls(p));
            && (forall l :: UnitStep(Enable, l) in performed <==> UnitStep(Enable, l) in Performed(fails, enables))
            && (forall l :: UnitStep(Start, l) in performed <==>
                  FirstFailure(fails, enables).None? && UnitStep(Start, l) in Performed(fails, starts))
            && (forall c | c in performed :: (c.UnitStep? && (c.action.Enable? || c.action.Start?)) || c.StartProbe?)
  {
    var enables, starts := UnitCalls(Enable, p.added, Elements(p.added)), StartCalls(p.changed + p.added);
    PerformedJoins(fails, enables, starts);
    NoFailureMeansAll(fails, enables);
    forall c | c in Performed(fails, enables) || c in enables ensures c.UnitStep? && c.action.Enable? {
      if c in Performed(fails, enables) {
        PerformedAmong(fails, enables, c);
      }
      UnitCallsAre(Enable, p.added, Elements(p.added), c);
    }
    forall c | c in Performed(fails, starts) ensures (c.UnitStep? && c.action.Start?) || c.StartProbe? {
      PerformedAmong(fails, starts, c);
      StartCallsAre(p.changed + p.added, c);
    }
  }

  /** What is performed of the whole phase, by kind. */
  lemma ForwardRecords(fails: set<Call>, before: HostState, p: Lines)
    ensures var stops, disables := UnitCalls(Stop, p.changed + p.removed, before.active), UnitCalls(Disable, p.removed, before.enabled);
            var performed := Performed(fails, ForwardCalls(before, p));
            var stopped := FirstFailure(fails, stops).None?;
            var disabled := stopped && FirstFailure(fails, disables).None?;
            var switched := disabled && LinkStep(SwitchLink) !in fails;
            && (forall l :: UnitStep(Disable, l) in performed <==> stopped && UnitStep(Disable, l) in Performed(fails, disables))
            && (LinkStep(SwitchLink) in performed <==> switched)
            && (forall l :: UnitStep(Enable, l) in performed <==> switched && UnitStep(Enable, l) in Performed(fails, CandidateCalls(p)))
            && (forall l :: UnitStep(Start, l) in performed <==> switched && UnitStep(Start, l) in Performed(fails, CandidateCalls(p)))
  {
    ForwardPerformed(fails, before, p);
    StopsAndDisables(fails, before, p);
    NoFailureMeansAll(fails, UnitCalls(Stop, p.changed + p.removed, before.active));
    NoFailureMeansAll(fails, UnitCalls(Disable, p.removed, before.enabled));
    CandidateRecords(fails, p);
    hide FirstFailure, Performed, UnitCalls, StartCalls, CandidateCalls, ForwardCalls;
  }

  lemma ForwardPerformed(fails: set<Call>, before: HostState, p: Lines)
    ensures var stops, disables := UnitCalls(Stop, p.changed + p.removed, before.active), UnitCalls(Disable, p.removed, before.enabled);
            Performed(fails, ForwardCalls(before, p)) ==
              if FirstFailure(fails, stops).Some? then Performed(fails, stops)
              else if FirstFailure(fails, disables).Some? then stops + Performed(fails, disables)
              else if LinkStep(SwitchLink) in fails then stops + (disables + [])
              else stops + (disables + ([LinkStep(SwitchLink)] + Performed(fails, CandidateCalls(p))))
  {
    var stops, disables := UnitCalls(Stop, p.changed + p.removed, before.active), UnitCalls(Disable, p.removed, before.enabled);
    Regroup(stops, disables, [LinkStep(SwitchLink)], UnitCalls(Enable, p.added, Elements(p.added)), StartCalls(p.changed + p.added));
    assert ForwardCalls(before, p) == stops + (disables + ([LinkStep(SwitchLink)] + CandidateCalls(p)));
    hide ForwardCalls, CandidateCalls, UnitCalls, StartCalls, FirstFailure, Performed;
    OneCall(fails, LinkStep(SwitchLink));
    InFourParts(fails, stops, disables, [LinkStep(SwitchLink)], CandidateCalls(p));
  }

  lemma Regroup(a: seq<Call>, b: seq<Call>, c: seq<Call>, d: seq<Call>, e: seq<Call>)
    ensures a + b + c + d + e == a + (b + (c + (d + e)))
  {
  }

  lemma InFourParts(fails: set<Call>, a: seq<Call>, b: seq<Call>, c: seq<Call>, d: seq<Call>)
    ensures Performed(fails, a + (b + (c + d))) ==
              if FirstFailure(fails, a).Some? then Performed(fails, a)
              else if FirstFailure(fails, b).Some? then a + Performed(fails, b)
              else if FirstFailure(fails, c).Some? then a + (b + Performed(fails, c))
              else a + (b + (c + Performed(fails, d)))
  {
    hide FirstFailure, Performed;
    PerformedJoins(fails, a, b + (c + d));
    PerformedJoins(fails, b, c + d);
    PerformedJoins(fails, c, d);
  }

  lemma OneCall(fails: set<Call>, c: Call)
    ensures FirstFailure(fails, [c]) == if c in fails then Some(c) else None
    ensures Performed(fails, [c]) == if c in fails then [] else [c]
  {
    assert [c][..0] == [];
  }

  lemma StopsAndDisables(fails: set<Call>, before: HostState, p: Lines)
    ensures forall c | c in Performed(fails, UnitCalls(Stop, p.changed + p.removed, before.active)) :: c.UnitStep? && c.action.Stop?
    ensures forall c | c in Performed(fails, UnitCalls(Disable, p.removed, before.enabled)) :: c.UnitStep? && c.action.Disable?
  {
    var stops, disables := UnitCalls(Stop, p.changed + p.removed, before.active), UnitCalls(Disable, p.removed, before.enabled);
    forall c | c in Performed(fails, stops) ensures c.UnitStep? && c.action.Stop? {
      PerformedAmong(fails, stops, c);
      UnitCallsAre(Stop, p.changed + p.removed, before.active, c);
    }
    forall c | c in Performed(fails, disables) ensures c.UnitStep? && c.action.Disable? {
      PerformedAmong(fails, disables, c);
      UnitCallsAre(Disable, p.removed, before.enabled, c);
    }
  }

  function JoinLines(lines: seq<string>): (r: string)
    ensures lines != [] && "" !in lines ==> r != ""
  {
    if lines == [] then "" else if |lines| == 1 then lines[0] else lines[0] + "," + JoinLines(lines[1..])
  }

  /** A series of calls is made up to the first that fails. */
  lemma {:induction false} StopsAtTheFirstFailure(fails: set<Call>, calls: seq<Call>)
    ensures var made, failure := Performed(fails, calls), FirstFailure(fails, calls);
            && (forall c | c in made :: c !in fails)
            && (failure.None? ==> made == calls)
            && (failure.Some? ==> failure.value in fails && made + [failure.value] <= calls)
  {
    if calls != [] {
      var init := calls[..|calls| - 1];
      StopsAtTheFirstFailure(fails, init);
      assert calls == init + [calls[|calls| - 1]];
    }
  }

  /** The call that takes a call back, if there is one. */
  function TakesBack(c: Call): Option<Call> {
    match c
    case UnitStep(Start, l) => Some(UnitStep(RollbackStop, l))
    case UnitStep(Enable, l) => Some(UnitStep(RollbackDisable, l))
    case UnitStep(Disable, l) => Some(UnitStep(RollbackEnable, l))
    case LinkStep(SwitchLink) => Some(LinkStep(RollbackLink))
    case _ => None
  }

  /**
   * An apply that fails between drain and commit is rolled back if and only if everything it did can be taken back, every
   * provider it may have stopped starts again, and the drains are released and heard of.
   */
  lemma RolledBackIff(env: Environment, before: HostState, p: Lines, present: set<string>, attempts: nat)
    requires Inspects(env, before, p, present) && !DrainFails(env, before, p) && !ForwardWorks(env, before, p)
    ensures Outcome(env, before, p, present, attempts).RolledBack? <==>
              && (forall c | c in Performed(env.fails, ForwardCalls(before, p)) && TakesBack(c).Some? :: TakesBack(c).value !in env.fails)
              && (forall l | l in Affected(before, p) :: UnitStep(RollbackStart, l) !in env.fails && env.drain(l).Drains?)
              && (Affected(before, p) != {} ==>
                   exists k | 0 <= k <= attempts :: env.heard(k) && (forall l | l in Affected(before, p) :: env.again(k, l).Resumes?) &&
                     (forall j, l | 0 <= j < k && l in Affected(before, p) :: env.again(j, l).Stays?))
  {
    hide Performed, ForwardCalls, Inspects, DrainFails, ForwardWorks, DrainStuck;
    var made := Performed(env.fails, ForwardCalls(before, p));
    assert UndoWorks(env, before, p) <==>
      && (forall c | c in made && TakesBack(c).Some? :: TakesBack(c).value !in env.fails)
      && (forall l | l in Affected(before, p) :: UnitStep(RollbackStart, l) !in env.fails) by {
      TakenBackIff(env.fails, made);
    }
    hide UndoWorks, Affected;
    if ResumedAgain(env, Affected(before, p), attempts) {
      var k :| 0 <= k <= attempts && Success(env, Affected(before, p), k);
      assert env.heard(k);
    } else if k :| 0 <= k <= attempts && env.heard(k) && (forall l | l in Affected(before, p) :: env.again(k, l).Resumes?) &&
                   (forall j, l | 0 <= j < k && l in Affected(before, p) :: env.again(j, l).Stays?) {
      assert !Success(env, Affected(before, p), k);
    }
  }

  lemma TakenBackIff(fails: set<Call>, made: seq<Call>)
    ensures (forall c | c in made && TakesBack(c).Some? :: TakesBack(c).value !in fails) <==>
              && (forall l | UnitStep(Start, l) in made :: UnitStep(RollbackStop, l) !in fails)
              && (forall l | UnitStep(Enable, l) in made :: UnitStep(RollbackDisable, l) !in fails)
              && (forall l | UnitStep(Disable, l) in made :: UnitStep(RollbackEnable, l) !in fails)
              && (LinkStep(SwitchLink) in made ==> LinkStep(RollbackLink) !in fails)
  {
    if forall c | c in made && TakesBack(c).Some? :: TakesBack(c).value !in fails {
      forall l | UnitStep(Start, l) in made ensures UnitStep(RollbackStop, l) !in fails {
        assert TakesBack(UnitStep(Start, l)).Some?;
      }
      forall l | UnitStep(Enable, l) in made ensures UnitStep(RollbackDisable, l) !in fails {
        assert TakesBack(UnitStep(Enable, l)).Some?;
      }
      forall l | UnitStep(Disable, l) in made ensures UnitStep(RollbackEnable, l) !in fails {
        assert TakesBack(UnitStep(Disable, l)).Some?;
      }
      assert TakesBack(LinkStep(SwitchLink)).Some?;
    }
  }
}
