/**
 * Login throttling: two-phase logins, bounded failure histories, and sessions tied to the password they were
 * verified against. Times are nanoseconds. The admission time of a login is read before the lock is taken, so it
 * may be older than anything already recorded.
 */
module Login {
  import opened Common

  const SECOND := 1_000_000_000
  const FAILURE_WINDOW := 15 * 60 * SECOND
  const SWEEP_INTERVAL := 60 * SECOND
  const RETRY_SECONDS := 60
  const FREE_FAILURES := 5
  const SESSION_TTL := 12 * 3600 * SECOND
  const MAX_SESSIONS := 1024
  const MAX_LOGIN_DERIVATIONS := 2
  const MAX_LOGIN_PEERS := 4096
  const MAX_FAILURES := 19

  type Time = int

  /** verified is the password epoch the login was checked against; the program keeps it only until the login ends. */
  datatype Session = Session(expires: Time, verified: nat)

  /** What a login remembers between its two locked sections. */
  datatype Attempt = Attempt(epoch: nat)

  datatype Gate = Gate(
    failures: map<string, seq<Time>>,
    inFlight: set<string>,
    sessions: map<string, Session>,
    epoch: nat,
    lastSweep: Option<Time>)

  datatype Answer = Admitted(attempt: Attempt) | Throttled(seconds: int)

  datatype Verdict = DerivationFailed | InvalidCredentials | SessionCapacity | LoggedIn

  // ---------------------------------------------------------------- failure histories

  /** Failures still inside the window, in order. */
  function Recent(attempts: seq<Time>, now: Time): seq<Time> {
    if attempts == [] then []
    else (if attempts[0] > now - FAILURE_WINDOW then [attempts[0]] else []) + Recent(attempts[1..], now)
  }

  /** Go's conversion of a duration in seconds to an integer: towards zero. */
  function WholeSeconds(d: int): int {
    if d >= 0 then d / SECOND else -((-d) / SECOND)
  }

  function RetryAfter(recent: seq<Time>, now: Time): int {
    if |recent| < FREE_FAILURES then 0
    else
      var remaining := RETRY_SECONDS - WholeSeconds(now - recent[|recent| - 1]);
      if remaining < 0 then 0 else remaining
  }

  function History(failures: map<string, seq<Time>>, peer: string): seq<Time> {
    if peer in failures then failures[peer] else []
  }

  function PrunedPeer(failures: map<string, seq<Time>>, peer: string, now: Time): map<string, seq<Time>> {
    var recent := Recent(History(failures, peer), now);
    if recent == [] then failures - {peer} else failures[peer := recent]
  }

  function Swept(g: Gate, now: Time): Gate {
    if g.lastSweep.Some? && now < g.lastSweep.value + SWEEP_INTERVAL then g
    else g.(lastSweep := Some(now),
            failures := map p | p in g.failures && Recent(g.failures[p], now) != [] :: Recent(g.failures[p], now))
  }

  predicate CanTrack(g: Gate, peer: string) {
    peer in g.failures || |g.failures| + |g.inFlight - g.failures.Keys| < MAX_LOGIN_PEERS
  }

  // ---------------------------------------------------------------- the two sections of Login, and the other operations

  function Max(a: int, b: int): int {
    if a < b then b else a
  }

  function Begun(g: Gate, peer: string, now: Time): (Gate, Answer) {
    if peer in g.inFlight || |g.inFlight| >= MAX_LOGIN_DERIVATIONS then (g, Throttled(1))
    else
      var swept := Swept(g, now);
      var pruned := swept.(failures := PrunedPeer(swept.failures, peer, now));
      var retry := RetryAfter(History(pruned.failures, peer), now);
      if retry > 0 || !CanTrack(pruned, peer) then (pruned, Throttled(Max(1, retry)))
      else (pruned.(inFlight := pruned.inFlight + {peer}), Admitted(Attempt(g.epoch)))
  }

  function Live(sessions: map<string, Session>, now: Time): map<string, Session> {
    map t | t in sessions && sessions[t].expires > now :: sessions[t]
  }

  function Finished(g: Gate, peer: string, a: Attempt, now: Time, derived: bool, matches: bool, token: string): (Gate, Verdict) {
    var landed := g.(inFlight := g.inFlight - {peer});
    if !derived then (landed, DerivationFailed)
    else if a.epoch != g.epoch || !matches then
      (landed.(failures := g.failures[peer := History(g.failures, peer) + [now]]), InvalidCredentials)
    else
      var live := Live(g.sessions, now);
      var cleared := landed.(failures := g.failures - {peer}, sessions := live);
      if |live| >= MAX_SESSIONS then (cleared, SessionCapacity)
      else (cleared.(sessions := live[token := Session(now + SESSION_TTL, a.epoch)]), LoggedIn)
  }

  function PasswordChanged(g: Gate): Gate {
    g.(epoch := g.epoch + 1, sessions := map[])
  }

  function Touched(g: Gate, token: string, now: Time): (Gate, bool) {
    if token !in g.sessions || g.sessions[token].expires <= now then (g.(sessions := g.sessions - {token}), false)
    else (g.(sessions := g.sessions[token := g.sessions[token].(expires := now + SESSION_TTL)]), true)
  }

  function LoggedOut(g: Gate, token: string): Gate {
    g.(sessions := g.sessions - {token})
  }

  /** The filtering loop of retryAfterLocked. */
  method FilterRecent(all: seq<Time>, now: Time) returns (attempts: seq<Time>)
    ensures attempts == Recent(all, now)
  {
    var cutoff := now - FAILURE_WINDOW;
    attempts := [];
    for i := 0 to |all|
      invariant attempts + Recent(all[i..], now) == Recent(all, now)
    {
      assert all[i..][1..] == all[i + 1..];
      if all[i] > cutoff {
        attempts := attempts + [all[i]];
      }
    }
    assert all[|all|..] == [] && attempts + [] == attempts;
  }

  class LoginGate {
    var failures: map<string, seq<Time>>
    var loginInFlight: set<string>
    var sessions: map<string, Session>
    var passwordEpoch: nat
    var lastFailureSweep: Option<Time>

    function View(): Gate
      reads this
    {
      Gate(failures, loginInFlight, sessions, passwordEpoch, lastFailureSweep)
    }

    constructor ()
      ensures View() == Gate(map[], {}, map[], 0, None)
    {
      failures, loginInFlight, sessions, passwordEpoch, lastFailureSweep := map[], {}, map[], 0, None;
    }

    /** retryAfterLocked. */
    method RetryAfterPeer(peer: string, now: Time) returns (retry: int)
      modifies this`failures
      ensures failures == PrunedPeer(old(failures), peer, now)
      ensures retry == RetryAfter(History(failures, peer), now)
    {
      var attempts := FilterRecent(History(failures, peer), now);
      if |attempts| == 0 {
        failures := failures - {peer};
      } else {
        failures := failures[peer := attempts];
      }
      if |attempts| < FREE_FAILURES {
        return 0;
      }
      var remaining := RETRY_SECONDS - WholeSeconds(now - attempts[|attempts| - 1]);
      if remaining < 0 {
        return 0;
      }
      return remaining;
    }

    /** sweepLoginFailuresLocked. */
    method SweepLoginFailures(now: Time)
      modifies this
      ensures View() == Swept(old(View()), now)
    {
      if lastFailureSweep.Some? && now < lastFailureSweep.value + SWEEP_INTERVAL {
        return;
      }
      lastFailureSweep := Some(now);
      var before := failures;
      var remaining := failures.Keys;
      while remaining != {}
        invariant remaining <= before.Keys
        invariant forall p | p in remaining :: p in failures && failures[p] == before[p]
        invariant forall p | p in failures && p !in remaining :: p in before && Recent(before[p], now) != [] && failures[p] == Recent(before[p], now)
        invariant forall p | p in before && p !in remaining && Recent(before[p], now) != [] :: p in failures
        invariant (loginInFlight, sessions, passwordEpoch, lastFailureSweep) ==
                  (old(loginInFlight), old(sessions), old(passwordEpoch), Some(now))
      {
        var peer :| peer in remaining;
        var _ := RetryAfterPeer(peer, now);
        remaining := remaining - {peer};
      }
      assert failures == Swept(old(View()), now).failures;
    }

    /** canTrackLoginPeerLocked. */
    method CanTrackLoginPeer(peer: string) returns (can: bool)
      ensures can <==> CanTrack(View(), peer)
    {
      if peer in failures {
        return true;
      }
      var reserved := |failures|;
      ghost var counted: set<string> := {};
      var remaining := loginInFlight;
      while remaining != {}
        invariant remaining <= loginInFlight
        invariant counted == loginInFlight - remaining - failures.Keys
        invariant reserved == |failures| + |counted|
      {
        var other :| other in remaining;
        if other !in failures {
          reserved := reserved + 1;
          counted := counted + {other};
        }
        remaining := remaining - {other};
      }
      assert counted == loginInFlight - failures.Keys;
      return reserved < MAX_LOGIN_PEERS;
    }

    /** The first locked section of Login. */
    method BeginLogin(peer: string, now: Time) returns (answer: Answer)
      modifies this
      ensures (View(), answer) == Begun(old(View()), peer, now)
    {
      if peer in loginInFlight || |loginInFlight| >= MAX_LOGIN_DERIVATIONS {
        return Throttled(1);
      }
      SweepLoginFailures(now);
      var retry := RetryAfterPeer(peer, now);
      var can := CanTrackLoginPeer(peer);
      if retry > 0 || !can {
        return Throttled(Max(1, retry));
      }
      loginInFlight := loginInFlight + {peer};
      return Admitted(Attempt(passwordEpoch));
    }

    /** purgeExpiredLocked. */
    method PurgeExpired(now: Time)
      modifies this`sessions
      ensures sessions == Live(old(sessions), now)
    {
      var before := sessions;
      var remaining := sessions.Keys;
      while remaining != {}
        invariant remaining <= before.Keys
        invariant forall t | t in sessions :: t in before && sessions[t] == before[t]
        invariant forall t | t in before :: t in sessions <==> t in remaining || before[t].expires > now
      {
        var token :| token in remaining;
        if before[token].expires <= now {
          sessions := sessions - {token};
        }
        remaining := remaining - {token};
      }
    }

    /** The second locked section of Login, once the derivation has returned. */
    method FinishLogin(peer: string, attempt: Attempt, now: Time, derived: bool, matches: bool, token: string) returns (verdict: Verdict)
      modifies this
      ensures (View(), verdict) == Finished(old(View()), peer, attempt, now, derived, matches, token)
    {
      loginInFlight := loginInFlight - {peer};
      if !derived {
        return DerivationFailed;
      }
      var valid := attempt.epoch == passwordEpoch && matches;
      if !valid {
        failures := failures[peer := History(failures, peer) + [now]];
        return InvalidCredentials;
      }
      failures := failures - {peer};
      PurgeExpired(now);
      if |sessions| >= MAX_SESSIONS {
        return SessionCapacity;
      }
      sessions := sessions[token := Session(now + SESSION_TTL, attempt.epoch)];
      return LoggedIn;
    }

    /** What a confirmed ChangePassword does to logins and sessions. */
    method ReplacePassword()
      modifies this
      ensures View() == PasswordChanged(old(View()))
    {
      passwordEpoch := passwordEpoch + 1;
      sessions := map[];
    }

    method UseSession(token: string, now: Time) returns (found: bool)
      modifies this
      ensures (View(), found) == Touched(old(View()), token, now)
    {
      if token !in sessions || sessions[token].expires <= now {
        sessions := sessions - {token};
        return false;
      }
      sessions := sessions[token := sessions[token].(expires := now + SESSION_TTL)];
      return true;
    }

    method Logout(token: string)
      modifies this
      ensures View() == LoggedOut(old(View()), token)
    {
      sessions := sessions - {token};
    }
  }

  // ---------------------------------------------------------------- interleavings

  /** attempts holds the logins between their two sections; the clock never runs backwards. */
  datatype State = State(gate: Gate, attempts: map<string, Attempt>, clock: Time)

  datatype Event =
    | Tick(elapsed: nat)
    | BeginLogin(peer: string, observed: Time)
    | FinishLogin(who: string, derived: bool, matches: bool, minted: string)
    | ReplacePassword
    | UseSession(token: string)
    | Logout(token: string)

  predicate Enabled(s: State, e: Event) {
    match e
    case BeginLogin(_, observed) => observed <= s.clock
    case FinishLogin(who, _, _, _) => who in s.attempts
    case _ => true
  }

  function Next(s: State, e: Event): State
    requires Enabled(s, e)
  {
    match e
    case Tick(elapsed) => s.(clock := s.clock + elapsed)
    case BeginLogin(peer, observed) =>
      var r := Begun(s.gate, peer, observed);
      s.(gate := r.0, attempts := if r.1.Admitted? then s.attempts[peer := r.1.attempt] else s.attempts)
    case FinishLogin(who, derived, matches, minted) =>
      s.(gate := Finished(s.gate, who, s.attempts[who], s.clock, derived, matches, minted).0, attempts := s.attempts - {who})
    case ReplacePassword => s.(gate := PasswordChanged(s.gate))
    case UseSession(token) => s.(gate := Touched(s.gate, token, s.clock).0)
    case Logout(token) => s.(gate := LoggedOut(s.gate, token))
  }

  ghost predicate Ordered(l: seq<Time>) {
    forall i, j | 0 <= i < j < |l| :: l[i] <= l[j]
  }

  /** From the sixth retained failure onwards, each is at least a minute after the one before. */
  ghost predicate Spaced(l: seq<Time>) {
    Ordered(l) && forall i | FREE_FAILURES <= i < |l| :: l[i] >= l[i - 1] + RETRY_SECONDS * SECOND
  }

  /** The last failure is at least a minute old when the free ones are used up. */
  predicate Cooled(l: seq<Time>, clock: Time) {
    |l| >= FREE_FAILURES ==> l[|l| - 1] + RETRY_SECONDS * SECOND <= clock
  }

  ghost predicate HistoryInv(l: seq<Time>, clock: Time, inFlight: bool) {
    && l != [] && Spaced(l) && l[|l| - 1] <= clock
    && |l| <= MAX_FAILURES
    && (inFlight ==> |l| < MAX_FAILURES && Cooled(l, clock))
  }

  ghost predicate Inv(s: State) {
    var g := s.gate;
    && g.inFlight == s.attempts.Keys
    && |g.inFlight| <= MAX_LOGIN_DERIVATIONS
    && |g.failures.Keys + g.inFlight| <= MAX_LOGIN_PEERS
    && |g.sessions| <= MAX_SESSIONS
    && (forall t | t in g.sessions :: g.sessions[t].verified == g.epoch)
    && HistoriesInv(g, s.clock)
  }

  ghost predicate HistoriesInv(g: Gate, clock: Time) {
    forall p | p in g.failures :: HistoryInv(g.failures[p], clock, p in g.inFlight)
  }

  // ---------------------------------------------------------------- pruning keeps a suffix

  lemma {:induction false} RecentOfOrdered(l: seq<Time>, now: Time)
    requires Ordered(l)
    ensures |Recent(l, now)| <= |l| && Recent(l, now) == l[|l| - |Recent(l, now)|..]
    ensures Recent(l, now) != [] ==> Recent(l, now)[0] > now - FAILURE_WINDOW
  {
    if l != [] {
      RecentOfOrdered(l[1..], now);
      if l[0] > now - FAILURE_WINDOW {
        AllRecent(l, now);
      }
    }
  }

  lemma {:induction false} AllRecent(l: seq<Time>, now: Time)
    requires Ordered(l) && l != [] && l[0] > now - FAILURE_WINDOW
    ensures Recent(l, now) == l
  {
    if |l| > 1 {
      AllRecent(l[1..], now);
    }
  }

  lemma SuffixKeepsHistory(l: seq<Time>, k: nat, clock: Time, inFlight: bool)
    requires k < |l| && HistoryInv(l, clock, inFlight)
    ensures HistoryInv(l[k..], clock, inFlight)
  {
  }

  lemma RecentKeepsHistory(l: seq<Time>, now: Time, clock: Time, inFlight: bool)
    requires HistoryInv(l, clock, inFlight) && Recent(l, now) != []
    ensures HistoryInv(Recent(l, now), clock, inFlight)
  {
    RecentOfOrdered(l, now);
    SuffixKeepsHistory(l, |l| - |Recent(l, now)|, clock, inFlight);
  }

  lemma {:induction false} SpacedSpan(l: seq<Time>, n: nat)
    requires Spaced(l) && FREE_FAILURES <= n <= |l|
    ensures l[n - 1] >= l[FREE_FAILURES - 1] + (n - FREE_FAILURES) * RETRY_SECONDS * SECOND
  {
    if n > FREE_FAILURES {
      SpacedSpan(l, n - 1);
    }
  }

  lemma RetryMeansCooled(recent: seq<Time>, now: Time)
    requires RetryAfter(recent, now) <= 0
    ensures Cooled(recent, now)
  {
  }

  lemma WindowBoundsHistory(l: seq<Time>, now: Time)
    requires Spaced(l) && Cooled(l, now) && (l != [] ==> l[0] > now - FAILURE_WINDOW)
    ensures |l| < MAX_FAILURES
  {
    if |l| >= FREE_FAILURES {
      SpacedSpan(l, |l|);
    }
  }

  /** A history that admits another attempt has room for one more failure, however stale the admission time. */
  lemma AdmittedHistoryHasRoom(l: seq<Time>, now: Time, clock: Time)
    requires HistoryInv(l, clock, false) && now <= clock && RetryAfter(Recent(l, now), now) <= 0
    ensures |Recent(l, now)| < MAX_FAILURES && Cooled(Recent(l, now), clock)
  {
    var r := Recent(l, now);
    RecentOfOrdered(l, now);
    RetryMeansCooled(r, now);
    hide Recent, RetryAfter;
    if r != [] {
      SuffixKeepsHistory(l, |l| - |r|, clock, false);
    }
    WindowBoundsHistory(r, now);
  }

  // ---------------------------------------------------------------- every event keeps the invariant

  lemma PrunedPeerKeepsHistories(failures: map<string, seq<Time>>, peer: string, now: Time, clock: Time, inFlight: set<string>)
    requires forall p | p in failures :: HistoryInv(failures[p], clock, p in inFlight)
    ensures var pruned := PrunedPeer(failures, peer, now);
            && pruned.Keys <= failures.Keys
            && (forall p | p in pruned :: HistoryInv(pruned[p], clock, p in inFlight))
  {
    if peer in failures && Recent(failures[peer], now) != [] {
      RecentKeepsHistory(failures[peer], now, clock, peer in inFlight);
    }
    hide HistoryInv;
  }

  lemma SweptKeepsHistories(g: Gate, now: Time, clock: Time)
    requires forall p | p in g.failures :: HistoryInv(g.failures[p], clock, p in g.inFlight)
    ensures var swept := Swept(g, now);
            && swept == g.(failures := swept.failures, lastSweep := swept.lastSweep)
            && swept.failures.Keys <= g.failures.Keys
            && (forall p | p in swept.failures :: HistoryInv(swept.failures[p], clock, p in g.inFlight))
  {
    forall p | p in g.failures && Recent(g.failures[p], now) != [] ensures HistoryInv(Recent(g.failures[p], now), clock, p in g.inFlight) {
      RecentKeepsHistory(g.failures[p], now, clock, p in g.inFlight);
    }
    hide HistoryInv, Recent;
  }

  lemma SubsetBound<T>(a: set<T>, b: set<T>, bound: nat)
    requires a <= b && |b| <= bound
    ensures |a| <= bound
  {
    assert b == a + (b - a);
  }

  lemma TrackedUnion(failures: set<string>, inFlight: set<string>, peer: string)
    requires |failures + inFlight| <= MAX_LOGIN_PEERS
    requires peer in failures || |failures| + |inFlight - failures| < MAX_LOGIN_PEERS
    ensures |failures + (inFlight + {peer})| <= MAX_LOGIN_PEERS
  {
    assert failures + inFlight == failures + (inFlight - failures);
    assert failures + (inFlight + {peer}) == (failures + inFlight) + {peer};
    if peer in failures {
      assert (failures + inFlight) + {peer} == failures + inFlight;
    }
  }

  /** Once both prunings are done the peer's history decides admission; Pruned is the state that decision sees. */
  function Pruned(g: Gate, peer: string, now: Time): Gate {
    var swept := Swept(g, now);
    swept.(failures := PrunedPeer(swept.failures, peer, now))
  }

  lemma PrunedKeepsHistories(g: Gate, peer: string, now: Time, clock: Time)
    requires HistoriesInv(g, clock)
    ensures HistoriesInv(Pruned(g, peer, now), clock) && Pruned(g, peer, now).failures.Keys <= g.failures.Keys
  {
    SweptKeepsHistories(g, now, clock);
    hide HistoryInv, Swept;
    PrunedPeerKeepsHistories(Swept(g, now).failures, peer, now, clock, g.inFlight);
  }

  lemma PrunedKeepsInv(s: State, peer: string, now: Time)
    requires Inv(s)
    ensures Inv(s.(gate := Pruned(s.gate, peer, now)))
  {
    var g := s.gate;
    PrunedKeepsHistories(g, peer, now, s.clock);
    SubsetBound(Pruned(g, peer, now).failures.Keys + g.inFlight, g.failures.Keys + g.inFlight, MAX_LOGIN_PEERS);
    hide HistoriesInv, PrunedPeer;
  }

  lemma PrunedHistory(failures: map<string, seq<Time>>, peer: string, now: Time)
    ensures var f := PrunedPeer(failures, peer, now);
            && History(f, peer) == Recent(History(failures, peer), now)
            && (peer in f ==> peer in failures && f[peer] == Recent(failures[peer], now) != [])
  {
  }

  /** Pruning a history again at the same time changes nothing, so the decision is taken on a pruned history. */
  lemma AdmissionKeepsHistory(s: State, peer: string, now: Time)
    requires Inv(s) && peer !in s.gate.inFlight && now <= s.clock
    requires RetryAfter(History(Pruned(s.gate, peer, now).failures, peer), now) <= 0
    ensures var g := Pruned(s.gate, peer, now); peer in g.failures ==> HistoryInv(g.failures[peer], s.clock, true)
  {
    var swept := Swept(s.gate, now);
    SweptKeepsHistories(s.gate, now, s.clock);
    PrunedHistory(swept.failures, peer, now);
    PrunedKeepsInv(s, peer, now);
    hide Swept, PrunedPeer, RetryAfter, Recent;
    if peer in Pruned(s.gate, peer, now).failures {
      AdmittedHistoryHasRoom(swept.failures[peer], now, s.clock);
    }
  }

  lemma AdmitKeepsHistories(g: Gate, peer: string, clock: Time)
    requires HistoriesInv(g, clock) && (peer in g.failures ==> HistoryInv(g.failures[peer], clock, true))
    ensures HistoriesInv(g.(inFlight := g.inFlight + {peer}), clock)
  {
    hide HistoryInv;
  }

  lemma InvParts(s: State)
    ensures var g := s.gate;
            Inv(s) <==>
              && g.inFlight == s.attempts.Keys && |g.inFlight| <= MAX_LOGIN_DERIVATIONS && |g.failures.Keys + g.inFlight| <= MAX_LOGIN_PEERS
              && |g.sessions| <= MAX_SESSIONS && (forall t | t in g.sessions :: g.sessions[t].verified == g.epoch)
              && HistoriesInv(g, s.clock)
  {
    hide HistoriesInv;
  }

  lemma AdmitKeepsInv(s: State, peer: string, a: Attempt)
    requires Inv(s) && peer !in s.gate.inFlight && |s.gate.inFlight| < MAX_LOGIN_DERIVATIONS && CanTrack(s.gate, peer)
    requires peer in s.gate.failures ==> HistoryInv(s.gate.failures[peer], s.clock, true)
    ensures Inv(s.(gate := s.gate.(inFlight := s.gate.inFlight + {peer}), attempts := s.attempts[peer := a]))
  {
    AdmitKeepsHistories(s.gate, peer, s.clock);
    AdmitKeepsCapacity(s.gate, peer);
    InvParts(s);
    hide *;
    var t := s.(gate := s.gate.(inFlight := s.gate.inFlight + {peer}), attempts := s.attempts[peer := a]);
    assert t.gate.inFlight == t.attempts.Keys;
    InvParts(t);
  }

  lemma AdmitKeepsCapacity(g: Gate, peer: string)
    requires |g.failures.Keys + g.inFlight| <= MAX_LOGIN_PEERS && CanTrack(g, peer)
    ensures peer !in g.inFlight && |g.inFlight| < MAX_LOGIN_DERIVATIONS ==> |g.inFlight + {peer}| <= MAX_LOGIN_DERIVATIONS
    ensures |g.failures.Keys + (g.inFlight + {peer})| <= MAX_LOGIN_PEERS
  {
    TrackedUnion(g.failures.Keys, g.inFlight, peer);
  }

  /** The first section of a login only prunes, or prunes and admits. */
  lemma BeginOutcome(s: State, peer: string, now: Time)
    requires Enabled(s, BeginLogin(peer, now))
    ensures var g := Pruned(s.gate, peer, now); var t := Next(s, BeginLogin(peer, now));
            || t == s
            || t == s.(gate := g)
            || (&& peer !in g.inFlight && |g.inFlight| < MAX_LOGIN_DERIVATIONS
                && RetryAfter(History(g.failures, peer), now) <= 0 && CanTrack(g, peer)
                && t == s.(gate := g.(inFlight := g.inFlight + {peer}), attempts := s.attempts[peer := Attempt(g.epoch)]))
  {
    hide PrunedPeer, RetryAfter, CanTrack;
  }

  lemma BeginKeepsInv(s: State, peer: string, now: Time)
    requires Inv(s) && Enabled(s, BeginLogin(peer, now))
    ensures Inv(Next(s, BeginLogin(peer, now)))
  {
    var g := Pruned(s.gate, peer, now);
    PrunedKeepsInv(s, peer, now);
    BeginOutcome(s, peer, now);
    if peer !in g.inFlight && RetryAfter(History(g.failures, peer), now) <= 0 {
      assert peer !in s.gate.inFlight;
      AdmissionKeepsHistory(s, peer, now);
    }
    hide Inv, Next, RetryAfter, Pruned, HistoryInv;
    if peer !in g.inFlight && |g.inFlight| < MAX_LOGIN_DERIVATIONS && RetryAfter(History(g.failures, peer), now) <= 0 && CanTrack(g, peer) {
      AdmitKeepsInv(s.(gate := g), peer, Attempt(g.epoch));
    }
  }

  lemma AppendedHistory(l: seq<Time>, clock: Time)
    requires l != [] ==> HistoryInv(l, clock, true)
    ensures HistoryInv(l + [clock], clock, false)
  {
  }

  lemma FinishKeepsHistories(s: State, who: string, derived: bool, matches: bool, minted: string)
    requires HistoriesInv(s.gate, s.clock) && s.gate.inFlight == s.attempts.Keys && Enabled(s, FinishLogin(who, derived, matches, minted))
    ensures HistoriesInv(Next(s, FinishLogin(who, derived, matches, minted)).gate, s.clock)
  {
    AppendedHistory(History(s.gate.failures, who), s.clock);
    assert forall p | p in s.gate.failures :: HistoryInv(s.gate.failures[p], s.clock, true) ==> HistoryInv(s.gate.failures[p], s.clock, false);
    hide HistoryInv, Live;
  }

  lemma FinishedFootprint(g: Gate, who: string, a: Attempt, now: Time, derived: bool, matches: bool, minted: string)
    ensures var h := Finished(g, who, a, now, derived, matches, minted).0;
            h.inFlight == g.inFlight - {who} && h.failures.Keys <= g.failures.Keys + {who}
  {
    hide Live, History;
    assert (g.failures - {who}).Keys == g.failures.Keys - {who};
  }

  lemma FinishKeepsPeers(s: State, who: string, derived: bool, matches: bool, minted: string)
    requires |s.gate.failures.Keys + s.gate.inFlight| <= MAX_LOGIN_PEERS && s.gate.inFlight == s.attempts.Keys
    requires |s.gate.inFlight| <= MAX_LOGIN_DERIVATIONS && Enabled(s, FinishLogin(who, derived, matches, minted))
    ensures var g := Next(s, FinishLogin(who, derived, matches, minted)).gate;
            && |g.failures.Keys + g.inFlight| <= MAX_LOGIN_PEERS
            && |g.inFlight| <= MAX_LOGIN_DERIVATIONS
            && g.inFlight == s.attempts.Keys - {who}
  {
    var g, h := s.gate, Next(s, FinishLogin(who, derived, matches, minted)).gate;
    hide Finished;
    FinishedFootprint(g, who, s.attempts[who], s.clock, derived, matches, minted);
    SubsetBound(h.failures.Keys + h.inFlight, g.failures.Keys + g.inFlight, MAX_LOGIN_PEERS);
    SubsetBound(h.inFlight, g.inFlight, MAX_LOGIN_DERIVATIONS);
  }

  lemma FinishKeepsSessions(s: State, who: string, derived: bool, matches: bool, minted: string)
    requires |s.gate.sessions| <= MAX_SESSIONS && Enabled(s, FinishLogin(who, derived, matches, minted))
    requires forall t | t in s.gate.sessions :: s.gate.sessions[t].verified == s.gate.epoch
    ensures var g := Next(s, FinishLogin(who, derived, matches, minted)).gate;
            |g.sessions| <= MAX_SESSIONS && g.epoch == s.gate.epoch && forall t | t in g.sessions :: g.sessions[t].verified == g.epoch
  {
    LiveShrinks(s.gate.sessions, s.clock);
  }

  lemma FinishKeepsInv(s: State, who: string, derived: bool, matches: bool, minted: string)
    requires Inv(s) && Enabled(s, FinishLogin(who, derived, matches, minted))
    ensures Inv(Next(s, FinishLogin(who, derived, matches, minted)))
  {
    FinishKeepsHistories(s, who, derived, matches, minted);
    FinishKeepsPeers(s, who, derived, matches, minted);
    FinishKeepsSessions(s, who, derived, matches, minted);
    hide HistoriesInv, Finished;
  }

  lemma LiveShrinks(sessions: map<string, Session>, now: Time)
    ensures |Live(sessions, now)| <= |sessions|
  {
    SubsetBound(Live(sessions, now).Keys, sessions.Keys, |sessions|);
  }

  lemma SessionEventKeepsInv(s: State, e: Event)
    requires Inv(s) && (e.UseSession? || e.Logout?)
    ensures Inv(Next(s, e))
  {
    hide HistoriesInv;
    var t := Next(s, e);
    assert t.gate.sessions.Keys <= s.gate.sessions.Keys;
    SubsetBound(t.gate.sessions.Keys, s.gate.sessions.Keys, MAX_SESSIONS);
    assert t == s.(gate := s.gate.(sessions := t.gate.sessions));
    assert HistoriesInv(t.gate, t.clock) by {
      HistoriesIgnoreSessions(s.gate, t.gate.sessions, s.clock);
    }
  }

  lemma HistoriesIgnoreSessions(g: Gate, sessions: map<string, Session>, clock: Time)
    ensures HistoriesInv(g, clock) ==> HistoriesInv(g.(sessions := sessions), clock)
  {
    hide HistoryInv;
  }

  lemma NextKeepsInv(s: State, e: Event)
    requires Inv(s) && Enabled(s, e)
    ensures Inv(Next(s, e))
  {
    match e
    case BeginLogin(peer, observed) => BeginKeepsInv(s, peer, observed);
    case FinishLogin(who, derived, matches, minted) => FinishKeepsInv(s, who, derived, matches, minted);
    case UseSession(token) => SessionEventKeepsInv(s, e);
    case Logout(token) => SessionEventKeepsInv(s, e);
    case Tick(_) =>
    case ReplacePassword =>
  }

  // ---------------------------------------------------------------- whole runs

  ghost predicate IsRun(ss: seq<State>, es: seq<Event>) {
    && |ss| == |es| + 1
    && (forall i {:trigger es[i]} | 0 <= i < |es| :: Enabled(ss[i], es[i]) && ss[i + 1] == Next(ss[i], es[i]))
  }

  predicate Started(s: State) {
    s.gate == Gate(map[], {}, map[], s.gate.epoch, None) && s.attempts == map[]
  }

  lemma {:induction false} RunKeepsInv(ss: seq<State>, es: seq<Event>, i: nat)
    requires IsRun(ss, es) && Started(ss[0]) && i < |ss|
    ensures Inv(ss[i])
  {
    if i > 0 {
      RunKeepsInv(ss, es, i - 1);
      hide Inv, Next, Enabled;
      NextKeepsInv(ss[i - 1], es[i - 1]);
    }
  }

  /** No peer ever has more than nineteen retained failures. */
  lemma FailuresAreBounded(ss: seq<State>, es: seq<Event>, i: nat, peer: string)
    requires IsRun(ss, es) && Started(ss[0]) && i < |ss| && peer in ss[i].gate.failures
    ensures |ss[i].gate.failures[peer]| <= MAX_FAILURES
  {
    RunKeepsInv(ss, es, i);
  }

  /**
   * Over every interleaving: at most 4096 peers are remembered or being checked, at most two derivations run and never
   * two for one peer, at most 1024 sessions live, and none of them came from a password verified before the last change.
   */
  lemma CapacitiesHold(ss: seq<State>, es: seq<Event>, i: nat)
    requires IsRun(ss, es) && Started(ss[0]) && i < |ss|
    ensures var g := ss[i].gate;
            && |g.failures.Keys + ss[i].attempts.Keys| <= MAX_LOGIN_PEERS
            && |ss[i].attempts| <= MAX_LOGIN_DERIVATIONS
            && |g.sessions| <= MAX_SESSIONS
            && (forall t | t in g.sessions :: g.sessions[t].verified == g.epoch)
    ensures i < |es| && es[i].BeginLogin? && es[i].peer in ss[i].attempts ==> ss[i + 1] == ss[i]
  {
    RunKeepsInv(ss, es, i);
  }

  // ---------------------------------------------------------------- the bound is reached

  /** Failures as fast as the throttle admits them: five at once, then one a minute. */
  function Times(n: nat): seq<Time> {
    seq(n, i => if i < FREE_FAILURES then SECOND else SECOND + (i - FREE_FAILURES + 1) * RETRY_SECONDS * SECOND)
  }

  /** One peer has failed n times, nothing else has happened, and the clock stands at the last failure. */
  predicate FailedFor(s: State, peer: string, n: nat) {
    && s.attempts == map[] && s.gate.inFlight == {} && s.gate.sessions == map[]
    && s.gate.failures == (if n == 0 then map[] else map[peer := Times(n)])
    && s.clock == (if n == 0 then SECOND else Times(n)[n - 1])
  }

  lemma TimesStayRecent(n: nat, now: Time)
    requires n < MAX_FAILURES && now == Times(n + 1)[n]
    ensures Recent(Times(n), now) == Times(n) && RetryAfter(Times(n), now) == 0
    ensures Times(n) + [now] == Times(n + 1)
  {
    hide Recent;
    if n == 0 {
      NothingRecent(now);
    } else {
      AllRecent(Times(n), now);
    }
    if n >= FREE_FAILURES {
      assert now - Times(n)[n - 1] == RETRY_SECONDS * SECOND;
    }
  }

  lemma NothingRecent(now: Time)
    ensures Recent([], now) == []
  {
  }

  /** Pruning takes nothing from a history that is still recent. */
  lemma RecentSurvives(g: Gate, peer: string, l: seq<Time>, now: Time)
    requires Recent(l, now) == l && g.failures == (if l == [] then map[] else map[peer := l])
    ensures Swept(g, now).failures == g.failures
    ensures History(g.failures, peer) == l && PrunedPeer(g.failures, peer, now) == g.failures
  {
    hide Recent;
    forall p | p in g.failures ensures p == peer && Recent(g.failures[p], now) == g.failures[p] {
    }
  }

  lemma AdmittedAgain(g: Gate, peer: string, l: seq<Time>, now: Time)
    requires g.inFlight == {} && g.failures == (if l == [] then map[] else map[peer := l])
    requires Recent(l, now) == l && RetryAfter(l, now) == 0
    ensures var r := Begun(g, peer, now);
            && r.1 == Admitted(Attempt(g.epoch))
            && r.0.failures == g.failures && r.0.inFlight == {peer} && r.0.sessions == g.sessions && r.0.epoch == g.epoch
  {
    hide Recent, RetryAfter, PrunedPeer, History;
    RecentSurvives(g, peer, l, now);
    var swept := Swept(g, now);
    assert swept == g.(lastSweep := swept.lastSweep, failures := swept.failures);
    assert CanTrack(swept, peer);
  }

  /** Waiting out the throttle, one more attempt is admitted and fails. */
  lemma OneMoreFailure(s: State, peer: string, n: nat) returns (t: State, u: State, v: State)
    requires FailedFor(s, peer, n) && n < MAX_FAILURES
    ensures var now := Times(n + 1)[n];
            && now >= s.clock && t == Next(s, Tick(now - s.clock))
            && Enabled(t, BeginLogin(peer, now)) && u == Next(t, BeginLogin(peer, now))
            && Enabled(u, FinishLogin(peer, true, false, "")) && v == Next(u, FinishLogin(peer, true, false, ""))
            && FailedFor(v, peer, n + 1)
  {
    hide Recent, RetryAfter, Begun;
    var now := Times(n + 1)[n];
    TimesStayRecent(n, now);
    t := Next(s, Tick(now - s.clock));
    AdmittedAgain(t.gate, peer, Times(n), now);
    u := Next(t, BeginLogin(peer, now));
    assert u.attempts == map[peer := Attempt(t.gate.epoch)];
    v := Next(u, FinishLogin(peer, true, false, ""));
    assert History(u.gate.failures, peer) == Times(n);
    assert v.gate.failures == map[peer := Times(n + 1)];
    assert v.attempts == map[] && v.gate.inFlight == {};
  }

  lemma {:induction false} FailuresAccumulate(peer: string, n: nat) returns (ss: seq<State>, es: seq<Event>)
    requires n <= MAX_FAILURES
    ensures IsRun(ss, es) && Started(ss[0]) && FailedFor(ss[|es|], peer, n)
  {
    if n == 0 {
      ss, es := [State(Gate(map[], {}, map[], 0, None), map[], SECOND)], [];
    } else {
      ss, es := FailuresAccumulate(peer, n - 1);
      var last := ss[|es|];
      var t, u, v := OneMoreFailure(last, peer, n - 1);
      hide Next, FailedFor;
      var now := Times(n)[n - 1];
      var more := [Tick(now - last.clock), BeginLogin(peer, now), FinishLogin(peer, true, false, "")];
      RunExtends(ss, es, [t, u, v], more);
      ss, es := ss + [t, u, v], es + more;
    }
  }

  lemma RunExtends(ss: seq<State>, es: seq<Event>, tt: seq<State>, fs: seq<Event>)
    requires IsRun(ss, es) && |tt| == |fs|
    requires forall i {:trigger fs[i]} | 0 <= i < |fs| ::
               var s := if i == 0 then ss[|es|] else tt[i - 1]; Enabled(s, fs[i]) && tt[i] == Next(s, fs[i])
    ensures IsRun(ss + tt, es + fs)
  {
    hide Next, Enabled;
    forall i | 0 <= i < |es + fs| ensures Enabled((ss + tt)[i], (es + fs)[i]) && (ss + tt)[i + 1] == Next((ss + tt)[i], (es + fs)[i]) {
      if i >= |es| {
        assert (es + fs)[i] == fs[i - |es|];
      }
    }
  }

  /** The bound is exact: a run reaches nineteen retained failures for a peer. */
  lemma FailureBoundIsReached(peer: string)
    ensures exists ss: seq<State>, es: seq<Event> ::
              && IsRun(ss, es) && Started(ss[0])
              && peer in ss[|es|].gate.failures && |ss[|es|].gate.failures[peer]| == MAX_FAILURES
  {
    var ss, es := FailuresAccumulate(peer, MAX_FAILURES);
  }

  // ---------------------------------------------------------------- what a login is answered

  lemma {:induction false} RecentAre(l: seq<Time>, now: Time, t: Time)
    ensures t in Recent(l, now) <==> t in l && now - t < FAILURE_WINDOW
  {
    if l != [] {
      RecentAre(l[1..], now, t);
      assert l == [l[0]] + l[1..];
    }
  }

  lemma {:induction false} RecentTwice(l: seq<Time>, now: Time)
    ensures Recent(Recent(l, now), now) == Recent(l, now)
  {
    if l != [] {
      RecentTwice(l[1..], now);
      var rest := Recent(l[1..], now);
      assert ([l[0]] + rest)[1..] == rest && [] + rest == rest;
    }
  }

  /** The number of seconds told is the least after which the delay since the last failure is over. */
  lemma WaitIsExact(recent: seq<Time>, now: Time)
    requires |recent| >= FREE_FAILURES && recent[|recent| - 1] <= now
    ensures var over, n := recent[|recent| - 1] + RETRY_SECONDS * SECOND, RetryAfter(recent, now);
            && (n == 0 <==> over <= now)
            && n >= 0 && now + n * SECOND >= over
            && (n > 0 ==> now + (n - 1) * SECOND < over)
  {
  }

  /** Sweeping and pruning take no failure inside the window away, from whomever. */
  lemma PruningForgetsNothingRecent(g: Gate, peer: string, other: string, now: Time)
    ensures Recent(History(Pruned(g, peer, now).failures, other), now) == Recent(History(g.failures, other), now)
  {
    RecentTwice(History(g.failures, other), now);
    RecentTwice(History(Swept(g, now).failures, other), now);
  }

  /** What pruning leaves of a peer's failures is what lies inside the window. */
  lemma PrunedHistoryIsRecent(g: Gate, peer: string, now: Time)
    ensures History(Pruned(g, peer, now).failures, peer) == Recent(History(g.failures, peer), now)
    ensures Pruned(g, peer, now).failures.Keys <= g.failures.Keys
  {
    var swept := Swept(g, now);
    PrunedHistory(swept.failures, peer, now);
    RecentTwice(History(g.failures, peer), now);
    assert peer !in swept.failures && peer in g.failures ==> Recent(g.failures[peer], now) == [];
  }

  /**
   * A login is admitted, with the password's epoch, unless its peer is being answered already or two others are, or five
   * failures lie inside the window and the delay since the last is not over; then it is told how long to wait. Only the
   * number of peers remembered can make an exception.
   */
  lemma BeginAnswers(g: Gate, peer: string, now: Time)
    requires forall t | t in History(g.failures, peer) :: t <= now
    ensures var recent, r := Recent(History(g.failures, peer), now), Begun(g, peer, now).1;
            var busy := peer in g.inFlight || |g.inFlight| >= MAX_LOGIN_DERIVATIONS;
            var delayed := |recent| >= FREE_FAILURES && now < recent[|recent| - 1] + RETRY_SECONDS * SECOND;
            && (busy ==> r == Throttled(1))
            && (!busy && delayed ==>
                 && r.Throttled? && now + r.seconds * SECOND >= recent[|recent| - 1] + RETRY_SECONDS * SECOND
                 && now + (r.seconds - 1) * SECOND < recent[|recent| - 1] + RETRY_SECONDS * SECOND)
            && (!busy && !delayed ==> r == Admitted(Attempt(g.epoch)) || r == Throttled(1))
            && (!busy && !delayed && |g.failures.Keys + g.inFlight| < MAX_LOGIN_PEERS ==> r == Admitted(Attempt(g.epoch)))
  {
    var recent, pruned := Recent(History(g.failures, peer), now), Pruned(g, peer, now);
    if peer in g.inFlight || |g.inFlight| >= MAX_LOGIN_DERIVATIONS {
      return;
    }
    BegunOnPruned(g, peer, now);
    PrunedHistoryIsRecent(g, peer, now);
    if |recent| >= FREE_FAILURES {
      RecentAre(History(g.failures, peer), now, recent[|recent| - 1]);
      WaitIsExact(recent, now);
    }
    RoomForPeers(pruned, g, peer);
    hide Recent, RetryAfter, Pruned, CanTrack, Begun, History;
    assert |recent| < FREE_FAILURES ==> RetryAfter(recent, now) == 0 by {
      FreeFailures(recent, now);
    }
  }

  lemma FreeFailures(recent: seq<Time>, now: Time)
    ensures |recent| < FREE_FAILURES ==> RetryAfter(recent, now) == 0
  {
  }

  lemma BegunOnPruned(g: Gate, peer: string, now: Time)
    requires peer !in g.inFlight && |g.inFlight| < MAX_LOGIN_DERIVATIONS
    ensures var pruned := Pruned(g, peer, now);
            var retry := RetryAfter(History(pruned.failures, peer), now);
            && pruned.inFlight == g.inFlight
            && Begun(g, peer, now).1 ==
               if retry > 0 || !CanTrack(pruned, peer) then Throttled(if retry > 1 then retry else 1) else Admitted(Attempt(g.epoch))
  {
    hide RetryAfter, CanTrack, PrunedPeer, Recent;
  }

  lemma RoomForPeers(pruned: Gate, g: Gate, peer: string)
    requires pruned.inFlight == g.inFlight && pruned.failures.Keys <= g.failures.Keys
    ensures |g.failures.Keys + g.inFlight| < MAX_LOGIN_PEERS ==> CanTrack(pruned, peer)
  {
    FewerPeers(pruned.failures.Keys, g.inFlight, g.failures.Keys + g.inFlight);
  }

  lemma FewerPeers(failures: set<string>, inFlight: set<string>, all: set<string>)
    requires failures + inFlight <= all
    ensures |failures| + |inFlight - failures| <= |all|
  {
    SubsetBound(failures + (inFlight - failures), all, |all|);
  }

  /** The verdict, and that it alone decides: a right password of the present epoch logs in, a wrong or outdated one is one more failure. */
  lemma FinishAnswers(g: Gate, peer: string, a: Attempt, now: Time, derived: bool, matches: bool, token: string)
    ensures var r := Finished(g, peer, a, now, derived, matches, token);
            var right := matches && a.epoch == g.epoch;
            && (r.1.DerivationFailed? <==> !derived)
            && (r.1.InvalidCredentials? <==> derived && !right)
            && (r.1.LoggedIn? <==> derived && right && |Live(g.sessions, now)| < MAX_SESSIONS)
            && (r.1.SessionCapacity? <==> derived && right && |Live(g.sessions, now)| >= MAX_SESSIONS)
            && peer !in r.0.inFlight && r.0.epoch == g.epoch
            && (r.1.InvalidCredentials? ==> History(r.0.failures, peer) == History(g.failures, peer) + [now])
            && (derived && right ==> peer !in r.0.failures)
            && (forall other | other != peer :: History(r.0.failures, other) == History(g.failures, other))
            && (forall t | t in g.sessions && now < g.sessions[t].expires && t != token :: t in r.0.sessions && r.0.sessions[t] == g.sessions[t])
  {
  }

  /** A session just entered is found for its whole time to live, is extended by each use, and is found no longer afterwards. */
  lemma SessionLasts(g: Gate, peer: string, a: Attempt, now: Time, token: string, used: Time, again: Time)
    requires a.epoch == g.epoch && |Live(g.sessions, now)| < MAX_SESSIONS
    ensures var entered := Finished(g, peer, a, now, true, true, token).0;
            && (Touched(entered, token, used).1 <==> used < now + SESSION_TTL)
            && (used < now + SESSION_TTL ==> (Touched(Touched(entered, token, used).0, token, again).1 <==> again < used + SESSION_TTL))
            && !Touched(LoggedOut(entered, token), token, used).1
            && !Touched(PasswordChanged(entered), token, used).1
  {
  }

  /** Using a session or logging out of it leaves every other session as it was. */
  lemma OtherSessionsLast(g: Gate, token: string, other: string, used: Time, again: Time)
    requires other != token
    ensures Touched(LoggedOut(g, token), other, again).1 <==> Touched(g, other, again).1
    ensures Touched(Touched(g, token, used).0, other, again).1 <==> Touched(g, other, again).1
  {
  }

  /** A sweep is due a minute after the last one; it leaves no peer without a failure inside the window. */
  lemma SweepsEveryMinute(g: Gate, now: Time)
    ensures g.lastSweep.Some? && now - g.lastSweep.value < 60_000_000_000 ==> Swept(g, now) == g
    ensures g.lastSweep.None? || now - g.lastSweep.value >= 60_000_000_000 ==>
              var t := Swept(g, now);
              t.lastSweep == Some(now) && t.failures.Keys == set p | p in g.failures && Recent(g.failures[p], now) != []
  {
    hide Recent;
  }

  /** The sessions that count against the capacity are those that can still be used. */
  lemma LiveMeansUsable(g: Gate, token: string, now: Time)
    ensures token in Live(g.sessions, now) <==> Touched(g, token, now).1
    ensures !Touched(g, token, now).1 ==> Touched(g, token, now).0 == g.(sessions := g.sessions - {token})
  {
  }
}
