/**
 * The directory of media providers: one current provider for each line, replaced under the line's write lock, refreshed
 * by heartbeats without it, and used under its read lock.
 */
module ProviderDirectory {
  import opened Common

  type Time = int

  datatype Provider = Provider(line: string, id: string, generation: string, card: string, baseURL: string, token: string)

  datatype Fence = Fence(line: string, id: string, generation: string, card: string)

  function FenceOf(p: Provider): Fence {
    Fence(p.line, p.id, p.generation, p.card)
  }

  datatype Route = Route(provider: Provider, lastSeen: Time)

  datatype Directory = Directory(current: map<string, Route>, seen: map<string, set<string>>)

  function Seen(d: Directory, line: string): set<string> {
    if line in d.seen then d.seen[line] else {}
  }

  predicate IsCurrent(d: Directory, line: string, generation: string) {
    line in d.current && d.current[line].provider.generation == generation
  }

  datatype Outcome = Refreshed | IdentityChanged | GenerationReused | Installed | NotCurrent

  // ---------------------------------------------------------------- the locked sections

  /** A heartbeat of the generation that is current; anything else about the provider must be unchanged. */
  function Heartbeat(d: Directory, p: Provider, now: Time): (Directory, Outcome) {
    if !IsCurrent(d, p.line, p.generation) then (d, NotCurrent)
    else if d.current[p.line].provider != p then (d, IdentityChanged)
    else (d.(current := d.current[p.line := Route(p, now)]), Refreshed)
  }

  /** The section under both locks: a heartbeat after all, or a generation never seen on this line before. */
  function Install(d: Directory, p: Provider, now: Time): (Directory, Outcome) {
    if IsCurrent(d, p.line, p.generation) then Heartbeat(d, p, now)
    else if p.generation in Seen(d, p.line) then (d, GenerationReused)
    else (Directory(d.current[p.line := Route(p, now)], d.seen[p.line := Seen(d, p.line) + {p.generation}]), Installed)
  }

  function Removed(d: Directory, line: string, generation: string): Directory {
    if IsCurrent(d, line, generation) then d.(current := d.current - {line}) else d
  }

  datatype Lookup = Unavailable | FenceConflict | Found(provider: Provider)

  function Look(d: Directory, line: string, expected: Option<Fence>, now: Time, ttl: Time): Lookup {
    if line !in d.current || now - d.current[line].lastSeen > ttl then Unavailable
    else if expected.Some? && FenceOf(d.current[line].provider) != expected.value then FenceConflict
    else Found(d.current[line].provider)
  }

  function TrimSlash(s: string): string {
    if s != "" && s[|s| - 1] == '/' then s[..|s| - 1] else s
  }

  function Normalized(p: Provider): Provider {
    Provider(Trim(p.line), Trim(p.id), Trim(p.generation), Trim(p.card), TrimSlash(Trim(p.baseURL)), p.token)
  }

  function TrimmedFence(f: Fence): Fence {
    Fence(Trim(f.line), Trim(f.id), Trim(f.generation), Trim(f.card))
  }

  class Store {
    var current: map<string, Route>
    var seen: map<string, set<string>>
    const ttl: Time

    function View(): Directory
      reads this
    {
      Directory(current, seen)
    }

    constructor (ttl: Time)
      ensures View() == Directory(map[], map[]) && this.ttl == ttl
    {
      current, seen := map[], map[];
      this.ttl := ttl;
    }

    /** Replace up to the line lock. */
    method TryHeartbeat(given: Provider, now: Time) returns (outcome: Outcome, p: Provider)
      modifies this
      ensures p == Normalized(given)
      ensures (View(), outcome) == Heartbeat(old(View()), p, now)
    {
      p := Normalized(given);
      if p.line in current && current[p.line].provider.generation == p.generation {
        if current[p.line].provider != p {
          return IdentityChanged, p;
        }
        current := current[p.line := current[p.line].(lastSeen := now)];
        return Refreshed, p;
      }
      outcome := NotCurrent;
    }

    /** Replace under the line's write lock, on the provider normalised before. */
    method InstallLocked(p: Provider, now: Time) returns (outcome: Outcome)
      modifies this
      ensures (View(), outcome) == Install(old(View()), p, now)
    {
      if p.line in current && current[p.line].provider.generation == p.generation {
        if current[p.line].provider != p {
          return IdentityChanged;
        }
        current := current[p.line := current[p.line].(lastSeen := now)];
        return Refreshed;
      }
      if p.line in seen && p.generation in seen[p.line] {
        return GenerationReused;
      }
      ghost var before := seen;
      if p.line !in seen {
        seen := seen[p.line := {}];
      }
      assert seen[p.line := seen[p.line] + {p.generation}] == before[p.line := seen[p.line] + {p.generation}];
      seen := seen[p.line := seen[p.line] + {p.generation}];
      current := current[p.line := Route(p, now)];
      outcome := Installed;
    }

    method RemoveLocked(line: string, generation: string)
      modifies this
      ensures View() == Removed(old(View()), Trim(line), Trim(generation))
    {
      var key := Trim(line);
      if key in current && current[key].provider.generation == Trim(generation) {
        current := current - {key};
      }
    }

    /** What UseCurrent and UseExpected read under the line's read lock. */
    method LookLocked(line: string, expected: Option<Fence>, now: Time) returns (found: Lookup)
      ensures found == Look(View(), line, expected, now, ttl)
    {
      if line !in current || now - current[line].lastSeen > ttl {
        return Unavailable;
      }
      if expected.Some? && FenceOf(current[line].provider) != expected.value {
        return FenceConflict;
      }
      found := Found(current[line].provider);
    }
  }

  // ---------------------------------------------------------------- concurrent operations

  type Thread = nat

  datatype Lock = Lock(readers: set<Thread>, writer: Option<Thread>)

  /** Where an operation stands; a thread with no entry has not begun or has returned. */
  datatype Phase =
    | ReplaceWaits(provider: Provider)
    | ReplaceHolds(provider: Provider)
    | RemoveWaits(line: string, generation: string)
    | RemoveHolds(line: string, generation: string)
    | Wrote(line: string)
    | UseWaits(line: string, expected: Option<Fence>)
    | UseHolds(line: string, expected: Option<Fence>)
    | Using(used: Provider, expected: Option<Fence>)
    | Read(line: string)

  datatype System = System(directory: Directory, locks: map<string, Lock>, threads: map<Thread, Phase>)

  function LineLock(s: System, line: string): Lock {
    if line in s.locks then s.locks[line] else Lock({}, None)
  }

  datatype Event =
    | BeginReplace(t: Thread, given: Provider, now: Time)
    | BeginRemove(t: Thread, line: string, generation: string)
    | BeginUse(t: Thread, line: string)
    | BeginUseExpected(t: Thread, expected: Fence)
    | LockForWriting(t: Thread)
    | LockForReading(t: Thread)
    | Write(t: Thread, now: Time)
    | LookUp(t: Thread, now: Time, cancelled: bool)
    | CallbackReturns(t: Thread)
    | Unlock(t: Thread)

  function WaitsForWriting(p: Phase): Option<string> {
    match p
    case ReplaceWaits(q) => Some(q.line)
    case RemoveWaits(line, _) => Some(line)
    case _ => None
  }

  function HoldsForWriting(p: Phase): Option<string> {
    match p
    case ReplaceHolds(q) => Some(q.line)
    case RemoveHolds(line, _) => Some(line)
    case Wrote(line) => Some(line)
    case _ => None
  }

  function HoldsForReading(p: Phase): Option<string> {
    match p
    case UseHolds(line, _) => Some(line)
    case Using(q, _) => Some(q.line)
    case Read(line) => Some(line)
    case _ => None
  }

  function Enter(s: System, t: Thread, p: Phase): System {
    s.(threads := s.threads[t := p])
  }

  /** One atomic step; ttl is the directory's. The URL checks of a provider are settled before BeginReplace. */
  ghost predicate Next(s: System, e: Event, n: System, ttl: Time) {
    match e
    case BeginReplace(t, given, now) =>
      && t !in s.threads
      && var p := Normalized(given);
      && var h := Heartbeat(s.directory, p, now);
      n == if h.1.NotCurrent? then Enter(s, t, ReplaceWaits(p)) else s.(directory := h.0)
    case BeginRemove(t, line, generation) =>
      t !in s.threads && n == Enter(s, t, RemoveWaits(Trim(line), Trim(generation)))
    case BeginUse(t, line) =>
      t !in s.threads && n == Enter(s, t, UseWaits(Trim(line), None))
    case BeginUseExpected(t, expected) =>
      t !in s.threads && n == Enter(s, t, UseWaits(Trim(expected.line), Some(TrimmedFence(expected))))
    case LockForWriting(t) =>
      && t in s.threads && WaitsForWriting(s.threads[t]).Some?
      && var line := WaitsForWriting(s.threads[t]).value;
      && LineLock(s, line) == Lock({}, None)
      && n == Enter(s, t, match s.threads[t]
                          case ReplaceWaits(p) => ReplaceHolds(p)
                          case RemoveWaits(l, g) => RemoveHolds(l, g)
                          case p => p)
              .(locks := s.locks[line := Lock({}, Some(t))])
    case LockForReading(t) =>
      && t in s.threads && s.threads[t].UseWaits?
      && var line := s.threads[t].line;
      && LineLock(s, line).writer.None?
      && n == Enter(s, t, UseHolds(line, s.threads[t].expected))
              .(locks := s.locks[line := Lock(LineLock(s, line).readers + {t}, None)])
    case Write(t, now) =>
      t in s.threads &&
      (|| (s.threads[t].ReplaceHolds? &&
           n == Enter(s, t, Wrote(s.threads[t].provider.line)).(directory := Install(s.directory, s.threads[t].provider, now).0))
       || (s.threads[t].RemoveHolds? &&
           n == Enter(s, t, Wrote(s.threads[t].line)).(directory := Removed(s.directory, s.threads[t].line, s.threads[t].generation))))
    case LookUp(t, now, cancelled) =>
      && t in s.threads && s.threads[t].UseHolds?
      && var found := Look(s.directory, s.threads[t].line, s.threads[t].expected, now, ttl);
      n == Enter(s, t, if found.Found? && !cancelled then Using(found.provider, s.threads[t].expected) else Read(s.threads[t].line))
    case CallbackReturns(t) =>
      && t in s.threads && s.threads[t].Using?
      && n == Enter(s, t, Read(s.threads[t].used.line))
    case Unlock(t) =>
      t in s.threads &&
      (|| (s.threads[t].Wrote? && n == s.(threads := s.threads - {t}, locks := s.locks[s.threads[t].line := Lock({}, None)]))
       || (s.threads[t].Read? &&
           n == s.(threads := s.threads - {t},
                   locks := s.locks[s.threads[t].line := LineLock(s, s.threads[t].line).(readers := LineLock(s, s.threads[t].line).readers - {t})])))
  }

  // ---------------------------------------------------------------- the invariant

  ghost predicate LocksHeld(s: System) {
    && (forall t | t in s.threads && HoldsForWriting(s.threads[t]).Some? :: LineLock(s, HoldsForWriting(s.threads[t]).value) == Lock({}, Some(t)))
    && (forall t | t in s.threads && HoldsForReading(s.threads[t]).Some? ::
          t in LineLock(s, HoldsForReading(s.threads[t]).value).readers && LineLock(s, HoldsForReading(s.threads[t]).value).writer.None?)
  }

  predicate DirectoryInOrder(d: Directory) {
    && (forall line | line in d.current :: d.current[line].provider.line == line)
    && (forall line | line in d.current :: d.current[line].provider.generation in Seen(d, line))
  }

  /** A running callback has the provider that is current, and the fence it asked for. */
  ghost predicate CallbacksCurrent(s: System) {
    forall t | t in s.threads && s.threads[t].Using? ::
      && s.threads[t].used.line in s.directory.current
      && s.directory.current[s.threads[t].used.line].provider == s.threads[t].used
      && (s.threads[t].expected.Some? ==> FenceOf(s.threads[t].used) == s.threads[t].expected.value)
  }

  ghost predicate Inv(s: System) {
    LocksHeld(s) && DirectoryInOrder(s.directory) && CallbacksCurrent(s)
  }

  /** What a step may do to the directory: on one line at most, and a change of provider is a removal or a new generation. */
  ghost predicate Moves(d: Directory, e: Directory) {
    && (forall line :: Seen(d, line) <= Seen(e, line))
    && (forall line | line in e.current ::
          || (line in d.current && e.current[line].provider == d.current[line].provider)
          || (e.current[line].provider.generation !in Seen(d, line)))
  }

  lemma HeartbeatKeepsProviders(d: Directory, p: Provider, now: Time)
    ensures var e := Heartbeat(d, p, now).0;
            && e.seen == d.seen && e.current.Keys == d.current.Keys
            && (forall line | line in d.current :: e.current[line].provider == d.current[line].provider)
  {
  }

  lemma InstallMoves(d: Directory, p: Provider, now: Time)
    requires DirectoryInOrder(d)
    ensures var e := Install(d, p, now).0;
            && DirectoryInOrder(e) && Moves(d, e)
            && (forall line | line != p.line :: (line in e.current <==> line in d.current) && (line in d.current ==> e.current[line] == d.current[line]))
  {
    HeartbeatKeepsProviders(d, p, now);
  }

  /** What LocksHeld asks of one thread. */
  ghost predicate HoldsItsLock(s: System, t: Thread)
    requires t in s.threads
  {
    var p := s.threads[t];
    && (HoldsForWriting(p).Some? ==> LineLock(s, HoldsForWriting(p).value) == Lock({}, Some(t)))
    && (HoldsForReading(p).Some? ==> t in LineLock(s, HoldsForReading(p).value).readers && LineLock(s, HoldsForReading(p).value).writer.None?)
  }

  lemma LocksStayHeld(s: System, e: Event, n: System, ttl: Time)
    requires LocksHeld(s) && DirectoryInOrder(s.directory) && Next(s, e, n, ttl)
    ensures LocksHeld(n)
  {
    hide Next;
    assert forall u | u in s.threads :: HoldsItsLock(s, u);
    forall t | t in n.threads ensures HoldsItsLock(n, t) {
      LockStaysHeld(s, e, n, ttl, t);
    }
  }

  lemma LockStaysHeld(s: System, e: Event, n: System, ttl: Time, t: Thread)
    requires (forall u | u in s.threads :: HoldsItsLock(s, u)) && DirectoryInOrder(s.directory) && Next(s, e, n, ttl) && t in n.threads
    ensures HoldsItsLock(n, t)
  {
    hide Heartbeat, Install, Removed, Trim, Normalized, TrimmedFence;
    if e.t in s.threads {
      assert HoldsItsLock(s, e.t);
    }
    if t in s.threads {
      assert HoldsItsLock(s, t);
    }
  }

  lemma DirectoryStaysInOrder(s: System, e: Event, n: System, ttl: Time)
    requires DirectoryInOrder(s.directory) && Next(s, e, n, ttl)
    ensures DirectoryInOrder(n.directory) && Moves(s.directory, n.directory)
  {
    hide Heartbeat, Install, Trim, Normalized, TrimmedFence, LineLock, Look;
    match e {
      case BeginReplace(t, given, now) => HeartbeatKeepsProviders(s.directory, Normalized(given), now);
      case Write(t, now) =>
        if s.threads[t].ReplaceHolds? {
          InstallMoves(s.directory, s.threads[t].provider, now);
        }
      case BeginRemove(_, _, _) =>
      case BeginUse(_, _) =>
      case BeginUseExpected(_, _) =>
      case LockForWriting(_) =>
      case LockForReading(_) =>
      case LookUp(_, _, _) =>
      case CallbackReturns(_) =>
      case Unlock(_) =>
    }
  }

  /** Only a thread that holds a line's write lock changes which provider is current there. */
  lemma OnlyWritersReplace(s: System, e: Event, n: System, ttl: Time, line: string)
    requires Inv(s) && Next(s, e, n, ttl) && line in s.directory.current
    requires LineLock(s, line).writer.None?
    ensures line in n.directory.current && n.directory.current[line].provider == s.directory.current[line].provider
  {
    hide Heartbeat, Install, Trim, Normalized, TrimmedFence, CallbacksCurrent, Look;
    match e {
      case BeginReplace(t, given, now) => HeartbeatKeepsProviders(s.directory, Normalized(given), now);
      case Write(t, now) =>
        if s.threads[t].ReplaceHolds? {
          InstallMoves(s.directory, s.threads[t].provider, now);
        }
      case BeginRemove(_, _, _) =>
      case BeginUse(_, _) =>
      case BeginUseExpected(_, _) =>
      case LockForWriting(_) =>
      case LockForReading(_) =>
      case LookUp(_, _, _) =>
      case CallbackReturns(_) =>
      case Unlock(_) =>
    }
  }

  lemma CallbacksStayCurrent(s: System, e: Event, n: System, ttl: Time)
    requires Inv(s) && Next(s, e, n, ttl)
    ensures CallbacksCurrent(n)
  {
    forall t | t in n.threads && n.threads[t].Using?
      ensures n.threads[t].used.line in n.directory.current
      ensures n.directory.current[n.threads[t].used.line].provider == n.threads[t].used
      ensures n.threads[t].expected.Some? ==> FenceOf(n.threads[t].used) == n.threads[t].expected.value {
      CallbackStaysCurrent(s, e, n, ttl, t);
    }
  }

  lemma CallbackStaysCurrent(s: System, e: Event, n: System, ttl: Time, t: Thread)
    requires Inv(s) && Next(s, e, n, ttl) && t in n.threads && n.threads[t].Using?
    ensures var phase := n.threads[t];
            && phase.used.line in n.directory.current && n.directory.current[phase.used.line].provider == phase.used
            && (phase.expected.Some? ==> FenceOf(phase.used) == phase.expected.value)
  {
    hide Heartbeat, Install, Removed, Trim, Normalized, TrimmedFence;
    if t in s.threads && s.threads[t] == n.threads[t] {
      OnlyWritersReplace(s, e, n, ttl, n.threads[t].used.line);
    } else {
      assert e.LookUp? && e.t == t;
    }
  }

  lemma NextKeepsInv(s: System, e: Event, n: System, ttl: Time)
    requires Inv(s) && Next(s, e, n, ttl)
    ensures Inv(n) && Moves(s.directory, n.directory)
  {
    hide Next, LocksHeld, DirectoryInOrder, CallbacksCurrent, Moves;
    LocksStayHeld(s, e, n, ttl);
    DirectoryStaysInOrder(s, e, n, ttl);
    CallbacksStayCurrent(s, e, n, ttl);
  }

  // ---------------------------------------------------------------- runs

  const IDLE := System(Directory(map[], map[]), map[], map[])

  ghost predicate IsRun(ss: seq<System>, es: seq<Event>, ttl: Time) {
    && |ss| == |es| + 1
    && ss[0] == IDLE
    && forall i {:trigger es[i]} | 0 <= i < |es| :: Next(ss[i], es[i], ss[i + 1], ttl)
  }

  lemma {:induction false} RunKeepsInv(ss: seq<System>, es: seq<Event>, ttl: Time, i: nat)
    requires IsRun(ss, es, ttl) && i < |ss|
    ensures Inv(ss[i])
  {
    hide Next;
    if i > 0 {
      RunKeepsInv(ss, es, ttl, i - 1);
      NextKeepsInv(ss[i - 1], es[i - 1], ss[i], ttl);
    }
  }

  /** Whenever a callback of UseCurrent or UseExpected is running, its provider is current and is the one expected. */
  lemma CallbackRunsOnTheCurrentProvider(ss: seq<System>, es: seq<Event>, ttl: Time, i: nat, t: Thread)
    requires IsRun(ss, es, ttl) && i < |ss| && t in ss[i].threads && ss[i].threads[t].Using?
    ensures var phase := ss[i].threads[t];
            && phase.used.line in ss[i].directory.current
            && ss[i].directory.current[phase.used.line].provider == phase.used
            && (phase.expected.Some? ==> FenceOf(phase.used) == phase.expected.value)
  {
    RunKeepsInv(ss, es, ttl, i);
  }

  lemma {:induction false} SeenGrows(ss: seq<System>, es: seq<Event>, ttl: Time, i: nat, j: nat, line: string)
    requires IsRun(ss, es, ttl) && i <= j < |ss|
    ensures Seen(ss[i].directory, line) <= Seen(ss[j].directory, line)
  {
    hide Next, Inv;
    if i < j {
      SeenGrows(ss, es, ttl, i, j - 1, line);
      RunKeepsInv(ss, es, ttl, j - 1);
      NextKeepsInv(ss[j - 1], es[j - 1], ss[j], ttl);
    }
  }

  /** A generation that is current was so without interruption since it was seen. */
  lemma {:induction false} GenerationIsCurrentOnce(ss: seq<System>, es: seq<Event>, ttl: Time, i: nat, j: nat, k: nat, line: string, generation: string)
    requires IsRun(ss, es, ttl) && i <= j <= k < |ss|
    requires IsCurrent(ss[i].directory, line, generation) && !IsCurrent(ss[j].directory, line, generation)
    ensures !IsCurrent(ss[k].directory, line, generation)
  {
    hide Next;
    if j < k {
      GenerationIsCurrentOnce(ss, es, ttl, i, j, k - 1, line, generation);
      RunKeepsInv(ss, es, ttl, i);
      SeenGrows(ss, es, ttl, i, k - 1, line);
      RunKeepsInv(ss, es, ttl, k - 1);
      NextKeepsInv(ss[k - 1], es[k - 1], ss[k], ttl);
    }
  }

  /** While it is current a generation has one identity, heartbeats included. */
  lemma {:induction false} GenerationHasOneIdentity(ss: seq<System>, es: seq<Event>, ttl: Time, i: nat, j: nat, line: string, generation: string)
    requires IsRun(ss, es, ttl) && i <= j < |ss|
    requires IsCurrent(ss[i].directory, line, generation) && IsCurrent(ss[j].directory, line, generation)
    ensures ss[j].directory.current[line].provider == ss[i].directory.current[line].provider
  {
    hide Next;
    if i < j {
      if !IsCurrent(ss[j - 1].directory, line, generation) {
        GenerationIsCurrentOnce(ss, es, ttl, i, j - 1, j, line, generation);
      } else {
        GenerationHasOneIdentity(ss, es, ttl, i, j - 1, line, generation);
        RunKeepsInv(ss, es, ttl, j - 1);
        NextKeepsInv(ss[j - 1], es[j - 1], ss[j], ttl);
      }
    }
  }

  /** A heartbeat of the current provider goes through while callbacks run, and only its time changes. */
  lemma HeartbeatIsNeverBlocked(s: System, t: Thread, given: Provider, now: Time, ttl: Time) returns (n: System)
    requires Inv(s) && t !in s.threads
    requires var p := Normalized(given); p.line in s.directory.current && s.directory.current[p.line].provider == p
    ensures Next(s, BeginReplace(t, given, now), n, ttl)
    ensures n == s.(directory := s.directory.(current := s.directory.current[Normalized(given).line := Route(Normalized(given), now)]))
  {
    hide Normalized;
    n := s.(directory := Heartbeat(s.directory, Normalized(given), now).0);
  }

  // ---------------------------------------------------------------- who is found, and how fresh

  /** The line has a provider that was heard of within the time to live. */
  predicate Live(d: Directory, line: string, now: Time, ttl: Time) {
    line in d.current && now - d.current[line].lastSeen <= ttl
  }

  /** The provider is the one with exactly these ids. */
  predicate Fits(p: Provider, f: Fence) {
    (p.line, p.id, p.generation, p.card) == (f.line, f.id, f.generation, f.card)
  }

  /** Absent or silent for too long is unavailable; live but not the one expected is a conflict; anything else is handed out. */
  lemma LookAnswers(d: Directory, line: string, expected: Option<Fence>, now: Time, ttl: Time)
    ensures var answer := Look(d, line, expected, now, ttl);
            && (answer.Unavailable? <==> !Live(d, line, now, ttl))
            && (answer.FenceConflict? <==> Live(d, line, now, ttl) && expected.Some? && !Fits(d.current[line].provider, expected.value))
            && (answer.Found? <==> Live(d, line, now, ttl) && (expected.Some? ==> Fits(d.current[line].provider, expected.value)))
            && (answer.Found? ==> answer.provider == d.current[line].provider)
  {
  }

  /** A lookup that is not cancelled starts its callback if and only if the line's provider is live and the one expected. */
  lemma LookUpStartsCallbackIff(ss: seq<System>, es: seq<Event>, ttl: Time, i: nat)
    requires IsRun(ss, es, ttl) && i < |es| && es[i].LookUp?
    ensures var e, d := es[i], ss[i].directory;
            && e.t in ss[i].threads && ss[i].threads[e.t].UseHolds? && e.t in ss[i + 1].threads
            && var line, expected := ss[i].threads[e.t].line, ss[i].threads[e.t].expected;
            && (ss[i + 1].threads[e.t].Using? <==>
                 !e.cancelled && Live(d, line, e.now, ttl) && (expected.Some? ==> Fits(d.current[line].provider, expected.value)))
            && (ss[i + 1].threads[e.t].Using? ==> ss[i + 1].threads[e.t].used == d.current[line].provider)
            && ss[i + 1].directory == d
  {
    assert Next(ss[i], es[i], ss[i + 1], ttl);
    LookAnswers(ss[i].directory, ss[i].threads[es[i].t].line, ss[i].threads[es[i].t].expected, es[i].now, ttl);
    hide Look, Trim;
  }

  /** The event is word from the provider at the given time: a registration carried out, or a heartbeat. */
  ghost predicate Word(s: System, e: Event, p: Provider, at: Time) {
    || (e.BeginReplace? && Normalized(e.given) == p && e.now == at)
    || (e.Write? && e.t in s.threads && s.threads[e.t] == ReplaceHolds(p) && e.now == at)
  }

  lemma RouteComesFromWord(s: System, e: Event, n: System, ttl: Time, line: string)
    requires DirectoryInOrder(s.directory) && Next(s, e, n, ttl) && line in n.directory.current
    ensures (line in s.directory.current && s.directory.current[line] == n.directory.current[line]) ||
            Word(s, e, n.directory.current[line].provider, n.directory.current[line].lastSeen)
  {
    hide Trim, Normalized, TrimmedFence, LineLock, Look;
  }

  /** Along every run: a current provider was last seen when there last was word from that very provider. */
  lemma {:induction false} LastSeenIsWord(ss: seq<System>, es: seq<Event>, ttl: Time, i: nat, line: string) returns (k: nat)
    requires IsRun(ss, es, ttl) && i < |ss| && line in ss[i].directory.current
    ensures k < i && Word(ss[k], es[k], ss[i].directory.current[line].provider, ss[i].directory.current[line].lastSeen)
  {
    hide Next, Word;
    if i > 0 {
      RunKeepsInv(ss, es, ttl, i - 1);
      RouteComesFromWord(ss[i - 1], es[i - 1], ss[i], ttl, line);
      if Word(ss[i - 1], es[i - 1], ss[i].directory.current[line].provider, ss[i].directory.current[line].lastSeen) {
        k := i - 1;
      } else {
        k := LastSeenIsWord(ss, es, ttl, i - 1, line);
      }
    }
  }

  /** So a callback starts only on a provider from which there was word within the time to live. */
  lemma CallbackStartsOnALiveProvider(ss: seq<System>, es: seq<Event>, ttl: Time, i: nat) returns (k: nat, at: Time)
    requires IsRun(ss, es, ttl) && i < |es| && es[i].LookUp? && es[i].t in ss[i + 1].threads && ss[i + 1].threads[es[i].t].Using?
    ensures k < i && Word(ss[k], es[k], ss[i + 1].threads[es[i].t].used, at) && es[i].now - at <= ttl
  {
    hide Next, Word;
    LookUpStartsCallbackIff(ss, es, ttl, i);
    var line := ss[i].threads[es[i].t].line;
    at := ss[i].directory.current[line].lastSeen;
    k := LastSeenIsWord(ss, es, ttl, i, line);
  }

  /** A registration under the line lock: carried out for a generation new to the line, refreshed for the very same provider. */
  lemma InstallAnswers(d: Directory, p: Provider, now: Time, then': Time, ttl: Time)
    ensures var r := Install(d, p, now);
            && (r.1.Installed? <==> !IsCurrent(d, p.line, p.generation) && p.generation !in Seen(d, p.line))
            && (r.1.GenerationReused? <==> !IsCurrent(d, p.line, p.generation) && p.generation in Seen(d, p.line))
            && (r.1.Refreshed? <==> p.line in d.current && d.current[p.line].provider == p)
            && (r.1.Installed? || r.1.Refreshed? ==>
                 r.0.current == d.current[p.line := Route(p, now)] &&
                 (Look(r.0, p.line, None, then', ttl) == Found(p) <==> then' - now <= ttl))
            && (!r.1.Installed? && !r.1.Refreshed? ==> r.0 == d)
  {
  }

  /** A provider that is removed is unavailable, and no other is touched. */
  lemma RemovedIsUnavailable(d: Directory, line: string, generation: string, now: Time, ttl: Time)
    requires IsCurrent(d, line, generation)
    ensures var e := Removed(d, line, generation);
            && Look(e, line, None, now, ttl).Unavailable?
            && (forall l | l != line :: (l in e.current <==> l in d.current) && (l in d.current ==> e.current[l] == d.current[l]))
  {
  }

  /** Whether the base URL ends in a slash makes no other provider. */
  lemma SlashMakesNoDifference(p: Provider)
    requires Trim(p.baseURL) == p.baseURL && Trim(p.baseURL + "/") == p.baseURL + "/" && !EndsInSlash(p.baseURL)
    ensures Normalized(p.(baseURL := p.baseURL + "/")) == Normalized(p) && Normalized(p).baseURL == p.baseURL
  {
    hide Trim;
  }

  predicate EndsInSlash(s: string) {
    s != "" && s[|s| - 1] == '/'
  }

  /** A use of a live provider can be carried through where nobody writes: the callback runs, and directory and locks are left as they were. */
  lemma UseCarriesThrough(s: System, t: Thread, line: string, now: Time, ttl: Time) returns (run: seq<System>)
    requires Inv(s) && t !in s.threads && LineLock(s, Trim(line)).writer.None? && Live(s.directory, Trim(line), now, ttl)
    ensures |run| == 6 && run[0] == s
    ensures Next(run[0], BeginUse(t, line), run[1], ttl) && Next(run[1], LockForReading(t), run[2], ttl)
    ensures Next(run[2], LookUp(t, now, false), run[3], ttl)
    ensures t in run[3].threads && run[3].threads[t] == Using(s.directory.current[Trim(line)].provider, None)
    ensures Next(run[3], CallbackReturns(t), run[4], ttl) && Next(run[4], Unlock(t), run[5], ttl)
    ensures run[5].directory == s.directory && run[5].threads == s.threads
    ensures LineLock(run[5], Trim(line)) == LineLock(s, Trim(line)).(readers := LineLock(s, Trim(line)).readers - {t})
    ensures forall l | l != Trim(line) :: LineLock(run[5], l) == LineLock(s, l)
  {
    var l := Trim(line);
    InvMeans(s, l);
    var waiting, held := UseIsAdmitted(s, t, line, ttl);
    hide *;
    var used, read, done := UseIsServed(held, t, l, now, ttl);
    assert held.threads - {t} == s.threads;
    run := [s, waiting, held, used, read, done];
    assert LineLock(held, l).readers - {t} == LineLock(s, l).readers - {t};
    forall k | k != l ensures LineLock(done, k) == LineLock(s, k) {
      assert LineLock(held, k) == LineLock(s, k);
    }
  }

  lemma InvMeans(s: System, line: string)
    requires Inv(s) && line in s.directory.current
    ensures s.directory.current[line].provider.line == line
  {
  }

  lemma UseIsAdmitted(s: System, t: Thread, line: string, ttl: Time) returns (waiting: System, held: System)
    requires t !in s.threads && LineLock(s, Trim(line)).writer.None?
    ensures Next(s, BeginUse(t, line), waiting, ttl) && Next(waiting, LockForReading(t), held, ttl)
    ensures held.directory == s.directory && t in held.threads && held.threads[t] == UseHolds(Trim(line), None)
    ensures held.threads - {t} == s.threads
    ensures LineLock(held, Trim(line)) == Lock(LineLock(s, Trim(line)).readers + {t}, None)
    ensures forall l | l != Trim(line) :: LineLock(held, l) == LineLock(s, l)
  {
    hide Trim;
    var l := Trim(line);
    waiting := Enter(s, t, UseWaits(l, None));
    held := Enter(waiting, t, UseHolds(l, None)).(locks := s.locks[l := Lock(LineLock(s, l).readers + {t}, None)]);
    assert held.threads - {t} == s.threads;
  }

  lemma UseIsServed(held: System, t: Thread, line: string, now: Time, ttl: Time) returns (used: System, read: System, done: System)
    requires t in held.threads && held.threads[t] == UseHolds(line, None) && Live(held.directory, line, now, ttl)
    requires held.directory.current[line].provider.line == line
    ensures Next(held, LookUp(t, now, false), used, ttl) && Next(used, CallbackReturns(t), read, ttl) && Next(read, Unlock(t), done, ttl)
    ensures t in used.threads && used.threads[t] == Using(held.directory.current[line].provider, None)
    ensures done.directory == held.directory && done.threads == held.threads - {t}
    ensures LineLock(done, line) == LineLock(held, line).(readers := LineLock(held, line).readers - {t})
    ensures forall l | l != line :: LineLock(done, l) == LineLock(held, l)
  {
    LookAnswers(held.directory, line, None, now, ttl);
    hide Look;
    used := Enter(held, t, Using(held.directory.current[line].provider, None));
    read := Enter(used, t, Read(line));
    done := read.(threads := read.threads - {t},
                  locks := read.locks[line := LineLock(held, line).(readers := LineLock(held, line).readers - {t})]);
    assert done.threads == held.threads - {t};
  }

  /** A replacement can be carried through where the line is unlocked: the provider is installed, and the line is unlocked again. */
  lemma ReplacementCarriesThrough(s: System, t: Thread, given: Provider, now: Time, later: Time, ttl: Time) returns (run: seq<System>)
    requires t !in s.threads && Heartbeat(s.directory, Normalized(given), now).1.NotCurrent?
    requires LineLock(s, Normalized(given).line) == Lock({}, None)
    ensures |run| == 5 && run[0] == s
    ensures Next(run[0], BeginReplace(t, given, now), run[1], ttl) && Next(run[1], LockForWriting(t), run[2], ttl)
    ensures Next(run[2], Write(t, later), run[3], ttl) && Next(run[3], Unlock(t), run[4], ttl)
    ensures run[4].directory == Install(s.directory, Normalized(given), later).0 && run[4].threads == s.threads
    ensures forall l :: LineLock(run[4], l) == LineLock(s, l)
  {
    hide Normalized, Install;
    var p := Normalized(given);
    var waiting := Enter(s, t, ReplaceWaits(p));
    var held := Enter(waiting, t, ReplaceHolds(p)).(locks := s.locks[p.line := Lock({}, Some(t))]);
    assert Next(waiting, LockForWriting(t), held, ttl);
    var wrote, done := ReplacementIsWritten(held, t, p, later, ttl);
    assert held.threads - {t} == s.threads;
    run := [s, waiting, held, wrote, done];
  }

  lemma ReplacementIsWritten(held: System, t: Thread, p: Provider, now: Time, ttl: Time) returns (wrote: System, done: System)
    requires t in held.threads && held.threads[t] == ReplaceHolds(p)
    ensures Next(held, Write(t, now), wrote, ttl) && Next(wrote, Unlock(t), done, ttl)
    ensures done == System(Install(held.directory, p, now).0, held.locks[p.line := Lock({}, None)], held.threads - {t})
  {
    hide Install;
    wrote := Enter(held, t, Wrote(p.line)).(directory := Install(held.directory, p, now).0);
    done := wrote.(threads := wrote.threads - {t}, locks := wrote.locks[p.line := Lock({}, None)]);
    assert done.threads == held.threads - {t};
  }

  /** So can a removal. */
  lemma RemovalCarriesThrough(s: System, t: Thread, line: string, generation: string, now: Time, ttl: Time) returns (run: seq<System>)
    requires t !in s.threads && LineLock(s, Trim(line)) == Lock({}, None)
    ensures |run| == 5 && run[0] == s
    ensures Next(run[0], BeginRemove(t, line, generation), run[1], ttl) && Next(run[1], LockForWriting(t), run[2], ttl)
    ensures Next(run[2], Write(t, now), run[3], ttl) && Next(run[3], Unlock(t), run[4], ttl)
    ensures run[4].directory == Removed(s.directory, Trim(line), Trim(generation)) && run[4].threads == s.threads
    ensures forall l :: LineLock(run[4], l) == LineLock(s, l)
  {
    hide Trim, Removed;
    var l, g := Trim(line), Trim(generation);
    var waiting := Enter(s, t, RemoveWaits(l, g));
    var held := Enter(waiting, t, RemoveHolds(l, g)).(locks := s.locks[l := Lock({}, Some(t))]);
    assert Next(waiting, LockForWriting(t), held, ttl);
    var wrote, done := RemovalIsWritten(held, t, l, g, now, ttl);
    assert held.threads - {t} == s.threads;
    run := [s, waiting, held, wrote, done];
  }

  lemma RemovalIsWritten(held: System, t: Thread, l: string, g: string, now: Time, ttl: Time) returns (wrote: System, done: System)
    requires t in held.threads && held.threads[t] == RemoveHolds(l, g)
    ensures Next(held, Write(t, now), wrote, ttl) && Next(wrote, Unlock(t), done, ttl)
    ensures done == System(Removed(held.directory, l, g), held.locks[l := Lock({}, None)], held.threads - {t})
  {
    hide Removed;
    wrote := Enter(held, t, Wrote(l)).(directory := Removed(held.directory, l, g));
    done := wrote.(threads := wrote.threads - {t}, locks := wrote.locks[l := Lock({}, None)]);
    assert done.threads == held.threads - {t};
  }
}
