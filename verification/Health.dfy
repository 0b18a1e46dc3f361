/**
 * Health reports: the Agent normalises and masks its topology and sends it only when its revision changed; the server
 * rebuilds the topology of every report. A revision is a digest and is represented by the topology it digests. The
 * checks on the fields of single facts are a parameter.
 */
module Health {
  import opened Common
  import opened Ordering

  datatype Policy = Policy(enrollment: Option<string>, rest: string)

  datatype Reader = Reader(name: string, rest: string)

  datatype Modem = Modem(attachment: string, simAPDUOnDemand: bool, policy: Option<Policy>, rest: string)

  datatype Recovery = Recovery(equipment: string, card: string, rest: string)

  datatype RawSession = RawSession(role: string, usb: string, rest: string)

  /** A topology; everything that is neither a list of facts nor the host is in its status. */
  datatype Topology = Topology(
    host: Option<string>,
    status: string,
    readers: seq<Reader>,
    modems: seq<Modem>,
    recoveries: seq<Recovery>,
    sessions: seq<RawSession>)

  type Checks = Topology -> bool

  type Revision = Option<Topology>

  datatype Feature = DeviceDefaults | ModemPolicy | SIMAPDUPrepare | HostHealth

  const ReaderKey: Reader -> string := (r: Reader) => r.name
  const ModemKey: Modem -> string := (m: Modem) => m.attachment
  const RecoveryKey: Recovery -> string := (r: Recovery) => r.equipment + "/" + r.card
  const SessionKey: RawSession -> string := (s: RawSession) => s.role + "/" + s.usb

  // ---------------------------------------------------------------- normalisation

  function Sorted<T(!new)>(items: seq<T>, key: T -> string): (r: seq<T>)
    ensures multiset(r) == multiset(items)
  {
    if items == [] then []
    else
      assert items == items[..|items| - 1] + [items[|items| - 1]];
      Insert(items[|items| - 1], Sorted(items[..|items| - 1], key), key)
  }

  lemma {:induction false} SortedIsSorted<T(!new)>(items: seq<T>, key: T -> string)
    ensures SortedBy(Sorted(items, key), key)
  {
    if items != [] {
      SortedIsSorted(items[..|items| - 1], key);
      InsertSorts(items[|items| - 1], Sorted(items[..|items| - 1], key), key);
    }
  }

  /** One outcome of NormalizeTopology; which one it is does not matter for topologies that pass validation. */
  function Normalized(t: Topology): Topology {
    t.(readers := Sorted(t.readers, ReaderKey), modems := Sorted(t.modems, ModemKey),
       recoveries := Sorted(t.recoveries, RecoveryKey), sessions := Sorted(t.sessions, SessionKey))
  }

  ghost predicate SameFacts(a: Topology, b: Topology) {
    && (a.host, a.status) == (b.host, b.status)
    && multiset(a.readers) == multiset(b.readers) && multiset(a.modems) == multiset(b.modems)
    && multiset(a.recoveries) == multiset(b.recoveries) && multiset(a.sessions) == multiset(b.sessions)
  }

  ghost predicate InOrder(t: Topology) {
    SortedBy(t.readers, ReaderKey) && SortedBy(t.modems, ModemKey) && SortedBy(t.recoveries, RecoveryKey) && SortedBy(t.sessions, SessionKey)
  }

  ghost predicate DistinctFacts(t: Topology) {
    && DistinctKeys(t.readers, ReaderKey) && DistinctKeys(t.modems, ModemKey)
    && DistinctKeys(t.recoveries, RecoveryKey) && DistinctKeys(t.sessions, SessionKey)
  }

  /** Validate's ordering rule: each key is greater than the one before. */
  predicate Increasing<T>(items: seq<T>, key: T -> string) {
    forall i | 0 < i < |items| :: Less(key(items[i - 1]), key(items[i]))
  }

  predicate Valid(t: Topology, checks: Checks) {
    && Increasing(t.readers, ReaderKey) && Increasing(t.modems, ModemKey)
    && Increasing(t.recoveries, RecoveryKey) && Increasing(t.sessions, SessionKey)
    && checks(t)
  }

  lemma {:induction false} IncreasingFrom<T(!new)>(items: seq<T>, key: T -> string, i: nat, j: nat)
    requires Increasing(items, key) && i < j < |items|
    ensures Less(key(items[i]), key(items[j]))
  {
    if i + 1 < j {
      IncreasingFrom(items, key, i, j - 1);
      LessIsTransitive(key(items[i]), key(items[j - 1]), key(items[j]));
    }
  }

  /** Strictly increasing means sorted without two equal keys. */
  lemma IncreasingIff<T(!new)>(items: seq<T>, key: T -> string)
    ensures Increasing(items, key) <==> SortedBy(items, key) && DistinctKeys(items, key)
  {
    if Increasing(items, key) {
      forall i, j | 0 <= i < j < |items| ensures AtMost(key(items[i]), key(items[j])) && key(items[i]) != key(items[j]) {
        IncreasingFrom(items, key, i, j);
        LessIsTotal(key(items[i]), key(items[j]));
      }
    }
  }

  /** Whether keys are distinct does not depend on the order of the items. */
  lemma DistinctWhateverTheOrder<T(!new)>(a: seq<T>, b: seq<T>, key: T -> string)
    requires multiset(a) == multiset(b) && DistinctKeys(a, key)
    ensures DistinctKeys(b, key)
  {
    forall i, j | 0 <= i < j < |b| ensures key(b[i]) != key(b[j]) {
      if key(b[i]) == key(b[j]) {
        assert b[i] in multiset(a) && b[j] in multiset(a);
        var p :| 0 <= p < |a| && a[p] == b[i];
        var q :| 0 <= q < |a| && a[q] == b[j];
        assert p == q;
        TwiceInOne(b, i, j);
        OnceInOther(a, p, key);
        assert false;
      }
    }
  }

  lemma TwiceInOne<T>(b: seq<T>, i: nat, j: nat)
    requires i < j < |b| && b[i] == b[j]
    ensures multiset(b)[b[i]] >= 2
  {
    assert b == b[..i] + [b[i]] + b[i + 1..j] + [b[j]] + b[j + 1..];
  }

  lemma OnceInOther<T(!new)>(a: seq<T>, p: nat, key: T -> string)
    requires p < |a| && DistinctKeys(a, key)
    ensures multiset(a)[a[p]] == 1
  {
    assert a == a[..p] + [a[p]] + a[p + 1..];
    assert a[p] !in a[..p] && a[p] !in a[p + 1..];
  }

  lemma SameWhateverTheOrder<T(!new)>(a: seq<T>, b: seq<T>, key: T -> string)
    requires multiset(a) == multiset(b) && DistinctKeys(a, key)
    ensures Sorted(a, key) == Sorted(b, key) && Increasing(Sorted(a, key), key)
  {
    SortedIsSorted(a, key);
    SortedIsSorted(b, key);
    DistinctWhateverTheOrder(a, Sorted(a, key), key);
    SortIsUnique(Sorted(a, key), Sorted(b, key), key);
    IncreasingIff(Sorted(a, key), key);
  }

  /** Normalisation does not depend on the order in which the facts were found, if no two share a key. */
  lemma NormalisationIgnoresOrder(a: Topology, b: Topology)
    requires SameFacts(a, b) && DistinctFacts(a)
    ensures Normalized(a) == Normalized(b)
    ensures Valid(Normalized(a), _ => true)
  {
    SameWhateverTheOrder(a.readers, b.readers, ReaderKey);
    SameWhateverTheOrder(a.modems, b.modems, ModemKey);
    SameWhateverTheOrder(a.recoveries, b.recoveries, RecoveryKey);
    SameWhateverTheOrder(a.sessions, b.sessions, SessionKey);
  }

  /** Any sorted arrangement of the same facts is the normal form. */
  lemma NormalFormIsUnique(t: Topology, n: Topology)
    requires SameFacts(t, n) && DistinctFacts(t) && InOrder(n)
    ensures n == Normalized(t)
  {
    NormalisationIgnoresOrder(t, n);
    DistinctWhateverTheOrder(t.readers, n.readers, ReaderKey);
    DistinctWhateverTheOrder(t.modems, n.modems, ModemKey);
    DistinctWhateverTheOrder(t.recoveries, n.recoveries, RecoveryKey);
    DistinctWhateverTheOrder(t.sessions, n.sessions, SessionKey);
    SortedAlready(n.readers, ReaderKey);
    SortedAlready(n.modems, ModemKey);
    SortedAlready(n.recoveries, RecoveryKey);
    SortedAlready(n.sessions, SessionKey);
  }

  lemma SortedAlready<T(!new)>(items: seq<T>, key: T -> string)
    requires SortedBy(items, key) && DistinctKeys(items, key)
    ensures Sorted(items, key) == items
  {
    SortedIsSorted(items, key);
    SortIsUnique(items, Sorted(items, key), key);
  }

  /** What passes validation is its own normal form. */
  lemma NormalisationIsIdempotent(t: Topology, checks: Checks)
    requires Valid(t, checks)
    ensures Normalized(t) == t && InOrder(t) && DistinctFacts(t)
  {
    IncreasingIff(t.readers, ReaderKey);
    IncreasingIff(t.modems, ModemKey);
    IncreasingIff(t.recoveries, RecoveryKey);
    IncreasingIff(t.sessions, SessionKey);
    NormalFormIsUnique(t, t);
  }

  /** NormalizeTopology: a copy with each list sorted by its key; ties may come out either way. */
  method NormalizeTopology(t: Topology) returns (result: Topology)
    ensures InOrder(result) && SameFacts(t, result)
    ensures DistinctFacts(t) ==> result == Normalized(t)
  {
    var readers := SortByKey(t.readers, ReaderKey);
    var modems := SortByKey(t.modems, ModemKey);
    var sessions := SortByKey(t.sessions, SessionKey);
    var recoveries := SortByKey(t.recoveries, RecoveryKey);
    result := t.(readers := readers, modems := modems, recoveries := recoveries, sessions := sessions);
    if DistinctFacts(t) {
      NormalFormIsUnique(t, result);
    }
  }

  // ---------------------------------------------------------------- masking what was not negotiated

  function MaskedPolicy(p: Option<Policy>, features: set<Feature>): Option<Policy> {
    if ModemPolicy !in features then None
    else if p.Some? && DeviceDefaults !in features then Some(p.value.(enrollment := None))
    else p
  }

  function MaskedModem(m: Modem, features: set<Feature>): Modem {
    m.(policy := MaskedPolicy(m.policy, features), simAPDUOnDemand := m.simAPDUOnDemand && SIMAPDUPrepare in features)
  }

  function MaskedModems(ms: seq<Modem>, features: set<Feature>): (r: seq<Modem>)
    ensures |r| == |ms|
    ensures forall i | 0 <= i < |ms| :: r[i] == MaskedModem(ms[i], features)
  {
    seq(|ms|, i requires 0 <= i < |ms| => MaskedModem(ms[i], features))
  }

  function Masked(t: Topology, features: set<Feature>): Topology {
    t.(host := if HostHealth in features then t.host else None, modems := MaskedModems(t.modems, features))
  }

  /** What the server refuses on a connection with the given features. */
  predicate Negotiated(t: Topology, features: set<Feature>) {
    && (t.host.Some? ==> HostHealth in features)
    && (DeviceDefaults !in features ==> forall i | 0 <= i < |t.modems| :: t.modems[i].policy.Some? ==> t.modems[i].policy.value.enrollment.None?)
    && (SIMAPDUPrepare !in features ==> forall i | 0 <= i < |t.modems| :: !t.modems[i].simAPDUOnDemand)
  }

  /** A masked topology passes the server's checks, whatever the Agent observed, if the server knows the same features. */
  lemma MaskedIsNegotiated(t: Topology, features: set<Feature>)
    ensures Negotiated(Masked(t, features), features)
  {
  }

  /** Masking takes away exactly what was not negotiated: all else about a topology is carried as it was observed. */
  lemma MaskingIsExact(t: Topology, features: set<Feature>)
    ensures var m := Masked(t, features);
            && (m.status, m.readers, m.recoveries, m.sessions) == (t.status, t.readers, t.recoveries, t.sessions)
            && m.host == (if HostHealth in features then t.host else None)
            && |m.modems| == |t.modems|
            && forall i | 0 <= i < |t.modems| ::
                 var was, now := t.modems[i], m.modems[i];
                 && (now.attachment, now.rest) == (was.attachment, was.rest)
                 && (now.simAPDUOnDemand <==> was.simAPDUOnDemand && SIMAPDUPrepare in features)
                 && (now.policy.Some? <==> was.policy.Some? && ModemPolicy in features)
                 && (now.policy.Some? ==>
                      && now.policy.value.rest == was.policy.value.rest
                      && now.policy.value.enrollment == if DeviceDefaults in features then was.policy.value.enrollment else None)
  {
  }

  /** The topology a report stands for. */
  function Published(observed: Topology, features: set<Feature>): Topology {
    Masked(Normalized(observed), features)
  }

  /** Validity of what is published rules out ties, so the sorting algorithm cannot matter. */
  lemma ValidMeansDistinct(observed: Topology, n: Topology, features: set<Feature>, checks: Checks)
    requires SameFacts(observed, n) && InOrder(n) && Valid(Masked(n, features), checks)
    ensures DistinctFacts(observed) && n == Normalized(observed)
  {
    var m := Masked(n, features);
    IncreasingIff(m.readers, ReaderKey);
    IncreasingIff(m.modems, ModemKey);
    IncreasingIff(m.recoveries, RecoveryKey);
    IncreasingIff(m.sessions, SessionKey);
    forall i, j | 0 <= i < j < |n.modems| ensures ModemKey(n.modems[i]) != ModemKey(n.modems[j]) {
      assert ModemKey(m.modems[i]) == ModemKey(n.modems[i]) && ModemKey(m.modems[j]) == ModemKey(n.modems[j]);
    }
    DistinctWhateverTheOrder(n.readers, observed.readers, ReaderKey);
    DistinctWhateverTheOrder(n.modems, observed.modems, ModemKey);
    DistinctWhateverTheOrder(n.recoveries, observed.recoveries, RecoveryKey);
    DistinctWhateverTheOrder(n.sessions, observed.sessions, SessionKey);
    NormalFormIsUnique(observed, n);
  }

  lemma ValidEitherWay(observed: Topology, n: Topology, features: set<Feature>, checks: Checks)
    requires SameFacts(observed, n) && InOrder(n)
    ensures Valid(Masked(n, features), checks) <==> Valid(Published(observed, features), checks)
    ensures Valid(Masked(n, features), checks) ==> Masked(n, features) == Published(observed, features)
  {
    if Valid(Masked(n, features), checks) {
      ValidMeansDistinct(observed, n, features, checks);
    }
    if Valid(Published(observed, features), checks) {
      NormalizedIsNormal(observed);
      ValidMeansDistinct(observed, Normalized(observed), features, checks);
      NormalFormIsUnique(observed, n);
    }
  }

  lemma NormalizedIsNormal(t: Topology)
    ensures InOrder(Normalized(t)) && SameFacts(t, Normalized(t))
  {
    SortedIsSorted(t.readers, ReaderKey);
    SortedIsSorted(t.modems, ModemKey);
    SortedIsSorted(t.recoveries, RecoveryKey);
    SortedIsSorted(t.sessions, SessionKey);
  }

  // ---------------------------------------------------------------- the Agent's side

  datatype Report = Report(sequence: nat, revision: Revision, topology: Option<Topology>)

  class Reporter {
    const features: set<Feature>
    const checks: Checks
    var sequence: nat
    var lastRevision: Revision

    constructor (features: set<Feature>, checks: Checks)
      ensures this.features == features && this.checks == checks && sequence == 0 && lastRevision.None?
    {
      this.features, this.checks, sequence, lastRevision := features, checks, 0, None;
    }

    /** One round of reportHealth: nothing is sent if the topology does not validate; it is carried only if it is new. */
    method ReportOnce(observed: Topology) returns (report: Option<Report>)
      modifies this
      ensures report.Some? <==> Valid(Published(observed, features), checks)
      ensures report.Some? ==>
                var t := Published(observed, features);
                && sequence == old(sequence) + 1 && lastRevision == Some(t)
                && report.value == Report(sequence, Some(t), if old(lastRevision) == Some(t) then None else Some(t))
      ensures report.None? ==> sequence == old(sequence) && lastRevision == old(lastRevision)
    {
      hide Published, Valid, Normalized;
      var n := NormalizeTopology(observed);
      var topology := n;
      if HostHealth !in features {
        topology := topology.(host := None);
      }
      var modems := MaskLoop(topology.modems);
      topology := topology.(modems := modems);
      assert topology == Masked(n, features);
      ValidEitherWay(observed, n, features, checks);
      if !Valid(topology, checks) {
        return None;
      }
      sequence := sequence + 1;
      var carried := if lastRevision == Some(topology) then None else Some(topology);
      report := Some(Report(sequence, Some(topology), carried));
      lastRevision := Some(topology);
    }

    /** The rounds of reportHealth on a new connection, up to the first topology that does not validate. */
    method ReportHealth(observed: seq<Topology>) returns (sent: seq<Report>)
      requires sequence == 0 && lastRevision.None?
      modifies this
      ensures |sent| <= |observed| && sent == Sent(observed[..|sent|], features)
      ensures forall i | 0 <= i < |sent| :: Valid(Published(observed[i], features), checks)
      ensures |sent| < |observed| ==> !Valid(Published(observed[|sent|], features), checks)
    {
      hide Published, Valid, Normalized;
      sent := [];
      for i := 0 to |observed|
        invariant |sent| == sequence == i && sent == Sent(observed[..i], features)
        invariant lastRevision == if i == 0 then None else Some(Published(observed[i - 1], features))
        invariant forall k | 0 <= k < i :: Valid(Published(observed[k], features), checks)
      {
        var report := ReportOnce(observed[i]);
        if report.None? {
          return;
        }
        assert observed[..i + 1][..i] == observed[..i];
        sent := sent + [report.value];
      }
    }

    /** The three passes over the modems. */
    method MaskLoop(given: seq<Modem>) returns (modems: seq<Modem>)
      ensures modems == MaskedModems(given, features)
    {
      modems := given;
      if ModemPolicy !in features {
        for i := 0 to |modems|
          invariant |modems| == |given|
          invariant forall k | 0 <= k < |given| :: modems[k] == if k < i then given[k].(policy := None) else given[k]
        {
          modems := modems[i := modems[i].(policy := None)];
        }
      }
      ghost var first := modems;
      assert forall k | 0 <= k < |given| :: first[k] == if ModemPolicy !in features then given[k].(policy := None) else given[k];
      if DeviceDefaults !in features {
        for i := 0 to |modems|
          invariant |modems| == |given|
          invariant forall k | 0 <= k < |given| :: modems[k] == if k < i then WithoutEnrollment(first[k]) else first[k]
        {
          modems := modems[i := WithoutEnrollment(modems[i])];
        }
      }
      ghost var second := modems;
      assert forall k | 0 <= k < |given| :: second[k] == if DeviceDefaults !in features then WithoutEnrollment(first[k]) else first[k];
      if SIMAPDUPrepare !in features {
        for i := 0 to |modems|
          invariant |modems| == |given|
          invariant forall k | 0 <= k < |given| :: modems[k] == if k < i then second[k].(simAPDUOnDemand := false) else second[k]
        {
          modems := modems[i := modems[i].(simAPDUOnDemand := false)];
        }
      }
    }
  }

  function WithoutEnrollment(m: Modem): Modem {
    if m.policy.Some? then m.(policy := Some(m.policy.value.(enrollment := None))) else m
  }

  // ---------------------------------------------------------------- the server's side

  datatype Health = Health(sequence: nat, wireRevision: Revision, revision: Revision, topology: Option<Topology>)

  const UNREPORTED := Health(0, None, None, None)

  /** readLoop's validation of a report and applyHealth. */
  function Applied(h: Health, r: Report, features: set<Feature>, checks: Checks): Option<Health> {
    if r.sequence == 0 || r.revision.None? || (r.topology.Some? && !Valid(r.topology.value, checks)) then None
    else if r.sequence <= h.sequence then None
    else if r.topology.None? then
      if h.sequence == 0 || r.revision != h.wireRevision then None else Some(h.(sequence := r.sequence))
    else if !Negotiated(r.topology.value, features) then None
    else Some(Health(r.sequence, r.revision, Some(r.topology.value), Some(Normalized(r.topology.value))))
  }

  class HealthConnection {
    const features: set<Feature>
    const checks: Checks
    var sequence: nat
    var wireRevision: Revision
    var revision: Revision
    var topology: Option<Topology>

    function View(): Health
      reads this
    {
      Health(sequence, wireRevision, revision, topology)
    }

    constructor (features: set<Feature>, checks: Checks)
      ensures View() == UNREPORTED && this.features == features && this.checks == checks
    {
      this.features, this.checks := features, checks;
      sequence, wireRevision, revision, topology := 0, None, None, None;
    }

    method ApplyHealth(report: Report) returns (ok: bool)
      requires report.sequence > 0 && report.revision.Some? && (report.topology.Some? ==> Valid(report.topology.value, checks))
      modifies this
      ensures ok <==> Applied(old(View()), report, features, checks).Some?
      ensures View() == if ok then Applied(old(View()), report, features, checks).value else old(View())
    {
      hide Valid, Normalized;
      if report.sequence <= sequence {
        return false;
      }
      if report.topology.None? {
        if sequence == 0 || report.revision != wireRevision {
          return false;
        }
      } else {
        var t := report.topology.value;
        if t.host.Some? && HostHealth !in features {
          return false;
        }
        if DeviceDefaults !in features {
          for i := 0 to |t.modems|
            invariant forall k | 0 <= k < i :: t.modems[k].policy.Some? ==> t.modems[k].policy.value.enrollment.None?
          {
            if t.modems[i].policy.Some? && t.modems[i].policy.value.enrollment.Some? {
              return false;
            }
          }
        }
        if SIMAPDUPrepare !in features {
          for i := 0 to |t.modems|
            invariant forall k | 0 <= k < i :: !t.modems[k].simAPDUOnDemand
          {
            if t.modems[i].simAPDUOnDemand {
              return false;
            }
          }
        }
        NormalisationIsIdempotent(t, checks);
        var normal := NormalizeTopology(t);
        topology := Some(normal);
        wireRevision := report.revision;
        revision := Some(t);
      }
      sequence := report.sequence;
      ok := true;
    }
  }

  // ---------------------------------------------------------------- the channel as a whole

  /** What ReportHealth sends for a series of observations, all of which validate. */
  function Sent(observed: seq<Topology>, features: set<Feature>): seq<Report> {
    if observed == [] then []
    else
      var n := |observed| - 1;
      var t := Published(observed[n], features);
      Sent(observed[..n], features) +
      [Report(n + 1, Some(t), if n > 0 && Published(observed[n - 1], features) == t then None else Some(t))]
  }

  /** The server's state after a series of reports, None once one was refused. */
  function Received(reports: seq<Report>, features: set<Feature>, checks: Checks): Option<Health> {
    if reports == [] then Some(UNREPORTED)
    else
      var before := Received(reports[..|reports| - 1], features, checks);
      if before.None? then None else Applied(before.value, reports[|reports| - 1], features, checks)
  }

  /**
   * Sending differences refines sending everything: no report of an honest in-order stream is refused, and after each
   * of them the server holds the whole normalised topology the report stands for, carried or not.
   */
  lemma {:induction false} DeltaRefinesFull(observed: seq<Topology>, features: set<Feature>, checks: Checks)
    requires observed != []
    requires forall i | 0 <= i < |observed| :: Valid(Published(observed[i], features), checks)
    ensures var t := Some(Published(observed[|observed| - 1], features));
            Received(Sent(observed, features), features, checks) == Some(Health(|observed|, t, t, t))
  {
    hide Published, Valid, Normalized;
    var n := |observed| - 1;
    var t := Published(observed[n], features);
    assert Sent(observed, features)[..n] == Sent(observed[..n], features) by {
      SentLength(observed[..n], features);
    }
    SentLength(observed, features);
    NormalisationIsIdempotent(t, checks);
    PublishedIsNegotiated(observed[n], features);
    if n > 0 {
      DeltaRefinesFull(observed[..n], features, checks);
      assert observed[..n][n - 1] == observed[n - 1];
    }
  }

  lemma PublishedIsNegotiated(observed: Topology, features: set<Feature>)
    ensures Negotiated(Published(observed, features), features)
  {
    MaskedIsNegotiated(Normalized(observed), features);
  }

  lemma {:induction false} SentLength(observed: seq<Topology>, features: set<Feature>)
    ensures |Sent(observed, features)| == |observed|
  {
    if observed != [] {
      SentLength(observed[..|observed| - 1], features);
    }
  }

  /** A report without a topology is accepted only if the topology it refers to is the one the server holds. */
  lemma HeartbeatMeansUnchanged(h: Health, r: Report, features: set<Feature>, checks: Checks)
    requires h.sequence > 0 ==> h.wireRevision == h.topology
    requires r.topology.Some? ==> r.revision == r.topology
    requires Applied(h, r, features, checks).Some?
    ensures Applied(h, r, features, checks).value.topology == r.revision
    ensures Applied(h, r, features, checks).value.wireRevision == r.revision
  {
    if r.topology.Some? {
      NormalisationIsIdempotent(r.topology.value, checks);
    }
  }

  /** Accepted reports move on: each has a greater sequence than the one before, and becomes the last. */
  lemma AcceptedMovesOn(h: Health, r: Report, features: set<Feature>, checks: Checks)
    requires Applied(h, r, features, checks).Some?
    ensures h.sequence < r.sequence == Applied(h, r, features, checks).value.sequence
    ensures r.topology.Some? ==>
              var t := r.topology.value;
              && checks(t) && (HostHealth !in features ==> t.host == None)
              && (forall m | m in t.modems :: m.policy.Some? && m.policy.value.enrollment.Some? ==> DeviceDefaults in features)
              && (forall m | m in t.modems :: m.simAPDUOnDemand ==> SIMAPDUPrepare in features)
  {
    hide Increasing, Normalized;
  }

  /** Reports are numbered from one, and the first of a connection carries the whole topology. */
  lemma {:induction false} SentAreNumbered(observed: seq<Topology>, features: set<Feature>, i: nat)
    requires i < |observed|
    ensures var sent := Sent(observed, features);
            && |sent| == |observed| && sent[i].sequence == i + 1
            && (sent[i].topology == None || sent[i].topology == Some(Published(observed[i], features)))
            && (sent[i].topology == None <==> i > 0 && Published(observed[i - 1], features) == Published(observed[i], features))
  {
    hide Published;
    SentLength(observed, features);
    SentLength(observed[..|observed| - 1], features);
    if i < |observed| - 1 {
      SentAreNumbered(observed[..|observed| - 1], features, i);
    }
  }
}
