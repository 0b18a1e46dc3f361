/** Runs of the message store: replays, deletions, acknowledgements and line retirement in any order. */
module MessageRuns {
  import opened Common
  import opened Messages
  import opened History

  datatype Operation =
    | Accept(event: Event, at: Moment)
    | AcceptNotified(event: Event, card: string, transport: string, at: Moment)
    | Acknowledge(source: SourceID)
    | DeleteHistory(line: string, transport: string, peer: string, ids: set<string>, all: bool)
    | RetainLine(line: string)
    | PurgeLine(line: string)

  function After(s: State, op: Operation): State {
    match op
    case Accept(e, at) => AcceptedEvent(s, e, at).0
    case AcceptNotified(e, card, transport, at) => AcceptedWithNotification(s, e, card, transport, at).0
    case Acknowledge(id) => AckedSource(s, id)
    case DeleteHistory(line, transport, peer, ids, all) => Deleted(s, line, transport, peer, ids, all)
    case RetainLine(line) => Retained(s, line)
    case PurgeLine(line) => Purged(s, line)
  }

  const EMPTY := State([], 0, map[], map[], map[], map[], {})

  ghost predicate IsRun(ss: seq<State>, ops: seq<Operation>) {
    && |ss| == |ops| + 1
    && ss[0] == EMPTY
    && forall i {:trigger ops[i]} | 0 <= i < |ops| :: ss[i + 1] == After(ss[i], ops[i])
  }

  // ---------------------------------------------------------------- the invariant

  ghost predicate KeysInOrder(s: State) {
    Increasing(s.records) && forall e | e in s.records :: 0 < e.key <= s.sequence
  }

  /** Every stored event is in the identity index, and no two records share an identity. */
  ghost predicate StoredOnce(s: State) {
    && (forall e | e in s.records :: EventIdentity(e.record.event) in s.ids)
    && (forall e, f | e in s.records && f in s.records && EventIdentity(e.record.event) == EventIdentity(f.record.event) :: e == f)
  }

  predicate BoxesInOrder(s: State) {
    && (forall id | id in s.cellular :: id.transport == CELLULAR && s.cellular[id].line == id.identity.line)
    && (forall id | id in s.notify :: id.transport != CELLULAR && s.notify[id].line == id.identity.line)
  }

  predicate NothingQueuedForRetired(s: State) {
    && (forall id | id in s.cellular :: s.cellular[id].line !in s.purged)
    && (forall id | id in s.notify :: s.notify[id].line !in s.purged)
  }

  /** What is stored still passes the checks it passed when it was accepted. */
  ghost predicate RecordsValid(s: State) {
    forall e | e in s.records :: Valid(e.record.event) && IsTransport(e.record.transport)
  }

  ghost predicate Inv(s: State) {
    KeysInOrder(s) && StoredOnce(s) && BoxesInOrder(s) && NothingQueuedForRetired(s) && RecordsValid(s)
  }

  // ---------------------------------------------------------------- what an accept may do

  /** At most one new source, for an event of a line still in use. */
  predicate Queues(s: State, t: State, e: Event, transport: string) {
    var id := NotificationSourceID(e, transport);
    (t.notify, t.cellular) == (s.notify, s.cellular) ||
    (&& id !in Outbox(s, transport) && id in Outbox(t, transport)
     && Outbox(t, transport)[id].line == e.lineID && !Outbox(t, transport)[id].acked
     && (t.notify, t.cellular) ==
        (if transport == CELLULAR then (s.notify, s.cellular[id := t.cellular[id]]) else (s.notify[id := t.notify[id]], s.cellular)))
  }

  predicate Appends(s: State, t: State, e: Event, transport: string) {
    && EventIdentity(e) !in s.ids
    && t.sequence == s.sequence + 1
    && |t.records| == |s.records| + 1 && t.records[..|s.records|] == s.records
    && var last := t.records[|s.records|];
    && last.key == t.sequence && EventIdentity(last.record.event) == EventIdentity(e)
    && Valid(last.record.event) && last.record.transport == transport
    && t.ids == s.ids[EventIdentity(e) := Fingerprint(e)]
  }

  predicate Takes(s: State, t: State, e: Event, transport: string) {
    t == s ||
    (&& e.lineID !in s.purged && t.purged == s.purged && Queues(s, t, e, transport)
     && ((t.records, t.sequence, t.ids) == (s.records, s.sequence, s.ids) || Appends(s, t, e, transport)))
  }

  lemma ResolvedKeepsIdentity(links: map<LinkKey, Link>, e: Event, transport: string)
    requires Valid(e)
    ensures Valid(Resolved(links, e, transport)) && EventIdentity(Resolved(links, e, transport)) == EventIdentity(e)
  {
    hide Identifier, Trim, References;
    var l := ResolveDeliveryLink(links, e, transport);
    ScopedLinkIsUsable(links, e.lineID, transport, References(e));
    LegacyLinkIsUsable(links, e.lineID, References(e));
    assert l.Some? ==> l.value.part > 0;
  }

  lemma {:induction false} ScopedLinkIsUsable(links: map<LinkKey, Link>, line: string, transport: string, refs: seq<Reference>)
    ensures var l := ScopedLink(links, line, transport, refs); l.Some? ==> Usable(l.value)
  {
    if refs != [] {
      ScopedLinkIsUsable(links, line, transport, refs[1..]);
    }
  }

  lemma {:induction false} LegacyLinkIsUsable(links: map<LinkKey, Link>, line: string, refs: seq<Reference>)
    ensures var l := LegacyLink(links, line, refs); l.Some? ==> Usable(l.value)
  {
    if refs != [] {
      LegacyLinkIsUsable(links, line, refs[1..]);
    }
  }

  lemma PutSourceQueues(s: State, e: Event, card: string, transport: string, at: Moment)
    ensures var t := PutSource(s, e, card, transport, at);
            t.Some? ==>
              && Queues(s, t.value, e, transport)
              && t.value == s.(notify := t.value.notify, cellular := t.value.cellular)
              && NotificationSourceID(e, transport) in Outbox(t.value, transport)
  {
  }

  lemma AcceptTakes(s: State, e: Event, at: Moment, card: Option<string>, transport: string)
    ensures Takes(s, Accepted(s, e, at, card, transport).0, e, transport)
  {
    hide Valid, Resolved, StoredLinks, Queues, PutSource, Trim;
    if Valid(e) && at != 0 && e.lineID !in s.purged {
      var t := Accepted(s, e, at, card, transport).0;
      ResolvedKeepsIdentity(s.links, e, transport);
      var appended := s.(records := s.records + [Entry(s.sequence + 1, Record(Resolved(s.links, e, transport), transport, at))],
                         sequence := s.sequence + 1,
                         ids := s.ids[EventIdentity(e) := Fingerprint(e)]);
      QueuesNothing(s, s, e, transport);
      if card.Some? {
        PutSourceQueues(s, e, card.value, transport, at);
        PutSourceQueues(appended, e, card.value, transport, at);
        if PutSource(appended, e, card.value, transport, at).Some? {
          QueuesAlike(s, appended, PutSource(appended, e, card.value, transport, at).value, e, transport);
        }
      }
      QueuesNothing(s, t, e, transport);
    }
  }

  lemma QueuesNothing(s: State, t: State, e: Event, transport: string)
    ensures (t.notify, t.cellular) == (s.notify, s.cellular) ==> Queues(s, t, e, transport)
  {
  }

  lemma QueuesAlike(s: State, r: State, t: State, e: Event, transport: string)
    requires Queues(r, t, e, transport) && (r.notify, r.cellular) == (s.notify, s.cellular)
    ensures Queues(s, t, e, transport)
  {
  }

  // ---------------------------------------------------------------- every operation keeps the invariant

  lemma TakesKeepsInv(s: State, t: State, e: Event, transport: string)
    requires Inv(s) && Takes(s, t, e, transport) && IsTransport(transport)
    ensures Inv(t)
  {
    hide Valid, Fingerprint;
    if t != s {
      if Appends(s, t, e, transport) {
        hide Queues;
        var last := t.records[|s.records|];
        assert t.records == s.records + [last];
        assert forall r :: r in t.records <==> r in s.records || r == last;
        assert KeysInOrder(t) && StoredOnce(t) && RecordsValid(t);
      }
      QueuesKeepsBoxes(s, t, e, transport);
    }
  }

  lemma QueuesKeepsBoxes(s: State, t: State, e: Event, transport: string)
    requires BoxesInOrder(s) && NothingQueuedForRetired(s) && Queues(s, t, e, transport) && t.purged == s.purged && e.lineID !in s.purged
    ensures BoxesInOrder(t) && NothingQueuedForRetired(t)
  {
  }

  lemma {:induction false} WithoutIncreases(records: seq<Entry>, drop: set<nat>)
    requires Increasing(records)
    ensures Increasing(Without(records, drop))
  {
    if records != [] {
      var rest := Without(records[1..], drop);
      WithoutIncreases(records[1..], drop);
      forall i | 0 <= i < |rest| ensures records[0].key < rest[i].key {
        WithoutMembers(records[1..], drop, rest[i]);
        var j :| 0 <= j < |records[1..]| && records[1..][j] == rest[i];
        assert records[j + 1] == rest[i];
      }
    }
  }

  lemma RemovalKeepsRecords(s: State, t: State, drop: set<nat>)
    requires KeysInOrder(s) && RecordsValid(s) && t.records == Without(s.records, drop) && t.sequence == s.sequence
    ensures KeysInOrder(t) && RecordsValid(t)
    ensures forall e | e in t.records :: e in s.records && e.key !in drop
  {
    hide Valid, Increasing;
    WithoutIncreases(s.records, drop);
    forall e | e in t.records ensures e in s.records && e.key !in drop {
      WithoutMembers(s.records, drop, e);
    }
  }

  lemma RetirementKeepsBoxes(s: State, line: string)
    requires BoxesInOrder(s) && NothingQueuedForRetired(s)
    ensures BoxesInOrder(Retained(s, line)) && NothingQueuedForRetired(Retained(s, line))
  {
  }

  /** What a purge leaves in the record bucket is exactly the other lines. */
  lemma PurgeSparesOtherLines(s: State, line: string, e: Entry)
    requires Increasing(s.records)
    ensures e in Purged(s, line).records <==> e in s.records && e.record.event.lineID != line
  {
    var drop := KeysOfLine(s.records, line);
    WithoutMembers(s.records, drop, e);
    if e in s.records && e.key in drop {
      var f :| f in s.records && f.record.event.lineID == line && f.key == e.key;
      SameKeySameEntry(s.records, e, f);
    }
  }

  lemma PurgeKeepsInv(s: State, line: string)
    requires Inv(s)
    ensures Inv(Purged(s, line))
  {
    hide Valid, Increasing;
    var t := Purged(s, line);
    RemovalKeepsRecords(s, t, KeysOfLine(s.records, line));
    RetirementKeepsBoxes(s, line);
    forall e | e in t.records ensures EventIdentity(e.record.event) in t.ids {
      PurgeSparesOtherLines(s, line, e);
    }
  }

  lemma AfterKeepsInv(s: State, op: Operation)
    requires Inv(s)
    ensures Inv(After(s, op))
  {
    hide Inv, Accepted, Deleted, AckedSource, Purged, Retained;
    match op {
      case Accept(e, at) =>
        AcceptTakes(s, e, at, None, InferTransport(e));
        TakesKeepsInv(s, After(s, op), e, InferTransport(e));
      case AcceptNotified(e, card, transport, at) =>
        if ValidCardID(Trim(card)) && IsTransport(Trim(transport)) {
          AcceptTakes(s, e, at, Some(Trim(card)), Trim(transport));
          TakesKeepsInv(s, After(s, op), e, Trim(transport));
        }
      case Acknowledge(id) => AckKeepsInv(s, id);
      case DeleteHistory(line, transport, peer, ids, all) => DeletionKeepsInv(s, line, transport, peer, ids, all);
      case RetainLine(line) => RetirementKeepsInv(s, line);
      case PurgeLine(line) => PurgeKeepsInv(s, line);
    }
  }

  lemma AckKeepsInv(s: State, id: SourceID)
    requires Inv(s)
    ensures Inv(AckedSource(s, id))
  {
    hide Valid;
  }

  lemma RetirementKeepsInv(s: State, line: string)
    requires Inv(s)
    ensures Inv(Retained(s, line))
  {
    hide Valid;
    RetirementKeepsBoxes(s, line);
  }

  lemma DeletionKeepsInv(s: State, line: string, transport: string, peer: string, ids: set<string>, all: bool)
    requires Inv(s)
    ensures Inv(Deleted(s, line, transport, peer, ids, all))
  {
    hide Valid, DoomedKeys, View, Increasing, KeysInOrder, RecordsValid;
    RemovalKeepsRecords(s, Deleted(s, line, transport, peer, ids, all), DoomedKeys(View(s), line, transport, peer, ids, all));
  }

  lemma {:induction false} RunKeepsInv(ss: seq<State>, ops: seq<Operation>, i: nat)
    requires IsRun(ss, ops) && i < |ss|
    ensures Inv(ss[i])
  {
    hide After;
    if i > 0 {
      RunKeepsInv(ss, ops, i - 1);
      AfterKeepsInv(ss[i - 1], ops[i - 1]);
    }
  }

  // ---------------------------------------------------------------- what no later operation undoes

  predicate Stored(s: State, id: Identity) {
    exists e :: e in s.records && EventIdentity(e.record.event) == id
  }

  /** The store has settled an identity: it is in the index, or its line has been retired. */
  predicate Settled(s: State, id: Identity) {
    id in s.ids || id.line in s.purged
  }

  /** A source that has been acknowledged, as its tombstone or the retirement of its line remembers. */
  predicate Acknowledged(s: State, id: SourceID) {
    id.transport == CELLULAR && (id.identity.line in s.purged || (id in s.cellular && s.cellular[id].acked))
  }

  ghost predicate Grows(s: State, t: State) {
    && s.purged <= t.purged && s.sequence <= t.sequence
    && (forall id | Settled(s, id) :: Settled(t, id))
    && (forall e | e in t.records :: e in s.records ||
          (e.key > s.sequence && !Settled(s, EventIdentity(e.record.event)) && e.record.event.lineID !in s.purged))
  }

  lemma TakesGrows(s: State, t: State, e: Event, transport: string)
    requires Takes(s, t, e, transport)
    ensures Grows(s, t)
  {
    hide Valid, Fingerprint, Queues;
    if Appends(s, t, e, transport) {
      assert t.records == s.records + [t.records[|s.records|]];
    }
  }

  lemma AfterGrows(s: State, op: Operation)
    requires Inv(s)
    ensures Grows(s, After(s, op))
  {
    hide Valid, Accepted, Doomed, View, Increasing, Takes;
    match op {
      case Accept(e, at) =>
        AcceptTakes(s, e, at, None, InferTransport(e));
        TakesGrows(s, After(s, op), e, InferTransport(e));
      case AcceptNotified(e, card, transport, at) =>
        if ValidCardID(Trim(card)) && IsTransport(Trim(transport)) {
          AcceptTakes(s, e, at, Some(Trim(card)), Trim(transport));
          TakesGrows(s, After(s, op), e, Trim(transport));
        }
      case Acknowledge(id) =>
      case DeleteHistory(line, transport, peer, ids, all) =>
        RemovalKeepsRecords(s, After(s, op), DoomedKeys(View(s), line, transport, peer, ids, all));
      case RetainLine(line) =>
      case PurgeLine(line) =>
        RemovalKeepsRecords(s, After(s, op), KeysOfLine(s.records, line));
    }
  }

  lemma {:induction false} RunGrows(ss: seq<State>, ops: seq<Operation>, i: nat, j: nat)
    requires IsRun(ss, ops) && i <= j < |ss|
    ensures Grows(ss[i], ss[j])
  {
    hide After, Inv;
    if i < j {
      RunGrows(ss, ops, i, j - 1);
      RunKeepsInv(ss, ops, j - 1);
      AfterGrows(ss[j - 1], ops[j - 1]);
    }
  }

  /** An identity is stored in at most one record. */
  lemma IdentityIsStoredOnce(ss: seq<State>, ops: seq<Operation>, i: nat, a: nat, b: nat)
    requires IsRun(ss, ops) && i < |ss| && a < |ss[i].records| && b < |ss[i].records|
    requires EventIdentity(ss[i].records[a].record.event) == EventIdentity(ss[i].records[b].record.event)
    ensures a == b
  {
    RunKeepsInv(ss, ops, i);
    assert ss[i].records[a] in ss[i].records && ss[i].records[b] in ss[i].records;
  }

  /** An event that was stored and is gone never comes back, whatever is replayed. */
  lemma DeletedNeverReappears(ss: seq<State>, ops: seq<Operation>, i: nat, j: nat, k: nat, id: Identity)
    requires IsRun(ss, ops) && i <= j <= k < |ss|
    requires Stored(ss[i], id) && !Stored(ss[j], id)
    ensures !Stored(ss[k], id)
  {
    RunKeepsInv(ss, ops, i);
    assert Settled(ss[i], id);
    RunGrows(ss, ops, i, j);
    RunGrows(ss, ops, j, k);
  }

  /** A retired line keeps at most the records it had, and nothing of it is queued, ever after. */
  lemma RetiredLineStaysSilent(ss: seq<State>, ops: seq<Operation>, i: nat, j: nat, line: string)
    requires IsRun(ss, ops) && i <= j < |ss| && line in ss[i].purged
    ensures forall e | e in ss[j].records && e.record.event.lineID == line :: e in ss[i].records
    ensures forall id | Pending(ss[j], id) :: id.identity.line != line
  {
    RunGrows(ss, ops, i, j);
    RunKeepsInv(ss, ops, j);
  }

  /** A purged line has no record left. */
  lemma PurgedLineIsEmpty(ss: seq<State>, ops: seq<Operation>, i: nat, j: nat, line: string, e: Entry)
    requires IsRun(ss, ops) && i < j < |ss| && ops[i] == PurgeLine(line) && e in ss[j].records
    ensures e.record.event.lineID != line
  {
    RunKeepsInv(ss, ops, i);
    assert ss[i + 1] == Purged(ss[i], line);
    RunGrows(ss, ops, i + 1, j);
    PurgeSparesOtherLines(ss[i], line, e);
  }

  /** Record keys are never reused: an old key still names the record it named. */
  lemma KeysAreNeverReused(ss: seq<State>, ops: seq<Operation>, i: nat, j: nat, e: Entry)
    requires IsRun(ss, ops) && i <= j < |ss| && e in ss[j].records && e.key <= ss[i].sequence
    ensures e in ss[i].records
  {
    RunGrows(ss, ops, i, j);
  }

  // ---------------------------------------------------------------- notifications

  lemma TakesKeepsAcknowledged(s: State, t: State, e: Event, transport: string, id: SourceID)
    requires Takes(s, t, e, transport)
    ensures Acknowledged(s, id) ==> Acknowledged(t, id)
    ensures Pending(s, id) ==> Pending(t, id)
  {
    hide Valid, Fingerprint, Appends;
  }

  lemma AcknowledgedStays(s: State, op: Operation, id: SourceID)
    requires Inv(s) && Acknowledged(s, id)
    ensures Acknowledged(After(s, op), id)
  {
    hide Valid, Accepted, Doomed, View, Increasing, Takes;
    match op {
      case Accept(e, at) =>
        AcceptTakes(s, e, at, None, InferTransport(e));
        TakesKeepsAcknowledged(s, After(s, op), e, InferTransport(e), id);
      case AcceptNotified(e, card, transport, at) =>
        if ValidCardID(Trim(card)) && IsTransport(Trim(transport)) {
          AcceptTakes(s, e, at, Some(Trim(card)), Trim(transport));
          TakesKeepsAcknowledged(s, After(s, op), e, Trim(transport), id);
        }
      case Acknowledge(_) =>
      case DeleteHistory(_, _, _, _, _) =>
      case RetainLine(_) =>
      case PurgeLine(_) =>
    }
  }

  lemma {:induction false} AcknowledgedStaysAlongRuns(ss: seq<State>, ops: seq<Operation>, i: nat, j: nat, id: SourceID)
    requires IsRun(ss, ops) && i <= j < |ss| && Acknowledged(ss[i], id)
    ensures Acknowledged(ss[j], id)
  {
    hide After, Inv, Acknowledged;
    if i < j {
      AcknowledgedStaysAlongRuns(ss, ops, i, j - 1, id);
      RunKeepsInv(ss, ops, j - 1);
      AcknowledgedStays(ss[j - 1], ops[j - 1], id);
    }
  }

  /** A cellular source that was pending when it was acknowledged is never handed out again. */
  lemma CellularIsNotifiedOnce(ss: seq<State>, ops: seq<Operation>, i: nat, j: nat, id: SourceID)
    requires IsRun(ss, ops) && i < j < |ss| && id.transport == CELLULAR
    requires Pending(ss[i], id) && ops[i] == Acknowledge(id)
    ensures !Pending(ss[j], id)
  {
    RunKeepsInv(ss, ops, i);
    assert ss[i + 1] == AckedSource(ss[i], id);
    assert Acknowledged(ss[i + 1], id);
    AcknowledgedStaysAlongRuns(ss, ops, i + 1, j, id);
    RunKeepsInv(ss, ops, j);
  }

  /** Nothing queued is lost: it stays pending until it is acknowledged or its line is retired. */
  lemma PendingUntilAcknowledged(ss: seq<State>, ops: seq<Operation>, i: nat, id: SourceID)
    requires IsRun(ss, ops) && i < |ops| && Pending(ss[i], id)
    ensures Pending(ss[i + 1], id) || ops[i] == Acknowledge(id) || ops[i] == RetainLine(id.identity.line) || ops[i] == PurgeLine(id.identity.line)
  {
    RunKeepsInv(ss, ops, i);
    StaysPending(ss[i], ops[i], id);
  }

  lemma StaysPending(s: State, op: Operation, id: SourceID)
    requires Inv(s) && Pending(s, id)
    ensures Pending(After(s, op), id) || op == Acknowledge(id) || op == RetainLine(id.identity.line) || op == PurgeLine(id.identity.line)
  {
    hide Valid, Accepted, Doomed, View, Increasing, Takes;
    match op {
      case Accept(e, at) =>
        AcceptTakes(s, e, at, None, InferTransport(e));
        TakesKeepsAcknowledged(s, After(s, op), e, InferTransport(e), id);
      case AcceptNotified(e, card, transport, at) =>
        if ValidCardID(Trim(card)) && IsTransport(Trim(transport)) {
          AcceptTakes(s, e, at, Some(Trim(card)), Trim(transport));
          TakesKeepsAcknowledged(s, After(s, op), e, Trim(transport), id);
        }
      case Acknowledge(_) =>
      case DeleteHistory(_, _, _, _, _) =>
      case RetainLine(_) =>
      case PurgeLine(_) =>
    }
  }

  /**
   * A replay of an event the store has, after its source was acknowledged: it is queued again exactly on the transport
   * that keeps no tombstone.
   */
  lemma ReplayNotifiesAgainIff(s: State, e: Event, card: string, transport: string, at: Moment)
    requires Inv(s) && Valid(e) && at != 0 && e.kind.Received? && ValidCardID(Trim(card)) && IsTransport(Trim(transport))
    requires EventIdentity(e) in s.ids && s.ids[EventIdentity(e)] == Fingerprint(e)
    requires Pending(s, NotificationSourceID(e, Trim(transport)))
    ensures var id := NotificationSourceID(e, Trim(transport));
            Pending(AcceptedWithNotification(AckedSource(s, id), e, card, transport, at).0, id) <==> Trim(transport) == VOWIFI
  {
    hide Valid, Increasing, Resolved, Trim, StoredLinks;
    var id := NotificationSourceID(e, Trim(transport));
    assert e.lineID !in s.purged;
    var acked := AckedSource(s, id);
    assert acked.ids == s.ids && acked.purged == s.purged;
    if Trim(transport) == VOWIFI {
      assert id !in acked.notify;
    } else {
      assert id in acked.cellular && acked.cellular[id].acked;
    }
  }

  // ---------------------------------------------------------------- paging along a run

  /** A reader of one conversation, at moments of a run that do not go backwards. */
  ghost predicate Reads(ss: seq<State>, ops: seq<Operation>, moments: seq<nat>, views: seq<seq<Entry>>, line: string, transport: string, peer: string) {
    && IsRun(ss, ops) && |moments| == |views|
    && (forall i | 0 <= i < |moments| :: moments[i] < |ss|)
    && (forall i, j | 0 <= i < j < |moments| :: moments[i] <= moments[j])
    && (forall i | 0 <= i < |views| ::
          views[i] == Select(View(ss[moments[i]]), line, transport, peer, PeersOf(View(ss[moments[i]]), line, transport)))
  }

  lemma ViewsIncrease(ss: seq<State>, ops: seq<Operation>, i: nat, line: string, transport: string, peer: string)
    requires IsRun(ss, ops) && i < |ss|
    ensures Increasing(Select(View(ss[i]), line, transport, peer, PeersOf(View(ss[i]), line, transport)))
  {
    RunKeepsInv(ss, ops, i);
    SelectIncreases(View(ss[i]), line, transport, peer, PeersOf(View(ss[i]), line, transport));
  }

  /** Whatever arrives or is deleted in between, no event is on two pages of a reader. */
  lemma NoEventIsShownTwice(ss: seq<State>, ops: seq<Operation>, moments: seq<nat>, views: seq<seq<Entry>>, limits: seq<nat>, pages: seq<Page>,
                            line: string, transport: string, peer: string, i: nat, j: nat, e: Entry, f: Entry)
    requires Reads(ss, ops, moments, views, line, transport, peer) && Turns(views, limits, pages)
    requires i < j < |pages| && e in pages[i].entries && f in pages[j].entries
    ensures EventIdentity(e.record.event) != EventIdentity(f.record.event)
  {
    hide PeersOf, Shown, PageOf, Inv, View, ReadRecord;
    ReadersFollow(ss, ops, moments, views, limits, pages, line, transport, peer);
    NothingIsShownTwice(views, limits, pages, i, j, e, f);
    var a := RawEntry(ss, ops, moments, views, limits, pages, line, transport, peer, i, e);
    var b := RawEntry(ss, ops, moments, views, limits, pages, line, transport, peer, j, f);
    AtMostSequence(ss, ops, moments[i], a);
    KeysAreNeverReused(ss, ops, moments[i], moments[j], b);
    if EventIdentity(a.record.event) == EventIdentity(b.record.event) {
      SameIdentitySameEntry(ss, ops, moments[i], a, b);
    }
  }

  lemma AtMostSequence(ss: seq<State>, ops: seq<Operation>, i: nat, e: Entry)
    requires IsRun(ss, ops) && i < |ss| && e in ss[i].records
    ensures e.key <= ss[i].sequence
  {
    RunKeepsInv(ss, ops, i);
  }

  lemma SameIdentitySameEntry(ss: seq<State>, ops: seq<Operation>, i: nat, e: Entry, f: Entry)
    requires IsRun(ss, ops) && i < |ss| && e in ss[i].records && f in ss[i].records
    requires EventIdentity(e.record.event) == EventIdentity(f.record.event)
    ensures e == f
  {
    RunKeepsInv(ss, ops, i);
  }

  /** The stored record behind an entry of a page. */
  lemma RawEntry(ss: seq<State>, ops: seq<Operation>, moments: seq<nat>, views: seq<seq<Entry>>, limits: seq<nat>, pages: seq<Page>,
                 line: string, transport: string, peer: string, i: nat, e: Entry) returns (raw: Entry)
    requires Reads(ss, ops, moments, views, line, transport, peer) && Follows(views, limits, pages)
    requires i < |pages| && e in pages[i].entries
    ensures raw in ss[moments[i]].records && raw.key == e.key
    ensures EventIdentity(raw.record.event) == EventIdentity(e.record.event)
  {
    hide PeersOf, Shown, PageOf, Inv, View;
    PageIsAnInterval(views[i], Boundary(pages, i), limits[i], e);
    raw := StoredBehind(ss, ops, moments, views, line, transport, peer, i, e);
  }

  ghost predicate Identified(es: seq<Entry>, id: Identity) {
    exists e :: e in es && EventIdentity(e.record.event) == id
  }

  /** What readers see of an event at two moments of a run carries the same key. */
  lemma OneKeyPerEvent(ss: seq<State>, ops: seq<Operation>, moments: seq<nat>, views: seq<seq<Entry>>,
                       line: string, transport: string, peer: string, i: nat, j: nat, e: Entry, f: Entry)
    requires Reads(ss, ops, moments, views, line, transport, peer) && i <= j < |views|
    requires e in views[i] && f in views[j] && EventIdentity(e.record.event) == EventIdentity(f.record.event)
    ensures e.key == f.key
  {
    hide PeersOf, Shown, Inv, View, Grows;
    var a := StoredBehind(ss, ops, moments, views, line, transport, peer, i, e);
    var b := StoredBehind(ss, ops, moments, views, line, transport, peer, j, f);
    StoredUnderOneKey(ss, ops, moments[i], moments[j], a, b);
  }

  lemma StoredUnderOneKey(ss: seq<State>, ops: seq<Operation>, i: nat, j: nat, a: Entry, b: Entry)
    requires IsRun(ss, ops) && i <= j < |ss| && a in ss[i].records && b in ss[j].records
    requires EventIdentity(a.record.event) == EventIdentity(b.record.event)
    ensures a == b
  {
    RunKeepsInv(ss, ops, i);
    RunGrows(ss, ops, i, j);
    assert Settled(ss[i], EventIdentity(a.record.event));
  }

  /** The stored record behind an entry that readers see. */
  lemma StoredBehind(ss: seq<State>, ops: seq<Operation>, moments: seq<nat>, views: seq<seq<Entry>>,
                     line: string, transport: string, peer: string, i: nat, e: Entry) returns (raw: Entry)
    requires Reads(ss, ops, moments, views, line, transport, peer) && i < |views| && e in views[i]
    ensures raw in ss[moments[i]].records && raw.key == e.key
    ensures EventIdentity(raw.record.event) == EventIdentity(e.record.event)
  {
    hide PeersOf, Shown, View;
    var s := ss[moments[i]];
    Selected(View(s), line, transport, peer, PeersOf(View(s), line, transport), e);
    ViewMembers(s, e);
    raw :| raw in s.records && e == Entry(raw.key, ReadRecord(s.links, raw.record));
  }

  /**
   * Along any run of the store, an event that is retained and keeps belonging to the conversation while it is being read
   * is on exactly one of the reader's pages, whatever arrives, is deleted or is resolved anew in between.
   */
  lemma KeptEventIsShownOnce(ss: seq<State>, ops: seq<Operation>, moments: seq<nat>, views: seq<seq<Entry>>, limits: seq<nat>, pages: seq<Page>,
                             line: string, transport: string, peer: string, id: Identity)
    requires Reads(ss, ops, moments, views, line, transport, peer) && Turns(views, limits, pages)
    requires pages[|pages| - 1].nextBefore.None?
    requires forall n | 0 <= n < |views| :: Identified(views[n], id)
    ensures exists j :: 0 <= j < |pages| && Identified(pages[j].entries, id) &&
                        forall i | 0 <= i < |pages| && Identified(pages[i].entries, id) :: i == j
  {
    hide PeersOf, Shown, PageOf, View, Select;
    ReadersFollow(ss, ops, moments, views, limits, pages, line, transport, peer);
    var first :| first in views[0] && EventIdentity(first.record.event) == id;
    var k := first.key;
    forall n | 0 <= n < |views| ensures HasKey(views[n], k) {
      var e :| e in views[n] && EventIdentity(e.record.event) == id;
      OneKeyPerEvent(ss, ops, moments, views, line, transport, peer, 0, n, first, e);
    }
    forall i | 0 <= i < |pages| ensures Identified(pages[i].entries, id) <==> HasKey(pages[i].entries, k) {
      KeyNamesEvent(ss, ops, moments, views, limits, pages, line, transport, peer, i, first);
    }
    EverythingKeptIsShownOnce(views, limits, pages, k);
  }

  lemma ReadersFollow(ss: seq<State>, ops: seq<Operation>, moments: seq<nat>, views: seq<seq<Entry>>, limits: seq<nat>, pages: seq<Page>,
                      line: string, transport: string, peer: string)
    requires Reads(ss, ops, moments, views, line, transport, peer) && Turns(views, limits, pages)
    ensures Follows(views, limits, pages)
  {
    hide PeersOf, PageOf, View, Select, Increasing;
    forall i | 0 <= i < |views| ensures Increasing(views[i]) {
      ViewsIncrease(ss, ops, moments[i], line, transport, peer);
    }
  }

  /** On a page, the key an event had at first is the key of that event. */
  lemma KeyNamesEvent(ss: seq<State>, ops: seq<Operation>, moments: seq<nat>, views: seq<seq<Entry>>, limits: seq<nat>, pages: seq<Page>,
                      line: string, transport: string, peer: string, i: nat, first: Entry)
    requires Reads(ss, ops, moments, views, line, transport, peer) && Follows(views, limits, pages) && i < |pages|
    requires first in views[0] && Identified(views[i], EventIdentity(first.record.event))
    ensures Identified(pages[i].entries, EventIdentity(first.record.event)) <==> HasKey(pages[i].entries, first.key)
  {
    hide PeersOf, Shown, PageOf, View, Select;
    var id := EventIdentity(first.record.event);
    var g :| g in views[i] && EventIdentity(g.record.event) == id;
    OneKeyPerEvent(ss, ops, moments, views, line, transport, peer, 0, i, first, g);
    forall e | e in pages[i].entries ensures e in views[i] && (e.key == first.key <==> EventIdentity(e.record.event) == id) {
      PageIsAnInterval(views[i], Boundary(pages, i), limits[i], e);
      if EventIdentity(e.record.event) == id {
        OneKeyPerEvent(ss, ops, moments, views, line, transport, peer, 0, i, first, e);
      }
      if e.key == first.key {
        SameKeySameEntry(views[i], e, g);
      }
    }
  }

  // ---------------------------------------------------------------- a run that notifies twice

  const SMS := Event(1, "e", "l", "p", "g", Received, 1, "", 0, "s", "", "b", "", "", 0, "", 0, 0, "")

  lemma OneCharacterIdentifies(c: char)
    requires c > ' ' && c != '\U{007f}' && !IsSpace(c)
    ensures Trim([c]) == [c] && Identifier([c])
  {
    TrimFixesTrimmed([c]);
    assert [c][1..] == "";
    assert ByteLength([c]) <= 4 + ByteLength("");
  }

  lemma CardIsValid()
    ensures Trim("1234") == "1234" && ValidCardID("1234") && Trim(VOWIFI) == VOWIFI
  {
    TrimFixesTrimmed("1234");
    TrimFixesTrimmed(VOWIFI);
    assert ByteLength("1234") == 4 by {
      assert "1234"[1..] == "234" && "234"[1..] == "34" && "34"[1..] == "4" && "4"[1..] == "";
    }
  }

  lemma SmsIsValid()
    ensures Valid(SMS)
  {
    OneCharacterIdentifies('e');
    OneCharacterIdentifies('l');
    OneCharacterIdentifies('p');
    OneCharacterIdentifies('g');
    OneCharacterIdentifies('s');
    hide Identifier, Trim;
    assert ByteLength("b") == 1 && ByteLength("") == 0 by {
      assert "b"[1..] == "";
    }
  }

  /** The case occurs: a VoWiFi event is stored and queued, acknowledged, delivered again by its provider, and queued again. */
  lemma VowifiIsNotifiedTwice()
    ensures exists ss: seq<State>, ops: seq<Operation>, id: SourceID ::
              IsRun(ss, ops) && |ops| == 3 && ops[1] == Acknowledge(id) && ops[0] == ops[2] &&
              Pending(ss[1], id) && !Pending(ss[2], id) && Pending(ss[3], id)
  {
    hide Valid, Trim, ValidCardID, After, Inv, AckedSource, AcceptedWithNotification, Pending;
    SmsIsValid();
    CardIsValid();
    FirstAcceptQueues();
    var first, id := AcceptNotified(SMS, "1234", VOWIFI, 1), NotificationSourceID(SMS, VOWIFI);
    var ops := [first, Acknowledge(id), first];
    var s1 := After(EMPTY, first);
    var s2 := After(s1, ops[1]);
    var s3 := After(s2, first);
    var ss := [EMPTY, s1, s2, s3];
    assert IsRun(ss, ops);
    RunKeepsInv(ss, ops, 1);
    ReplayNotifiesAgainIff(s1, SMS, "1234", VOWIFI, 1);
    StepsOfAReplay(s1, id, SMS, "1234", VOWIFI, 1);
    assert Pending(ss[1], id) && !Pending(ss[2], id) && Pending(ss[3], id);
  }

  lemma StepsOfAReplay(s: State, id: SourceID, e: Event, card: string, transport: string, at: Moment)
    requires Inv(s) && id.transport == VOWIFI
    ensures After(s, Acknowledge(id)) == AckedSource(s, id) && !Pending(AckedSource(s, id), id)
    ensures After(After(s, Acknowledge(id)), AcceptNotified(e, card, transport, at)) ==
            AcceptedWithNotification(AckedSource(s, id), e, card, transport, at).0
  {
    hide Valid, Increasing;
  }

  lemma FirstAcceptQueues()
    ensures var s := After(EMPTY, AcceptNotified(SMS, "1234", VOWIFI, 1));
            && Pending(s, NotificationSourceID(SMS, VOWIFI))
            && EventIdentity(SMS) in s.ids && s.ids[EventIdentity(SMS)] == Fingerprint(SMS)
  {
    hide Valid, Trim, ValidCardID;
    SmsIsValid();
    CardIsValid();
    assert Resolved(EMPTY.links, SMS, VOWIFI) == SMS;
  }
}
