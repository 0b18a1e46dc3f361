/**
 * What becomes of an event that is accepted, on the event's own fields: the conversation it is shown in, the notification
 * that is queued for it, and the message a delivery report is joined to.
 */
module Correspondence {
  import opened Common
  import opened Messages
  import opened History
  import opened MessageRuns
  import MessageStore

  /** The store is ready to keep the event as a new record. */
  predicate IsNews(s: State, e: Event, at: Moment) {
    Valid(e) && at != 0 && e.lineID !in s.purged && EventIdentity(e) !in s.ids
  }

  // ---------------------------------------------------------------- conversations

  lemma NewsIsAppended(s: State, e: Event, at: Moment)
    requires IsNews(s, e, at) && !e.kind.Delivery?
    ensures var t := After(s, Accept(e, at));
            && t.records == s.records + [Entry(s.sequence + 1, Record(e, InferTransport(e), at))]
            && t.links == if e.kind.Submitted? then StoredLinks(s.links, e, InferTransport(e)) else s.links
  {
    hide Valid, StoredLinks, InferTransport;
  }

  /** The newest record, if it is in a selection at all, is the last that is selected. */
  lemma LastIsSelected(front: seq<Entry>, last: Entry, line: string, transport: string, peer: string, peers: map<PeerKey, string>)
    requires History.Shown(last.record, line, transport, peer, peers)
    ensures Select(front + [last], line, transport, peer, peers) == Select(front, line, transport, peer, peers) + [last]
  {
    SelectSplits(front, [last], line, transport, peer, peers);
    assert [last][1..] == [];
  }

  /** A message just accepted is the newest on the first page of its correspondent: who sent it, or whom it was sent to. */
  lemma NewsIsShown(s: State, e: Event, at: Moment, peer: string, limit: nat)
    requires IsNews(s, e, at) && !e.kind.Delivery? && With(e, peer) && limit > 0
    ensures peer != ""
    ensures var view, transport := View(After(s, Accept(e, at))), InferTransport(e);
            var page := PageOf(Select(view, e.lineID, transport, peer, PeersOf(view, e.lineID, transport)), None, limit);
            page.entries != [] && page.entries[|page.entries| - 1] == Entry(s.sequence + 1, Record(e, transport, at))
  {
    NewsHasAPeer(e);
    NewsIsSeenLast(s, e, at);
    var view, transport, last := View(After(s, Accept(e, at))), InferTransport(e), Entry(s.sequence + 1, Record(e, InferTransport(e), at));
    var older, peers := view[..|s.records|], PeersOf(view, e.lineID, transport);
    ResolvedPeerIs(last.record, peers, peer);
    hide PeersOf, ResolvedPeer, Valid, With, View, After, Select, PageOf, Anonymous, InferTransport;
    LastIsSelected(older, last, e.lineID, transport, peer, peers);
    PageEndsWithTheNewest(Select(older, e.lineID, transport, peer, peers), last, limit);
  }

  lemma NewsIsSeenLast(s: State, e: Event, at: Moment)
    requires IsNews(s, e, at) && !e.kind.Delivery?
    ensures var view := View(After(s, Accept(e, at)));
            |view| == |s.records| + 1 && view == view[..|s.records|] + [Entry(s.sequence + 1, Record(e, InferTransport(e), at))]
  {
    NewsIsAppended(s, e, at);
    hide Valid, After, IsNews;
    var t := After(s, Accept(e, at));
    assert View(t)[|s.records|] == Entry(s.sequence + 1, ReadRecord(t.links, t.records[|s.records|].record));
  }

  lemma PageEndsWithTheNewest(older: seq<Entry>, last: Entry, limit: nat)
    requires limit > 0
    ensures var page := PageOf(older + [last], None, limit); page.entries != [] && page.entries[|page.entries| - 1] == last
  {
    assert (older + [last])[..|older + [last]|] == older + [last];
  }

  lemma NewsHasAPeer(e: Event)
    requires Valid(e) && !e.kind.Delivery?
    ensures !Anonymous(e) && forall peer | With(e, peer) :: peer != ""
  {
    hide Identifier, Trim;
  }

  /** Along a run: what is accepted as new is shown to its correspondent. */
  lemma AcceptedIsShown(ss: seq<State>, ops: seq<Operation>, i: nat, peer: string, limit: nat)
    requires IsRun(ss, ops) && i < |ops| && ops[i].Accept? && IsNews(ss[i], ops[i].event, ops[i].at)
    requires !ops[i].event.kind.Delivery? && With(ops[i].event, peer) && limit > 0
    ensures var e, view := ops[i].event, View(ss[i + 1]);
            var page := PageOf(Select(view, e.lineID, InferTransport(e), peer, PeersOf(view, e.lineID, InferTransport(e))), None, limit);
            page.entries != [] && page.entries[|page.entries| - 1].record == Record(e, InferTransport(e), ops[i].at)
  {
    hide PeersOf, Select, View, With, IsNews, After;
    NewsIsShown(ss[i], ops[i].event, ops[i].at, peer, limit);
  }

  // ---------------------------------------------------------------- notifications

  /** The operation queued this source for this event: its sender, its text, its card, as they came in. */
  predicate QueuedBy(op: Operation, id: SourceID, source: Source) {
    && op.AcceptNotified? && op.event.kind.Received? && id == NotificationSourceID(op.event, Trim(op.transport))
    && source == Source(op.event.lineID, Trim(op.card), Trim(op.transport), op.event.sender, op.event.body, op.at, false)
  }

  /** A new message of a line in use is queued for notification. */
  lemma NewsIsQueued(s: State, e: Event, card: string, transport: string, at: Moment)
    requires IsNews(s, e, at) && e.kind.Received? && ValidCardID(Trim(card)) && IsTransport(Trim(transport))
    requires NotificationSourceID(e, Trim(transport)) !in Outbox(s, Trim(transport))
    ensures var id, op := NotificationSourceID(e, Trim(transport)), AcceptNotified(e, card, transport, at);
            && Pending(After(s, op), id) && id in Outbox(After(s, op), Trim(transport))
            && QueuedBy(op, id, Outbox(After(s, op), Trim(transport))[id])
  {
    hide Valid, ValidCardID, Trim, Resolved;
  }

  /** An accept leaves the queued sources as they are, but for one it may queue itself. */
  lemma AcceptQueues(s: State, e: Event, at: Moment, card: Option<string>, transport: string)
    ensures var t, id := Accepted(s, e, at, card, transport).0, NotificationSourceID(e, transport);
            || (t.notify, t.cellular) == (s.notify, s.cellular)
            || (&& card.Some? && e.kind.Received? && id !in Outbox(s, transport)
                && var source := Source(e.lineID, card.value, transport, e.sender, e.body, at, false);
                (t.notify, t.cellular) ==
                  if transport == CELLULAR then (s.notify, s.cellular[id := source]) else (s.notify[id := source], s.cellular))
  {
    hide Valid, Resolved, StoredLinks, Fingerprint;
  }

  /** What is pending after a step was pending before, unchanged, or is queued by the step. */
  lemma PendingComesFrom(s: State, op: Operation, id: SourceID)
    requires BoxesInOrder(s) && BoxesInOrder(After(s, op)) && Pending(After(s, op), id)
    ensures id in Outbox(After(s, op), id.transport) && !Outbox(After(s, op), id.transport)[id].acked
    ensures var source := Outbox(After(s, op), id.transport)[id];
            (Pending(s, id) && id in Outbox(s, id.transport) && Outbox(s, id.transport)[id] == source) || QueuedBy(op, id, source)
  {
    hide Accepted, Trim, ValidCardID, InferTransport, Doomed, View, Without;
    match op {
      case Accept(e, at) =>
        AcceptQueues(s, e, at, None, InferTransport(e));
      case AcceptNotified(e, card, transport, at) =>
        if ValidCardID(Trim(card)) && IsTransport(Trim(transport)) {
          AcceptQueues(s, e, at, Some(Trim(card)), Trim(transport));
        }
      case Acknowledge(_) =>
      case DeleteHistory(_, _, _, _, _) =>
      case RetainLine(_) =>
      case PurgeLine(_) =>
    }
  }

  /** Along every run, whatever is pending was queued by an operation with its sender and text, and not altered since. */
  lemma {:induction false} PendingIsAsReceived(ss: seq<State>, ops: seq<Operation>, i: nat, id: SourceID) returns (k: nat)
    requires IsRun(ss, ops) && i < |ss| && Pending(ss[i], id)
    ensures k < i && id in Outbox(ss[i], id.transport) && QueuedBy(ops[k], id, Outbox(ss[i], id.transport)[id])
  {
    hide After, QueuedBy, KeysInOrder, StoredOnce, NothingQueuedForRetired, RecordsValid;
    if i > 0 {
      RunKeepsInv(ss, ops, i - 1);
      RunKeepsInv(ss, ops, i);
      PendingComesFrom(ss[i - 1], ops[i - 1], id);
      if QueuedBy(ops[i - 1], id, Outbox(ss[i], id.transport)[id]) {
        k := i - 1;
      } else {
        k := PendingIsAsReceived(ss, ops, i - 1, id);
      }
    }
  }

  // ---------------------------------------------------------------- delivery reports

  /** The operation submits another message under the same reference, or retires the line with its links. */
  predicate Displaces(op: Operation, line: string, transport: string, reference: Reference) {
    match op
    case Accept(e, _) => e.kind.Submitted? && e.lineID == line && InferTransport(e) == transport && reference in References(e)
    case AcceptNotified(e, _, t, _) => e.kind.Submitted? && e.lineID == line && Trim(t) == transport && reference in References(e)
    case PurgeLine(l) => l == line
    case _ => false
  }

  lemma AcceptLinks(s: State, e: Event, at: Moment, card: Option<string>, transport: string)
    ensures var t := Accepted(s, e, at, card, transport).0;
            t.links == s.links || (e.kind.Submitted? && t.links == StoredLinks(s.links, e, transport))
  {
    hide Valid, Resolved, StoredLinks, Fingerprint;
  }

  lemma LinkStays(s: State, op: Operation, line: string, transport: string, reference: Reference)
    requires LinkKey(line, Some(transport), reference) in s.links && !Displaces(op, line, transport, reference)
    ensures var k := LinkKey(line, Some(transport), reference);
            k in After(s, op).links && After(s, op).links[k] == s.links[k]
  {
    hide Accepted, References, Trim, ValidCardID, Doomed, View, InferTransport;
    match op {
      case Accept(e, at) =>
        AcceptLinks(s, e, at, None, InferTransport(e));
      case AcceptNotified(e, card, t, at) =>
        AcceptLinks(s, e, at, Some(Trim(card)), Trim(t));
      case Acknowledge(_) =>
      case DeleteHistory(_, _, _, _, _) =>
      case RetainLine(_) =>
      case PurgeLine(_) =>
    }
  }

  lemma {:induction false} LinkStaysAlongRuns(ss: seq<State>, ops: seq<Operation>, i: nat, j: nat, line: string, transport: string, reference: Reference)
    requires IsRun(ss, ops) && i <= j < |ss| && LinkKey(line, Some(transport), reference) in ss[i].links
    requires forall k | i <= k < j :: !Displaces(ops[k], line, transport, reference)
    ensures var k := LinkKey(line, Some(transport), reference);
            k in ss[j].links && ss[j].links[k] == ss[i].links[k]
  {
    hide After, Displaces;
    if i < j {
      LinkStaysAlongRuns(ss, ops, i, j - 1, line, transport, reference);
      LinkStays(ss[j - 1], ops[j - 1], line, transport, reference);
    }
  }

  lemma SubmissionLinks(s: State, e: Event, at: Moment)
    requires IsNews(s, e, at) && e.kind.Submitted? && Trim(e.callID) != ""
    ensures var k := LinkKey(e.lineID, Some(InferTransport(e)), Call(Trim(e.callID)));
            && k in After(s, Accept(e, at)).links && After(s, Accept(e, at)).links[k] == Link(e.messageID, e.part)
            && Usable(Link(e.messageID, e.part))
  {
    NewsIsAppended(s, e, at);
    hide Identifier, Trim, InferTransport, After;
    assert Call(Trim(e.callID)) in References(e) by {
      assert CallReference(e.callID)[0] == Call(Trim(e.callID));
    }
  }

  /**
   * A delivery report that answers the call of a message is joined to that message, however long after and in whatever
   * order they arrive, unless another message was submitted under the same call or the line was purged in between.
   */
  lemma ReportFindsItsMessage(ss: seq<State>, ops: seq<Operation>, i: nat, j: nat, d: Event)
    requires IsRun(ss, ops) && i < j < |ss| && ops[i].Accept? && IsNews(ss[i], ops[i].event, ops[i].at)
    requires ops[i].event.kind.Submitted? && Trim(ops[i].event.callID) != ""
    requires var e := ops[i].event;
             && forall k | i < k < j :: !Displaces(ops[k], e.lineID, InferTransport(e), Call(Trim(e.callID)))
    requires d.kind.Delivery? && d.lineID == ops[i].event.lineID && Trim(d.messageID) == "" && Trim(d.inReplyTo) == Trim(ops[i].event.callID)
    ensures var e := ops[i].event;
            Resolved(ss[j].links, d, InferTransport(e)) == d.(messageID := e.messageID, part := e.part)
  {
    hide After, Displaces, IsNews, InferTransport, Trim, Identifier, Usable;
    var e := ops[i].event;
    SubmissionLinks(ss[i], e, ops[i].at);
    LinkStaysAlongRuns(ss, ops, i + 1, j, e.lineID, InferTransport(e), Call(Trim(e.callID)));
    assert References(d)[0] == Call(Trim(d.inReplyTo)) && References(d) == [References(d)[0]] + References(d)[1..];
  }

  /** So the report is shown where its message is: in the conversation of the recipient, unless the message id names others too. */
  lemma ReportJoinsTheConversation(ss: seq<State>, ops: seq<Operation>, i: nat, j: nat, d: Entry, v: Entry)
    requires IsRun(ss, ops) && i < j < |ss| && ops[i].Accept? && IsNews(ss[i], ops[i].event, ops[i].at)
    requires ops[i].event.kind.Submitted? && Trim(ops[i].event.callID) != "" && Trim(ops[i].event.sender) == ""
    requires var e := ops[i].event;
             && (forall k | i < k < j :: !Displaces(ops[k], e.lineID, InferTransport(e), Call(Trim(e.callID))))
             && d in ss[j].records && d.record.event.kind.Delivery? && Anonymous(d.record.event)
             && d.record.event.lineID == e.lineID && TransportOf(d.record) == InferTransport(e)
             && Trim(d.record.event.messageID) == "" && Trim(d.record.event.inReplyTo) == Trim(e.callID)
             && v == Entry(d.key, ReadRecord(ss[j].links, d.record))
             && Voices(View(ss[j]), e.lineID, InferTransport(e), PeerKey(e.lineID, InferTransport(e), e.messageID)) == {Trim(e.recipient)}
    ensures var e := ops[i].event;
            v in Select(View(ss[j]), e.lineID, InferTransport(e), Trim(e.recipient), PeersOf(View(ss[j]), e.lineID, InferTransport(e)))
  {
    var e := ops[i].event;
    assert Trim(e.recipient) != "" by {
      hide Identifier, Trim;
    }
    hide After, Displaces, IsNews, InferTransport, Trim, View, PeersOf, Voices, Resolved, References;
    ReportFindsItsMessage(ss, ops, i, j, d.record.event);
    ViewMembers(ss[j], v);
    var peers := PeersOf(View(ss[j]), e.lineID, InferTransport(e));
    PeersNeverGuess(View(ss[j]), e.lineID, InferTransport(e), KeyOf(v.record), Trim(e.recipient));
    ResolvedPeerIs(v.record, peers, Trim(e.recipient));
    Selected(View(ss[j]), e.lineID, InferTransport(e), Trim(e.recipient), peers, v);
  }

  // ---------------------------------------------------------------- a message and its report

  const SENT := Event(1, "e", "l", "p", "g", Submitted, 1, "m", 1, "", "r", "b", "c", "", 0, "", 0, 0, "")
  const REPORT := Event(1, "d", "l", "p", "g", Delivery, 1, "", 0, "", "", "", "", "c", 0, "s", 0, 0, "")

  lemma SentIsValid()
    ensures Valid(SENT) && Valid(REPORT)
  {
    OneCharacterIdentifies('e');
    OneCharacterIdentifies('l');
    OneCharacterIdentifies('p');
    OneCharacterIdentifies('g');
    OneCharacterIdentifies('m');
    OneCharacterIdentifies('r');
    OneCharacterIdentifies('c');
    OneCharacterIdentifies('d');
    OneCharacterIdentifies('s');
    hide Identifier, Trim;
    assert ByteLength("b") == 1 && ByteLength("") == 0 by {
      assert "b"[1..] == "";
    }
  }

  /** The transport of an event that does not say: cellular by its provider or by its id, else VoWiFi. */
  lemma TransportIsInferred(e: Event)
    ensures InferTransport(e) in {"vowifi", "cellular"}
    ensures InferTransport(e) == "cellular" <==> e.providerID == "cellular" || (|e.eventID| >= 9 && e.eventID[..9] == "cellular-")
  {
    assert "cellular-" <= e.eventID <==> |e.eventID| >= 9 && e.eventID[..9] == "cellular-";
  }

  /** A source is queued once: another of the same identity is accepted if and only if it says the same or the first is settled. */
  lemma QueuedOnceIff(s: State, e: Event, card: string, transport: string, at: Moment)
    ensures var id, box, r := NotificationSourceID(e, transport), Outbox(s, transport), PutSource(s, e, card, transport, at);
            && (r.None? <==> id in box && !box[id].acked &&
                             !(&& box[id].line == e.lineID && box[id].card == card && box[id].transport == transport
                               && box[id].sender == e.sender && box[id].body == e.body))
            && (r.Some? && id in box ==> r.value == s)
            && (id !in box ==>
                 && Outbox(r.value, transport) == box[id := Source(e.lineID, card, transport, e.sender, e.body, at, false)]
                 && (r.value.records, r.value.ids, r.value.links) == (s.records, s.ids, s.links))
            && forall other | IsTransport(other) && IsTransport(transport) && other != transport && r.Some? ::
                 Outbox(r.value, other) == Outbox(s, other)
  {
  }

  /** A card is named by 4 to 32 decimal digits. */
  lemma CardsAre(card: string)
    ensures ValidCardID(card) <==> 4 <= |Trim(card)| <= 32 && forall i | 0 <= i < |Trim(card)| :: Trim(card)[i] in "0123456789"
  {
    hide Trim;
    if forall i | 0 <= i < |Trim(card)| :: Trim(card)[i] in "0123456789" || '0' <= Trim(card)[i] <= '9' {
      AsciiLength(Trim(card));
    }
  }

  /** A record is read with the transport it was stored with; a record from before transports were stored, with the inferred one. */
  lemma TransportIsRead(s: State, e: Entry, v: Entry)
    requires Increasing(s.records) && e in s.records && v in View(s) && v.key == e.key
    ensures v.record.transport == if e.record.transport != "" then e.record.transport else InferTransport(e.record.event)
    ensures e.record.transport != "" ==> v.record.event.(messageID := e.record.event.messageID, part := e.record.event.part) == e.record.event
  {
    hide View, InferTransport;
    ViewMembers(s, v);
    var f :| f in s.records && v == Entry(f.key, ReadRecord(s.links, f.record));
    SameKeySameEntry(s.records, e, f);
  }

  /** Identifiers of ASCII text are 1 to 200 visible characters, whatever blanks surround them. */
  lemma IdentifiersAre(s: string)
    requires forall i | 0 <= i < |Trim(s)| :: Trim(s)[i] < '\U{0080}'
    ensures Identifier(s) <==> 1 <= |Trim(s)| <= 200 && forall i | 0 <= i < |Trim(s)| :: '!' <= Trim(s)[i] <= '~'
  {
    hide Trim;
    AsciiLength(Trim(s));
  }

  /** Each number in a valid event may take any value within its own limits, and no other. */
  lemma NumbersHaveLimits(e: Event, n: int)
    requires Valid(e)
    ensures Valid(e.(schemaVersion := n)) <==> n == 1
    ensures !Valid(e.(observedAt := 0))
    ensures Valid(e.(sipCode := n)) <==> 0 <= n < 700
    ensures Valid(e.(part := n)) <==> n >= if e.kind.Submitted? then 1 else 0
    ensures Valid(e.(rpMR := n)) <==>
              0 <= n < 256 && (n == 0 ==> e.kind.Received? || Trim(e.callID) != "" || (e.kind.Delivery? && Trim(e.inReplyTo) != ""))
  {
    hide Identifier, Trim, ByteLength;
  }

  /** So may each identity. */
  lemma IdentitiesAreIdentifiers(e: Event, x: string)
    requires Valid(e)
    ensures Valid(e.(eventID := x)) <==> Identifier(x)
    ensures Valid(e.(lineID := x)) <==> Identifier(x)
    ensures Valid(e.(providerID := x)) <==> Identifier(x)
    ensures Valid(e.(processGeneration := x)) <==> Identifier(x)
    ensures Valid(e.(messageID := x)) <==> (e.kind.Submitted? ==> Identifier(x)) && (e.kind.Received? && Trim(x) == "" ==> e.body != "")
  {
    hide Identifier, Trim, ByteLength;
  }

  /** What the texts of an event have to say depends on its kind. */
  lemma TextsHaveLimits(e: Event, x: string)
    requires Valid(e)
    ensures Valid(e.(body := x)) <==> ByteLength(x) <= 16384 && (e.kind.Received? && x == "" ==> Trim(e.messageID) != "")
    ensures Valid(e.(error := x)) <==> ByteLength(x) <= 4096
    ensures Valid(e.(sender := x)) <==> (e.kind.Received? ==> Trim(x) != "")
    ensures Valid(e.(recipient := x)) <==> (e.kind.Submitted? ==> Trim(x) != "")
    ensures Valid(e.(state := x)) <==> (e.kind.Delivery? ==> Trim(x) != "")
  {
    hide Identifier, Trim, ByteLength;
  }

  /** What an acknowledged source leaves: it is no longer pending, and every other is as it was. */
  lemma AcknowledgementSettles(s: State, id: SourceID, other: SourceID)
    requires forall i | i in s.notify :: i.transport != CELLULAR
    ensures !Pending(AckedSource(s, id), id)
    ensures other != id ==> (Pending(AckedSource(s, id), other) <==> Pending(s, other))
  {
  }

  /** A report with one reference finds its message under that reference and its own transport, or, if no transport has it, without one. */
  lemma ReportResolvesIff(links: map<LinkKey, Link>, d: Event, transport: string, r: Reference)
    requires d.kind.Delivery? && Trim(d.messageID) == "" && References(d) == [r] && IsTransport(transport)
    ensures var own, other, legacy := LinkKey(d.lineID, Some(transport), r), LinkKey(d.lineID, Some(Opposite(transport)), r), LinkKey(d.lineID, None, r);
            Resolved(links, d, transport) ==
            if own in links then (if Usable(links[own]) then d.(messageID := links[own].messageID, part := links[own].part) else d)
            else if other !in links && legacy in links && Usable(links[legacy])
            then d.(messageID := links[legacy].messageID, part := links[legacy].part)
            else d
  {
    hide Usable, References, Trim;
    var own, legacy := LinkKey(d.lineID, Some(transport), r), LinkKey(d.lineID, None, r);
    assert [r][1..] == [] && [r][0] == r;
    assert ScopedLink(links, d.lineID, transport, []).None? && LegacyLink(links, d.lineID, []).None?;
    assert ScopedLink(links, d.lineID, transport, [r]) == if own in links && Usable(links[own]) then Some(links[own]) else None;
    assert LinkKey(d.lineID, Some(VOWIFI), r) !in links && LinkKey(d.lineID, Some(CELLULAR), r) !in links <==>
      own !in links && LinkKey(d.lineID, Some(Opposite(transport)), r) !in links;
  }

  function Opposite(transport: string): string {
    if transport == VOWIFI then CELLULAR else VOWIFI
  }

  /** An event from a sender with a very long address: it is stored and listed, and the page of its conversation is refused. */
  lemma LongPeerCannotBePaged(line: string, transport: string, limit: nat) returns (e: Event)
    ensures Valid(e) && e.kind.Received? && With(e, Trim(e.sender)) && |Trim(e.sender)| == 257
    ensures !MessageStore.QueryValid(line, transport, Trim(e.sender), None, limit)
  {
    var sender := seq(257, _ => '1');
    TrimFixesTrimmed(sender);
    AsciiLength(sender);
    ReceivedIsValid(sender);
    e := SENT.(kind := Received, sender := sender);
    hide Trim, Identifier, ByteLength, Valid;
  }

  lemma ReceivedIsValid(sender: string)
    requires Trim(sender) != ""
    ensures Valid(SENT.(kind := Received, sender := sender))
  {
    hide Trim, Identifier, ByteLength;
    SentIsValid();
  }
}
