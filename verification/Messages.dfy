/** The durable SMS store: events, records, delivery links, notification outboxes and line tombstones. */
module Messages {
  import opened Common

  // ---------------------------------------------------------------- values

  datatype Kind = Received | Submitted | Delivery | UnknownKind(name: string)

  /** A moment as a count of nanoseconds; zero stands for Go's zero time. */
  type Moment = int

  datatype Event = Event(
    schemaVersion: int,
    eventID: string,
    lineID: string,
    providerID: string,
    processGeneration: string,
    kind: Kind,
    observedAt: Moment,
    messageID: string,
    part: int,
    sender: string,
    recipient: string,
    body: string,
    callID: string,
    inReplyTo: string,
    rpMR: int,
    state: string,
    sipCode: int,
    rpCause: int,
    error: string)

  datatype Record = Record(event: Event, transport: string, receivedAt: Moment)

  /** A record under its key in the record bucket. */
  datatype Entry = Entry(key: nat, record: Record)

  /** The three parts that eventIdentity joins with NUL. */
  datatype Identity = Identity(line: string, provider: string, event: string)

  /** A digest of an identity is represented by the identity itself. */
  datatype SourceID = SourceID(transport: string, identity: Identity)

  datatype Source = Source(line: string, card: string, transport: string, sender: string, body: string, receivedAt: Moment, acked: bool)

  datatype Reference = Call(value: string) | MessageReference(number: int)

  /** A correlation key: scoped to a transport, or of the form written before transports were recorded. */
  datatype LinkKey = LinkKey(line: string, transport: Option<string>, reference: Reference)

  datatype Link = Link(messageID: string, part: int)

  datatype State = State(
    records: seq<Entry>,
    sequence: nat,
    ids: map<Identity, Event>,
    links: map<LinkKey, Link>,
    notify: map<SourceID, Source>,
    cellular: map<SourceID, Source>,
    purged: set<string>)

  const VOWIFI := "vowifi"
  const CELLULAR := "cellular"

  predicate IsTransport(t: string) {
    t == VOWIFI || t == CELLULAR
  }

  predicate Identifier(value: string) {
    var v := Trim(value);
    v != "" && ByteLength(v) <= 200 && forall i | 0 <= i < |v| :: v[i] > ' ' && v[i] != '\U{007f}'
  }

  predicate ValidCardID(value: string) {
    var v := Trim(value);
    4 <= ByteLength(v) <= 32 && forall i | 0 <= i < |v| :: '0' <= v[i] <= '9'
  }

  /** Event.Validate. */
  predicate Valid(e: Event) {
    && e.schemaVersion == 1
    && Identifier(e.eventID) && Identifier(e.lineID) && Identifier(e.providerID) && Identifier(e.processGeneration)
    && e.observedAt != 0
    && ByteLength(e.body) <= 16 * 1024 && ByteLength(e.error) <= 4096
    && 0 <= e.part && 0 <= e.sipCode <= 699 && 0 <= e.rpMR <= 255
    && match e.kind
       case Received => Trim(e.sender) != "" && (e.body != "" || Trim(e.messageID) != "")
       case Submitted => Identifier(e.messageID) && e.part >= 1 && Trim(e.recipient) != "" && (Trim(e.callID) != "" || e.rpMR != 0)
       case Delivery => (Trim(e.callID) != "" || Trim(e.inReplyTo) != "" || e.rpMR != 0) && Trim(e.state) != ""
       case UnknownKind(_) => false
  }

  function EventIdentity(e: Event): Identity {
    Identity(e.lineID, e.providerID, e.eventID)
  }

  function NotificationSourceID(e: Event, transport: string): SourceID {
    SourceID(transport, EventIdentity(e))
  }

  /** What the identity index remembers of an event: everything but the process that submitted it. */
  function Fingerprint(e: Event): Event {
    e.(processGeneration := "")
  }

  function InferTransport(e: Event): string {
    if e.providerID == CELLULAR || "cellular-" <= e.eventID then CELLULAR else VOWIFI
  }

  /** A record as readers see its transport; stores written before transports were recorded left it empty. */
  function TransportOf(r: Record): string {
    if r.transport == "" then InferTransport(r.event) else r.transport
  }

  // ---------------------------------------------------------------- delivery correlation

  function CallReference(value: string): seq<Reference> {
    if Trim(value) != "" then [Call(Trim(value))] else []
  }

  function References(e: Event): seq<Reference> {
    CallReference(e.inReplyTo) + CallReference(e.callID) + if e.rpMR > 0 then [MessageReference(e.rpMR)] else []
  }

  predicate Usable(l: Link) {
    Identifier(l.messageID) && l.part > 0
  }

  function ScopedLink(links: map<LinkKey, Link>, line: string, transport: string, refs: seq<Reference>): Option<Link> {
    if refs == [] then None
    else
      var k := LinkKey(line, Some(transport), refs[0]);
      if k in links && Usable(links[k]) then Some(links[k]) else ScopedLink(links, line, transport, refs[1..])
  }

  /** Unscoped links are trusted only while neither transport has a scoped one for the same reference. */
  function LegacyLink(links: map<LinkKey, Link>, line: string, refs: seq<Reference>): Option<Link> {
    if refs == [] then None
    else
      var k := LinkKey(line, None, refs[0]);
      if LinkKey(line, Some(VOWIFI), refs[0]) !in links && LinkKey(line, Some(CELLULAR), refs[0]) !in links && k in links && Usable(links[k])
      then Some(links[k])
      else LegacyLink(links, line, refs[1..])
  }

  function ResolveDeliveryLink(links: map<LinkKey, Link>, e: Event, transport: string): Option<Link> {
    var scoped := ScopedLink(links, e.lineID, transport, References(e));
    if scoped.Some? then scoped else LegacyLink(links, e.lineID, References(e))
  }

  /** A delivery report without a message id takes the one its correlation names. */
  function Resolved(links: map<LinkKey, Link>, e: Event, transport: string): Event {
    if e.kind.Delivery? && Trim(e.messageID) == "" then
      match ResolveDeliveryLink(links, e, transport)
      case None => e
      case Some(l) => e.(messageID := l.messageID, part := l.part)
    else e
  }

  function StoredLinks(links: map<LinkKey, Link>, e: Event, transport: string): map<LinkKey, Link> {
    links + map k | k in DeliveryKeys(e, transport) :: Link(e.messageID, e.part)
  }

  function DeliveryKeys(e: Event, transport: string): set<LinkKey> {
    set r | r in References(e) :: LinkKey(e.lineID, Some(transport), r)
  }

  // ---------------------------------------------------------------- operations

  datatype Outcome = Stored | Duplicate | Refused | Conflict

  function Outbox(s: State, transport: string): map<SourceID, Source> {
    if transport == CELLULAR then s.cellular else s.notify
  }

  function WithOutbox(s: State, transport: string, box: map<SourceID, Source>): State {
    if transport == CELLULAR then s.(cellular := box) else s.(notify := box)
  }

  /** putNotificationSource: None when a live entry for the same source differs. */
  function PutSource(s: State, e: Event, card: string, transport: string, receivedAt: Moment): Option<State> {
    var id := NotificationSourceID(e, transport);
    var source := Source(e.lineID, card, transport, e.sender, e.body, receivedAt, false);
    var box := Outbox(s, transport);
    if id !in box then Some(WithOutbox(s, transport, box[id := source]))
    else if box[id].acked || box[id].(receivedAt := receivedAt) == source then Some(s)
    else None
  }

  /** The transaction of accept; a refused or conflicting event leaves nothing behind. */
  function Accepted(s: State, e: Event, receivedAt: Moment, card: Option<string>, transport: string): (State, Outcome) {
    if !Valid(e) || receivedAt == 0 || e.lineID in s.purged then (s, Refused)
    else
      var resolved := Resolved(s.links, e, transport);
      var id := EventIdentity(e);
      var enqueue := card.Some? && e.kind.Received?;
      if id in s.ids then
        if s.ids[id] != Fingerprint(e) then (s, Conflict)
        else if !enqueue then (s, Duplicate)
        else
          match PutSource(s, e, card.value, transport, receivedAt)
          case None => (s, Conflict)
          case Some(t) => (t, Duplicate)
      else
        var appended := s.(records := s.records + [Entry(s.sequence + 1, Record(resolved, transport, receivedAt))],
                           sequence := s.sequence + 1,
                           ids := s.ids[id := Fingerprint(e)]);
        if enqueue then
          match PutSource(appended, e, card.value, transport, receivedAt)
          case None => (s, Conflict)
          case Some(t) => (t, Stored)
        else if e.kind.Submitted? then (appended.(links := StoredLinks(s.links, e, transport)), Stored)
        else (appended, Stored)
  }

  /** The public operations: Accept infers the transport, AcceptWithNotificationTransport is told it. */
  function AcceptedEvent(s: State, e: Event, receivedAt: Moment): (State, Outcome) {
    Accepted(s, e, receivedAt, None, InferTransport(e))
  }

  function AcceptedWithNotification(s: State, e: Event, card: string, transport: string, receivedAt: Moment): (State, Outcome) {
    if !ValidCardID(Trim(card)) || !IsTransport(Trim(transport)) then (s, Refused)
    else Accepted(s, e, receivedAt, Some(Trim(card)), Trim(transport))
  }

  /** AckNotificationSource: a cellular source is kept as an emptied tombstone, any other is deleted. */
  function AckedSource(s: State, id: SourceID): State {
    if id.transport == CELLULAR then
      if id in s.cellular && !s.cellular[id].acked
      then s.(cellular := s.cellular[id := s.cellular[id].(acked := true, card := "", sender := "", body := "")])
      else s
    else s.(notify := s.notify - {id}, cellular := s.cellular - {id})
  }

  function OtherLines(box: map<SourceID, Source>, line: string): map<SourceID, Source> {
    map id | id in box && box[id].line != line :: box[id]
  }

  /** RetainLine: the history stays, the queue goes, and the tombstone refuses whatever comes later. */
  function Retained(s: State, line: string): State {
    s.(purged := s.purged + {line}, notify := OtherLines(s.notify, line), cellular := OtherLines(s.cellular, line))
  }

  function Without(records: seq<Entry>, drop: set<nat>): seq<Entry> {
    if records == [] then []
    else (if records[0].key in drop then [] else [records[0]]) + Without(records[1..], drop)
  }

  function KeysOfLine(records: seq<Entry>, line: string): set<nat> {
    set e | e in records && e.record.event.lineID == line :: e.key
  }

  function IdentitiesOfLine(records: seq<Entry>, line: string): set<Identity> {
    set e | e in records && e.record.event.lineID == line :: EventIdentity(e.record.event)
  }

  /** PurgeLine. */
  function Purged(s: State, line: string): State {
    Retained(s, line).(
      records := Without(s.records, KeysOfLine(s.records, line)),
      ids := s.ids - IdentitiesOfLine(s.records, line),
      links := map k | k in s.links && k.line != line :: s.links[k])
  }

  // ---------------------------------------------------------------- notifications

  /** What PendingNotificationSources may still hand out. */
  predicate Pending(s: State, id: SourceID) {
    (id in s.notify && !s.notify[id].acked) || (id in s.cellular && !s.cellular[id].acked)
  }
}
