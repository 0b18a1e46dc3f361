/** The store's operations as transactions over its buckets; readers scan the record bucket with a cursor. */
module MessageStore {
  import opened Common
  import opened Messages
  import opened History

  datatype PageResult = Shown(messages: seq<Record>, nextBefore: Option<nat>) | QueryRefused

  function RecordsOf(es: seq<Entry>): (r: seq<Record>)
    ensures |r| == |es|
    ensures forall i | 0 <= i < |es| :: r[i] == es[i].record
  {
    seq(|es|, i requires 0 <= i < |es| => es[i].record)
  }

  function Reversed(s: seq<Record>): (r: seq<Record>)
    ensures |r| == |s|
    ensures forall i | 0 <= i < |s| :: r[i] == s[|s| - 1 - i]
  {
    seq(|s|, i requires 0 <= i < |s| => s[|s| - 1 - i])
  }

  predicate QueryValid(line: string, transport: string, peer: string, before: Option<nat>, limit: int) {
    && Identifier(line) && IsTransport(transport)
    && Trim(peer) == peer && ByteLength(peer) <= 256 && 1 <= limit <= 500
    && before != Some(0)
  }

  /** Newest first, the messages are the entries; oldest is the key of the last one collected. */
  predicate Newest(messages: seq<Record>, oldest: nat, entries: seq<Entry>) {
    Reversed(messages) == RecordsOf(entries) && (entries != [] ==> oldest == entries[0].key)
  }

  lemma NewestExtends(messages: seq<Record>, oldest: nat, entries: seq<Entry>, e: Entry)
    requires Newest(messages, oldest, entries)
    ensures Newest(messages + [e.record], e.key, [e] + entries)
  {
    var now, r := messages + [e.record], RecordsOf([e] + entries);
    assert |Reversed(messages)| == |RecordsOf(entries)|;
    forall i | 0 <= i < |r| ensures Reversed(now)[i] == r[i] {
      if i > 0 {
        assert Reversed(messages)[i - 1] == RecordsOf(entries)[i - 1];
      }
    }
  }

  lemma NewestOfNothing()
    ensures Newest([], 0, [])
  {
  }

  lemma NewestTurned(messages: seq<Record>, oldest: nat, entries: seq<Entry>)
    requires Newest(messages, oldest, entries)
    ensures Reversed(messages) == RecordsOf(entries) && (entries != [] ==> oldest == entries[0].key)
  {
  }

  lemma PageFound(chosen: seq<Entry>, before: Option<nat>, limit: nat, found: seq<Entry>, oldest: nat, nextBefore: Option<nat>)
    requires limit > 0 && (found != [] ==> oldest == found[0].key)
    requires var older := chosen[..Below(chosen, before)];
             if nextBefore.None? then found == older && |found| <= limit
             else |found| == limit < |older| && found == older[|older| - limit..] && nextBefore == Some(oldest)
    ensures PageOf(chosen, before, limit) == Page(found, nextBefore)
  {
  }

  /** The presentation order: a page is turned around in place. */
  method TurnAround(messages: seq<Record>) returns (turned: seq<Record>)
    ensures turned == Reversed(messages)
  {
    turned := messages;
    var i, j := 0, |messages| - 1;
    while i < j
      invariant 0 <= i && i + j == |messages| - 1 && |turned| == |messages|
      invariant j >= -1 && i <= j + 2
      invariant forall k | i <= k <= j :: turned[k] == messages[k]
      invariant forall k | 0 <= k < i :: turned[k] == messages[|messages| - 1 - k]
      invariant forall k | j < k < |messages| :: turned[k] == messages[|messages| - 1 - k]
    {
      var left, right := turned[i], turned[j];
      assert j == |messages| - 1 - i;
      turned := turned[i := right];
      turned := turned[j := left];
      i, j := i + 1, j - 1;
    }
  }

  lemma SameCursor(records: seq<Entry>, view: seq<Entry>, before: Option<nat>)
    requires Increasing(records) && |view| == |records| && forall i | 0 <= i < |view| :: view[i].key == records[i].key
    ensures Increasing(view) && Below(view, before) == Below(records, before)
  {
    var a, b := Below(view, before), Below(records, before);
    if a != b {
      var k := if a < b then a else b;
      assert view[k].key == records[k].key;
    }
  }

  lemma SelectOneMore(view: seq<Entry>, i: nat, n: nat, line: string, transport: string, peer: string, peers: map<PeerKey, string>)
    requires 0 < i <= n <= |view|
    ensures Select(view[i - 1..n], line, transport, peer, peers) ==
            (if History.Shown(view[i - 1].record, line, transport, peer, peers) then [view[i - 1]] else []) +
            Select(view[i..n], line, transport, peer, peers)
  {
    assert view[i - 1..n][1..] == view[i..n];
  }

  lemma SelectRest(view: seq<Entry>, i: nat, n: nat, line: string, transport: string, peer: string, peers: map<PeerKey, string>)
    requires 0 < i <= n <= |view| && History.Shown(view[i - 1].record, line, transport, peer, peers)
    ensures var all, found := Select(view[..n], line, transport, peer, peers), Select(view[i..n], line, transport, peer, peers);
            |all| > |found| && all[|all| - |found|..] == found
  {
    hide History.Shown;
    assert view[..n] == view[..i - 1] + view[i - 1..n];
    SelectSplits(view[..i - 1], view[i - 1..n], line, transport, peer, peers);
    SelectOneMore(view, i, n, line, transport, peer, peers);
    var first, found := Select(view[..i - 1], line, transport, peer, peers), Select(view[i..n], line, transport, peer, peers);
    assert first + ([view[i - 1]] + found) == (first + [view[i - 1]]) + found;
  }

  lemma NothingSelected(line: string, transport: string, peer: string, peers: map<PeerKey, string>)
    ensures Select([], line, transport, peer, peers) == []
  {
  }

  lemma NoThreads(line: string, transport: string, peers: map<PeerKey, string>)
    ensures Threads([], line, transport, peers) == map[]
  {
  }

  class Store {
    var records: seq<Entry>
    var sequence: nat
    var ids: map<Identity, Event>
    var links: map<LinkKey, Link>
    var notify: map<SourceID, Source>
    var cellular: map<SourceID, Source>
    var purged: set<string>

    function Contents(): State
      reads this
    {
      State(records, sequence, ids, links, notify, cellular, purged)
    }

    constructor ()
      ensures Contents() == State([], 0, map[], map[], map[], map[], {})
    {
      records, sequence, ids, links := [], 0, map[], map[];
      notify, cellular, purged := map[], map[], {};
    }

    // ------------------------------------------------------------ accepting

    method Accept(e: Event, receivedAt: Moment) returns (outcome: Outcome)
      modifies this
      ensures (Contents(), outcome) == AcceptedEvent(old(Contents()), e, receivedAt)
    {
      hide Accepted;
      outcome := AcceptEvent(e, receivedAt, None, InferTransport(e));
    }

    method AcceptWithNotificationTransport(e: Event, cardID: string, transport: string, receivedAt: Moment) returns (outcome: Outcome)
      modifies this
      ensures (Contents(), outcome) == AcceptedWithNotification(old(Contents()), e, cardID, transport, receivedAt)
    {
      hide Accepted;
      if !ValidCardID(Trim(cardID)) || !IsTransport(Trim(transport)) {
        return Refused;
      }
      outcome := AcceptEvent(e, receivedAt, Some(Trim(cardID)), Trim(transport));
    }

    method AcceptEvent(e: Event, receivedAt: Moment, card: Option<string>, transport: string) returns (outcome: Outcome)
      modifies this
      ensures (Contents(), outcome) == Accepted(old(Contents()), e, receivedAt, card, transport)
    {
      hide Valid, Resolved, StoredLinks, Trim;
      if !Valid(e) || receivedAt == 0 || e.lineID in purged {
        return Refused;
      }
      var event := Resolved(links, e, transport);
      var key := EventIdentity(e);
      var enqueue := card.Some? && e.kind.Received?;
      if key in ids {
        if ids[key] != Fingerprint(e) {
          return Conflict;
        }
        if enqueue {
          var ok := PutNotificationSource(e, card.value, transport, receivedAt);
          return if ok then Duplicate else Conflict;
        }
        return Duplicate;
      }
      if enqueue {
        // The bucket writes below are one transaction with this one, which alone can abort it.
        var ok := PutNotificationSource(e, card.value, transport, receivedAt);
        if !ok {
          return Conflict;
        }
      }
      sequence := sequence + 1;
      records := records + [Entry(sequence, Record(event, transport, receivedAt))];
      ids := ids[key := Fingerprint(e)];
      if e.kind.Submitted? {
        links := StoredLinks(links, e, transport);
      }
      outcome := Stored;
    }

    method PutNotificationSource(e: Event, cardID: string, transport: string, receivedAt: Moment) returns (ok: bool)
      modifies this`notify, this`cellular
      ensures ok <==> PutSource(old(Contents()), e, cardID, transport, receivedAt).Some?
      ensures Contents() == if ok then PutSource(old(Contents()), e, cardID, transport, receivedAt).value else old(Contents())
    {
      var source := Source(e.lineID, cardID, transport, e.sender, e.body, receivedAt, false);
      var id := NotificationSourceID(e, transport);
      var bucket := if transport == CELLULAR then cellular else notify;
      if id in bucket {
        var existing := bucket[id];
        return existing.acked ||
               (existing.line == source.line && existing.card == source.card && existing.transport == source.transport &&
                existing.sender == source.sender && existing.body == source.body);
      }
      if transport == CELLULAR {
        cellular := cellular[id := source];
      } else {
        notify := notify[id := source];
      }
      ok := true;
    }

    // ------------------------------------------------------------ notifications and line retirement

    method AckNotificationSource(id: SourceID)
      modifies this`notify, this`cellular
      ensures Contents() == AckedSource(old(Contents()), id)
    {
      if id.transport == CELLULAR {
        if id !in cellular || cellular[id].acked {
          return;
        }
        cellular := cellular[id := cellular[id].(acked := true, card := "", sender := "", body := "")];
        return;
      }
      notify := notify - {id};
      cellular := cellular - {id};
    }

    /** Scan one outbox for a line, then delete what was found. */
    method DropLine(box: map<SourceID, Source>, line: string) returns (kept: map<SourceID, Source>)
      ensures kept == OtherLines(box, line)
    {
      var found, todo := {}, box.Keys;
      while todo != {}
        invariant todo <= box.Keys
        invariant found == set id | id in box.Keys - todo && box[id].line == line
      {
        var id :| id in todo;
        todo := todo - {id};
        if box[id].line == line {
          found := found + {id};
        }
      }
      kept := box;
      while found != {}
        invariant found <= kept.Keys <= box.Keys
        invariant forall id | id in box :: id in kept <==> id in found || box[id].line != line
        invariant forall id | id in kept :: kept[id] == box[id]
      {
        var id :| id in found;
        found := found - {id};
        kept := kept - {id};
      }
    }

    method RetainLine(lineID: string) returns (ok: bool)
      modifies this
      ensures ok <==> Identifier(Trim(lineID))
      ensures Contents() == if ok then Retained(old(Contents()), Trim(lineID)) else old(Contents())
    {
      var line := Trim(lineID);
      if !Identifier(line) {
        return false;
      }
      purged := purged + {line};
      notify := DropLine(notify, line);
      cellular := DropLine(cellular, line);
      ok := true;
    }

    /** The keys and identities of a line's records. */
    method ScanLine(line: string) returns (keys: seq<nat>, identities: set<Identity>)
      ensures KeySet(keys) == KeysOfLine(records, line)
      ensures identities == IdentitiesOfLine(records, line)
    {
      keys, identities := [], {};
      for i := 0 to |records|
        invariant KeySet(keys) == KeysOfLine(records[..i], line)
        invariant identities == IdentitiesOfLine(records[..i], line)
      {
        assert records[..i + 1] == records[..i] + [records[i]];
        if records[i].record.event.lineID == line {
          KeySetExtends(keys, records[i].key);
          keys := keys + [records[i].key];
          identities := identities + {EventIdentity(records[i].record.event)};
        }
      }
      assert records[..|records|] == records;
    }

    method PurgeLine(lineID: string) returns (ok: bool)
      modifies this
      ensures ok <==> Identifier(Trim(lineID))
      ensures Contents() == if ok then Purged(old(Contents()), Trim(lineID)) else old(Contents())
    {
      var line := Trim(lineID);
      if !Identifier(line) {
        return false;
      }
      purged := purged + {line};
      var keys, identities := ScanLine(line);
      DeleteKeys(keys);
      ids := ids - identities;
      notify := DropLine(notify, line);
      cellular := DropLine(cellular, line);
      links := map k | k in links && k.line != line :: links[k];
      ok := true;
    }

    method DeleteKeys(keys: seq<nat>)
      modifies this`records
      ensures records == Without(old(records), KeySet(keys))
    {
      WithoutNothing(records);
      assert KeySet(keys[..0]) == {};
      for i := 0 to |keys|
        invariant records == Without(old(records), KeySet(keys[..i]))
      {
        WithoutTwice(old(records), KeySet(keys[..i]), {keys[i]});
        KeySetExtends(keys[..i], keys[i]);
        assert keys[..i + 1] == keys[..i] + [keys[i]];
        records := Without(records, {keys[i]});
      }
      assert keys[..|keys|] == keys;
    }

    // ------------------------------------------------------------ history

    method HistoryPeers(line: string, transport: string) returns (peers: map<PeerKey, string>)
      ensures peers == PeersOf(View(Contents()), line, transport)
    {
      hide PeerHeard;
      ghost var view := View(Contents());
      peers := map[];
      for i := 0 to |records|
        invariant peers == PeersOf(view[..i], line, transport)
      {
        assert view[..i + 1][..i] == view[..i];
        peers := PeerHeard(peers, ReadRecord(links, records[i].record), line, transport);
      }
      assert view[..|records|] == view;
    }

    /** The keys of the records a deletion matches. */
    method ScanDoomed(vowifi: map<PeerKey, string>, cell: map<PeerKey, string>,
                      line: string, transport: string, peer: string, wanted: set<string>, all: bool) returns (keys: seq<nat>)
      requires peer != "" ==> vowifi == PeersFor(View(Contents()), line, transport, VOWIFI)
      requires peer != "" ==> cell == PeersFor(View(Contents()), line, transport, CELLULAR)
      ensures KeySet(keys) == DoomedKeys(View(Contents()), line, transport, peer, wanted, all)
    {
      hide Doomed, DoomedRecord, PeersOf, ReadRecord;
      ghost var view := View(Contents());
      keys := [];
      for i := 0 to |records|
        invariant KeySet(keys) == set e | e in view[..i] && Doomed(view, e.record, line, transport, peer, wanted, all) :: e.key
      {
        assert view[..i + 1] == view[..i] + [view[i]];
        DoomedIsDecided(view, view[i].record, vowifi, cell, line, transport, peer, wanted, all);
        if DoomedRecord(ReadRecord(links, records[i].record), vowifi, cell, line, transport, peer, wanted, all) {
          KeySetExtends(keys, records[i].key);
          keys := keys + [records[i].key];
        }
      }
      assert view[..|records|] == view;
    }

    method DeleteHistory(lineID: string, transportName: string, peerName: string, eventIDs: seq<string>, all: bool)
      returns (deleted: Option<nat>)
      modifies this`records
      ensures deleted.Some? <==> DeletionValid(Trim(lineID), Trim(transportName), Trim(peerName), eventIDs, all)
      ensures deleted.Some? ==> Contents() == Deleted(old(Contents()), Trim(lineID), Trim(transportName), Trim(peerName), (set id | id in eventIDs), all)
      ensures deleted.None? ==> Contents() == old(Contents())
    {
      hide Doomed, PeersOf, View, Identifier, Trim;
      var line, transport, peer := Trim(lineID), Trim(transportName), Trim(peerName);
      if !DeletionValid(line, transport, peer, eventIDs, all) {
        return None;
      }
      var wanted := set id | id in eventIDs;
      var vowifi, cell := map[], map[];
      if peer != "" {
        if transport == "" || transport == VOWIFI {
          vowifi := HistoryPeers(line, VOWIFI);
        }
        if transport == "" || transport == CELLULAR {
          cell := HistoryPeers(line, CELLULAR);
        }
      }
      var keys := ScanDoomed(vowifi, cell, line, transport, peer, wanted, all);
      DeleteKeys(keys);
      deleted := Some(|keys|);
    }

    /** conversations, before the list is sorted for display. */
    method Conversations(line: string, transport: string) returns (byPeer: map<Thread, Conversation>)
      ensures byPeer == Threads(View(Contents()), line, transport, PeersOf(View(Contents()), line, transport))
      ensures ListsCorrespondents(View(Contents()), line, transport, byPeer)
    {
      ConversationsListCorrespondents(View(Contents()), line, transport);
      hide Counted, Threads, PeersOf, ReadRecord;
      ghost var view := View(Contents());
      var peers := HistoryPeers(line, transport);
      NoThreads(line, transport, peers);
      byPeer := map[];
      var i := |records|;
      assert view[i..] == [];
      while i > 0
        invariant 0 <= i <= |records|
        invariant byPeer == Threads(view[i..], line, transport, peers)
      {
        i := i - 1;
        OneMoreEntry(view[i], view[i + 1..], line, transport, peers);
        assert view[i..] == [view[i]] + view[i + 1..];
        byPeer := Counted(byPeer, ReadRecord(links, records[i].record), line, transport, peers);
      }
      assert view[0..] == view;
    }

    method MessagePage(line: string, transport: string, peer: string, before: Option<nat>, limit: int) returns (page: PageResult)
      requires Increasing(records)
      ensures page.QueryRefused? <==> !QueryValid(line, transport, peer, before, limit)
      ensures page.Shown? ==>
                var chosen := Select(View(Contents()), line, transport, peer, PeersOf(View(Contents()), line, transport));
                var p := PageOf(chosen, before, limit);
                page == Shown(RecordsOf(p.entries), p.nextBefore)
    {
      hide Select, PeersOf, ReadRecord, History.Shown, Below, PageOf, Increasing, Newest, Trim, Identifier;
      if !QueryValid(line, transport, peer, before, limit) {
        return QueryRefused;
      }
      ghost var view := View(Contents());
      var peers := HistoryPeers(line, transport);
      var i := Below(records, before);
      ghost var n := i;
      SameCursor(records, view, before);
      SelectBelow(view, before, line, transport, peer, peers);
      ghost var older := Select(view[..n], line, transport, peer, peers);
      ghost var found: seq<Entry> := [];
      var messages, oldest, nextBefore := [], 0, None;
      assert view[n..n] == [];
      NothingSelected(line, transport, peer, peers);
      NewestOfNothing();
      while i > 0 && nextBefore.None?
        invariant 0 <= i <= n <= |records|
        invariant |messages| == |found| <= limit && Newest(messages, oldest, found)
        invariant nextBefore.None? ==> found == Select(view[i..n], line, transport, peer, peers)
        invariant nextBefore.Some? ==> |found| == limit < |older| && found == older[|older| - limit..] && nextBefore == Some(oldest)
        decreases i, nextBefore.None?
      {
        SelectOneMore(view, i, n, line, transport, peer, peers);
        var record := ReadRecord(links, records[i - 1].record);
        if !History.Shown(record, line, transport, peer, peers) {
          i := i - 1;
        } else if |messages| == limit {
          nextBefore := Some(oldest);
          SelectRest(view, i, n, line, transport, peer, peers);
        } else {
          NewestExtends(messages, oldest, found, view[i - 1]);
          found := [view[i - 1]] + found;
          oldest := records[i - 1].key;
          messages := messages + [record];
          i := i - 1;
        }
      }
      assert nextBefore.None? ==> view[i..n] == view[..n];
      NewestTurned(messages, oldest, found);
      PageFound(Select(view, line, transport, peer, peers), before, limit, found, oldest, nextBefore);
      var turned := TurnAround(messages);
      page := PageResult.Shown(turned, nextBefore);
    }
  }

  function KeySet(keys: seq<nat>): set<nat> {
    set k | k in keys
  }

  lemma KeySetExtends(keys: seq<nat>, k: nat)
    ensures KeySet(keys + [k]) == KeySet(keys) + {k}
  {
    assert forall x :: x in keys + [k] <==> x in keys || x == k;
  }

  /** The decision DeleteHistory takes on one record, with the peers it looked up beforehand. */
  predicate DoomedRecord(r: Record, vowifi: map<PeerKey, string>, cell: map<PeerKey, string>,
                         line: string, transport: string, peer: string, ids: set<string>, all: bool) {
    if r.event.lineID != line || (transport != "" && r.transport != transport) then false
    else
      var peers := if r.transport == VOWIFI then vowifi else if r.transport == CELLULAR then cell else map[];
      (if peer != "" then ResolvedPeer(r, peers) == peer else all) || r.event.eventID in ids
  }

  lemma DoomedIsDecided(es: seq<Entry>, r: Record, vowifi: map<PeerKey, string>, cell: map<PeerKey, string>,
                        line: string, transport: string, peer: string, ids: set<string>, all: bool)
    requires peer != "" ==> vowifi == PeersFor(es, line, transport, VOWIFI) && cell == PeersFor(es, line, transport, CELLULAR)
    ensures DoomedRecord(r, vowifi, cell, line, transport, peer, ids, all) <==> Doomed(es, r, line, transport, peer, ids, all)
  {
    hide ResolvedPeer, PeersOf;
  }

  /** The cursor of a page is a valid query for the next page, so a reader who can ask once can read to the end. */
  lemma NextPageCanBeAsked(s: State, line: string, transport: string, peer: string, before: Option<nat>, limit: nat)
    requires QueryValid(line, transport, peer, before, limit) && forall e | e in s.records :: e.key > 0
    ensures var chosen := Select(View(s), line, transport, peer, PeersOf(View(s), line, transport));
            PageOf(chosen, before, limit).nextBefore.Some? ==>
              QueryValid(line, transport, peer, PageOf(chosen, before, limit).nextBefore, limit)
  {
    hide View, PeersOf, ResolvedPeer, Identifier, Trim, Select;
    var chosen := Select(View(s), line, transport, peer, PeersOf(View(s), line, transport));
    var older := chosen[..Below(chosen, before)];
    if |older| > limit {
      var e := older[|older| - limit];
      assert e in chosen;
      Selected(View(s), line, transport, peer, PeersOf(View(s), line, transport), e);
      ViewMembers(s, e);
    }
  }

  /**
   * Events put no limit on the length of a peer, queries do: a conversation in the list can be paged if and only if its peer is
   * at most 256 bytes long.
   */
  lemma ConversationCanBePagedIff(s: State, line: string, transport: string, t: Thread, limit: nat)
    requires forall e | e in s.records :: Valid(e.record.event) && IsTransport(e.record.transport)
    requires t in Threads(View(s), line, transport, PeersOf(View(s), line, transport)) && 1 <= limit <= 500
    ensures QueryValid(t.line, t.transport, t.peer, None, limit) <==> ByteLength(t.peer) <= 256
  {
    hide View, Identifier, Trim, PeersOf;
    var peers := PeersOf(View(s), line, transport);
    var v :| v in View(s) && Listed(v.record, line, transport, peers) && ThreadOf(v.record, peers) == t;
    ViewMembers(s, v);
    PeersAreTrimmed(View(s), line, transport, v.record);
  }

  lemma PeersAreTrimmed(es: seq<Entry>, line: string, transport: string, r: Record)
    ensures Trim(ResolvedPeer(r, PeersOf(es, line, transport))) == ResolvedPeer(r, PeersOf(es, line, transport))
  {
    TrimFixesTrimmed("");
    hide Trim, PeersOf;
    NamedPeerIsTrimmed(r);
    var peer := Lookup(PeersOf(es, line, transport), KeyOf(r));
    if HistoryPeer(r) == "" && peer != "" {
      PeersNeverGuess(es, line, transport, KeyOf(r), peer);
      assert peer in Voices(es, line, transport, KeyOf(r));
      var e :| e in es && HistoryPeer(e.record) == peer;
      NamedPeerIsTrimmed(e.record);
    }
  }

  lemma NamedPeerIsTrimmed(r: Record)
    ensures Trim(HistoryPeer(r)) == HistoryPeer(r)
  {
    hide Trim;
    TrimIsTrimmed(r.event.sender);
    TrimIsTrimmed(r.event.recipient);
  }
}
