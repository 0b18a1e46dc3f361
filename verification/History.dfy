/** Reading the message history: which peer a record belongs to, pages under a cursor, conversations, deletion. */
module History {
  import opened Common
  import opened Messages

  // ---------------------------------------------------------------- records as readers see them

  /** historyRecord: the transport is filled in and an open delivery report takes the message id its links name now. */
  function ReadRecord(links: map<LinkKey, Link>, r: Record): Record {
    Record(Resolved(links, r.event, TransportOf(r)), TransportOf(r), r.receivedAt)
  }

  function View(s: State): (v: seq<Entry>)
    ensures |v| == |s.records|
    ensures forall i | 0 <= i < |v| :: v[i] == Entry(s.records[i].key, ReadRecord(s.links, s.records[i].record))
  {
    seq(|s.records|, i requires 0 <= i < |s.records| => Entry(s.records[i].key, ReadRecord(s.links, s.records[i].record)))
  }

  function HistoryPeer(r: Record): string {
    if Trim(r.event.sender) != "" then Trim(r.event.sender) else Trim(r.event.recipient)
  }

  datatype PeerKey = PeerKey(line: string, transport: string, messageID: string)

  function KeyOf(r: Record): PeerKey {
    PeerKey(r.event.lineID, r.transport, r.event.messageID)
  }

  predicate InScope(r: Record, line: string, transport: string) {
    (line == "" || r.event.lineID == line) && (transport == "" || r.transport == transport)
  }

  /** The record names a peer for the message id. */
  predicate Names(r: Record, line: string, transport: string, k: PeerKey) {
    InScope(r, line, transport) && r.event.messageID != "" && KeyOf(r) == k && HistoryPeer(r) != ""
  }

  /** Every peer some record names for the message id. */
  function Voices(es: seq<Entry>, line: string, transport: string, k: PeerKey): set<string> {
    set e | e in es && Names(e.record, line, transport, k) :: HistoryPeer(e.record)
  }

  /** One record of historyPeers: a message id keeps its peer until a second one appears, and then has none. */
  function PeerHeard(peers: map<PeerKey, string>, r: Record, line: string, transport: string): map<PeerKey, string> {
    if !InScope(r, line, transport) || r.event.messageID == "" || HistoryPeer(r) == "" then peers
    else if KeyOf(r) !in peers then peers[KeyOf(r) := HistoryPeer(r)]
    else if peers[KeyOf(r)] != HistoryPeer(r) then peers[KeyOf(r) := ""]
    else peers
  }

  function PeersOf(es: seq<Entry>, line: string, transport: string): map<PeerKey, string> {
    if es == [] then map[]
    else PeerHeard(PeersOf(es[..|es| - 1], line, transport), es[|es| - 1].record, line, transport)
  }

  function Lookup(peers: map<PeerKey, string>, k: PeerKey): string {
    if k in peers then peers[k] else ""
  }

  function ResolvedPeer(r: Record, peers: map<PeerKey, string>): string {
    if HistoryPeer(r) != "" then HistoryPeer(r) else Lookup(peers, KeyOf(r))
  }

  /** What the running map holds for a message id, given the peers heard so far. */
  predicate Heard(peers: map<PeerKey, string>, k: PeerKey, voices: set<string>) {
    if k !in peers then voices == {}
    else if peers[k] == "" then |voices| >= 2
    else voices == {peers[k]}
  }

  lemma OneMoreVoice(front: seq<Entry>, last: Entry, line: string, transport: string, k: PeerKey)
    ensures Voices(front + [last], line, transport, k) ==
            Voices(front, line, transport, k) + if Names(last.record, line, transport, k) then {HistoryPeer(last.record)} else {}
  {
    hide HistoryPeer;
    assert forall e :: e in front + [last] <==> e in front || e == last;
  }

  lemma HeardStep(peers: map<PeerKey, string>, r: Record, line: string, transport: string, k: PeerKey, voices: set<string>)
    requires Heard(peers, k, voices)
    ensures Heard(PeerHeard(peers, r, line, transport), k, voices + if Names(r, line, transport, k) then {HistoryPeer(r)} else {})
  {
    hide HistoryPeer;
    if Names(r, line, transport, k) {
      var p := HistoryPeer(r);
      if k in peers && peers[k] == "" {
        assert |voices + {p}| >= |voices| by {
          assert voices + {p} == voices + ({p} - voices);
        }
      } else if k in peers && peers[k] != p {
        assert |{peers[k], p}| == 2;
      }
    }
  }

  lemma {:induction false} PeersAreHeard(es: seq<Entry>, line: string, transport: string, k: PeerKey)
    ensures Heard(PeersOf(es, line, transport), k, Voices(es, line, transport, k))
  {
    hide Voices, Heard, PeerHeard;
    if es == [] {
      assert Voices(es, line, transport, k) == {} && Heard(map[], k, {}) by {
        NoVoices(line, transport, k);
      }
    } else {
      var front, last := es[..|es| - 1], es[|es| - 1];
      PeersAreHeard(front, line, transport, k);
      OneMoreVoice(front, last, line, transport, k);
      HeardStep(PeersOf(front, line, transport), last.record, line, transport, k, Voices(front, line, transport, k));
      assert es == front + [last];
    }
  }

  lemma NoVoices(line: string, transport: string, k: PeerKey)
    ensures Voices([], line, transport, k) == {} && Heard(map[], k, {})
  {
  }

  /** A message id is resolved to a peer exactly when that is the only peer the retained records name for it. */
  lemma PeersNeverGuess(es: seq<Entry>, line: string, transport: string, k: PeerKey, peer: string)
    requires peer != ""
    ensures Lookup(PeersOf(es, line, transport), k) == peer <==> Voices(es, line, transport, k) == {peer}
  {
    hide PeersOf, Voices;
    PeersAreHeard(es, line, transport, k);
  }

  /** Resolving within one line and transport, or over the whole store, gives a record the same peer. */
  lemma ScopesAgree(es: seq<Entry>, r: Record)
    ensures ResolvedPeer(r, PeersOf(es, "", "")) == ResolvedPeer(r, PeersOf(es, r.event.lineID, r.transport))
  {
    hide PeersOf, HistoryPeer;
    var k := KeyOf(r);
    assert Voices(es, "", "", k) == Voices(es, k.line, k.transport, k);
    var wide, narrow := Lookup(PeersOf(es, "", ""), k), Lookup(PeersOf(es, k.line, k.transport), k);
    if wide != "" {
      PeersNeverGuess(es, "", "", k, wide);
      PeersNeverGuess(es, k.line, k.transport, k, wide);
    }
    if narrow != "" {
      PeersNeverGuess(es, "", "", k, narrow);
      PeersNeverGuess(es, k.line, k.transport, k, narrow);
    }
  }

  /** Whose record it is: the sender's if it has one, else the recipient's; who is named nowhere is found by the message id. */
  predicate With(e: Event, peer: string) {
    if Trim(e.sender) != "" then Trim(e.sender) == peer else Trim(e.recipient) == peer
  }

  predicate Anonymous(e: Event) {
    Trim(e.sender) == "" && Trim(e.recipient) == ""
  }

  lemma ResolvedPeerIs(r: Record, peers: map<PeerKey, string>, peer: string)
    ensures !Anonymous(r.event) ==> (ResolvedPeer(r, peers) == peer <==> With(r.event, peer))
    ensures Anonymous(r.event) ==> ResolvedPeer(r, peers) == Lookup(peers, KeyOf(r))
  {
  }

  // ---------------------------------------------------------------- pages

  ghost predicate Increasing(es: seq<Entry>) {
    forall i, j | 0 <= i < j < |es| :: es[i].key < es[j].key
  }

  predicate Shown(r: Record, line: string, transport: string, peer: string, peers: map<PeerKey, string>) {
    r.event.lineID == line && r.transport == transport && (peer == "" || ResolvedPeer(r, peers) == peer)
  }

  function Select(es: seq<Entry>, line: string, transport: string, peer: string, peers: map<PeerKey, string>): seq<Entry> {
    if es == [] then []
    else (if Shown(es[0].record, line, transport, peer, peers) then [es[0]] else []) + Select(es[1..], line, transport, peer, peers)
  }

  lemma {:induction false} Selected(es: seq<Entry>, line: string, transport: string, peer: string, peers: map<PeerKey, string>, e: Entry)
    ensures e in Select(es, line, transport, peer, peers) <==> e in es && Shown(e.record, line, transport, peer, peers)
  {
    if es != [] {
      Selected(es[1..], line, transport, peer, peers, e);
      assert es == [es[0]] + es[1..];
    }
  }

  /** What paging selects for a peer: the records of its line and transport from it, and without a sender those to it. */
  lemma SelectionOnFields(es: seq<Entry>, line: string, transport: string, peer: string, e: Entry)
    requires e in es && !Anonymous(e.record.event)
    ensures e in Select(es, line, transport, peer, PeersOf(es, line, transport)) <==>
            e.record.event.lineID == line && e.record.transport == transport && (peer == "" || With(e.record.event, peer))
  {
    hide PeersOf;
    Selected(es, line, transport, peer, PeersOf(es, line, transport), e);
    ResolvedPeerIs(e.record, PeersOf(es, line, transport), peer);
  }

  lemma {:induction false} SelectIncreases(es: seq<Entry>, line: string, transport: string, peer: string, peers: map<PeerKey, string>)
    requires Increasing(es)
    ensures Increasing(Select(es, line, transport, peer, peers))
  {
    hide Shown;
    if es != [] {
      SelectIncreases(es[1..], line, transport, peer, peers);
      var rest := Select(es[1..], line, transport, peer, peers);
      forall i | 0 <= i < |rest| ensures es[0].key < rest[i].key {
        Selected(es[1..], line, transport, peer, peers, rest[i]);
        var j :| 0 <= j < |es[1..]| && es[1..][j] == rest[i];
        assert es[j + 1] == rest[i];
      }
    }
  }

  lemma {:induction false} SelectSplits(a: seq<Entry>, b: seq<Entry>, line: string, transport: string, peer: string, peers: map<PeerKey, string>)
    ensures Select(a + b, line, transport, peer, peers) == Select(a, line, transport, peer, peers) + Select(b, line, transport, peer, peers)
  {
    if a == [] {
      assert a + b == b;
    } else {
      assert (a + b)[1..] == a[1..] + b;
      SelectSplits(a[1..], b, line, transport, peer, peers);
    }
  }

  /** Where the cursor starts: behind the last key below the boundary. */
  function Below(es: seq<Entry>, before: Option<nat>): (n: nat)
    ensures n <= |es|
    ensures Increasing(es) ==> forall i | 0 <= i < |es| :: i < n <==> before.None? || es[i].key < before.value
  {
    if before.None? || es == [] || es[|es| - 1].key < before.value then |es|
    else Below(es[..|es| - 1], before)
  }

  datatype Page = Page(entries: seq<Entry>, nextBefore: Option<nat>)

  /** The newest entries under the boundary, and a cursor if there are more. */
  function PageOf(matching: seq<Entry>, before: Option<nat>, limit: nat): Page
    requires limit > 0
  {
    var older := matching[..Below(matching, before)];
    if |older| <= limit then Page(older, None)
    else Page(older[|older| - limit..], Some(older[|older| - limit].key))
  }

  /**
   * A reader following NextBefore: at each step the matching entries are what the store holds then, and the limit is
   * the reader's choice.
   */
  ghost predicate Follows(views: seq<seq<Entry>>, limits: seq<nat>, pages: seq<Page>) {
    Turns(views, limits, pages) && forall i | 0 <= i < |views| :: Increasing(views[i])
  }

  ghost predicate Turns(views: seq<seq<Entry>>, limits: seq<nat>, pages: seq<Page>) {
    && |views| == |limits| == |pages| > 0
    && (forall i | 0 <= i < |limits| :: limits[i] > 0)
    && (forall i {:trigger pages[i]} | 0 <= i < |pages| :: pages[i] == PageOf(views[i], Boundary(pages, i), limits[i]))
    && (forall i | 0 < i < |pages| :: Boundary(pages, i).Some?)
  }

  function Boundary(pages: seq<Page>, i: nat): Option<nat>
    requires i <= |pages|
  {
    if i == 0 then None else pages[i - 1].nextBefore
  }

  /** A page holds exactly the matching entries between its two cursors. */
  lemma PageIsAnInterval(matching: seq<Entry>, before: Option<nat>, limit: nat, e: Entry)
    requires Increasing(matching) && limit > 0
    ensures var p := PageOf(matching, before, limit);
            && (e in p.entries <==>
                  e in matching && (before.Some? ==> e.key < before.value) && (p.nextBefore.Some? ==> p.nextBefore.value <= e.key))
            && Increasing(p.entries)
  {
    var n := Below(matching, before);
    var low := if n <= limit then 0 else n - limit;
    assert matching[..n][low..] == matching[low..n];
    assert matching[..n] == matching[0..n];
    SliceMembers(matching, low, n, e);
  }

  lemma CursorMovesDown(matching: seq<Entry>, before: Option<nat>, limit: nat)
    requires Increasing(matching) && limit > 0
    ensures var p := PageOf(matching, before, limit);
            p.nextBefore.Some? ==> |p.entries| == limit && (before.Some? ==> p.nextBefore.value < before.value)
  {
  }

  lemma SliceMembers(matching: seq<Entry>, low: nat, n: nat, e: Entry)
    requires Increasing(matching) && low <= n <= |matching| && (low < |matching| || matching == [])
    ensures e in matching[low..n] <==>
            e in matching && (n < |matching| ==> e.key < matching[n].key) && (low < |matching| ==> matching[low].key <= e.key)
    ensures Increasing(matching[low..n])
  {
    if e in matching {
      var i :| 0 <= i < |matching| && matching[i] == e;
      if low <= i < n {
        assert matching[low..n][i - low] == e;
      }
    }
  }

  lemma {:induction false} CursorsDescend(views: seq<seq<Entry>>, limits: seq<nat>, pages: seq<Page>, i: nat, j: nat)
    requires Follows(views, limits, pages) && 0 < i <= j < |pages|
    ensures Boundary(pages, j).value <= Boundary(pages, i).value
  {
    hide PageOf, Increasing;
    if i < j {
      CursorsDescend(views, limits, pages, i, j - 1);
      CursorMovesDown(views[j - 1], Boundary(pages, j - 1), limits[j - 1]);
    }
  }

  /** No key is shown twice, whatever is appended or deleted between the pages. */
  lemma NothingIsShownTwice(views: seq<seq<Entry>>, limits: seq<nat>, pages: seq<Page>, i: nat, j: nat, e: Entry, f: Entry)
    requires Follows(views, limits, pages) && i < j < |pages|
    requires e in pages[i].entries && f in pages[j].entries
    ensures f.key < e.key
  {
    hide PageOf, Increasing;
    PageIsAnInterval(views[i], Boundary(pages, i), limits[i], e);
    PageIsAnInterval(views[j], Boundary(pages, j), limits[j], f);
    CursorsDescend(views, limits, pages, i + 1, j);
  }

  ghost predicate HasKey(es: seq<Entry>, k: nat) {
    exists e :: e in es && e.key == k
  }

  /** From step i on, whatever stays matching under the cursor of step i is shown. */
  lemma {:induction false} NothingIsSkippedFrom(views: seq<seq<Entry>>, limits: seq<nat>, pages: seq<Page>, k: nat, i: nat) returns (j: nat)
    requires Follows(views, limits, pages) && pages[|pages| - 1].nextBefore.None?
    requires i < |pages| && (Boundary(pages, i).Some? ==> k < Boundary(pages, i).value)
    requires forall n | i <= n < |views| :: HasKey(views[n], k)
    ensures i <= j < |pages| && HasKey(pages[j].entries, k)
    decreases |pages| - i
  {
    hide PageOf, Increasing;
    var e :| e in views[i] && e.key == k;
    PageIsAnInterval(views[i], Boundary(pages, i), limits[i], e);
    if e in pages[i].entries {
      j := i;
    } else {
      j := NothingIsSkippedFrom(views, limits, pages, k, i + 1);
    }
  }

  /**
   * A record that is retained and keeps matching throughout is on exactly one page. A record is named by its key here:
   * what readers see of it may change meanwhile, as when a delivery report finds its message.
   */
  lemma EverythingKeptIsShownOnce(views: seq<seq<Entry>>, limits: seq<nat>, pages: seq<Page>, k: nat)
    requires Follows(views, limits, pages) && pages[|pages| - 1].nextBefore.None?
    requires forall n | 0 <= n < |views| :: HasKey(views[n], k)
    ensures exists j :: 0 <= j < |pages| && HasKey(pages[j].entries, k) && forall i | 0 <= i < |pages| && HasKey(pages[i].entries, k) :: i == j
  {
    hide Follows;
    FollowsHasPages(views, limits, pages);
    var j := NothingIsSkippedFrom(views, limits, pages, k, 0);
    forall i | 0 <= i < |pages| && HasKey(pages[i].entries, k) ensures i == j {
      ShownOnOnePage(views, limits, pages, k, i, j);
    }
  }

  lemma FollowsHasPages(views: seq<seq<Entry>>, limits: seq<nat>, pages: seq<Page>)
    requires Follows(views, limits, pages)
    ensures |pages| == |views| == |limits| > 0
  {
  }

  lemma ShownOnOnePage(views: seq<seq<Entry>>, limits: seq<nat>, pages: seq<Page>, k: nat, i: nat, j: nat)
    requires Follows(views, limits, pages) && i < |pages| && j < |pages|
    requires HasKey(pages[i].entries, k) && HasKey(pages[j].entries, k)
    ensures i == j
  {
    hide Follows;
    var e :| e in pages[i].entries && e.key == k;
    var f :| f in pages[j].entries && f.key == k;
    if i < j {
      NothingIsShownTwice(views, limits, pages, i, j, e, f);
    } else if j < i {
      NothingIsShownTwice(views, limits, pages, j, i, f, e);
    }
  }

  /** The pages from the last one back to the first. */
  function OldestFirst(pages: seq<Page>): seq<Entry> {
    if pages == [] then [] else OldestFirst(pages[1..]) + pages[0].entries
  }

  /** On a store that does not change, the pages together are the filtered history in key order. */
  lemma {:induction false} PagesAreTheHistory(matching: seq<Entry>, limits: seq<nat>, pages: seq<Page>)
    requires Follows(seq(|pages|, _ => matching), limits, pages) && pages[|pages| - 1].nextBefore.None?
    ensures OldestFirst(pages) == matching
  {
    var views := seq(|pages|, _ => matching);
    RestIsTheHistory(matching, views, limits, pages, 0);
    assert pages[0..] == pages && matching[..|matching|] == matching;
  }

  lemma {:induction false} RestIsTheHistory(matching: seq<Entry>, views: seq<seq<Entry>>, limits: seq<nat>, pages: seq<Page>, i: nat)
    requires Follows(views, limits, pages) && pages[|pages| - 1].nextBefore.None? && i < |pages|
    requires forall n | 0 <= n < |views| :: views[n] == matching
    ensures OldestFirst(pages[i..]) == matching[..Below(matching, Boundary(pages, i))]
    decreases |pages| - i
  {
    hide Below, Increasing;
    assert pages[i..][1..] == pages[i + 1..];
    assert views[i] == matching;
    PageAndTheOlder(matching, Boundary(pages, i), limits[i]);
    if pages[i].nextBefore.None? {
      assert i + 1 < |pages| ==> Boundary(pages, i + 1).None?;
      assert pages[i + 1..] == [];
    } else {
      RestIsTheHistory(matching, views, limits, pages, i + 1);
    }
  }

  /** What lies under a page's cursor and the page itself make up what lay under the cursor before. */
  lemma PageAndTheOlder(matching: seq<Entry>, before: Option<nat>, limit: nat)
    requires Increasing(matching) && limit > 0
    ensures var p := PageOf(matching, before, limit);
            matching[..Below(matching, before)] ==
            (if p.nextBefore.None? then [] else matching[..Below(matching, p.nextBefore)]) + p.entries
  {
    var n := Below(matching, before);
    if n > limit {
      var low := n - limit;
      var m := Below(matching, Some(matching[low].key));
      assert matching[low - 1].key < matching[low].key;
      assert m == low;
      assert matching[..low] + matching[low..n] == matching[..n];
      assert matching[..n][low..] == matching[low..n];
    }
  }

  /** Seeking in the bucket and selecting on the way is selecting first and seeking then. */
  lemma SelectBelow(es: seq<Entry>, before: Option<nat>, line: string, transport: string, peer: string, peers: map<PeerKey, string>)
    requires Increasing(es)
    ensures var chosen := Select(es, line, transport, peer, peers);
            chosen[..Below(chosen, before)] == Select(es[..Below(es, before)], line, transport, peer, peers)
  {
    hide Shown, Select, Below;
    var n := Below(es, before);
    var older, newer := Select(es[..n], line, transport, peer, peers), Select(es[n..], line, transport, peer, peers);
    assert es[..n] + es[n..] == es;
    SelectSplits(es[..n], es[n..], line, transport, peer, peers);
    SelectIncreases(es, line, transport, peer, peers);
    forall e | e in older ensures before.None? || e.key < before.value {
      Selected(es[..n], line, transport, peer, peers, e);
      var i :| 0 <= i < n && es[i] == e;
    }
    forall e | e in newer ensures before.Some? && e.key >= before.value {
      Selected(es[n..], line, transport, peer, peers, e);
      var i :| n <= i < |es| && es[i] == e;
    }
    BelowCuts(older, newer, before);
  }

  lemma BelowCuts(older: seq<Entry>, newer: seq<Entry>, before: Option<nat>)
    requires Increasing(older + newer)
    requires forall e | e in older :: before.None? || e.key < before.value
    requires forall e | e in newer :: before.Some? && e.key >= before.value
    ensures (older + newer)[..Below(older + newer, before)] == older
  {
    var es, n := older + newer, |older|;
    if n > 0 {
      assert es[n - 1] in older;
    }
    if n < |es| {
      assert es[n] in newer;
    }
    assert Below(es, before) == n;
    assert es[..n] == older;
  }

  // ---------------------------------------------------------------- conversations

  datatype Thread = Thread(line: string, transport: string, peer: string)

  datatype Conversation = Conversation(line: string, transport: string, peer: string, count: nat, last: Record)

  function ThreadOf(r: Record, peers: map<PeerKey, string>): Thread {
    Thread(r.event.lineID, r.transport, ResolvedPeer(r, peers))
  }

  predicate Listed(r: Record, line: string, transport: string, peers: map<PeerKey, string>) {
    InScope(r, line, transport) && ResolvedPeer(r, peers) != ""
  }

  /** The entries of one thread. */
  function ThreadEntries(es: seq<Entry>, line: string, transport: string, peers: map<PeerKey, string>, t: Thread): (r: seq<Entry>) {
    if es == [] then []
    else (if Listed(es[0].record, line, transport, peers) && ThreadOf(es[0].record, peers) == t then [es[0]] else [])
         + ThreadEntries(es[1..], line, transport, peers, t)
  }

  function ConversationOf(entries: seq<Entry>, t: Thread): Conversation
    requires entries != []
  {
    Conversation(t.line, t.transport, t.peer, |entries|, entries[|entries| - 1].record)
  }

  function ThreadKeys(es: seq<Entry>, line: string, transport: string, peers: map<PeerKey, string>): set<Thread> {
    set e | e in es && Listed(e.record, line, transport, peers) :: ThreadOf(e.record, peers)
  }

  /** The conversations of a scope: one for each thread with a listed entry, counting its entries and naming the newest. */
  function Threads(es: seq<Entry>, line: string, transport: string, peers: map<PeerKey, string>): map<Thread, Conversation> {
    map t | t in ThreadKeys(es, line, transport, peers) && ThreadEntries(es, line, transport, peers, t) != [] ::
      ConversationOf(ThreadEntries(es, line, transport, peers, t), t)
  }

  /** Scanning from the newest: an entry opens its thread's conversation or is counted by it. */
  function Counted(conversations: map<Thread, Conversation>, r: Record, line: string, transport: string, peers: map<PeerKey, string>)
    : map<Thread, Conversation>
  {
    var t := ThreadOf(r, peers);
    if !Listed(r, line, transport, peers) then conversations
    else if t in conversations then conversations[t := conversations[t].(count := conversations[t].count + 1)]
    else conversations[t := Conversation(t.line, t.transport, t.peer, 1, r)]
  }

  lemma OneMoreEntry(e: Entry, rest: seq<Entry>, line: string, transport: string, peers: map<PeerKey, string>)
    ensures Threads([e] + rest, line, transport, peers) == Counted(Threads(rest, line, transport, peers), e.record, line, transport, peers)
  {
    hide Counted, Threads;
    var now, then' := Threads([e] + rest, line, transport, peers), Counted(Threads(rest, line, transport, peers), e.record, line, transport, peers);
    forall t
      ensures t in now <==> t in then'
      ensures t in now ==> now[t] == then'[t] {
      OneMoreEntryOf(e, rest, line, transport, peers, t);
    }
  }

  lemma OneMoreEntryOf(e: Entry, rest: seq<Entry>, line: string, transport: string, peers: map<PeerKey, string>, t: Thread)
    ensures var now, was := Threads([e] + rest, line, transport, peers), Threads(rest, line, transport, peers);
            && (t in now <==> t in Counted(was, e.record, line, transport, peers))
            && (t in now ==> now[t] == Counted(was, e.record, line, transport, peers)[t])
  {
    hide Listed, ThreadOf, ThreadKeys, ResolvedPeer;
    var es := [e] + rest;
    assert es[1..] == rest && es[0] == e;
    ThreadHasEntries(es, line, transport, peers, t);
    ThreadHasEntries(rest, line, transport, peers, t);
    var now, was := ThreadEntries(es, line, transport, peers, t), ThreadEntries(rest, line, transport, peers, t);
    if Listed(e.record, line, transport, peers) && ThreadOf(e.record, peers) == t {
      assert now == [e] + was;
      assert was == [] ==> ConversationOf(now, t) == Conversation(t.line, t.transport, t.peer, 1, e.record);
      assert was != [] ==> ConversationOf(now, t) == ConversationOf(was, t).(count := |was| + 1);
    } else {
      assert now == was;
    }
  }

  lemma {:induction false} ThreadHasEntries(es: seq<Entry>, line: string, transport: string, peers: map<PeerKey, string>, t: Thread)
    ensures t in ThreadKeys(es, line, transport, peers) <==> ThreadEntries(es, line, transport, peers, t) != []
  {
    hide Listed, ThreadOf;
    if es != [] {
      ThreadHasEntries(es[1..], line, transport, peers, t);
      assert es == [es[0]] + es[1..];
      if t in ThreadKeys(es, line, transport, peers) {
        var e :| e in es && Listed(e.record, line, transport, peers) && ThreadOf(e.record, peers) == t;
      }
      if ThreadEntries(es[1..], line, transport, peers, t) != [] {
        var e :| e in es[1..] && Listed(e.record, line, transport, peers) && ThreadOf(e.record, peers) == t;
        assert e in es;
      }
    }
  }

  /** Whoever has a record in scope, as its sender or without one as its recipient, has a conversation. */
  ghost predicate ListsCorrespondents(es: seq<Entry>, line: string, transport: string, byPeer: map<Thread, Conversation>) {
    forall e, peer | e in es && InScope(e.record, line, transport) && peer != "" && With(e.record.event, peer) ::
      Thread(e.record.event.lineID, e.record.transport, peer) in byPeer
  }

  lemma ConversationsListCorrespondents(es: seq<Entry>, line: string, transport: string)
    ensures ListsCorrespondents(es, line, transport, Threads(es, line, transport, PeersOf(es, line, transport)))
  {
    hide PeersOf, ThreadEntries;
    var peers := PeersOf(es, line, transport);
    forall e, peer | e in es && InScope(e.record, line, transport) && peer != "" && With(e.record.event, peer)
      ensures Thread(e.record.event.lineID, e.record.transport, peer) in Threads(es, line, transport, peers)
    {
      ResolvedPeerIs(e.record, peers, peer);
      ThreadHasEntries(es, line, transport, peers, Thread(e.record.event.lineID, e.record.transport, peer));
    }
  }

  /** A thread is what paging selects for its peer. */
  lemma {:induction false} ThreadIsSelection(es: seq<Entry>, line: string, transport: string, peers: map<PeerKey, string>, t: Thread)
    requires t.peer != "" && (line == "" || line == t.line) && (transport == "" || transport == t.transport)
    ensures ThreadEntries(es, line, transport, peers, t) == Select(es, t.line, t.transport, t.peer, peers)
  {
    hide ResolvedPeer;
    if es != [] {
      ThreadIsSelection(es[1..], line, transport, peers, t);
    }
  }

  /** Selection depends on the peers only through what the selected line and transport resolve to. */
  lemma {:induction false} SelectionInScope(es: seq<Entry>, all: seq<Entry>, line: string, transport: string, peer: string)
    ensures Select(es, line, transport, peer, PeersOf(all, "", "")) == Select(es, line, transport, peer, PeersOf(all, line, transport))
  {
    hide PeersOf, ResolvedPeer;
    if es != [] {
      SelectionInScope(es[1..], all, line, transport, peer);
      ScopesAgree(all, es[0].record);
    }
  }

  /** Each conversation counts exactly the records that paging returns for its peer, and shows the newest of them. */
  lemma ConversationsAgreeWithPaging(es: seq<Entry>, line: string, transport: string, peer: string)
    requires line != "" && transport != "" && peer != ""
    ensures var peers := PeersOf(es, line, transport);
            var t := Thread(line, transport, peer);
            var paged := Select(es, line, transport, peer, peers);
            && (t in Threads(es, line, transport, peers) <==> paged != [])
            && (paged != [] ==> Threads(es, line, transport, peers)[t] == ConversationOf(paged, t))
  {
    hide PeersOf, ResolvedPeer, Select;
    var peers := PeersOf(es, line, transport);
    ThreadHasEntries(es, line, transport, peers, Thread(line, transport, peer));
    ThreadIsSelection(es, line, transport, peers, Thread(line, transport, peer));
  }

  /** A reader who follows the cursor of one peer on an unchanged store is shown as many records as the conversation counts. */
  lemma CountIsWhatPagingReturns(es: seq<Entry>, line: string, transport: string, peer: string, limits: seq<nat>, pages: seq<Page>)
    requires line != "" && transport != "" && peer != ""
    requires var paged := Select(es, line, transport, peer, PeersOf(es, line, transport));
             paged != [] && Follows(seq(|pages|, _ => paged), limits, pages) && pages[|pages| - 1].nextBefore.None?
    ensures var threads := Threads(es, line, transport, PeersOf(es, line, transport));
            var t := Thread(line, transport, peer);
            t in threads && threads[t].count == |OldestFirst(pages)|
  {
    hide PeersOf, Select, Threads, Follows;
    PagesAreTheHistory(Select(es, line, transport, peer, PeersOf(es, line, transport)), limits, pages);
    ConversationsAgreeWithPaging(es, line, transport, peer);
  }

  /** The conversations of the whole store are those of its scopes: the same threads, with the same counts and records. */
  lemma AllConversationsAreTheScopedOnes(es: seq<Entry>, t: Thread)
    requires t.line != "" && t.transport != ""
    ensures var all, scoped := Threads(es, "", "", PeersOf(es, "", "")), Threads(es, t.line, t.transport, PeersOf(es, t.line, t.transport));
            && (t in all <==> t in scoped)
            && (t in all ==> all[t] == scoped[t])
  {
    hide PeersOf, ResolvedPeer, Select;
    var wide, narrow := PeersOf(es, "", ""), PeersOf(es, t.line, t.transport);
    ThreadHasEntries(es, "", "", wide, t);
    ThreadHasEntries(es, t.line, t.transport, narrow, t);
    if t.peer != "" {
      ThreadIsSelection(es, "", "", wide, t);
      ThreadIsSelection(es, t.line, t.transport, narrow, t);
      SelectionInScope(es, es, t.line, t.transport, t.peer);
    }
  }

  /** A scope lists no thread of another line or transport, so the scopes are disjoint. */
  lemma ScopesAreDisjoint(es: seq<Entry>, line: string, transport: string, t: Thread)
    requires line != "" && transport != "" && t in Threads(es, line, transport, PeersOf(es, line, transport))
    ensures t.line == line && t.transport == transport && t.peer != ""
  {
  }

  // ---------------------------------------------------------------- deletion

  /** The request checks of DeleteHistory, on trimmed arguments. */
  predicate DeletionValid(line: string, transport: string, peer: string, ids: seq<string>, all: bool) {
    && Identifier(line) && (transport == "" || IsTransport(transport))
    && !(all && (peer != "" || ids != [])) && (all || peer != "" || ids != []) && |ids| <= 500
    && forall i | 0 <= i < |ids| :: Identifier(ids[i])
  }

  /** The peers a deletion consults: one resolution for each transport it covers. */
  function PeersFor(es: seq<Entry>, line: string, transport: string, scope: string): map<PeerKey, string> {
    if IsTransport(scope) && (transport == "" || scope == transport) then PeersOf(es, line, scope) else map[]
  }

  predicate Doomed(es: seq<Entry>, r: Record, line: string, transport: string, peer: string, ids: set<string>, all: bool) {
    && r.event.lineID == line && (transport == "" || r.transport == transport)
    && (|| (if peer != "" then ResolvedPeer(r, PeersFor(es, line, transport, r.transport)) == peer else all)
        || r.event.eventID in ids)
  }

  function DoomedKeys(es: seq<Entry>, line: string, transport: string, peer: string, ids: set<string>, all: bool): set<nat> {
    set e | e in es && Doomed(es, e.record, line, transport, peer, ids, all) :: e.key
  }

  /** DeleteHistory on trimmed and valid arguments: only records go. */
  function Deleted(s: State, line: string, transport: string, peer: string, ids: set<string>, all: bool): State {
    s.(records := Without(s.records, DoomedKeys(View(s), line, transport, peer, ids, all)))
  }

  lemma {:induction false} WithoutMembers(records: seq<Entry>, drop: set<nat>, e: Entry)
    ensures e in Without(records, drop) <==> e in records && e.key !in drop
  {
    if records != [] {
      WithoutMembers(records[1..], drop, e);
      assert records == [records[0]] + records[1..];
    }
  }

  lemma ViewMembers(s: State, v: Entry)
    ensures v in View(s) <==> exists e :: e in s.records && v == Entry(e.key, ReadRecord(s.links, e.record))
  {
    if v in View(s) {
      var i :| 0 <= i < |View(s)| && View(s)[i] == v;
      assert s.records[i] in s.records;
    }
    if e :| e in s.records && v == Entry(e.key, ReadRecord(s.links, e.record)) {
      var i :| 0 <= i < |s.records| && s.records[i] == e;
      assert View(s)[i] == v;
    }
  }

  /** What readers see after a deletion is what they saw before, less the doomed entries. */
  lemma DeletionFiltersTheView(s: State, line: string, transport: string, peer: string, ids: set<string>, all: bool, v: Entry)
    requires Increasing(s.records)
    ensures v in View(Deleted(s, line, transport, peer, ids, all)) <==>
            v in View(s) && !Doomed(View(s), v.record, line, transport, peer, ids, all)
  {
    hide Doomed, View, ReadRecord;
    var t := Deleted(s, line, transport, peer, ids, all);
    var drop := DoomedKeys(View(s), line, transport, peer, ids, all);
    ViewMembers(s, v);
    ViewMembers(t, v);
    if e :| e in s.records && v == Entry(e.key, ReadRecord(s.links, e.record)) {
      WithoutMembers(s.records, drop, e);
      if e.key in drop {
        var w :| w in View(s) && Doomed(View(s), w.record, line, transport, peer, ids, all) && w.key == e.key;
        ViewMembers(s, w);
        var f :| f in s.records && w == Entry(f.key, ReadRecord(s.links, f.record));
        SameKeySameEntry(s.records, e, f);
      }
    }
    forall e | e in t.records ensures e in s.records {
      WithoutMembers(s.records, drop, e);
    }
  }

  lemma SameKeySameEntry(es: seq<Entry>, e: Entry, f: Entry)
    requires Increasing(es) && e in es && f in es && e.key == f.key
    ensures e == f
  {
    var i :| 0 <= i < |es| && es[i] == e;
    var j :| 0 <= j < |es| && es[j] == f;
    assert !(es[i].key < es[j].key) && !(es[j].key < es[i].key);
  }

  /** Deleting a peer's history takes exactly the records from it, and without a sender those to it; others are named nowhere. */
  lemma DeletionOnFields(s: State, line: string, transport: string, peer: string, e: Entry)
    requires Increasing(s.records) && peer != ""
    requires e in s.records && IsTransport(TransportOf(e.record)) && !Anonymous(e.record.event)
    ensures e in Deleted(s, line, transport, peer, {}, false).records <==>
            !(e.record.event.lineID == line && (transport == "" || TransportOf(e.record) == transport) && With(e.record.event, peer))
  {
    hide View, PeersOf, ResolvedPeer;
    var v := Entry(e.key, ReadRecord(s.links, e.record));
    var drop := DoomedKeys(View(s), line, transport, peer, {}, false);
    WithoutMembers(s.records, drop, e);
    ViewMembers(s, v);
    ResolvedPeerIs(v.record, PeersFor(View(s), line, transport, v.record.transport), peer);
    if e.key in drop {
      var w :| w in View(s) && Doomed(View(s), w.record, line, transport, peer, {}, false) && w.key == e.key;
      ViewMembers(s, w);
      var f :| f in s.records && w == Entry(f.key, ReadRecord(s.links, f.record));
      SameKeySameEntry(s.records, e, f);
    }
  }

  /** Deleting a peer's history takes exactly what that peer's pages show, and nothing beside it. */
  lemma DeletionTakesThePages(s: State, line: string, scope: string, peer: string, v: Entry)
    requires Increasing(s.records) && peer != "" && IsTransport(v.record.transport)
    ensures var transport := v.record.transport;
            v in View(Deleted(s, line, scope, peer, {}, false)) <==>
              v in View(s) && !((scope == "" || scope == transport) &&
                                v in Select(View(s), line, transport, peer, PeersOf(View(s), line, transport)))
  {
    DeletionFiltersTheView(s, line, scope, peer, {}, false, v);
    hide View, PeersOf, ResolvedPeer, Deleted;
    if v in View(s) {
      Selected(View(s), line, v.record.transport, peer, PeersOf(View(s), line, v.record.transport), v);
    }
  }

  /** Deleting everything takes all of the line and transport; deleting by event ids takes the records of these ids. */
  lemma DeletionByIds(s: State, line: string, transport: string, ids: set<string>, all: bool, e: Entry)
    requires Increasing(s.records) && e in s.records
    ensures e in Deleted(s, line, transport, "", ids, all).records <==>
            !(e.record.event.lineID == line && (transport == "" || TransportOf(e.record) == transport) && (all || e.record.event.eventID in ids))
  {
    hide View, PeersOf, ResolvedPeer;
    var v := Entry(e.key, ReadRecord(s.links, e.record));
    var drop := DoomedKeys(View(s), line, transport, "", ids, all);
    WithoutMembers(s.records, drop, e);
    ViewMembers(s, v);
    if e.key in drop {
      var w :| w in View(s) && Doomed(View(s), w.record, line, transport, "", ids, all) && w.key == e.key;
      ViewMembers(s, w);
      var f :| f in s.records && w == Entry(f.key, ReadRecord(s.links, f.record));
      SameKeySameEntry(s.records, e, f);
    }
  }

  lemma VoicesAfterDeletion(s: State, line: string, transport: string, peer: string, ids: set<string>, all: bool, scope: string, k: PeerKey)
    requires Increasing(s.records)
    ensures Voices(View(Deleted(s, line, transport, peer, ids, all)), line, scope, k) <= Voices(View(s), line, scope, k)
  {
    hide View, Doomed, HistoryPeer, Deleted;
    var t := Deleted(s, line, transport, peer, ids, all);
    forall p | p in Voices(View(t), line, scope, k) ensures p in Voices(View(s), line, scope, k) {
      var v :| v in View(t) && Names(v.record, line, scope, k) && HistoryPeer(v.record) == p;
      DeletionFiltersTheView(s, line, transport, peer, ids, all, v);
    }
  }

  /** After a peer's history is deleted no remaining record resolves to that peer, though resolution is computed anew. */
  lemma DeletedPeerIsGone(s: State, line: string, transport: string, peer: string, ids: set<string>, v: Entry)
    requires Increasing(s.records) && line != "" && peer != ""
    requires var t := Deleted(s, line, transport, peer, ids, false); v in View(t)
    requires v.record.event.lineID == line && IsTransport(v.record.transport) && (transport == "" || v.record.transport == transport)
    ensures var t := Deleted(s, line, transport, peer, ids, false);
            ResolvedPeer(v.record, PeersOf(View(t), line, v.record.transport)) != peer
  {
    hide View, HistoryPeer, Deleted, PeersOf;
    var t := Deleted(s, line, transport, peer, ids, false);
    var r, scope, k := v.record, v.record.transport, KeyOf(v.record);
    DeletionFiltersTheView(s, line, transport, peer, ids, false, v);
    if HistoryPeer(r) == "" && Lookup(PeersOf(View(t), line, scope), k) == peer {
      PeersNeverGuess(View(t), line, scope, k, peer);
      assert peer in Voices(View(t), line, scope, k);
      var w :| w in View(t) && Names(w.record, line, scope, k) && HistoryPeer(w.record) == peer;
      DeletionFiltersTheView(s, line, transport, peer, ids, false, w);
    }
  }

  /** Deleting one peer's history takes no other conversation's records away: what resolved to another peer still does. */
  lemma OtherPeersKeepTheirRecords(s: State, line: string, transport: string, peer: string, v: Entry)
    requires Increasing(s.records) && line != "" && peer != "" && v in View(s)
    requires v.record.event.lineID == line && IsTransport(v.record.transport) && (transport == "" || v.record.transport == transport)
    requires ResolvedPeer(v.record, PeersOf(View(s), line, v.record.transport)) !in {"", peer}
    ensures var t := Deleted(s, line, transport, peer, {}, false);
            && v in View(t)
            && ResolvedPeer(v.record, PeersOf(View(t), line, v.record.transport)) == ResolvedPeer(v.record, PeersOf(View(s), line, v.record.transport))
  {
    hide View, HistoryPeer, Deleted, PeersOf;
    var t := Deleted(s, line, transport, peer, {}, false);
    var r, scope, k := v.record, v.record.transport, KeyOf(v.record);
    var q := ResolvedPeer(r, PeersOf(View(s), line, scope));
    DeletionFiltersTheView(s, line, transport, peer, {}, false, v);
    if HistoryPeer(r) == "" {
      PeersNeverGuess(View(s), line, scope, k, q);
      assert q in Voices(View(s), line, scope, k);
      var w :| w in View(s) && Names(w.record, line, scope, k) && HistoryPeer(w.record) == q;
      DeletionFiltersTheView(s, line, transport, peer, {}, false, w);
      assert q in Voices(View(t), line, scope, k);
      VoicesAfterDeletion(s, line, transport, peer, {}, false, scope, k);
      PeersNeverGuess(View(t), line, scope, k, q);
    }
  }

  lemma {:induction false} WithoutTwice(records: seq<Entry>, a: set<nat>, b: set<nat>)
    ensures Without(Without(records, a), b) == Without(records, a + b)
  {
    if records != [] {
      WithoutTwice(records[1..], a, b);
      var rest := Without(records[1..], a);
      if records[0].key !in a {
        assert ([records[0]] + rest)[1..] == rest;
      } else {
        assert [] + rest == rest;
      }
    }
  }

  lemma {:induction false} WithoutNothing(records: seq<Entry>)
    ensures Without(records, {}) == records
  {
    if records != [] {
      WithoutNothing(records[1..]);
    }
  }

  // ---------------------------------------------------------------- requests that are served

  /** A deletion is asked for by exactly one of: everything, or a peer, event ids, or both. */
  lemma DeletionIsValidIff(line: string, transport: string, peer: string, ids: seq<string>, all: bool)
    ensures DeletionValid(line, transport, peer, ids, all) <==>
            && Identifier(line) && transport in {"", "vowifi", "cellular"}
            && (if all then peer == "" && ids == [] else peer != "" || ids != [])
            && |ids| <= 500 && (forall id | id in ids :: Identifier(id))
  {
    hide Identifier;
  }
}
