/** The provider apply plan: the difference between two manifests, and what blocks applying it. */
module Plan {
  import opened Common
  import opened Ordering

  datatype Entry = Entry(lineId: string, unitInstance: string, configSha256: string)

  datatype Manifest = Manifest(schemaVersion: int, catalogRevision: nat, providers: seq<Entry>)

  datatype LineStatus = LineStatus(lineId: string, code: string, present: bool, activeCall: bool, incomingCall: bool)

  datatype Snapshot = Snapshot(catalogRevision: nat, lines: seq<LineStatus>)

  datatype Change = Change(lineId: string, unitInstance: string)

  datatype Blocker = Blocker(lineId: string, code: string)

  datatype Plan = Plan(
    catalogRevision: nat,
    safe: bool,
    added: seq<Change>,
    changed: seq<Change>,
    removed: seq<Change>,
    blockers: seq<Blocker>)

  type Entries = map<string, Entry>
  type Statuses = map<string, LineStatus>

  /** A later entry of the same line replaces an earlier one. */
  function EntriesOf(providers: seq<Entry>): Entries {
    if providers == [] then map[]
    else EntriesOf(providers[..|providers| - 1])[providers[|providers| - 1].lineId := providers[|providers| - 1]]
  }

  function StatusesOf(lines: seq<LineStatus>): Statuses {
    if lines == [] then map[]
    else StatusesOf(lines[..|lines| - 1])[lines[|lines| - 1].lineId := lines[|lines| - 1]]
  }

  // ---------------------------------------------------------------- what a plan is

  predicate Differs(previous: Entry, next: Entry) {
    previous.unitInstance != next.unitInstance || previous.configSha256 != next.configSha256
  }

  function Added(old_: Entries, new_: Entries): set<Change> {
    set l | l in new_ && l !in old_ :: Change(l, new_[l].unitInstance)
  }

  function Changed(old_: Entries, new_: Entries): set<Change> {
    set l | l in new_ && l in old_ && Differs(old_[l], new_[l]) :: Change(l, new_[l].unitInstance)
  }

  function Removed(old_: Entries, new_: Entries): set<Change> {
    set l | l in old_ && l !in new_ :: Change(l, old_[l].unitInstance)
  }

  predicate StaleCatalog(candidate: Manifest, preflight: Snapshot) {
    candidate.schemaVersion != 1 || candidate.catalogRevision == 0 || preflight.catalogRevision != candidate.catalogRevision
  }

  /** Why an added line blocks the plan, if it does. */
  function AddedBlocker(l: string, statuses: Statuses): Option<Blocker> {
    if l in statuses && statuses[l].present then
      Some(Blocker(l, if statuses[l].activeCall then "active_call"
                      else if statuses[l].incomingCall then "incoming_call_pending"
                      else "provider_already_present"))
    else None
  }

  /** Why a changed or removed line blocks the plan, if it does. */
  function ReplacedBlocker(l: string, statuses: Statuses): Option<Blocker> {
    if l !in statuses then Some(Blocker(l, "preflight_missing"))
    else if statuses[l].activeCall then Some(Blocker(l, "active_call"))
    else if statuses[l].incomingCall then Some(Blocker(l, "incoming_call_pending"))
    else if statuses[l].code != "provider_reachable" && statuses[l].code != "provider_absent" then Some(Blocker(l, "provider_unreachable"))
    else None
  }

  function ChangeKey(): Change -> string {
    (c: Change) => c.lineId
  }

  /** Line first, then code: a NUL, which no line id holds, sorts before every other character. */
  function BlockerKey(): Blocker -> string {
    (b: Blocker) => b.lineId + "\0" + b.code
  }

  /** The order of sort.Slice on blockers. */
  predicate BlockerLess(a: Blocker, b: Blocker) {
    if a.lineId == b.lineId then Less(a.code, b.code) else Less(a.lineId, b.lineId)
  }

  lemma {:induction false} LessOnJoined(l: string, c: string, m: string, d: string)
    requires NulFree(l) && NulFree(m)
    ensures Less(l + "\0" + c, m + "\0" + d) <==> if l == m then Less(c, d) else Less(l, m)
  {
    var a, b := l + "\0" + c, m + "\0" + d;
    if l == "" || m == "" {
      assert l == "" ==> a[1..] == c;
      assert m == "" ==> b[1..] == d;
    } else {
      assert a[1..] == l[1..] + "\0" + c && b[1..] == m[1..] + "\0" + d;
      LessOnJoined(l[1..], c, m[1..], d);
      assert l == [l[0]] + l[1..] && m == [m[0]] + m[1..];
    }
  }

  /** Sorting by the key is sorting by that order. */
  lemma BlockerKeyOrders(a: Blocker, b: Blocker)
    requires NulFree(a.lineId) && NulFree(b.lineId)
    ensures Less(BlockerKey()(a), BlockerKey()(b)) <==> BlockerLess(a, b)
  {
    LessOnJoined(a.lineId, a.code, b.lineId, b.code);
  }

  /** The sequence holds exactly the given changes, each once, in line order. */
  ghost predicate Lists(changes: seq<Change>, expected: set<Change>) {
    && SortedBy(changes, ChangeKey()) && DistinctKeys(changes, ChangeKey())
    && (forall c :: c in changes <==> c in expected)
  }

  ghost predicate Blocks(b: Blocker, stale: bool, added: seq<Change>, replaced: seq<Change>, statuses: Statuses) {
    || (stale && b == Blocker("", "catalog_revision_changed"))
    || (exists c :: c in added && AddedBlocker(c.lineId, statuses) == Some(b))
    || (exists c :: c in replaced && ReplacedBlocker(c.lineId, statuses) == Some(b))
  }

  /** The specification BuildPlan meets, in terms of the manifests and the preflight evidence alone. */
  ghost predicate IsPlan(plan: Plan, current: Manifest, candidate: Manifest, preflight: Snapshot) {
    var previous, next := EntriesOf(current.providers), EntriesOf(candidate.providers);
    && plan.catalogRevision == candidate.catalogRevision
    && Lists(plan.added, Added(previous, next))
    && Lists(plan.changed, Changed(previous, next))
    && Lists(plan.removed, Removed(previous, next))
    && SortedBy(plan.blockers, BlockerKey())
    && (forall b :: b in plan.blockers <==>
          Blocks(b, StaleCatalog(candidate, preflight), plan.added, plan.changed + plan.removed, StatusesOf(preflight.lines)))
    && (plan.safe <==> plan.blockers == [])
  }

  // ---------------------------------------------------------------- how it is built

  /** manifestMap. */
  method ManifestMap(manifest: Manifest) returns (entries: Entries)
    ensures entries == EntriesOf(manifest.providers)
  {
    entries := map[];
    for i := 0 to |manifest.providers|
      invariant entries == EntriesOf(manifest.providers[..i])
    {
      entries := entries[manifest.providers[i].lineId := manifest.providers[i]];
      assert manifest.providers[..i + 1][..i] == manifest.providers[..i];
    }
    assert manifest.providers[..|manifest.providers|] == manifest.providers;
  }

  method StatusMap(lines: seq<LineStatus>) returns (statuses: Statuses)
    ensures statuses == StatusesOf(lines)
  {
    statuses := map[];
    for i := 0 to |lines|
      invariant statuses == StatusesOf(lines[..i])
    {
      statuses := statuses[lines[i].lineId := lines[i]];
      assert lines[..i + 1][..i] == lines[..i];
    }
    assert lines[..|lines|] == lines;
  }

  method SortChanges(changes: seq<Change>, ghost expected: set<Change>) returns (sorted: seq<Change>)
    requires DistinctKeys(changes, ChangeKey()) && forall c :: c in changes <==> c in expected
    ensures Lists(sorted, expected)
  {
    sorted := SortByKey(changes, ChangeKey());
    assert forall c :: c in sorted <==> c in multiset(sorted);
    assert forall c :: c in changes <==> c in multiset(changes);
    PermutationKeepsDistinct(changes, sorted);
  }

  lemma PermutationKeepsDistinct(a: seq<Change>, b: seq<Change>)
    requires multiset(a) == multiset(b) && DistinctKeys(a, ChangeKey())
    ensures DistinctKeys(b, ChangeKey())
  {
    forall i, j | 0 <= i < j < |b| ensures b[i].lineId != b[j].lineId {
      if b[i].lineId == b[j].lineId {
        SameKeySameChange(a, b[i], b[j]);
        TwiceMeansTwo(b, i, j);
        DistinctMeansOnce(a, b[i]);
      }
    }
  }

  lemma SameKeySameChange(a: seq<Change>, c: Change, d: Change)
    requires DistinctKeys(a, ChangeKey()) && c in multiset(a) && d in multiset(a) && c.lineId == d.lineId
    ensures c == d
  {
    var i :| 0 <= i < |a| && a[i] == c;
    var j :| 0 <= j < |a| && a[j] == d;
  }

  lemma TwiceMeansTwo(b: seq<Change>, i: nat, j: nat)
    requires i < j < |b| && b[i] == b[j]
    ensures multiset(b)[b[i]] >= 2
  {
    assert b == b[..i] + [b[i]] + b[i + 1..j] + [b[j]] + b[j + 1..];
  }

  lemma {:induction false} DistinctMeansOnce(a: seq<Change>, c: Change)
    requires DistinctKeys(a, ChangeKey())
    ensures multiset(a)[c] <= 1
  {
    if a != [] {
      DistinctMeansOnce(a[1..], c);
      assert a == [a[0]] + a[1..];
      if a[0] == c {
        assert c !in a[1..];
      }
    }
  }

  /** Lines new to the candidate, and lines whose unit or configuration changed. */
  method CompareNew(previous: Entries, next: Entries) returns (added: seq<Change>, changed: seq<Change>)
    ensures DistinctKeys(added, ChangeKey()) && forall c :: c in added <==> c in Added(previous, next)
    ensures DistinctKeys(changed, ChangeKey()) && forall c :: c in changed <==> c in Changed(previous, next)
  {
    added, changed := [], [];
    var remaining := next.Keys;
    while remaining != {}
      invariant remaining <= next.Keys
      invariant DistinctKeys(added, ChangeKey()) && DistinctKeys(changed, ChangeKey())
      invariant forall c :: c in added <==> c in Added(previous, next) && c.lineId !in remaining
      invariant forall c :: c in changed <==> c in Changed(previous, next) && c.lineId !in remaining
    {
      var l :| l in remaining;
      var change := Change(l, next[l].unitInstance);
      if l !in previous {
        added := added + [change];
      } else if previous[l].unitInstance != next[l].unitInstance || previous[l].configSha256 != next[l].configSha256 {
        changed := changed + [change];
      }
      remaining := remaining - {l};
    }
  }

  method CompareOld(previous: Entries, next: Entries) returns (removed: seq<Change>)
    ensures DistinctKeys(removed, ChangeKey()) && forall c :: c in removed <==> c in Removed(previous, next)
  {
    removed := [];
    var remaining := previous.Keys;
    while remaining != {}
      invariant remaining <= previous.Keys
      invariant DistinctKeys(removed, ChangeKey())
      invariant forall c :: c in removed <==> c in Removed(previous, next) && c.lineId !in remaining
    {
      var l :| l in remaining;
      if l !in next {
        removed := removed + [Change(l, previous[l].unitInstance)];
      }
      remaining := remaining - {l};
    }
  }

  method CollectBlockers(stale: bool, added: seq<Change>, replaced: seq<Change>, statuses: Statuses) returns (blockers: seq<Blocker>)
    ensures forall b :: b in blockers <==> Blocks(b, stale, added, replaced, statuses)
  {
    blockers := if stale then [Blocker("", "catalog_revision_changed")] else [];
    for i := 0 to |added|
      invariant forall b :: b in blockers <==> Blocks(b, stale, added[..i], [], statuses)
    {
      assert added[..i + 1] == added[..i] + [added[i]];
      var blocker := AddedBlocker(added[i].lineId, statuses);
      if blocker.Some? {
        blockers := blockers + [blocker.value];
      }
    }
    assert added[..|added|] == added;
    for i := 0 to |replaced|
      invariant forall b :: b in blockers <==> Blocks(b, stale, added, replaced[..i], statuses)
    {
      assert replaced[..i + 1] == replaced[..i] + [replaced[i]];
      var blocker := ReplacedBlocker(replaced[i].lineId, statuses);
      if blocker.Some? {
        blockers := blockers + [blocker.value];
      }
    }
    assert replaced[..|replaced|] == replaced;
  }

  method BuildPlan(current: Manifest, candidate: Manifest, preflight: Snapshot) returns (plan: Plan)
    ensures IsPlan(plan, current, candidate, preflight)
  {
    var previous := ManifestMap(current);
    var next := ManifestMap(candidate);
    var added, changed := CompareNew(previous, next);
    var removed := CompareOld(previous, next);
    added := SortChanges(added, Added(previous, next));
    changed := SortChanges(changed, Changed(previous, next));
    removed := SortChanges(removed, Removed(previous, next));
    var statuses := StatusMap(preflight.lines);
    var found := CollectBlockers(StaleCatalog(candidate, preflight), added, changed + removed, statuses);
    var blockers := SortByKey(found, BlockerKey());
    assert forall b :: b in blockers <==> b in multiset(blockers);
    assert forall b :: b in found <==> b in multiset(found);
    return Plan(candidate.catalogRevision, |blockers| == 0, added, changed, removed, blockers);
  }

  // ---------------------------------------------------------------- what the difference means

  function LinesOf(changes: seq<Change>): set<string> {
    set c | c in changes :: c.lineId
  }

  /** The three lists are disjoint and turn the lines of the current manifest into those of the candidate. */
  lemma PlanTurnsCurrentIntoCandidate(plan: Plan, current: Manifest, candidate: Manifest, preflight: Snapshot)
    requires IsPlan(plan, current, candidate, preflight)
    ensures var previous, next := EntriesOf(current.providers), EntriesOf(candidate.providers);
            && LinesOf(plan.added) !! LinesOf(plan.changed) !! LinesOf(plan.removed)
            && previous.Keys - LinesOf(plan.removed) + LinesOf(plan.added) == next.Keys
            && LinesOf(plan.removed) <= previous.Keys && LinesOf(plan.added) !! previous.Keys && LinesOf(plan.changed) <= previous.Keys
            && (forall l | l in previous && l in next ::
                  l !in LinesOf(plan.changed) <==>
                  previous[l].unitInstance == next[l].unitInstance && previous[l].configSha256 == next[l].configSha256)
  {
    var previous, next := EntriesOf(current.providers), EntriesOf(candidate.providers);
    assert LinesOf(plan.added) == next.Keys - previous.Keys by {
      assert forall l | l in next && l !in previous :: Change(l, next[l].unitInstance) in plan.added;
    }
    assert LinesOf(plan.removed) == previous.Keys - next.Keys by {
      assert forall l | l in previous && l !in next :: Change(l, previous[l].unitInstance) in plan.removed;
    }
    assert LinesOf(plan.changed) == set l | l in next && l in previous && Differs(previous[l], next[l]) by {
      assert forall l | l in next && l in previous && Differs(previous[l], next[l]) :: Change(l, next[l].unitInstance) in plan.changed;
    }
  }

  lemma ListsAreEqual(a: seq<Change>, b: seq<Change>, expected: set<Change>)
    requires Lists(a, expected) && Lists(b, expected)
    ensures a == b
  {
    forall c ensures multiset(a)[c] == multiset(b)[c] {
      DistinctMeansOnce(a, c);
      DistinctMeansOnce(b, c);
      assert c in multiset(a) <==> c in a;
      assert c in multiset(b) <==> c in b;
    }
    assert multiset(a) == multiset(b);
    SortIsUnique(a, b, ChangeKey());
  }

  /** The changes of a plan do not depend on the order in which Go walks its maps, so recomputing it for comparison is sound. */
  lemma PlanChangesAreDetermined(p: Plan, q: Plan, current: Manifest, candidate: Manifest, preflight: Snapshot)
    requires IsPlan(p, current, candidate, preflight) && IsPlan(q, current, candidate, preflight)
    ensures p.added == q.added && p.changed == q.changed && p.removed == q.removed && p.safe == q.safe
    ensures p.safe ==> p == q
  {
    var previous, next := EntriesOf(current.providers), EntriesOf(candidate.providers);
    ListsAreEqual(p.added, q.added, Added(previous, next));
    ListsAreEqual(p.changed, q.changed, Changed(previous, next));
    ListsAreEqual(p.removed, q.removed, Removed(previous, next));
    if p.blockers != [] {
      assert p.blockers[0] in q.blockers;
    }
    if q.blockers != [] {
      assert q.blockers[0] in p.blockers;
    }
  }

  /** A safe plan touches no line with a call, and replaces only lines whose preflight status is known. */
  lemma SafePlanSparesCalls(plan: Plan, current: Manifest, candidate: Manifest, preflight: Snapshot, l: string)
    requires IsPlan(plan, current, candidate, preflight) && plan.safe
    ensures l in LinesOf(plan.added) && l in StatusesOf(preflight.lines) ==> !StatusesOf(preflight.lines)[l].present
    ensures l in LinesOf(plan.changed) + LinesOf(plan.removed) ==>
              && l in StatusesOf(preflight.lines)
              && !StatusesOf(preflight.lines)[l].activeCall && !StatusesOf(preflight.lines)[l].incomingCall
    ensures preflight.catalogRevision == candidate.catalogRevision && candidate.catalogRevision != 0
  {
    var statuses := StatusesOf(preflight.lines);
    assert forall b :: !Blocks(b, StaleCatalog(candidate, preflight), plan.added, plan.changed + plan.removed, statuses);
    assert !Blocks(Blocker("", "catalog_revision_changed"), StaleCatalog(candidate, preflight), plan.added, plan.changed + plan.removed, statuses);
    if c :| c in plan.added && c.lineId == l {
      if AddedBlocker(l, statuses).Some? {
        assert Blocks(AddedBlocker(l, statuses).value, StaleCatalog(candidate, preflight), plan.added, plan.changed + plan.removed, statuses);
      }
    }
    if c :| c in plan.changed + plan.removed && c.lineId == l {
      if ReplacedBlocker(l, statuses).Some? {
        assert Blocks(ReplacedBlocker(l, statuses).value, StaleCatalog(candidate, preflight), plan.added, plan.changed + plan.removed, statuses);
      }
    }
  }

  /** What preflight evidence lets a line be replaced: its provider answers or is known to be absent, and no call is up or coming. */
  predicate Replaceable(statuses: Statuses, l: string) {
    && l in statuses && !statuses[l].activeCall && !statuses[l].incomingCall
    && (statuses[l].code == "provider_reachable" || statuses[l].code == "provider_absent")
  }

  /** The blockers of a plan, line by line and code by code, from the evidence. */
  lemma BlockersOnFields(plan: Plan, current: Manifest, candidate: Manifest, preflight: Snapshot, l: string)
    requires IsPlan(plan, current, candidate, preflight) && l != ""
    ensures var statuses := StatusesOf(preflight.lines);
            && (l in LinesOf(plan.added) ==>
                 var present := l in statuses && statuses[l].present;
                 && (Blocker(l, "active_call") in plan.blockers <==> present && statuses[l].activeCall)
                 && (Blocker(l, "incoming_call_pending") in plan.blockers <==> present && !statuses[l].activeCall && statuses[l].incomingCall)
                 && (Blocker(l, "provider_already_present") in plan.blockers <==>
                      present && !statuses[l].activeCall && !statuses[l].incomingCall))
            && (l in LinesOf(plan.changed) + LinesOf(plan.removed) ==>
                 && (Blocker(l, "preflight_missing") in plan.blockers <==> l !in statuses)
                 && (Blocker(l, "active_call") in plan.blockers <==> l in statuses && statuses[l].activeCall)
                 && (Blocker(l, "incoming_call_pending") in plan.blockers <==> l in statuses && !statuses[l].activeCall && statuses[l].incomingCall)
                 && (Blocker(l, "provider_unreachable") in plan.blockers <==>
                      l in statuses && !statuses[l].activeCall && !statuses[l].incomingCall && !Replaceable(statuses, l)))
  {
    var statuses := StatusesOf(preflight.lines);
    PlanTurnsCurrentIntoCandidate(plan, current, candidate, preflight);
    hide StatusesOf, EntriesOf, Lists, SortedBy, StaleCatalog;
    forall code ensures Blocker(l, code) in plan.blockers <==>
      || (l in LinesOf(plan.added) && AddedBlocker(l, statuses) == Some(Blocker(l, code)))
      || (l in LinesOf(plan.changed) + LinesOf(plan.removed) && ReplacedBlocker(l, statuses) == Some(Blocker(l, code)))
    {
      BlockedBy(plan, current, candidate, preflight, l, code);
    }
  }

  lemma BlockedBy(plan: Plan, current: Manifest, candidate: Manifest, preflight: Snapshot, l: string, code: string)
    requires IsPlan(plan, current, candidate, preflight) && l != ""
    ensures var statuses := StatusesOf(preflight.lines);
            Blocker(l, code) in plan.blockers <==>
              || (l in LinesOf(plan.added) && AddedBlocker(l, statuses) == Some(Blocker(l, code)))
              || (l in LinesOf(plan.changed) + LinesOf(plan.removed) && ReplacedBlocker(l, statuses) == Some(Blocker(l, code)))
  {
    hide Lists, SortedBy, StatusesOf, EntriesOf, StaleCatalog;
    var statuses, b := StatusesOf(preflight.lines), Blocker(l, code);
    assert b in plan.blockers <==> Blocks(b, StaleCatalog(candidate, preflight), plan.added, plan.changed + plan.removed, statuses);
    if l in LinesOf(plan.added) {
      var c :| c in plan.added && c.lineId == l;
    }
    if l in LinesOf(plan.changed) + LinesOf(plan.removed) {
      var c :| (c in plan.changed || c in plan.removed) && c.lineId == l;
      assert c in plan.changed + plan.removed;
    }
  }

  /** A plan is safe exactly if its evidence is of the candidate's catalog, nothing runs yet where it adds, and all it replaces may be. */
  lemma PlanIsSafeIff(plan: Plan, current: Manifest, candidate: Manifest, preflight: Snapshot)
    requires IsPlan(plan, current, candidate, preflight)
    ensures var statuses := StatusesOf(preflight.lines);
            plan.safe <==>
              && candidate.schemaVersion == 1 && candidate.catalogRevision != 0 && preflight.catalogRevision == candidate.catalogRevision
              && (forall l | l in LinesOf(plan.added) && l in statuses :: !statuses[l].present)
              && (forall l | l in LinesOf(plan.changed) + LinesOf(plan.removed) :: Replaceable(statuses, l))
  {
    hide Lists, SortedBy, StatusesOf, EntriesOf;
    var statuses := StatusesOf(preflight.lines);
    var stale, replaced := StaleCatalog(candidate, preflight), plan.changed + plan.removed;
    assert plan.safe <==> forall b :: !Blocks(b, stale, plan.added, replaced, statuses) by {
      if plan.blockers != [] {
        assert Blocks(plan.blockers[0], stale, plan.added, replaced, statuses);
      }
    }
    if !plan.safe {
      var b := plan.blockers[0];
      assert Blocks(b, stale, plan.added, replaced, statuses);
      if c :| c in plan.added && AddedBlocker(c.lineId, statuses) == Some(b) {
        assert c.lineId in LinesOf(plan.added) && statuses[c.lineId].present;
      }
      if c :| c in replaced && ReplacedBlocker(c.lineId, statuses) == Some(b) {
        assert c in plan.changed || c in plan.removed;
        assert c.lineId in LinesOf(plan.changed) + LinesOf(plan.removed) && !Replaceable(statuses, c.lineId);
      }
    } else {
      assert !Blocks(Blocker("", "catalog_revision_changed"), stale, plan.added, replaced, statuses);
      forall l | l in LinesOf(plan.added) ensures AddedBlocker(l, statuses).None? {
        LineBlocks(plan, current, candidate, preflight, l);
      }
      forall l | l in LinesOf(plan.changed) + LinesOf(plan.removed) ensures ReplacedBlocker(l, statuses).None? {
        LineBlocks(plan, current, candidate, preflight, l);
      }
    }
  }

  lemma LineBlocks(plan: Plan, current: Manifest, candidate: Manifest, preflight: Snapshot, l: string)
    requires IsPlan(plan, current, candidate, preflight)
    ensures var statuses := StatusesOf(preflight.lines);
            ((l in LinesOf(plan.added) && AddedBlocker(l, statuses).Some?) ||
             (l in LinesOf(plan.changed) + LinesOf(plan.removed) && ReplacedBlocker(l, statuses).Some?)) ==> plan.blockers != []
  {
    hide Lists, SortedBy, StatusesOf, EntriesOf, StaleCatalog;
    var statuses := StatusesOf(preflight.lines);
    var stale, replaced := StaleCatalog(candidate, preflight), plan.changed + plan.removed;
    if l in LinesOf(plan.added) && AddedBlocker(l, statuses).Some? {
      assert Blocks(AddedBlocker(l, statuses).value, stale, plan.added, replaced, statuses);
    } else if l in LinesOf(plan.changed) + LinesOf(plan.removed) && ReplacedBlocker(l, statuses).Some? {
      var c :| (c in plan.changed || c in plan.removed) && c.lineId == l;
      assert c in replaced;
      assert Blocks(ReplacedBlocker(l, statuses).value, stale, plan.added, replaced, statuses);
    }
  }
}
