/**
 * Installing a release: a journaled switch of the current link and of the stable links that point below it. Every write
 * is one atomic change of the disk; the trail collects the disk after each write, which is every state a crash can
 * leave behind. Any write may fail, and a rename, an unlink or a receipt may have happened although its directory could
 * not be synchronised and failure is reported.
 */
module ReleaseLinks {
  import opened Common

  // ---------------------------------------------------------------- links and manifests

  /** The fourteen stable paths; their base names differ, so a path is named by what it publishes. */
  datatype Path =
    | Core | Vowifi | CoreUnit | VowifiUnit | ApplyUnit | EgressUnit | Agent | AgentAudio
    | Updater | Xray | UpdaterUnit | UpdaterPath | AgentUnit | GuardUnit

  const PATHS: set<Path> := {Core, Vowifi, CoreUnit, VowifiUnit, ApplyUnit, EgressUnit, Agent, AgentAudio,
                             Updater, Xray, UpdaterUnit, UpdaterPath, AgentUnit, GuardUnit}

  const REQUIRED: set<Path> := {Core, Vowifi, CoreUnit, VowifiUnit}

  /** The name below the current link that knownStableLinks fixes for a path. */
  function FileName(p: Path): string {
    match p
    case Core => "mdd-core"
    case Vowifi => "mdd-vowifi"
    case CoreUnit => "mdd-core.service"
    case VowifiUnit => "mdd-vowifi@.service"
    case ApplyUnit => "mdd-provider-apply.service"
    case EgressUnit => "mdd-egress.service"
    case Agent => "mdd-agent"
    case AgentAudio => "mdd-call-audio-helper"
    case Updater => "mdd-updater"
    case Xray => "xray"
    case UpdaterUnit => "mdd-updater.service"
    case UpdaterPath => "mdd-updater.path"
    case AgentUnit => "mdd-agent.service"
    case GuardUnit => "mdd-cellular-guard.service"
  }

  /** The artifact names of a release, by the stable path their role is published under. */
  datatype Manifest = Manifest(schemaVersion: int, artifacts: map<Path, string>)

  /** What is found at a path: a symbolic link, or something that is not a readable one. */
  datatype Entry = Link(target: string) | Foreign

  /** stableLinks: a link below the current link for each published role, the Xray one under the artifact's own name. */
  function StableLinks(release: Option<Manifest>): map<Path, string> {
    match release
    case None => map[]
    case Some(m) =>
      map p | p in REQUIRED + m.artifacts.Keys :: if p.Xray? && p in m.artifacts then m.artifacts[p] else FileName(p)
  }

  /** The stable links of a release, written out. */
  function Published(release: Option<Manifest>): map<Path, Entry> {
    map p | p in StableLinks(release) :: Link(StableLinks(release)[p])
  }

  predicate Canonical(m: Manifest) {
    Xray in m.artifacts ==> m.artifacts[Xray] == FileName(Xray)
  }

  predicate CanonicalRelease(release: Option<Manifest>) {
    release.Some? ==> Canonical(release.value)
  }

  /** Something at a managed path that is not the managed link; reconciliation refuses to touch it. */
  predicate Stray(links: map<Path, Entry>, p: Path) {
    p in links && links[p] != Link(FileName(p))
  }

  predicate Tidy(links: map<Path, Entry>) {
    forall p :: !Stray(links, p)
  }

  predicate SameStrays(a: map<Path, Entry>, b: map<Path, Entry>) {
    forall p | Stray(a, p) || Stray(b, p) :: p in a && p in b && a[p] == b[p]
  }

  /** Reconciling one path: an absent one is created if wanted, a managed one is removed unless wanted. */
  function Settled(links: map<Path, Entry>, wanted: map<Path, string>, p: Path): map<Path, Entry> {
    if p !in links then (if p in wanted then links[p := Link(wanted[p])] else links)
    else if p in wanted then links else links - {p}
  }

  /** Every path holds what it held before or what reconciling it leaves there. */
  predicate Between(before: map<Path, Entry>, now: map<Path, Entry>, wanted: map<Path, string>) {
    && (forall p | p in before && (p !in now || now[p] != before[p]) :: p !in now && p !in wanted && before[p] == Link(FileName(p)))
    && (forall p | p in now && p !in before :: p in wanted && now[p] == Link(wanted[p]))
  }

  /** Where reconciling ends when it succeeds. */
  function Reconciled(links: map<Path, Entry>, wanted: map<Path, string>): map<Path, Entry> {
    map p | p in wanted :: if p in links then links[p] else Link(wanted[p])
  }

  lemma AllPaths(p: Path)
    ensures p in PATHS
  {
    match p {
      case Core => case Vowifi => case CoreUnit => case VowifiUnit => case ApplyUnit => case EgressUnit => case Agent =>
      case AgentAudio => case Updater => case Xray => case UpdaterUnit => case UpdaterPath => case AgentUnit => case GuardUnit =>
    }
  }

  /** A reconciliation that still has to visit some paths. */
  predicate Done(before: map<Path, Entry>, now: map<Path, Entry>, wanted: map<Path, string>, left: set<Path>) {
    && Between(before, now, wanted)
    && (forall p | p in left :: (p in now <==> p in before) && (p in now ==> now[p] == before[p]))
    && (forall p | p !in left :: !Stray(before, p) && (p in now <==> p in wanted))
  }

  lemma DoneExtends(before: map<Path, Entry>, now: map<Path, Entry>, wanted: map<Path, string>, left: set<Path>, p: Path)
    requires Done(before, now, wanted, left) && p in left
    ensures Stray(before, p) <==> Stray(now, p)
    ensures !Stray(now, p) ==> Done(before, Settled(now, wanted, p), wanted, left - {p})
    ensures Between(before, now, wanted)
  {
    hide FileName;
  }

  lemma DoneAll(before: map<Path, Entry>, now: map<Path, Entry>, wanted: map<Path, string>)
    requires Done(before, now, wanted, {})
    ensures Tidy(before) && now == Reconciled(before, wanted)
  {
    hide FileName;
  }

  /** From any tidy disk, whatever links a crash had left, reconciling ends in exactly the links of the release. */
  lemma ReconcileForgetsThePast(links: map<Path, Entry>, release: Option<Manifest>)
    requires Tidy(links) && CanonicalRelease(release)
    ensures Reconciled(links, StableLinks(release)) == Published(release)
  {
    var r := Reconciled(links, StableLinks(release));
    forall p | p in r ensures r[p] == Published(release)[p] {
      if p in links {
        assert !Stray(links, p);
      }
    }
  }

  /** The release publishes something under this path: every release its two executables and their units, and else what it carries. */
  predicate Carries(release: Option<Manifest>, p: Path) {
    release.Some? && (p in {Core, Vowifi, CoreUnit, VowifiUnit} || p in release.value.artifacts)
  }

  /** There is a stable link for exactly the roles of the release, each to the file of its role. */
  predicate Serves(links: map<Path, Entry>, release: Option<Manifest>) {
    && (forall p :: p in links <==> Carries(release, p))
    && (forall p | p in links :: links[p] == Link(FileName(p)))
  }

  /** Reconciling a tidy disk leaves a link for exactly the roles of the release; only a new Xray link has a name of its own. */
  lemma ReconcilingServes(links: map<Path, Entry>, release: Option<Manifest>)
    requires Tidy(links)
    ensures var r := Reconciled(links, StableLinks(release));
            && (forall p :: p in r <==> Carries(release, p))
            && (forall p | p in r :: r[p] == if p.Xray? && p !in links then Link(release.value.artifacts[p]) else Link(FileName(p)))
            && (CanonicalRelease(release) ==> Serves(r, release))
  {
    forall p | p in links ensures links[p] == Link(FileName(p)) {
      assert !Stray(links, p);
    }
  }

  /** What Published says, on the manifest itself. */
  lemma PublishedServes(links: map<Path, Entry>, release: Option<Manifest>)
    requires CanonicalRelease(release)
    ensures links == Published(release) <==> Serves(links, release)
  {
    assert Serves(Published(release), release);
    if Serves(links, release) {
      assert links.Keys == Published(release).Keys;
    }
  }

  lemma PublishedServesBoth(links: map<Path, Entry>, a: Option<Manifest>, b: Option<Manifest>)
    ensures CanonicalRelease(a) ==> (links == Published(a) <==> Serves(links, a))
    ensures CanonicalRelease(b) ==> (links == Published(b) <==> Serves(links, b))
  {
    if CanonicalRelease(a) {
      PublishedServes(links, a);
    }
    if CanonicalRelease(b) {
      PublishedServes(links, b);
    }
  }

  /** The stable links lead to the artifacts of their roles if and only if these have the fixed names, which nothing checks. */
  lemma LeadsToItsArtifactsIff(links: map<Path, Entry>, m: Manifest)
    requires Serves(links, Some(m))
    ensures (forall p | p in m.artifacts :: p in links && links[p] == Link(m.artifacts[p])) <==>
            forall p | p in m.artifacts :: m.artifacts[p] == FileName(p)
  {
    hide FileName;
    forall p | p in m.artifacts ensures p in links && links[p] == Link(FileName(p)) {
      assert Carries(Some(m), p);
    }
  }

  /** Half-way states keep what is not managed, and add nothing unmanaged, if the release is canonical. */
  lemma BetweenKeepsStrays(before: map<Path, Entry>, now: map<Path, Entry>, release: Option<Manifest>)
    requires Between(before, now, StableLinks(release)) && CanonicalRelease(release)
    ensures SameStrays(now, before)
  {
    forall p | Stray(now, p) || Stray(before, p) ensures p in now && p in before && now[p] == before[p] {
    }
  }

  /** A release whose Xray artifact has another name leaves a link the next reconciliation refuses, unless one existed. */
  lemma StaysTidyIff(links: map<Path, Entry>, m: Manifest)
    requires Tidy(links)
    ensures Tidy(Reconciled(links, StableLinks(Some(m)))) <==> Canonical(m) || Xray in links
  {
    var wanted := StableLinks(Some(m));
    var r := Reconciled(links, wanted);
    forall p | p in links ensures links[p] == Link(FileName(p)) {
      assert !Stray(links, p);
    }
    if !Canonical(m) && Xray !in links {
      assert r[Xray] == Link(m.artifacts[Xray]);
      assert Stray(r, Xray);
    } else {
      forall p | p in r ensures !Stray(r, p) {
      }
    }
  }

  /** Such a release exists: valid in every respect the manifest check looks at, installed on a clean host. */
  lemma RenamedXrayBreaksTheNextReconcile()
    ensures exists m: Manifest :: !Tidy(Reconciled(map[], StableLinks(Some(m))))
  {
    var m := Manifest(4, map[Xray := "xray-linux"]);
    StaysTidyIff(map[], m);
    assert !Canonical(m);
  }

  // ---------------------------------------------------------------- receipts and the disk

  datatype ReceiptState = Applying | Applied | RolledBack | ManualRecovery

  datatype Receipt = Receipt(state: ReceiptState, previous: string, candidate: string)

  /** The receipts only Recover may act on, and over which no activation may start. */
  predicate Incomplete(r: Option<Receipt>) {
    r.Some? && (r.value.state.Applying? || r.value.state.ManualRecovery?)
  }

  datatype Disk = Disk(current: Option<Entry>, links: map<Path, Entry>, releases: map<string, Manifest>, receipt: Option<Receipt>)

  predicate IsAbs(path: string) {
    path != "" && path[0] == '/'
  }

  /** currentTarget: the empty string for no link; anything but a link to an absolute path is an error. */
  function CurrentTarget(current: Option<Entry>): Option<string> {
    match current
    case None => Some("")
    case Some(Foreign) => None
    case Some(Link(target)) => if IsAbs(target) then Some(target) else None
  }

  function AsEntry(target: string): Option<Entry> {
    if target == "" then None else Some(Link(target))
  }

  predicate Loads(releases: map<string, Manifest>, target: string) {
    target == "" || target in releases
  }

  function Release(releases: map<string, Manifest>, target: string): Option<Manifest> {
    if target != "" && target in releases then Some(releases[target]) else None
  }

  /** A target a link may be pointed at, the empty string standing for no link. */
  predicate Placeable(target: string) {
    target == "" || IsAbs(target)
  }

  /** What Recover needs of an incomplete disk: the current link is one of the receipt's two, and no path is unmanaged. */
  predicate Recoverable(d: Disk) {
    && Incomplete(d.receipt)
    && Placeable(d.receipt.value.previous)
    && RecoveryApplies(d)
    && Loads(d.releases, d.receipt.value.previous)
    && Tidy(d.links)
  }

  /** The disk holds exactly what one release publishes, or nothing at all. */
  predicate Holds(d: Disk, target: string) {
    && d.current == AsEntry(target)
    && d.links == Published(Release(d.releases, target))
  }

  predicate AllCanonical(releases: map<string, Manifest>) {
    forall t | t in releases :: Canonical(releases[t])
  }

  // ---------------------------------------------------------------- what the environment refuses

  /** The way forward to a candidate, and the way back to the previous release. */
  datatype Phase = Forward | Back

  /** What a session asks of the system. A session asks for each of these once at most, so a set says which ones fail. */
  datatype Call =
    | InspectStage | RenameStage | SyncStage
    | OpenReceipts | ArchiveReceipt | SyncArchive
    | WriteReceipt(state: ReceiptState) | SyncReceipt(state: ReceiptState)
    | LoadRelease(phase: Phase)
    | PrepareLink(phase: Phase) | RenameLink(phase: Phase) | SyncLink(phase: Phase)
    | ReadPath(phase: Phase, path: Path) | ChangePath(phase: Phase, path: Path) | SyncPath(phase: Phase, path: Path)
    | Reload(phase: Phase)

  /** The current link is renamed into place, or removed; its directory may still fail to be synchronised. */
  predicate Renames(fails: set<Call>, phase: Phase, current: Option<Entry>, target: string) {
    if target == "" then current != Some(Foreign) && (current.Some? ==> RenameLink(phase) !in fails)
    else IsAbs(target) && PrepareLink(phase) !in fails && current != Some(Foreign) && RenameLink(phase) !in fails
  }

  predicate LinkWorks(fails: set<Call>, phase: Phase, current: Option<Entry>, target: string) {
    Renames(fails, phase, current, target) && (SyncLink(phase) in fails ==> target == "" && current.None?)
  }

  predicate PathWorks(fails: set<Call>, phase: Phase, links: map<Path, Entry>, wanted: map<Path, string>, p: Path) {
    && (p in links ==> ReadPath(phase, p) !in fails && links[p] == Link(FileName(p)))
    && ((p in links) != (p in wanted) ==> ChangePath(phase, p) !in fails && SyncPath(phase, p) !in fails)
  }

  predicate ReconcileWorks(fails: set<Call>, phase: Phase, links: map<Path, Entry>, release: Option<Manifest>) {
    forall p :: PathWorks(fails, phase, links, StableLinks(release), p)
  }

  predicate ReturnWorks(fails: set<Call>, links: map<Path, Entry>, releases: map<string, Manifest>, previous: string) {
    && Loads(releases, previous) && (previous != "" ==> LoadRelease(Back) !in fails)
    && ReconcileWorks(fails, Back, links, Release(releases, previous))
  }

  predicate ReceiptWorks(fails: set<Call>, state: ReceiptState) {
    WriteReceipt(state) !in fails && SyncReceipt(state) !in fails
  }

  /** An activation gets as far as its receipt. */
  predicate Journals(fails: set<Call>, d: Disk, target: string, m: Manifest) {
    && CurrentTarget(d.current).Some?
    && var previous := CurrentTarget(d.current).value;
    && Loads(d.releases, previous)
    && (previous != "" ==> LoadRelease(Forward) !in fails && d.releases[previous].schemaVersion <= m.schemaVersion)
    && StageWorks(fails, d.releases, target, m)
    && JournalWorks(fails, d.receipt)
  }

  predicate StageWorks(fails: set<Call>, releases: map<string, Manifest>, target: string, m: Manifest) {
    && InspectStage !in fails
    && (if target in releases then releases[target] == m else RenameStage !in fails && SyncStage !in fails)
  }

  predicate JournalWorks(fails: set<Call>, receipt: Option<Receipt>) {
    && !Incomplete(receipt) && (receipt.Some? ==> ArchiveReceipt !in fails && SyncArchive !in fails)
    && OpenReceipts !in fails && ReceiptWorks(fails, Applying)
  }

  /** An activation runs to its end. */
  predicate Succeeds(fails: set<Call>, d: Disk, target: string, m: Manifest) {
    && Journals(fails, d, target, m)
    && ReconcileWorks(fails, Forward, d.links, Some(m))
    && (CurrentTarget(d.current).value != target ==> LinkWorks(fails, Forward, d.current, target))
    && Reload(Forward) !in fails && ReceiptWorks(fails, Applied)
  }

  /** The way back as far as the reload, of a recovery or an explicit rollback. */
  predicate RestoreWorks(fails: set<Call>, d: Disk)
    requires d.receipt.Some?
  {
    && LinkWorks(fails, Back, d.current, d.receipt.value.previous)
    && ReturnWorks(fails, d.links, d.releases, d.receipt.value.previous)
    && Reload(Back) !in fails
  }

  /**
   * The one way in which an activation that puts everything back leaves the candidate current: it switches to another
   * release, and the directory cannot be synchronised after the rename.
   */
  predicate SwitchesLate(fails: set<Call>, d: Disk, target: string, m: Manifest) {
    && ReconcileWorks(fails, Forward, d.links, Some(m))
    && CurrentTarget(d.current).Some? && CurrentTarget(d.current).value != target
    && Renames(fails, Forward, d.current, target) && SyncLink(Forward) in fails
  }

  // ---------------------------------------------------------------- what one session may leave

  /** Disks an activation may leave after its receipt is durable. */
  predicate Underway(d: Disk, target: string, m: Manifest, fails: set<Call>, e: Disk) {
    && CurrentTarget(d.current).Some? && !Incomplete(d.receipt)
    && var previous := CurrentTarget(d.current).value;
    && Loads(d.releases, previous)
    && (target in d.releases ==> d.releases[target] == m)
    && e.releases == d.releases[target := m]
    && e.receipt.Some? && (e.receipt.value.previous, e.receipt.value.candidate) == (previous, target)
    && (e.current == d.current || e.current == AsEntry(target))
    && (e.receipt.value.state.RolledBack? ==> e.current == if SwitchesLate(fails, d, target, m) then AsEntry(target) else d.current)
    && (Canonical(m) && CanonicalRelease(Release(e.releases, previous)) ==>
          && SameStrays(e.links, d.links)
          && (e.receipt.value.state.Applied? ==> Holds(e, target))
          && (e.receipt.value.state.RolledBack? ==> e.links == Published(Release(e.releases, previous))))
  }

  /** Disks an activation may leave without having written a receipt. */
  predicate Unjournaled(d: Disk, target: string, m: Manifest, e: Disk) {
    && (e.current, e.links) == (d.current, d.links)
    && (e.releases == d.releases || e.releases == d.releases[target := m])
    && (target in d.releases && e.releases != d.releases ==> d.releases[target] == m)
    && (e.receipt == d.receipt || (e.receipt.None? && !Incomplete(d.receipt)))
  }

  /** On the way back to the previous release; the receipt says so only once the disk holds exactly that release. */
  predicate Restoring(d: Disk, e: Disk) {
    && d.receipt.Some?
    && var r := d.receipt.value;
    && e.releases == d.releases
    && (e.current == d.current || e.current == AsEntry(r.previous))
    && (CanonicalRelease(Release(d.releases, r.previous)) ==> SameStrays(e.links, d.links))
    && (e.receipt == d.receipt ||
        (e.receipt == Some(r.(state := RolledBack)) && (CanonicalRelease(Release(d.releases, r.previous)) ==> Holds(e, r.previous))))
  }

  /** Disks a recovery may leave. */
  predicate Recovering(d: Disk, e: Disk) {
    e == d || (Incomplete(d.receipt) && RecoveryApplies(d) && Restoring(d, e))
  }

  predicate RecoveryApplies(d: Disk)
    requires d.receipt.Some?
  {
    CurrentTarget(d.current) == Some(d.receipt.value.previous) || CurrentTarget(d.current) == Some(d.receipt.value.candidate)
  }

  /** Disks an explicit rollback may leave. */
  predicate RollingBack(d: Disk, e: Disk) {
    e == d || (RollbackApplies(d) && Restoring(d, e))
  }

  predicate RollbackApplies(d: Disk) {
    d.receipt.Some? && d.receipt.value.state.Applied? && d.receipt.value.previous != "" &&
    CurrentTarget(d.current) == Some(d.receipt.value.candidate)
  }

  /** An activation runs to the end if nothing in the environment fails. */
  predicate Accepts(d: Disk, target: string, m: Manifest) {
    && CurrentTarget(d.current).Some?
    && Loads(d.releases, CurrentTarget(d.current).value)
    && (CurrentTarget(d.current).value != "" ==> d.releases[CurrentTarget(d.current).value].schemaVersion <= m.schemaVersion)
    && (target in d.releases ==> d.releases[target] == m)
    && !Incomplete(d.receipt)
    && Tidy(d.links)
  }

  ghost predicate MayLeave(d: Disk, target: string, m: Manifest, fails: set<Call>, e: Disk) {
    Unjournaled(d, target, m, e) || Underway(d, target, m, fails, e)
  }

  /** From one disk of an activation that is applying to the next. */
  lemma UnderwayMoves(d: Disk, target: string, m: Manifest, fails: set<Call>, e: Disk, next: Disk)
    requires Underway(d, target, m, fails, e) && e.receipt.value.state.Applying?
    requires (next.releases, next.receipt) == (e.releases, e.receipt)
    requires next.current == e.current || next.current == AsEntry(target) || next.current == d.current
    requires Canonical(m) && CanonicalRelease(Release(e.releases, CurrentTarget(d.current).value)) ==> SameStrays(e.links, next.links)
    ensures Underway(d, target, m, fails, next)
  {
  }

  /** An activation that says it was rolled back has put the previous release back if and only if it did not switch late. */
  lemma RolledBackHoldsIff(d: Disk, target: string, m: Manifest, fails: set<Call>, e: Disk)
    requires Underway(d, target, m, fails, e) && e.receipt.value.state.RolledBack?
    requires Canonical(m) && CanonicalRelease(Release(e.releases, e.receipt.value.previous))
    ensures Holds(e, e.receipt.value.previous) <==> !SwitchesLate(fails, d, target, m)
  {
    hide Published, ReconcileWorks;
  }

  /** From the staged disk to the journaled one. */
  lemma Journaling(d: Disk, target: string, m: Manifest, fails: set<Call>, staged: Disk, previous: string)
    requires Unjournaled(d, target, m, staged) && staged.receipt == d.receipt && staged.releases == d.releases[target := m]
    requires CurrentTarget(d.current) == Some(previous) && Loads(d.releases, previous)
    requires target in d.releases ==> d.releases[target] == m
    ensures !Incomplete(d.receipt) ==>
              && Unjournaled(d, target, m, staged.(receipt := None))
              && Underway(d, target, m, fails, staged.(receipt := Some(Receipt(Applying, previous, target))))
  {
  }

  // ---------------------------------------------------------------- the installer

  datatype Code =
    | Refused                    // nothing was journaled
    | StableLinksFailed | StableLinksRollbackFailed | SwitchFailed | SwitchLinksRollbackFailed
    | DaemonReloadFailed | ReloadRollbackFailed | Installed

  class Installer {
    var current: Option<Entry>
    var links: map<Path, Entry>
    var releases: map<string, Manifest>
    var receipt: Option<Receipt>

    /** The calls that fail in this session. */
    const fails: set<Call>

    /** Every disk since the session began; whether an operation of the environment has failed. */
    ghost var trail: set<Disk>
    ghost var faulted: bool

    function View(): Disk
      reads this
    {
      Disk(current, links, releases, receipt)
    }

    constructor (disk: Disk, fails: set<Call>)
      ensures View() == disk && this.fails == fails && trail == {disk} && !faulted
    {
      this.fails := fails;
      current, links, releases, receipt := disk.current, disk.links, disk.releases, disk.receipt;
      trail, faulted := {disk}, false;
    }

    /** One system call, which fails without effect if it fails. */
    method Attempt(call: Call) returns (ok: bool)
      modifies this`faulted
      ensures ok <==> call !in fails
      ensures faulted == (old(faulted) || !ok)
    {
      ok := call !in fails;
      faulted := faulted || !ok;
    }

    method SwitchLink(phase: Phase, target: string) returns (ok: bool)
      modifies this`current, this`trail, this`faulted
      ensures ok <==> target != "" && LinkWorks(fails, phase, old(current), target)
      ensures current == if target != "" && Renames(fails, phase, old(current), target) then Some(Link(target)) else old(current)
      ensures ok ==> faulted == old(faulted)
      ensures old(faulted) ==> faulted
      ensures !ok ==> faulted || !IsAbs(target) || current == Some(Foreign)
      ensures View() in trail || View() == old(View())
      ensures trail <= old(trail) + {old(View()).(current := Some(Link(target)))} && old(trail) <= trail
    {
      if !IsAbs(target) {
        return false;
      }
      ok := Attempt(PrepareLink(phase));
      if !ok {
        return;
      }
      if current == Some(Foreign) {
        return false;
      }
      ok := Attempt(RenameLink(phase));
      if !ok {
        return;
      }
      current := Some(Link(target));
      trail := trail + {View()};
      ok := Attempt(SyncLink(phase));
    }

    method RestoreLink(previous: string) returns (ok: bool)
      modifies this`current, this`trail, this`faulted
      ensures ok <==> LinkWorks(fails, Back, old(current), previous)
      ensures current == if Renames(fails, Back, old(current), previous) then AsEntry(previous) else old(current)
      ensures ok ==> Placeable(previous) && faulted == old(faulted)
      ensures old(faulted) ==> faulted
      ensures !ok ==> faulted || (previous != "" && !IsAbs(previous)) || current == Some(Foreign)
      ensures View() in trail || View() == old(View())
      ensures trail <= old(trail) + {old(View()).(current := AsEntry(previous))} && old(trail) <= trail
    {
      if previous != "" {
        ok := SwitchLink(Back, previous);
        return;
      }
      if current.None? {
        return true;
      }
      if current == Some(Foreign) {
        return false;
      }
      ok := Attempt(RenameLink(Back));
      if !ok {
        return;
      }
      current := None;
      trail := trail + {View()};
      ok := Attempt(SyncLink(Back));
    }

    /** Creating or removing one stable link and synchronising its directory. */
    method ChangeLink(phase: Phase, p: Path, changed: map<Path, Entry>) returns (ok: bool)
      modifies this`links, this`trail, this`faulted
      ensures ok <==> ChangePath(phase, p) !in fails && SyncPath(phase, p) !in fails
      ensures ok ==> links == changed
      ensures faulted == (old(faulted) || !ok)
      ensures links == old(links) || links == changed
      ensures View() in trail || View() == old(View())
      ensures old(trail) <= trail <= old(trail) + {old(View()).(links := changed)}
    {
      ok := Attempt(ChangePath(phase, p));
      if ok {
        links := changed;
        trail := trail + {View()};
        ok := Attempt(SyncPath(phase, p));
      }
    }

    /** One path of a reconciliation: an unmanaged entry is refused, and the wanted state is created or removed. */
    method ReconcilePath(phase: Phase, p: Path, wanted: map<Path, string>) returns (ok: bool)
      modifies this`links, this`trail, this`faulted
      ensures ok <==> PathWorks(fails, phase, old(links), wanted, p)
      ensures ok ==> !Stray(old(links), p) && links == Settled(old(links), wanted, p) && faulted == old(faulted)
      ensures old(faulted) ==> faulted
      ensures !ok ==> faulted || Stray(old(links), p)
      ensures links == old(links) || (!Stray(old(links), p) && links == Settled(old(links), wanted, p))
      ensures View() in trail || View() == old(View())
      ensures Stray(old(links), p) ==> trail == old(trail)
      ensures old(trail) <= trail <= old(trail) + {old(View()).(links := Settled(old(links), wanted, p))}
    {
      hide FileName;
      if p !in links {
        if p in wanted {
          ok := ChangeLink(phase, p, links[p := Link(wanted[p])]);
          return;
        }
        return true;
      }
      ok := Attempt(ReadPath(phase, p));
      if !ok {
        return;
      }
      if links[p] != Link(FileName(p)) {
        return false;
      }
      if p !in wanted {
        ok := ChangeLink(phase, p, links - {p});
      }
    }

    /** reconcileStableLinks, whatever the order in which it visits the paths. */
    method Reconcile(phase: Phase, release: Option<Manifest>) returns (ok: bool)
      modifies this`links, this`trail, this`faulted
      ensures ok <==> ReconcileWorks(fails, phase, old(links), release)
      ensures ok ==> Tidy(old(links)) && links == Reconciled(old(links), StableLinks(release)) && faulted == old(faulted)
      ensures ok ==> forall p :: p in links <==> Carries(release, p)
      ensures ok && CanonicalRelease(release) ==> Serves(links, release)
      ensures old(faulted) ==> faulted
      ensures !ok ==> faulted || !Tidy(old(links))
      ensures Between(old(links), links, StableLinks(release))
      ensures View() in trail || View() == old(View())
      ensures old(trail) <= trail
      ensures forall d | d in trail - old(trail) ::
                d == old(View()).(links := d.links) && Between(old(links), d.links, StableLinks(release))
    {
      hide FileName, StableLinks;
      var wanted := StableLinks(release);
      var paths := PATHS;
      forall p: Path {
        AllPaths(p);
      }
      while paths != {}
        invariant faulted == old(faulted)
        invariant forall p | p !in paths :: PathWorks(fails, phase, old(links), wanted, p)
        invariant Done(old(links), links, wanted, paths)
        invariant View() in trail || View() == old(View())
        invariant old(trail) <= trail
        invariant forall d | d in trail - old(trail) :: d == old(View()).(links := d.links) && Between(old(links), d.links, wanted)
      {
        var p :| p in paths;
        DoneExtends(old(links), links, wanted, paths, p);
        assert PathWorks(fails, phase, links, wanted, p) <==> PathWorks(fails, phase, old(links), wanted, p);
        ok := ReconcilePath(phase, p, wanted);
        if !ok {
          return;
        }
        paths := paths - {p};
      }
      DoneAll(old(links), links, wanted);
      ReconcilingServes(old(links), release);
      ok := true;
    }

    /** Reconciling for a release: the half-way disks keep what is not managed, and the last holds the release's links. */
    method ReconcileRelease(phase: Phase, release: Option<Manifest>) returns (ok: bool)
      modifies this`links, this`trail, this`faulted
      ensures ok <==> ReconcileWorks(fails, phase, old(links), release)
      ensures ok ==> Tidy(old(links)) && links == Reconciled(old(links), StableLinks(release)) && faulted == old(faulted)
      ensures ok && CanonicalRelease(release) ==> links == Published(release)
      ensures old(faulted) ==> faulted
      ensures !ok ==> faulted || !Tidy(old(links))
      ensures CanonicalRelease(release) ==> SameStrays(old(links), links)
      ensures View() in trail || View() == old(View())
      ensures old(trail) <= trail
      ensures forall d | d in trail - old(trail) ::
                d == old(View()).(links := d.links) && (CanonicalRelease(release) ==> SameStrays(old(links), d.links))
    {
      hide FileName, StableLinks, Between, Reconciled, Published, ReconcileWorks, Serves, Carries;
      ok := Reconcile(phase, release);
      if CanonicalRelease(release) {
        BetweenKeepsStrays(old(links), links, release);
        forall d | d in trail - old(trail) ensures SameStrays(old(links), d.links) {
          BetweenKeepsStrays(old(links), d.links, release);
        }
        if ok {
          ReconcileForgetsThePast(old(links), release);
        }
      }
    }

    /** reconcileStableLinksForTarget. */
    method ReconcileTarget(target: string) returns (ok: bool)
      modifies this`links, this`trail, this`faulted
      ensures ok <==> ReturnWorks(fails, old(links), releases, target)
      ensures ok ==> Tidy(old(links)) && Loads(releases, target) && faulted == old(faulted)
      ensures ok && CanonicalRelease(Release(releases, target)) ==> links == Published(Release(releases, target))
      ensures old(faulted) ==> faulted
      ensures !ok ==> faulted || !Tidy(old(links)) || !Loads(releases, target)
      ensures CanonicalRelease(Release(releases, target)) ==> SameStrays(old(links), links)
      ensures View() in trail || View() == old(View())
      ensures old(trail) <= trail
      ensures forall d | d in trail - old(trail) :: d == old(View()).(links := d.links)
      ensures forall d | d in trail - old(trail) :: CanonicalRelease(Release(releases, target)) ==> SameStrays(old(links), d.links)
    {
      hide FileName, StableLinks, Published, ReconcileWorks;
      if target == "" {
        ok := ReconcileRelease(Back, None);
        return;
      }
      if target !in releases {
        return false;
      }
      ok := Attempt(LoadRelease(Back));
      if ok {
        ok := ReconcileRelease(Back, Some(releases[target]));
      }
    }

    /** stageRelease: the release directory appears whole or not at all; one that exists must have the same contents. */
    method StageRelease(target: string, m: Manifest) returns (ok: bool)
      modifies this`releases, this`trail, this`faulted
      ensures ok <==> StageWorks(fails, old(releases), target, m)
      ensures ok ==> releases == old(releases)[target := m] && faulted == old(faulted)
      ensures old(faulted) ==> faulted
      ensures !ok ==> faulted || (target in old(releases) && old(releases)[target] != m)
      ensures releases == old(releases) || (target !in old(releases) && releases == old(releases)[target := m])
      ensures ok && target in old(releases) ==> old(releases)[target] == m
      ensures View() in trail || View() == old(View())
      ensures old(trail) <= trail <= old(trail) + {old(View()).(releases := old(releases)[target := m])}
      ensures target in old(releases) ==> trail == old(trail)
    {
      ok := Attempt(InspectStage);
      if !ok {
        return;
      }
      if target in releases {
        return releases[target] == m;
      }
      ok := Attempt(RenameStage);
      if ok {
        releases := releases[target := m];
        trail := trail + {View()};
        ok := Attempt(SyncStage);
      }
    }

    /** persist: the receipt replaces current.json; the directory may fail to be synchronised afterwards. */
    method Persist(r: Receipt) returns (ok: bool)
      modifies this`receipt, this`trail, this`faulted
      ensures ok <==> ReceiptWorks(fails, r.state)
      ensures ok ==> receipt == Some(r)
      ensures faulted == (old(faulted) || !ok)
      ensures receipt == if WriteReceipt(r.state) !in fails then Some(r) else old(receipt)
      ensures View() in trail || View() == old(View())
      ensures old(trail) <= trail <= old(trail) + {old(View()).(receipt := Some(r))}
    {
      ok := Attempt(WriteReceipt(r.state));
      if ok {
        receipt := Some(r);
        trail := trail + {View()};
        ok := Attempt(SyncReceipt(r.state));
      }
    }

    /** openJournal: the prior receipt is archived only if it is complete; then the new one is written as applying. */
    method OpenJournal(previous: string, candidate: string) returns (ok: bool)
      modifies this`receipt, this`trail, this`faulted
      ensures ok <==> JournalWorks(fails, old(receipt))
      ensures ok ==> receipt == Some(Receipt(Applying, previous, candidate)) && !Incomplete(old(receipt)) && faulted == old(faulted)
      ensures old(faulted) ==> faulted
      ensures !ok ==> faulted || Incomplete(old(receipt))
      ensures Incomplete(old(receipt)) ==> receipt == old(receipt) && trail == old(trail)
      ensures View() in trail || View() == old(View())
      ensures old(trail) <= trail
      ensures trail <= old(trail) + {old(View()).(receipt := None), old(View()).(receipt := Some(Receipt(Applying, previous, candidate)))}
    {
      if receipt.Some? {
        if Incomplete(receipt) {
          return false;
        }
        ok := Attempt(ArchiveReceipt);
        if !ok {
          return;
        }
        receipt := None;
        trail := trail + {View()};
        ok := Attempt(SyncArchive);
        if !ok {
          return;
        }
      }
      ok := Attempt(OpenReceipts);
      if ok {
        ok := Persist(Receipt(Applying, previous, candidate));
      }
    }

    method Finish(state: ReceiptState) returns (ok: bool)
      requires receipt.Some? && !state.Applying?
      modifies this`receipt, this`trail, this`faulted
      ensures ok <==> ReceiptWorks(fails, state)
      ensures ok ==> receipt == Some(old(receipt).value.(state := state))
      ensures faulted == (old(faulted) || !ok)
      ensures receipt == if WriteReceipt(state) !in fails then Some(old(receipt).value.(state := state)) else old(receipt)
      ensures View() in trail || View() == old(View())
      ensures old(trail) <= trail <= old(trail) + {old(View()).(receipt := Some(old(receipt).value.(state := state)))}
    {
      ok := Persist(receipt.value.(state := state));
    }

    /** An activation that started on d is applying, and every disk so far is one it may leave. */
    ghost predicate OnTrack(d: Disk, target: string, m: Manifest)
      reads this
    {
      && Underway(d, target, m, fails, View()) && receipt.value.state.Applying?
      && releases == d.releases[target := m]
      && View() in trail
      && forall e | e in trail :: MayLeave(d, target, m, fails, e)
    }

    /** The candidate's stable links, while the current link still names the previous release. */
    method ReconcileCandidate(ghost d: Disk, ghost target: string, m: Manifest) returns (ok: bool)
      requires OnTrack(d, target, m)
      modifies this`links, this`trail, this`faulted
      ensures OnTrack(d, target, m)
      ensures ok <==> ReconcileWorks(fails, Forward, old(links), Some(m))
      ensures ok ==> faulted == old(faulted) && Tidy(old(links)) && links == Reconciled(old(links), StableLinks(Some(m)))
      ensures ok && Canonical(m) ==> links == Published(Some(m))
      ensures old(faulted) ==> faulted
      ensures !ok ==> faulted || !Tidy(old(links))
    {
      hide Unjournaled, Published, Tidy, SameStrays, ReconcileWorks, ReturnWorks, SwitchesLate;
      ghost var before := View();
      ok := ReconcileRelease(Forward, Some(m));
      hide Underway;
      UnderwayMoves(d, target, m, fails, before, View());
      forall e | e in trail ensures MayLeave(d, target, m, fails, e) {
        if e !in old(trail) {
          UnderwayMoves(d, target, m, fails, before, e);
        }
      }
    }

    /** rollbackLinks within an activation that is under way. */
    method RollBackLinks(ghost d: Disk, target: string, m: Manifest) returns (ok: bool)
      requires OnTrack(d, target, m)
      modifies this`links, this`trail, this`faulted
      ensures OnTrack(d, target, m)
      ensures ok <==> ReturnWorks(fails, old(links), releases, CurrentTarget(d.current).value)
      ensures ok ==> faulted == old(faulted) && Tidy(old(links))
      ensures ok && CanonicalRelease(Release(releases, CurrentTarget(d.current).value)) ==>
                links == Published(Release(releases, CurrentTarget(d.current).value))
      ensures old(faulted) ==> faulted
      ensures !ok ==> faulted || !Tidy(old(links)) || !Loads(releases, CurrentTarget(d.current).value)
    {
      hide Unjournaled, Published, Tidy, SameStrays, ReconcileWorks, ReturnWorks, SwitchesLate;
      ghost var before := View();
      ok := ReconcileTarget(receipt.value.previous);
      hide Underway;
      UnderwayMoves(d, target, m, fails, before, View());
      forall e | e in trail ensures MayLeave(d, target, m, fails, e) {
        if e !in old(trail) {
          UnderwayMoves(d, target, m, fails, before, e);
        }
      }
    }

    /** The current link within an activation that is under way. */
    method PointCurrent(ghost d: Disk, target: string, m: Manifest, where: string, restoring: bool) returns (ok: bool)
      requires OnTrack(d, target, m)
      requires AsEntry(where) == AsEntry(target) || AsEntry(where) == d.current
      requires !restoring ==> where != ""
      requires current != Some(Foreign) && (where == "" || IsAbs(where))
      modifies this`current, this`trail, this`faulted
      ensures OnTrack(d, target, m)
      ensures ok <==> LinkWorks(fails, if restoring then Back else Forward, old(current), where)
      ensures current == if Renames(fails, if restoring then Back else Forward, old(current), where) then AsEntry(where) else old(current)
      ensures ok ==> faulted == old(faulted)
      ensures old(faulted) || !ok ==> faulted
    {
      hide Unjournaled, SwitchesLate;
      ghost var before := View();
      if restoring {
        ok := RestoreLink(where);
      } else {
        ok := SwitchLink(Forward, where);
      }
      assert SameStrays(before.links, before.links);
      hide Underway;
      UnderwayMoves(d, target, m, fails, before, View());
      forall e | e in trail ensures MayLeave(d, target, m, fails, e) {
        if e !in old(trail) {
          UnderwayMoves(d, target, m, fails, before, e);
        }
      }
    }

    /** finish, within an activation that is under way. */
    method Conclude(ghost d: Disk, ghost target: string, ghost m: Manifest, state: ReceiptState) returns (ok: bool)
      requires OnTrack(d, target, m) && !state.Applying?
      requires state.Applied? ==> (Canonical(m) ==> Holds(View(), target))
      requires state.RolledBack? ==>
                 (CanonicalRelease(Release(releases, CurrentTarget(d.current).value)) ==>
                    links == Published(Release(releases, CurrentTarget(d.current).value)))
      requires state.RolledBack? ==> current == if SwitchesLate(fails, d, target, m) then AsEntry(target) else d.current
      modifies this`receipt, this`trail, this`faulted
      ensures ok <==> ReceiptWorks(fails, state)
      ensures ok ==> receipt == Some(old(receipt).value.(state := state))
      ensures faulted == (old(faulted) || !ok)
      ensures receipt == if WriteReceipt(state) !in fails then Some(old(receipt).value.(state := state)) else old(receipt)
      ensures View() in trail && forall e | e in trail :: MayLeave(d, target, m, fails, e)
      ensures WriteReceipt(state) !in fails ==> Underway(d, target, m, fails, View())
    {
      hide Unjournaled, SameStrays, Published, SwitchesLate;
      ok := Finish(state);
      assert Underway(d, target, m, fails, old(View()).(receipt := Some(old(receipt).value.(state := state))));
    }

    /** activateLocked once its receipt is durable. */
    method Switchover(ghost d: Disk, target: string, m: Manifest, previous: string) returns (code: Code, ok: bool)
      requires OnTrack(d, target, m) && IsAbs(target) && Some(previous) == CurrentTarget(d.current)
      requires (current, links) == (d.current, d.links) && !faulted
      modifies this`current, this`links, this`receipt, this`trail, this`faulted
      ensures View() in trail && forall e | e in trail :: MayLeave(d, target, m, fails, e)
      ensures ok <==> !faulted && Tidy(d.links)
      ensures ok <==> code.Installed? && receipt.Some? && receipt.value.state.Applied? && !faulted
      ensures ok <==>
                && ReconcileWorks(fails, Forward, d.links, Some(m)) && (previous != target ==> LinkWorks(fails, Forward, d.current, target))
                && Reload(Forward) !in fails && ReceiptWorks(fails, Applied)
      ensures ok ==> Underway(d, target, m, fails, View())
      ensures ok ==> current == Some(Link(target)) && (Canonical(m) ==> links == Published(Some(m)))
      ensures !code.Refused?
      ensures receipt.Some? && receipt.value.state.RolledBack? ==> Underway(d, target, m, fails, View())
      ensures ReceiptWorks(fails, RolledBack) && (code.StableLinksFailed? || code.SwitchFailed? || code.DaemonReloadFailed?) ==>
                receipt.Some? && receipt.value.state.RolledBack?
      ensures SwitchesLate(fails, d, target, m) ==>
                code == if ReturnWorks(fails, Reconciled(d.links, StableLinks(Some(m))), releases, previous) then SwitchFailed
                        else SwitchLinksRollbackFailed
      ensures ReconcileWorks(fails, Forward, d.links, Some(m)) && (previous != target ==> LinkWorks(fails, Forward, d.current, target)) &&
              Reload(Forward) in fails ==>
                code == if LinkWorks(fails, Back, Some(Link(target)), previous)
                           && ReturnWorks(fails, Reconciled(d.links, StableLinks(Some(m))), releases, previous) && Reload(Back) !in fails
                        then DaemonReloadFailed else ReloadRollbackFailed
    {
      hide Unjournaled, Underway, SameStrays, Published, FileName, Tidy, ReconcileWorks, ReturnWorks, Reconciled;
      ok := ReconcileCandidate(d, target, m);
      if !ok {
        var undone := RollBackLinks(d, target, m);
        var _ := Conclude(d, target, m, if undone then RolledBack else ManualRecovery);
        return if undone then StableLinksFailed else StableLinksRollbackFailed, false;
      }
      if previous != target {
        ok := PointCurrent(d, target, m, target, false);
        if !ok {
          var undone := RollBackLinks(d, target, m);
          var _ := Conclude(d, target, m, if undone then RolledBack else ManualRecovery);
          return if undone then SwitchFailed else SwitchLinksRollbackFailed, false;
        }
      }
      ok := Attempt(Reload(Forward));
      if !ok {
        var undone := PointCurrent(d, target, m, previous, true);
        if undone {
          undone := RollBackLinks(d, target, m);
        }
        if undone {
          undone := Attempt(Reload(Back));
        }
        var _ := Conclude(d, target, m, if undone then RolledBack else ManualRecovery);
        return if undone then DaemonReloadFailed else ReloadRollbackFailed, false;
      }
      ok := Conclude(d, target, m, Applied);
      code := Installed;
    }

    /** activateLocked. The release directory's own validity was settled by the preflight. */
    method Activate(target: string, m: Manifest) returns (code: Code, ok: bool)
      requires IsAbs(target)
      requires trail == {View()} && !faulted
      modifies this
      ensures View() in trail && forall e | e in trail :: MayLeave(old(View()), target, m, fails, e)
      ensures ok <==> !faulted && Accepts(old(View()), target, m)
      ensures ok <==> code.Installed? && receipt.Some? && receipt.value.state.Applied? && !faulted
      ensures ok <==> Succeeds(fails, old(View()), target, m)
      ensures ok ==> Underway(old(View()), target, m, fails, View())
      ensures ok ==> current == Some(Link(target)) && (Canonical(m) ==> Serves(links, Some(m)))
      ensures code.Refused? ==> (current, links) == (old(current), old(links))
      ensures code.Refused? <==> !Journals(fails, old(View()), target, m)
      ensures !code.Refused? && receipt.Some? && receipt.value.state.RolledBack? ==>
                && Underway(old(View()), target, m, fails, View())
                && var previous := CurrentTarget(old(current)).value;
                (Canonical(m) && CanonicalRelease(Release(releases, previous)) ==>
                  && (Holds(View(), previous) <==> !SwitchesLate(fails, old(View()), target, m))
                  && Serves(links, Release(releases, previous)))
      ensures ReceiptWorks(fails, RolledBack) && (code.StableLinksFailed? || code.SwitchFailed? || code.DaemonReloadFailed?) ==>
                receipt.Some? && receipt.value.state.RolledBack?
      ensures Journals(fails, old(View()), target, m) && SwitchesLate(fails, old(View()), target, m) ==>
                code == if ReturnWorks(fails, Reconciled(old(links), StableLinks(Some(m))), releases, CurrentTarget(old(current)).value)
                        then SwitchFailed else SwitchLinksRollbackFailed
      ensures Journals(fails, old(View()), target, m) && ReconcileWorks(fails, Forward, old(links), Some(m)) && Reload(Forward) in fails &&
              (CurrentTarget(old(current)).value != target ==> LinkWorks(fails, Forward, old(current), target)) ==>
                code == if LinkWorks(fails, Back, Some(Link(target)), CurrentTarget(old(current)).value)
                           && ReturnWorks(fails, Reconciled(old(links), StableLinks(Some(m))), releases, CurrentTarget(old(current)).value)
                           && Reload(Back) !in fails
                        then DaemonReloadFailed else ReloadRollbackFailed
    {
      hide FileName, Published, Tidy, Canonical, Holds, Serves, SwitchesLate, ReconcileWorks, ReturnWorks, Reconciled, StageWorks, JournalWorks;
      ghost var d := View();
      var previous := CurrentTarget(current);
      if previous.None? {
        return Refused, false;
      }
      if previous.value != "" {
        if previous.value !in releases {
          return Refused, false;
        }
        ok := Attempt(LoadRelease(Forward));
        if !ok {
          return Refused, false;
        }
        if m.schemaVersion < releases[previous.value].schemaVersion {
          return Refused, false;
        }
      }
      ok := StageRelease(target, m);
      if !ok {
        return Refused, false;
      }
      ghost var staged := View();
      assert forall e | e in trail :: MayLeave(d, target, m, fails, e);
      ok := OpenJournal(previous.value, target);
      Journaling(d, target, m, fails, staged, previous.value);
      assert forall e | e in trail :: MayLeave(d, target, m, fails, e);
      if !ok {
        return Refused, false;
      }
      code, ok := Switchover(d, target, m, previous.value);
      PublishedServesBoth(links, Some(m), Release(releases, previous.value));
      if receipt.Some? && receipt.value.state.RolledBack? && Canonical(m) && CanonicalRelease(Release(releases, previous.value)) {
        RolledBackHoldsIff(d, target, m, fails, View());
      }
    }

    /** The steps recovery and explicit rollback share: the link, then the stable links, then the reload, then the receipt. */
    method Restore() returns (ok: bool)
      requires receipt.Some? && trail == {View()} && !faulted && CurrentTarget(current).Some?
      modifies this
      ensures View() in trail && forall e | e in trail :: Restoring(old(View()), e)
      ensures ok <==> !faulted && Placeable(old(receipt).value.previous) &&
                      Loads(old(releases), old(receipt).value.previous) && Tidy(old(links))
      ensures ok <==> RestoreWorks(fails, old(View())) && ReceiptWorks(fails, RolledBack)
      ensures current == if Renames(fails, Back, old(current), old(receipt).value.previous) then AsEntry(old(receipt).value.previous) else old(current)
      ensures receipt == if RestoreWorks(fails, old(View())) && WriteReceipt(RolledBack) !in fails then Some(old(receipt).value.(state := RolledBack))
                         else old(receipt)
      ensures ok ==> receipt == Some(old(receipt).value.(state := RolledBack))
      ensures ok && CanonicalRelease(Release(releases, receipt.value.previous)) ==>
                Holds(View(), receipt.value.previous) && Serves(links, Release(releases, receipt.value.previous))
    {
      hide FileName, Published, Tidy, ReconcileWorks, Serves;
      ghost var d := View();
      assert SameStrays(d.links, d.links);
      ok := RestoreLink(receipt.value.previous);
      assert forall e | e in trail :: Restoring(d, e);
      if !ok {
        return;
      }
      ok := ReconcileTarget(receipt.value.previous);
      assert forall e | e in trail :: Restoring(d, e);
      if !ok {
        return;
      }
      ok := Attempt(Reload(Back));
      if !ok {
        return;
      }
      ok := Finish(RolledBack);
      if CanonicalRelease(Release(releases, receipt.value.previous)) {
        PublishedServes(links, Release(releases, receipt.value.previous));
      }
    }

    /** recoverLocked. */
    method Recover() returns (ok: bool)
      requires trail == {View()} && !faulted
      modifies this
      ensures View() in trail && forall e | e in trail :: Recovering(old(View()), e)
      ensures ok <==> !faulted && Recoverable(old(View()))
      ensures ok ==> receipt == Some(old(receipt).value.(state := RolledBack)) && !faulted
      ensures ok && CanonicalRelease(Release(releases, receipt.value.previous)) ==>
                Holds(View(), receipt.value.previous) && Serves(links, Release(releases, receipt.value.previous))
    {
      hide FileName, Published, Tidy, Restoring, Holds, Serves;
      if !Incomplete(receipt) || !RecoveryApplies(View()) {
        return false;
      }
      ok := Restore();
    }

    /** RollbackLatest. */
    method RollbackLatest() returns (ok: bool)
      requires trail == {View()} && !faulted
      modifies this
      ensures View() in trail && forall e | e in trail :: RollingBack(old(View()), e)
      ensures ok ==> RollbackApplies(old(View())) && receipt == Some(old(receipt).value.(state := RolledBack)) && !faulted
      ensures ok && CanonicalRelease(Release(releases, receipt.value.previous)) ==>
                Holds(View(), receipt.value.previous) && Serves(links, Release(releases, receipt.value.previous))
      ensures ok <==> !faulted && RollbackApplies(old(View())) && Placeable(old(receipt).value.previous) &&
                      Loads(old(releases), old(receipt).value.previous) && Tidy(old(links))
      ensures !RollbackApplies(old(View())) ==> View() == old(View())
      ensures RollbackApplies(old(View())) ==>
                && current == (if Renames(fails, Back, old(current), old(receipt).value.previous) then AsEntry(old(receipt).value.previous)
                               else old(current))
                && receipt == (if RestoreWorks(fails, old(View())) && WriteReceipt(RolledBack) !in fails
                               then Some(old(receipt).value.(state := RolledBack)) else old(receipt))
    {
      hide FileName, Published, Tidy, Restoring, Holds, Serves, RestoreWorks, Renames;
      if !RollbackApplies(View()) {
        return false;
      }
      ok := Restore();
    }
  }
}
