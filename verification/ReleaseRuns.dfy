/** Runs of installation sessions, each of which may end or be cut off at any of its writes. */
module ReleaseRuns {
  import opened Common
  import opened ReleaseLinks

  datatype Session = Activation(target: string, manifest: Manifest, fails: set<Call>) | Recovery | ExplicitRollback

  /** The disks a session started on d may leave, whether it ended or crashed. */
  ghost predicate Leaves(d: Disk, s: Session, e: Disk) {
    match s
    case Activation(target, m, fails) => MayLeave(d, target, m, fails, e)
    case Recovery => Recovering(d, e)
    case ExplicitRollback => RollingBack(d, e)
  }

  predicate Sound(s: Session) {
    s.Activation? ==> IsAbs(s.target) && Canonical(s.manifest)
  }

  ghost predicate IsRun(ds: seq<Disk>, ss: seq<Session>) {
    && |ds| == |ss| + 1
    && (forall i | 0 <= i < |ss| :: Sound(ss[i]))
    && (forall i {:trigger ss[i]} | 0 <= i < |ss| :: Leaves(ds[i], ss[i], ds[i + 1]))
  }

  /** A host no one else has tampered with: only managed links, readable targets, and receipts over loadable releases. */
  predicate Inv(d: Disk) {
    && Tidy(d.links)
    && AllCanonical(d.releases)
    && CurrentTarget(d.current).Some? && Loads(d.releases, CurrentTarget(d.current).value)
    && (d.receipt.Some? ==>
          && Placeable(d.receipt.value.previous) && Loads(d.releases, d.receipt.value.previous)
          && IsAbs(d.receipt.value.candidate) && d.receipt.value.candidate in d.releases)
    && (Incomplete(d.receipt) ==> RecoveryApplies(d))
  }

  lemma LeavesKeepsInv(d: Disk, s: Session, e: Disk)
    requires Inv(d) && Sound(s) && Leaves(d, s, e)
    ensures Inv(e)
  {
    hide FileName, Published, Holds;
    if SameStrays(d.links, e.links) || SameStrays(e.links, d.links) {
      forall p ensures !Stray(e.links, p) {
        assert !Stray(d.links, p);
      }
    }
    if s.Activation? {
      assert AllCanonical(e.releases);
      if Underway(d, s.target, s.manifest, s.fails, e) {
        assert CanonicalRelease(Release(e.releases, CurrentTarget(d.current).value));
        assert Tidy(e.links);
      } else {
        assert Tidy(e.links);
        assert CurrentTarget(e.current).Some? && Loads(e.releases, CurrentTarget(e.current).value);
        assert Inv(e);
      }
    } else if e != d {
      assert CanonicalRelease(Release(d.releases, d.receipt.value.previous));
      assert Tidy(e.links);
    }
  }

  lemma {:induction false} RunKeepsInv(ds: seq<Disk>, ss: seq<Session>, i: nat)
    requires IsRun(ds, ss) && Inv(ds[0]) && i < |ds|
    ensures Inv(ds[i])
  {
    if i > 0 {
      RunKeepsInv(ds, ss, i - 1);
      LeavesKeepsInv(ds[i - 1], ss[i - 1], ds[i]);
    }
  }

  /** Wherever a run of sessions was cut off, an incomplete receipt can be recovered from. */
  lemma EveryIncompleteDiskIsRecoverable(ds: seq<Disk>, ss: seq<Session>, i: nat)
    requires IsRun(ds, ss) && Inv(ds[0]) && i < |ds| && Incomplete(ds[i].receipt)
    ensures Recoverable(ds[i])
  {
    RunKeepsInv(ds, ss, i);
  }

  /** Until then no other session changes a link or the receipt; a new activation may at most stage its directory. */
  lemma OnlyRecoveryProceeds(d: Disk, s: Session, e: Disk)
    requires Incomplete(d.receipt) && Leaves(d, s, e) && !s.Recovery?
    ensures (e.current, e.links, e.receipt) == (d.current, d.links, d.receipt)
  {
  }

  /** What stays put while an interrupted activation waits for, or undergoes, recovery. */
  ghost predicate Awaiting(d: Disk, previous: string, release: Option<Manifest>) {
    && Incomplete(d.receipt) && d.receipt.value.previous == previous
    && Release(d.releases, previous) == release
  }

  lemma AwaitingStep(d: Disk, s: Session, e: Disk, previous: string, release: Option<Manifest>)
    requires Inv(d) && Sound(s) && Leaves(d, s, e) && Awaiting(d, previous, release)
    ensures Incomplete(e.receipt) ==> Awaiting(e, previous, release)
    ensures !Incomplete(e.receipt) ==> Holds(e, previous) && Release(e.releases, previous) == release
  {
    hide FileName, Published;
    if s.Recovery? {
      assert CanonicalRelease(Release(d.releases, previous));
    }
  }

  lemma {:induction false} AwaitingRun(ds: seq<Disk>, ss: seq<Session>, previous: string, release: Option<Manifest>, n: nat)
    requires IsRun(ds, ss) && Inv(ds[0]) && 0 < n < |ds|
    requires Awaiting(ds[1], previous, release)
    requires forall i | 1 <= i < n :: Incomplete(ds[i].receipt)
    ensures Incomplete(ds[n].receipt) ==> Awaiting(ds[n], previous, release)
    ensures !Incomplete(ds[n].receipt) ==> Holds(ds[n], previous) && Release(ds[n].releases, previous) == release
  {
    if n > 1 {
      AwaitingRun(ds, ss, previous, release, n - 1);
      RunKeepsInv(ds, ss, n - 1);
      AwaitingStep(ds[n - 1], ss[n - 1], ds[n], previous, release);
    }
  }

  /**
   * An activation that was cut off, or gave up, with an incomplete receipt; after it any sessions, any of them cut off
   * too, recoveries included. The first disk whose receipt is complete again has the links of the disk before the
   * activation.
   */
  lemma InterruptedActivationIsUndone(ds: seq<Disk>, ss: seq<Session>, previous: string, n: nat)
    requires IsRun(ds, ss) && Inv(ds[0]) && Holds(ds[0], previous) && 1 < n < |ds|
    requires ss[0].Activation? && !Incomplete(ds[0].receipt)
    requires forall i | 1 <= i < n :: Incomplete(ds[i].receipt)
    requires !Incomplete(ds[n].receipt)
    ensures (ds[n].current, ds[n].links) == (ds[0].current, ds[0].links)
  {
    hide FileName, Published;
    var s := ss[0];
    assert Leaves(ds[0], s, ds[1]) && Incomplete(ds[1].receipt);
    assert Underway(ds[0], s.target, s.manifest, s.fails, ds[1]);
    var release := Release(ds[0].releases, previous);
    assert Awaiting(ds[1], previous, release);
    AwaitingRun(ds, ss, previous, release, n);
  }

  /**
   * An activation that opened its receipt and did not take effect, whatever became of it: ended, given up or cut off, and
   * followed by any sessions. The first disk that says it was rolled back has the links of the disk before, unless the
   * activation ended by itself after a switch that failed late; that disk does not.
   */
  lemma FailedActivationIsUndoneIff(ds: seq<Disk>, ss: seq<Session>, previous: string, n: nat)
    requires IsRun(ds, ss) && Inv(ds[0]) && Holds(ds[0], previous) && 0 < n < |ds|
    requires ss[0].Activation? && Underway(ds[0], ss[0].target, ss[0].manifest, ss[0].fails, ds[1])
    requires forall i | 1 <= i < n :: Incomplete(ds[i].receipt)
    requires ds[n].receipt.Some? && ds[n].receipt.value.state.RolledBack?
    ensures (ds[n].current, ds[n].links) == (ds[0].current, ds[0].links) <==>
            !(n == 1 && SwitchesLate(ss[0].fails, ds[0], ss[0].target, ss[0].manifest))
  {
    hide FileName, Published, ReconcileWorks;
    var s := ss[0];
    if n > 1 {
      InterruptedActivationIsUndone(ds, ss, previous, n);
    } else {
      RunKeepsInv(ds, ss, 1);
      RolledBackHoldsIff(ds[0], s.target, s.manifest, s.fails, ds[1]);
    }
  }

  const REQUIRED_LINKS: map<Path, Entry> := map[Core := Link("mdd-core"), Vowifi := Link("mdd-vowifi"),
                                                CoreUnit := Link("mdd-core.service"), VowifiUnit := Link("mdd-vowifi@.service")]

  lemma LinksWithAgent(links: map<Path, Entry>)
    requires Serves(links, Some(Manifest(4, map[Agent := "mdd-agent"])))
    ensures links == REQUIRED_LINKS[Agent := Link("mdd-agent")]
  {
    forall p ensures p in links <==> p in REQUIRED_LINKS[Agent := Link("mdd-agent")] {
    }
  }

  lemma LinksWithUpdater(d: Disk, target: string, m: Manifest)
    requires d == Disk(Some(Link("/r/1")), REQUIRED_LINKS[Updater := Link("mdd-updater")], map["/r/1" := Manifest(4, map[Updater := "mdd-updater"])], None)
    requires target == "/r/2" && m == Manifest(4, map[Agent := "mdd-agent"])
    ensures Succeeds({}, d, target, m) && Canonical(m)
  {
    forall p ensures !Stray(d.links, p) {
    }
    Undisturbed(d, target, m);
  }

  /** An upgrade brings the role the new release adds and takes away the one it drops. */
  method ExchangeRoles() returns (installer: Installer)
    ensures installer.receipt.Some? && installer.receipt.value.state.Applied? && installer.current == Some(Link("/r/2"))
    ensures installer.links == REQUIRED_LINKS[Agent := Link("mdd-agent")]
  {
    var m := Manifest(4, map[Agent := "mdd-agent"]);
    var d := Disk(Some(Link("/r/1")), REQUIRED_LINKS[Updater := Link("mdd-updater")], map["/r/1" := Manifest(4, map[Updater := "mdd-updater"])], None);
    LinksWithUpdater(d, "/r/2", m);
    assert IsAbs("/r/2");
    installer := new Installer(d, {});
    hide *;
    var code, ok := installer.Activate("/r/2", m);
    LinksWithAgent(installer.links);
  }

  lemma Undisturbed(d: Disk, target: string, m: Manifest)
    requires Accepts(d, target, m) && IsAbs(target)
    ensures Succeeds({}, d, target, m)
  {
    forall p ensures PathWorks({}, Forward, d.links, StableLinks(Some(m)), p) {
      assert !Stray(d.links, p);
    }
  }

  /** It happens: one call fails, the receipt says rolled back, and the candidate is current. */
  method SwitchLate() returns (installer: Installer)
    ensures installer.receipt == Some(Receipt(RolledBack, "/r/1", "/r/2")) && installer.current == Some(Link("/r/2"))
    ensures installer.links == Published(Some(Manifest(4, map[])))
  {
    var m := Manifest(4, map[]);
    var d := Disk(Some(Link("/r/1")), Published(Some(m)), map["/r/1" := m], None);
    installer := new Installer(d, {SyncLink(Forward)});
    assert Journals(installer.fails, d, "/r/2", m) && SwitchesLate(installer.fails, d, "/r/2", m);
    ReconcileForgetsThePast(d.links, Some(m));
    var code, _ := installer.Activate("/r/2", m);
    assert code.SwitchFailed?;
  }

  /** An explicit rollback cut off after its switch can no longer be repeated: the receipt still names the candidate. */
  lemma InterruptedRollbackRefuses(d: Disk, e: Disk)
    requires RollbackApplies(d) && Restoring(d, e) && e.receipt == d.receipt
    ensures RollbackApplies(e) <==> e.current == d.current || d.receipt.value.previous == d.receipt.value.candidate
    ensures !Incomplete(e.receipt)
  {
  }

  /** It happens: the reload after the switch fails, and the same rollback is refused from then on. */
  method CutRollbackShort() returns (installed: Installer, cut: Installer, repeated: Installer, ok: bool)
    ensures RollbackApplies(installed.View()) && !RollbackApplies(cut.View())
    ensures cut.receipt == installed.receipt && cut.current == AsEntry(installed.receipt.value.previous)
    ensures !ok && repeated.fails == {} && repeated.View() == cut.View()
  {
    var m := Manifest(4, map[]);
    var d := Disk(Some(Link("/r/1")), Published(Some(m)), map["/r/1" := m], None);
    installed := new Installer(d, {});
    assert Succeeds(installed.fails, d, "/r/2", m);
    var _, activated := installed.Activate("/r/2", m);
    assert activated;
    cut := new Installer(installed.View(), {Reload(Back)});
    ok := cut.RollbackLatest();
    repeated := new Installer(cut.View(), {});
    ok := repeated.RollbackLatest();
  }
}
