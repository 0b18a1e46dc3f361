/**
 * What every run of the credential manager keeps, with restarts, lost responses, and writes that reach the disk late. A
 * write may even outlive the process that asked for it; when that is harmless, and what happens otherwise, comes last.
 */
module CredentialRuns {
  import opened Common
  import opened Credentials

  function PendingDocument(m: Manager): Option<Document> {
    if m.pendingEnrollment.Some? then m.pendingEnrollment
    else if m.pendingMutation.Some? then Some(m.pendingMutation.value.document)
    else None
  }

  /** The pending document is what its operation makes of the credentials still in memory. */
  ghost predicate Regenerates(c: Document, p: Pending) {
    var d := p.document;
    match p.operation
    case PasswordOperation => d == c.(salt := d.salt, passwordHash := Scrypt(d.passwordHash.password, d.salt))
    case IssueOperation(id) =>
      && (id in c.tokens || |c.tokens| < MAX_AGENT_CREDENTIALS)
      && id in d.tokens && d == c.(tokens := c.tokens[id := d.tokens[id]])
    case RevokeOperation(id) => d == c.(tokens := c.tokens[id := ""])
    case UnenrollOperation(id) => c.mode == Transition && id in c.tokens && d == c.(tokens := c.tokens - {id})
    case ModeOperation(mode) => mode != c.mode && KnownMode(mode) && d == c.(mode := mode)
  }

  /** The pending document enrols exactly one identity that is new in every respect. */
  ghost predicate EnrolsOne(c: Document, d: Document, id: string) {
    && id !in c.tokens && id !in c.enrollments
    && id in d.tokens && id in d.enrollments
    && d == Enrolled(c, id, d.enrollments[id].request, d.tokens[id])
    && !RequestTaken(c, d.enrollments[id].request)
  }

  /** Reloading the file gives the credentials in memory, or it holds exactly the pending document. */
  ghost predicate FileAgrees(w: World, wire: Wire) {
    || Load(w.file, wire(w.file)) == Some(w.manager.credential)
    || PendingDocument(w.manager) == Some(w.file)
  }

  ghost predicate Inv(w: World, wire: Wire) {
    var m := w.manager;
    && Canonical(m.credential)
    && (m.pendingEnrollment.None? || m.pendingMutation.None?)
    && (m.pendingMutation.Some? ==>
          && Regenerates(m.credential, m.pendingMutation.value)
          && ValidDocument(m.pendingMutation.value.document, wire(m.pendingMutation.value.document)))
    && (m.pendingEnrollment.Some? ==>
          && (exists id :: EnrolsOne(m.credential, m.pendingEnrollment.value, id))
          && ValidDocument(m.pendingEnrollment.value, wire(m.pendingEnrollment.value)))
    && FileAgrees(w, wire)
  }

  // ---------------------------------------------------------------- one event

  datatype Event = Served(request: Request, outcome: Outcome) | LateWrite(base: Document, payload: Document) | Restart

  /**
   * A late write is one that reaches the disk only after its error was reported, perhaps to a process that has been
   * restarted since; it lands only on the document it was prepared against.
   */
  ghost function After(w: World, e: Event, wire: Wire): World {
    match e
    case Served(q, o) => Serve(w, q, o, wire).0
    case LateWrite(base, payload) => if w.file == base then w.(file := payload) else w
    case Restart =>
      var loaded := Load(w.file, wire(w.file));
      if loaded.Some? then w.(manager := Manager(loaded.value, None, None)) else w
  }

  /** A late write is in time if it changes nothing, or brings the document the manager still holds as pending. */
  predicate InTime(w: World, e: Event) {
    e.LateWrite? ==> w.file != e.base || w.file == e.payload || PendingDocument(w.manager) == Some(e.payload)
  }

  lemma WriteKeepsInv(w: World, d: Document, op: Operation, o: Outcome, wire: Wire)
    requires Inv(w, wire) && Canonical(d) && Regenerates(w.manager.credential, Pending(d, op))
    ensures Inv(Write(w, d, op, o, wire).0, wire)
  {
    if ValidDocument(d, wire(d)) {
      PublishedDocumentReloads(d, wire(d));
    }
  }

  /** The pending enrolment, once on disk, is what a restarted manager reads. */
  lemma PendingEnrollmentReloads(w: World, wire: Wire)
    requires Inv(w, wire) && w.manager.pendingEnrollment.Some?
    ensures var d := w.manager.pendingEnrollment.value;
            d == Adopted(w.manager.credential, d) && Canonical(d) && Load(d, wire(d)) == Some(d)
  {
    var d := w.manager.pendingEnrollment.value;
    PublishedDocumentReloads(d, wire(d));
  }

  /** Confirming a publication leaves nothing pending and the file equal to memory. */
  lemma SettledKeepsInv(d: Document, wire: Wire)
    requires Canonical(d) && ValidDocument(d, wire(d))
    ensures Inv(World(Manager(d, None, None), d), wire)
  {
    PublishedDocumentReloads(d, wire(d));
  }

  /** The world in which CreateAgentToken decides: a pending enrolment has been adopted. */
  function Resumed(w: World): World {
    if w.manager.pendingEnrollment.None? then w
    else World(Manager(Adopted(w.manager.credential, w.manager.pendingEnrollment.value), None, None), w.manager.pendingEnrollment.value)
  }

  lemma ResumedKeepsInv(w: World, wire: Wire)
    requires Inv(w, wire)
    ensures Inv(Resumed(w), wire)
  {
    if w.manager.pendingEnrollment.Some? {
      PendingEnrollmentReloads(w, wire);
      SettledKeepsInv(w.manager.pendingEnrollment.value, wire);
    }
  }

  lemma CreateEarlyOutcome(w: World, id: string, request: string, o: Outcome)
    ensures var r := CreateEarly(w, id, request, o);
            && r.0.manager in {w.manager, Resumed(w).manager}
            && (r.0 == w || r.0 == Resumed(w)
                || (w.manager.pendingEnrollment.Some? && r.0 == w.(file := w.manager.pendingEnrollment.value)))
            && (r.1.None? ==>
                  && r.0 == w && PendingDocument(w.manager).None?
                  && id !in r.0.manager.credential.tokens && id !in r.0.manager.credential.enrollments
                  && !RequestTaken(r.0.manager.credential, Sha256(request)))
  {
  }

  lemma CreateEarlyKeepsInv(w: World, id: string, request: string, o: Outcome, wire: Wire)
    requires Inv(w, wire)
    ensures Inv(CreateEarly(w, id, request, o).0, wire)
  {
    CreateEarlyOutcome(w, id, request, o);
    ResumedKeepsInv(w, wire);
  }

  lemma CreateLateKeepsInv(w: World, id: string, request: string, minted: string, o: Outcome, wire: Wire)
    requires Inv(w, wire) && PendingDocument(w.manager).None?
    requires id !in w.manager.credential.tokens && id !in w.manager.credential.enrollments
    requires !RequestTaken(w.manager.credential, Sha256(request))
    ensures Inv(CreateLate(w, id, request, minted, o, wire).0, wire)
  {
    var d := Enrolled(w.manager.credential, id, Sha256(request), minted);
    if ValidDocument(d, wire(d)) {
      PublishedDocumentReloads(d, wire(d));
      assert EnrolsOne(w.manager.credential, d, id);
    }
  }

  /** What a request other than an enrolment tries to publish. */
  function Candidate(m: Manager, q: Request): Pending
    requires !q.CreateToken?
  {
    var c := m.credential;
    match q
    case ChangePassword(current, next, salt) =>
      Pending(c.(salt := UsedSalt(m, salt), passwordHash := Scrypt(next, UsedSalt(m, salt))), PasswordOperation)
    case IssueToken(id, minted) => Pending(c.(tokens := c.tokens[id := IssuedToken(m, id, minted)]), IssueOperation(id))
    case RevokeToken(id) => Pending(c.(tokens := c.tokens[id := ""]), RevokeOperation(id))
    case UnenrollToken(id) => Pending(c.(tokens := c.tokens - {id}), UnenrollOperation(id))
    case ChangeMode(mode) => Pending(c.(mode := mode), ModeOperation(mode))
  }

  /** The checks a mutation makes before it tries to publish. */
  predicate Admissible(m: Manager, q: Request)
    requires !q.CreateToken?
  {
    var c := m.credential;
    match q
    case ChangePassword(current, next, salt) => ValidPassword(next) && PasswordMatches(c, current)
    case IssueToken(id, minted) => ValidAgentId(id) && (id in c.tokens || |c.tokens| < MAX_AGENT_CREDENTIALS)
    case RevokeToken(id) => ValidAgentId(id)
    case UnenrollToken(id) => ValidAgentId(id) && c.mode == Transition && id in c.tokens
    case ChangeMode(mode) => KnownMode(mode) && c.mode != mode && m.pendingEnrollment.None?
  }

  /** Every mutation either leaves the world alone or tries to publish its candidate. */
  lemma MutationOutcome(w: World, q: Request, o: Outcome, wire: Wire)
    requires !q.CreateToken?
    ensures var p := Candidate(w.manager, q); var r := Serve(w, q, o, wire);
            || (r.0 == w && (r.1.Failed? || (r.1 == Done(false) && q.ChangeMode?)))
            || (Admissible(w.manager, q) && r == Written(Write(w, p.document, p.operation, o, wire), r.1))
  {
  }

  lemma CandidateRegenerates(m: Manager, q: Request)
    requires !q.CreateToken? && Admissible(m, q)
    ensures Regenerates(m.credential, Candidate(m, q))
    ensures Canonical(m.credential) ==> Canonical(Candidate(m, q).document)
  {
    if q.IssueToken? {
      assert Candidate(m, q).document.tokens[q.id] == IssuedToken(m, q.id, q.minted);
    }
  }

  lemma ServeCreateKeepsInv(w: World, id: string, request: string, admitted: bool, minted: string, o: Outcome, wire: Wire)
    requires Inv(w, wire)
    ensures Inv(ServeCreate(w, id, request, admitted, minted, o, wire).0, wire)
  {
    CreateEarlyKeepsInv(w, id, request, o, wire);
    CreateEarlyOutcome(w, id, request, o);
    var early := CreateEarly(w, id, request, o);
    if early.1.None? && admitted {
      CreateLateKeepsInv(early.0, id, request, minted, o, wire);
    }
  }

  lemma ServeKeepsInv(w: World, q: Request, o: Outcome, wire: Wire)
    requires Inv(w, wire)
    ensures Inv(Serve(w, q, o, wire).0, wire)
  {
    if q.CreateToken? {
      ServeCreateKeepsInv(w, q.id, q.request, q.admitted, q.minted, o, wire);
    } else {
      MutationOutcome(w, q, o, wire);
      if Admissible(w.manager, q) {
        CandidateRegenerates(w.manager, q);
        var p := Candidate(w.manager, q);
        WriteKeepsInv(w, p.document, p.operation, o, wire);
      }
    }
  }

  /** A pending document, of either kind, reloads as itself; so a reachable file always loads. */
  lemma FileLoads(w: World, wire: Wire)
    requires Inv(w, wire)
    ensures var loaded := Load(w.file, wire(w.file));
            && loaded.Some?
            && (loaded.value == w.manager.credential || Some(loaded.value) == PendingDocument(w.manager))
  {
    if PendingDocument(w.manager) == Some(w.file) {
      if w.manager.pendingEnrollment.Some? {
        PendingEnrollmentReloads(w, wire);
      } else {
        PublishedDocumentReloads(w.file, wire(w.file));
      }
    }
  }

  lemma AfterKeepsInv(w: World, e: Event, wire: Wire)
    requires Inv(w, wire) && InTime(w, e)
    ensures Inv(After(w, e, wire), wire)
  {
    match e
    case Served(q, o) => ServeKeepsInv(w, q, o, wire);
    case LateWrite(_, _) =>
    case Restart =>
      FileLoads(w, wire);
      LoadIsCanonical(w.file, wire(w.file));
  }

  // ---------------------------------------------------------------- whole runs

  ghost predicate IsRun(ws: seq<World>, es: seq<Event>, wire: Wire) {
    && |ws| == |es| + 1
    && (forall i {:trigger es[i]} | 0 <= i < |es| :: ws[i + 1] == After(ws[i], es[i], wire))
  }

  /** A run in which every write that lands late is in time. The theorems over runs are about these. */
  ghost predicate IsTimelyRun(ws: seq<World>, es: seq<Event>, wire: Wire) {
    IsRun(ws, es, wire) && forall i {:trigger es[i]} | 0 <= i < |es| :: InTime(ws[i], es[i])
  }

  /** A manager just built from an acceptable file. */
  ghost predicate Booted(w: World, wire: Wire) {
    && Load(w.file, wire(w.file)) == Some(w.manager.credential)
    && w.manager.pendingEnrollment.None? && w.manager.pendingMutation.None?
  }

  lemma {:induction false} RunKeepsInv(ws: seq<World>, es: seq<Event>, wire: Wire, i: nat)
    requires IsTimelyRun(ws, es, wire) && Booted(ws[0], wire) && i < |ws|
    ensures Inv(ws[i], wire)
  {
    if i == 0 {
      LoadIsCanonical(ws[0].file, wire(ws[0].file));
    } else {
      RunKeepsInv(ws, es, wire, i - 1);
      AfterKeepsInv(ws[i - 1], es[i - 1], wire);
    }
  }

  /** At every point of every run a restart would succeed, and read the memory's credentials or the one pending document. */
  lemma RestartReadsMemoryOrPending(ws: seq<World>, es: seq<Event>, wire: Wire, i: nat)
    requires IsTimelyRun(ws, es, wire) && Booted(ws[0], wire) && i < |ws|
    ensures ws[i].manager.pendingEnrollment.None? || ws[i].manager.pendingMutation.None?
    ensures var restarted := After(ws[i], Restart, wire).manager;
            && PendingDocument(restarted).None?
            && (restarted.credential == ws[i].manager.credential || Some(restarted.credential) == PendingDocument(ws[i].manager))
  {
    RunKeepsInv(ws, es, wire, i);
    FileLoads(ws[i], wire);
  }

  // ---------------------------------------------------------------- a lost publication never wedges the manager

  /** The request repeats the operation whose publication is unconfirmed. */
  ghost predicate RetryOf(m: Manager, q: Request) {
    if m.pendingEnrollment.Some? then
      && q.CreateToken? && ValidEnrollmentRequest(q.id, q.request)
      && q.id !in m.credential.enrollments && EnrolledWith(m.pendingEnrollment.value, q.id, Sha256(q.request))
      && TokenIn(m.pendingEnrollment.value, q.id) != ""
    else if m.pendingMutation.Some? then
      var d := m.pendingMutation.value.document;
      match m.pendingMutation.value.operation
      case PasswordOperation => q.ChangePassword? && PasswordMatches(m.credential, q.current) && ValidPassword(q.next) && q.next == d.passwordHash.password
      case IssueOperation(id) => q.IssueToken? && q.id == id && ValidAgentId(id)
      case RevokeOperation(id) => q.RevokeToken? && q.id == id && ValidAgentId(id)
      case UnenrollOperation(id) => q.UnenrollToken? && q.id == id && ValidAgentId(id)
      case ModeOperation(mode) => q.ChangeMode? && q.mode == mode
    else false
  }

  lemma MutationLeavesItsRetry(w: World, q: Request, o: Outcome, wire: Wire)
    requires PendingDocument(w.manager).None? && !q.CreateToken?
    requires PendingDocument(Serve(w, q, o, wire).0.manager).Some?
    ensures Serve(w, q, o, wire).0.manager == w.manager.(pendingMutation := Some(Candidate(w.manager, q)))
    ensures RetryOf(Serve(w, q, o, wire).0.manager, q)
  {
    MutationOutcome(w, q, o, wire);
  }

  lemma CreateLeavesItsRetry(w: World, id: string, request: string, admitted: bool, minted: string, o: Outcome, wire: Wire)
    requires PendingDocument(w.manager).None? && minted != ""
    requires PendingDocument(ServeCreate(w, id, request, admitted, minted, o, wire).0.manager).Some?
    ensures RetryOf(ServeCreate(w, id, request, admitted, minted, o, wire).0.manager, CreateToken(id, request, admitted, minted))
  {
    CreateEarlyOutcome(w, id, request, o);
  }

  /** Repeating the original operation regenerates the pending document exactly, so a confirmed retry publishes it. */
  lemma RetryRegenerates(w: World, q: Request, wire: Wire)
    requires Inv(w, wire) && RetryOf(w.manager, q)
    ensures var r := Serve(w, q, Confirmed, wire); var d := PendingDocument(w.manager).value;
            r.0 == World(Manager(d, None, None), d) && !r.1.Failed?
  {
    if w.manager.pendingEnrollment.Some? {
      PendingEnrollmentReloads(w, wire);
      RetriedEnrollmentIsHonoured(w, q, wire);
    } else {
      RetriedCandidate(w, q, wire);
    }
  }

  lemma RetryRebuildsCandidate(m: Manager, q: Request)
    requires m.pendingEnrollment.None? && RetryOf(m, q) && Regenerates(m.credential, m.pendingMutation.value)
    ensures !q.CreateToken? && Candidate(m, q) == m.pendingMutation.value && Admissible(m, q)
  {
    if q.IssueToken? {
      var d := m.pendingMutation.value.document;
      assert IssuedToken(m, q.id, q.minted) == d.tokens[q.id];
    }
  }

  lemma RetriedCandidate(w: World, q: Request, wire: Wire)
    requires Inv(w, wire) && RetryOf(w.manager, q) && w.manager.pendingEnrollment.None?
    ensures var d := w.manager.pendingMutation.value.document; var r := Serve(w, q, Confirmed, wire);
            r.0 == World(Manager(d, None, None), d) && !r.1.Failed?
  {
    RetryRebuildsCandidate(w.manager, q);
  }

  lemma RetriedEnrollmentIsHonoured(w: World, q: Request, wire: Wire)
    requires Inv(w, wire) && RetryOf(w.manager, q) && w.manager.pendingEnrollment.Some?
    ensures var d := w.manager.pendingEnrollment.value;
            Serve(w, q, Confirmed, wire) == (World(Manager(d, None, None), d), Token(TokenIn(d, q.id)))
  {
    PendingEnrollmentReloads(w, wire);
    var d := w.manager.pendingEnrollment.value;
    var id :| EnrolsOne(w.manager.credential, d, id);
    assert id == q.id;
  }

  lemma PendingAdmitsOnlyItsWrite(w: World, q: Request, o: Outcome, wire: Wire)
    requires PendingDocument(w.manager).Some? && !q.CreateToken?
    ensures var after := Serve(w, q, o, wire).0.manager;
            after == w.manager || after == Manager(PendingDocument(w.manager).value, None, None)
  {
    MutationOutcome(w, q, o, wire);
  }

  /** While something is pending, an event other than a restart changes nothing in memory or publishes exactly it. */
  lemma PendingAdmitsOnlyItself(w: World, e: Event, wire: Wire)
    requires Inv(w, wire) && PendingDocument(w.manager).Some? && !e.Restart?
    ensures var after := After(w, e, wire).manager;
            after == w.manager || after == Manager(PendingDocument(w.manager).value, None, None)
  {
    if e.Served? && e.request.CreateToken? {
      CreateEarlyOutcome(w, e.request.id, e.request.request, e.outcome);
      if w.manager.pendingEnrollment.Some? {
        PendingEnrollmentReloads(w, wire);
      }
    } else if e.Served? {
      PendingAdmitsOnlyItsWrite(w, e.request, e.outcome, wire);
    }
  }

  lemma RequestLeavesItsRetry(w: World, q: Request, o: Outcome, wire: Wire)
    requires PendingDocument(w.manager).None? && (q.CreateToken? ==> q.minted != "")
    requires PendingDocument(Serve(w, q, o, wire).0.manager).Some?
    ensures RetryOf(Serve(w, q, o, wire).0.manager, q)
  {
    if q.CreateToken? {
      CreateLeavesItsRetry(w, q.id, q.request, q.admitted, q.minted, o, wire);
    } else {
      MutationLeavesItsRetry(w, q, o, wire);
    }
  }

  /**
   * The manager never wedges: whatever else is asked of it while a publication is unconfirmed, it stays pending
   * unchanged until it is settled, and repeating the request that left it, confirmed, settles it.
   */
  lemma {:induction false} UnconfirmedPublicationCanBeRetried(ws: seq<World>, es: seq<Event>, wire: Wire, i: nat, j: nat)
    requires IsTimelyRun(ws, es, wire) && Booted(ws[0], wire) && i < j < |ws|
    requires es[i].Served? && (es[i].request.CreateToken? ==> es[i].request.minted != "")
    requires PendingDocument(ws[i].manager).None?
    requires forall k | i < k <= j :: PendingDocument(ws[k].manager).Some?
    ensures ws[j].manager == ws[i + 1].manager
    ensures var d := PendingDocument(ws[i + 1].manager).value;
            var r := Serve(ws[j], es[i].request, Confirmed, wire);
            r.0 == World(Manager(d, None, None), d) && !r.1.Failed?
  {
    hide Inv, RetryOf, Serve, PendingDocument, Booted;
    StaysPending(ws, es, wire, i + 1, j);
    assert ws[i + 1].manager == Serve(ws[i], es[i].request, es[i].outcome, wire).0.manager;
    RequestLeavesItsRetry(ws[i], es[i].request, es[i].outcome, wire);
    RunKeepsInv(ws, es, wire, j);
    RetryRegenerates(ws[j], es[i].request, wire);
  }

  lemma PendingStaysUnlessSettled(w: World, e: Event, wire: Wire)
    requires Inv(w, wire) && PendingDocument(w.manager).Some? && PendingDocument(After(w, e, wire).manager).Some?
    ensures After(w, e, wire).manager == w.manager
  {
    if e.Restart? {
      FileLoads(w, wire);
    } else {
      PendingAdmitsOnlyItself(w, e, wire);
    }
  }

  lemma {:induction false} StaysPending(ws: seq<World>, es: seq<Event>, wire: Wire, i: nat, j: nat)
    requires IsTimelyRun(ws, es, wire) && Booted(ws[0], wire) && i <= j < |ws|
    requires forall k | i <= k <= j :: PendingDocument(ws[k].manager).Some?
    ensures ws[j].manager == ws[i].manager
  {
    hide Inv, After, PendingDocument, Booted;
    if i < j {
      StaysPending(ws, es, wire, i, j - 1);
      assert ws[j] == After(ws[j - 1], es[j - 1], wire) && PendingDocument(ws[j - 1].manager).Some?;
      RunKeepsInv(ws, es, wire, j - 1);
      PendingStaysUnlessSettled(ws[j - 1], es[j - 1], wire);
    }
  }

  // ---------------------------------------------------------------- enrolments

  /** Enrolment records are kept as they are; new ones may appear. */
  ghost predicate Grows(c: Document, d: Document) {
    forall id | id in c.enrollments :: id in d.enrollments && d.enrollments[id] == c.enrollments[id]
  }

  lemma PendingGrows(w: World, wire: Wire)
    requires Inv(w, wire) && PendingDocument(w.manager).Some?
    ensures Grows(w.manager.credential, PendingDocument(w.manager).value)
  {
    hide Load;
  }

  /** A request that enrols an identity which is new to the credentials in memory. */
  predicate EnrolsNew(c: Document, e: Event) {
    e.Served? && e.request.CreateToken? && e.request.id !in c.enrollments && e.request.id !in c.tokens
  }

  function EnrolledBy(c: Document, q: Request): Document
    requires q.CreateToken?
  {
    Enrolled(c, q.id, Sha256(q.request), q.minted)
  }

  predicate IsMutation(m: Manager, e: Event) {
    e.Served? && !e.request.CreateToken? && Admissible(m, e.request)
  }

  lemma ManagerAfterCreate(w: World, q: Request, o: Outcome, wire: Wire)
    requires Inv(w, wire) && q.CreateToken?
    ensures var m, n := w.manager, Serve(w, q, o, wire).0.manager;
            || n == m
            || (PendingDocument(m).Some? && n == Manager(PendingDocument(m).value, None, None))
            || (PendingDocument(m).None? && EnrolsNew(m.credential, Served(q, o))
                && (n == Manager(EnrolledBy(m.credential, q), None, None) || n == m.(pendingEnrollment := Some(EnrolledBy(m.credential, q)))))
  {
    hide Load, ValidDocument;
    CreateEarlyOutcome(w, q.id, q.request, o);
    if w.manager.pendingEnrollment.Some? {
      PendingEnrollmentReloads(w, wire);
    }
  }

  /** The manager after an event: as before, settled on one document, or holding one unconfirmed publication. */
  lemma ManagerAfter(w: World, e: Event, wire: Wire)
    requires Inv(w, wire)
    ensures var m, n := w.manager, After(w, e, wire).manager; var c := m.credential;
            || n == m
            || n == Manager(c, None, None)
            || (PendingDocument(m).Some? && n == Manager(PendingDocument(m).value, None, None))
            || (IsMutation(m, e) && n == Manager(Candidate(m, e.request).document, None, None))
            || (IsMutation(m, e) && n == m.(pendingMutation := Some(Candidate(m, e.request))))
            || (PendingDocument(m).None? && EnrolsNew(c, e) && n == Manager(EnrolledBy(c, e.request), None, None))
            || (PendingDocument(m).None? && EnrolsNew(c, e) && n == m.(pendingEnrollment := Some(EnrolledBy(c, e.request))))
  {
    hide Load;
    match e
    case Served(q, o) =>
      if q.CreateToken? {
        ManagerAfterCreate(w, q, o, wire);
      } else {
        MutationOutcome(w, q, o, wire);
      }
    case LateWrite(_, _) =>
    case Restart => FileLoads(w, wire);
  }

  lemma EnrollmentsGrow(w: World, e: Event, wire: Wire)
    requires Inv(w, wire)
    ensures Grows(w.manager.credential, After(w, e, wire).manager.credential)
  {
    hide Load, After;
    ManagerAfter(w, e, wire);
    if PendingDocument(w.manager).Some? {
      PendingGrows(w, wire);
    }
  }

  /** Enrolment records only ever grow along a run, restarts included. */
  lemma {:induction false} EnrollmentsGrowAlongRuns(ws: seq<World>, es: seq<Event>, wire: Wire, i: nat, j: nat)
    requires IsTimelyRun(ws, es, wire) && Booted(ws[0], wire) && i <= j < |ws|
    ensures Grows(ws[i].manager.credential, ws[j].manager.credential)
  {
    hide Inv, After, Booted;
    if i < j {
      EnrollmentsGrowAlongRuns(ws, es, wire, i, j - 1);
      RunKeepsInv(ws, es, wire, j - 1);
      EnrollmentsGrow(ws[j - 1], es[j - 1], wire);
    }
  }

  /** No request serves two identities, in memory or on disk. */
  lemma RequestsServeOneIdentity(w: World, wire: Wire)
    requires Inv(w, wire)
    ensures ValidEnrollments(w.manager.credential.enrollments) && ValidEnrollments(w.file.enrollments)
  {
    if PendingDocument(w.manager) == Some(w.file) {
      PendingGrows(w, wire);
      hide Inv, Regenerates, EnrolsOne, Load;
      SubsetCardinality(w.manager.credential.enrollments.Keys, w.file.enrollments.Keys);
    }
  }

  lemma SubsetCardinality<T>(a: set<T>, b: set<T>)
    requires a <= b
    ensures |a| <= |b|
  {
    assert b == a + (b - a);
  }

  /** A create that succeeds returns the token its enrolment record was made for. */
  lemma SuccessfulCreate(w: World, q: Request, o: Outcome, wire: Wire)
    requires Inv(w, wire) && q.CreateToken? && Serve(w, q, o, wire).1.Token?
    ensures var c := Serve(w, q, o, wire).0.manager.credential;
            q.id in c.enrollments && c.enrollments[q.id] == Enrollment(Sha256(q.request), Sha256(Serve(w, q, o, wire).1.token))
  {
    hide Load, ValidDocument;
    CreateEarlyOutcome(w, q.id, q.request, o);
  }

  /** All successful creates of one identity, at any two points of a run, return the same token for the same request. */
  lemma CreatesAgree(ws: seq<World>, es: seq<Event>, wire: Wire, i: nat, j: nat)
    requires IsTimelyRun(ws, es, wire) && Booted(ws[0], wire) && i <= j < |es|
    requires es[i].Served? && es[i].request.CreateToken? && es[j].Served? && es[j].request.CreateToken?
    requires es[i].request.id == es[j].request.id
    requires Serve(ws[i], es[i].request, es[i].outcome, wire).1.Token? && Serve(ws[j], es[j].request, es[j].outcome, wire).1.Token?
    ensures Serve(ws[i], es[i].request, es[i].outcome, wire).1 == Serve(ws[j], es[j].request, es[j].outcome, wire).1
    ensures es[i].request.request == es[j].request.request
  {
    RunKeepsInv(ws, es, wire, i);
    RunKeepsInv(ws, es, wire, j);
    SuccessfulCreate(ws[i], es[i].request, es[i].outcome, wire);
    SuccessfulCreate(ws[j], es[j].request, es[j].outcome, wire);
    EnrollmentsGrowAlongRuns(ws, es, wire, i + 1, j + 1);
  }

  // ---------------------------------------------------------------- a retired identity stays retired

  /** The token an identity was enrolled with has since been rotated, revoked or removed. */
  predicate Retired(c: Document, id: string) {
    id in c.enrollments && (TokenIn(c, id) == "" || Sha256(TokenIn(c, id)) != c.enrollments[id].token)
  }

  ghost predicate EnrolledFrom(c: Document, used: set<string>) {
    forall id | id in c.enrollments :: c.enrollments[id].token.preimage in used
  }

  /** Every enrolment is for a token minted before, and a pending rotation is to a different one. */
  ghost predicate HistoryInv(m: Manager, used: set<string>) {
    && EnrolledFrom(m.credential, used)
    && (PendingDocument(m).Some? ==> EnrolledFrom(PendingDocument(m).value, used))
    && (m.pendingMutation.Some? && m.pendingMutation.value.operation.IssueOperation? ==>
          var id := m.pendingMutation.value.operation.id;
          id in m.credential.enrollments ==> m.credential.enrollments[id].token != Sha256(TokenIn(m.pendingMutation.value.document, id)))
  }

  /** Random tokens an event may mint. */
  function Minted(e: Event): set<string> {
    if e.Served? && (e.request.IssueToken? || e.request.CreateToken?) then {e.request.minted} else {}
  }

  function UsedBefore(es: seq<Event>, initial: set<string>): set<string> {
    if es == [] then initial else UsedBefore(es[..|es| - 1], initial) + Minted(es[|es| - 1])
  }

  /** Random tokens never repeat: the assumption the rest of this section rests on. */
  ghost predicate MintsFresh(es: seq<Event>, initial: set<string>) {
    forall i {:trigger es[i]} | 0 <= i < |es| :: Minted(es[i]) !! UsedBefore(es[..i], initial)
  }

  lemma CandidateKeepsHistory(m: Manager, q: Request, used: set<string>)
    requires !q.CreateToken? && Admissible(m, q) && HistoryInv(m, used) && (q.IssueToken? ==> q.minted !in used)
    requires m.pendingEnrollment.None? && (m.pendingMutation.Some? ==> Candidate(m, q) == m.pendingMutation.value)
    ensures HistoryInv(m.(pendingMutation := Some(Candidate(m, q))), used)
    ensures HistoryInv(Manager(Candidate(m, q).document, None, None), used)
    ensures forall id | Retired(m.credential, id) :: Retired(Candidate(m, q).document, id)
  {
  }

  lemma MutationSettlesPending(w: World, q: Request, o: Outcome, wire: Wire)
    requires !q.CreateToken? && Serve(w, q, o, wire).0.manager != w.manager
    ensures w.manager.pendingEnrollment.None?
    ensures w.manager.pendingMutation.Some? ==> Candidate(w.manager, q) == w.manager.pendingMutation.value
  {
    MutationOutcome(w, q, o, wire);
  }

  lemma PendingKeepsRetired(w: World, wire: Wire, used: set<string>)
    requires Inv(w, wire) && HistoryInv(w.manager, used) && PendingDocument(w.manager).Some?
    ensures forall id | Retired(w.manager.credential, id) :: Retired(PendingDocument(w.manager).value, id)
  {
    hide Load, ValidDocument;
  }

  lemma HistoryAfter(w: World, e: Event, wire: Wire, used: set<string>)
    requires Inv(w, wire) && HistoryInv(w.manager, used) && Minted(e) !! used
    ensures HistoryInv(After(w, e, wire).manager, used + Minted(e))
    ensures forall id | Retired(w.manager.credential, id) :: Retired(After(w, e, wire).manager.credential, id)
  {
    hide Load, ValidDocument, After;
    ManagerAfter(w, e, wire);
    var m, n := w.manager, After(w, e, wire).manager;
    if PendingDocument(m).Some? {
      PendingKeepsRetired(w, wire, used);
    }
    if IsMutation(m, e) && n != m {
      assert n == Serve(w, e.request, e.outcome, wire).0.manager by { AfterServed(w, e, wire); }
      MutationSettlesPending(w, e.request, e.outcome, wire);
      CandidateKeepsHistory(m, e.request, used);
    }
    HistoryWidens(n, used, used + Minted(e));
  }

  lemma AfterServed(w: World, e: Event, wire: Wire)
    requires e.Served?
    ensures After(w, e, wire) == Serve(w, e.request, e.outcome, wire).0
  {
  }

  lemma HistoryWidens(m: Manager, used: set<string>, more: set<string>)
    requires used <= more
    ensures HistoryInv(m, used) ==> HistoryInv(m, more)
  {
  }

  lemma {:induction false} HistoryAlongRuns(ws: seq<World>, es: seq<Event>, wire: Wire, initial: set<string>, i: nat)
    requires IsTimelyRun(ws, es, wire) && Booted(ws[0], wire) && i < |ws|
    requires MintsFresh(es, initial) && EnrolledFrom(ws[0].manager.credential, initial)
    ensures HistoryInv(ws[i].manager, UsedBefore(es[..i], initial))
  {
    hide Inv, After, Load;
    if i > 0 {
      HistoryAlongRuns(ws, es, wire, initial, i - 1);
      RunKeepsInv(ws, es, wire, i - 1);
      HistoryAfter(ws[i - 1], es[i - 1], wire, UsedBefore(es[..i - 1], initial));
      assert es[..i][..i - 1] == es[..i - 1];
    }
  }

  lemma {:induction false} RetiredStays(ws: seq<World>, es: seq<Event>, wire: Wire, initial: set<string>, i: nat, j: nat, id: string)
    requires IsTimelyRun(ws, es, wire) && Booted(ws[0], wire) && i <= j < |ws|
    requires MintsFresh(es, initial) && EnrolledFrom(ws[0].manager.credential, initial)
    requires Retired(ws[i].manager.credential, id)
    ensures Retired(ws[j].manager.credential, id)
  {
    hide Inv, After, Booted;
    if i < j {
      RetiredStays(ws, es, wire, initial, i, j - 1, id);
      RunKeepsInv(ws, es, wire, j - 1);
      HistoryAlongRuns(ws, es, wire, initial, j - 1);
      HistoryAfter(ws[j - 1], es[j - 1], wire, UsedBefore(es[..j - 1], initial));
    }
  }

  lemma RetiredRefusesCreate(w: World, q: Request, o: Outcome, wire: Wire)
    requires Inv(w, wire) && q.CreateToken? && Retired(w.manager.credential, q.id)
    ensures Serve(w, q, o, wire).1.Failed?
  {
    hide Load, ValidDocument;
    CreateEarlyOutcome(w, q.id, q.request, o);
    if w.manager.pendingEnrollment.Some? {
      PendingEnrollmentReloads(w, wire);
    }
  }

  /** A successful rotation, revocation or unenrolment of an enrolled identity retires it. */
  lemma RetirementRetires(w: World, q: Request, o: Outcome, wire: Wire, used: set<string>)
    requires Inv(w, wire) && HistoryInv(w.manager, used) && Minted(Served(q, o)) !! used
    requires q.IssueToken? || q.RevokeToken? || q.UnenrollToken?
    requires q.id in w.manager.credential.enrollments && !Serve(w, q, o, wire).1.Failed?
    ensures Retired(Serve(w, q, o, wire).0.manager.credential, q.id)
  {
    hide Load, ValidDocument;
    MutationOutcome(w, q, o, wire);
  }

  /** Once retired, no create of that identity ever succeeds again, whatever happens and however often the process restarts. */
  lemma RetiredForever(ws: seq<World>, es: seq<Event>, wire: Wire, initial: set<string>, i: nat, j: nat)
    requires IsTimelyRun(ws, es, wire) && Booted(ws[0], wire) && i <= j < |es|
    requires MintsFresh(es, initial) && EnrolledFrom(ws[0].manager.credential, initial)
    requires es[j].Served? && es[j].request.CreateToken? && Retired(ws[i].manager.credential, es[j].request.id)
    ensures Serve(ws[j], es[j].request, es[j].outcome, wire).1.Failed?
  {
    hide Inv, After, Booted, Serve;
    RetiredStays(ws, es, wire, initial, i, j, es[j].request.id);
    RunKeepsInv(ws, es, wire, j);
    RetiredRefusesCreate(ws[j], es[j].request, es[j].outcome, wire);
  }

  // ---------------------------------------------------------------- lost confirmations and late writes

  /** A late write keeps file and manager in agreement if and only if it is in time, or brings what memory holds anyway. */
  lemma LateWriteIsSafeIff(w: World, base: Document, payload: Document, wire: Wire)
    requires Inv(w, wire)
    ensures Inv(After(w, LateWrite(base, payload), wire), wire) <==>
              InTime(w, LateWrite(base, payload)) || Load(payload, wire(payload)) == Some(w.manager.credential)
  {
    hide Load, ValidDocument;
  }

  /** The credential document of a small installation, before and after a change of mode. */
  const SAMPLE := Document(1, "admin", "sixteen bytes ok", Scrypt("p", "sixteen bytes ok"), "", Transition, map[], map[])

  lemma SampleIsPublishable()
    ensures ValidDocument(SAMPLE, 1) && ValidDocument(SAMPLE.(mode := Scoped), 1)
    ensures Load(SAMPLE, 1) == Some(SAMPLE)
  {
    assert |SAMPLE.salt| == 16 && Trimmed(SAMPLE.username) && Trimmed(SAMPLE.agentToken);
    TrimFixesTrimmed(SAMPLE.username);
    PublishedDocumentReloads(SAMPLE, 1);
  }

  /** The uncertainty is real: a run exists in which a confirmation is lost, and memory and file disagree. */
  lemma ConfirmationsGetLost()
    ensures exists ws: seq<World>, es: seq<Event>, wire: Wire ::
              && IsTimelyRun(ws, es, wire) && Booted(ws[0], wire) && |ws| == 2
              && PendingDocument(ws[1].manager) == Some(ws[1].file) && ws[1].file != ws[1].manager.credential
  {
    var d, n := SAMPLE, SAMPLE.(mode := Scoped);
    var wire: Wire := _ => 1;
    SampleIsPublishable();
    hide ValidDocument, Load;
    var w := World(Manager(d, None, None), d);
    var e := Served(ChangeMode(Scoped), LostAfterWrite);
    var v := World(Manager(d, None, Some(Pending(n, ModeOperation(Scoped)))), n);
    assert After(w, e, wire) == v;
    var ws, es := [w, v], [e];
    assert IsTimelyRun(ws, es, wire) && Booted(ws[0], wire) && ws[1] == v;
  }

  /** Something is left pending, the process restarts, and then exactly that write lands. */
  ghost predicate LandsAfterRestart(ws: seq<World>, es: seq<Event>, wire: Wire) {
    && IsRun(ws, es, wire) && Booted(ws[0], wire) && |es| == 3
    && es[0].Served? && es[1].Restart? && PendingDocument(ws[1].manager).Some?
    && es[2] == LateWrite(ws[0].file, PendingDocument(ws[1].manager).value)
  }

  /** A write can outlive a restart: the new process holds the old credentials, nothing is pending, and the file differs. */
  lemma WriteOutlivesRestart()
    ensures exists ws: seq<World>, es: seq<Event>, wire: Wire ::
              && LandsAfterRestart(ws, es, wire)
              && PendingDocument(ws[3].manager).None? && ws[3].file != ws[3].manager.credential && !Inv(ws[3], wire)
  {
    var d, n := SAMPLE, SAMPLE.(mode := Scoped);
    var wire: Wire := _ => 1;
    SampleIsPublishable();
    assert Load(n, 1).value.mode == Scoped by {
      PublishedDocumentReloads(n, 1);
    }
    hide ValidDocument, Load;
    var w := World(Manager(d, None, None), d);
    var e := Served(ChangeMode(Scoped), NotWritten);
    var v := World(Manager(d, None, Some(Pending(n, ModeOperation(Scoped)))), d);
    var x := World(Manager(d, None, None), n);
    assert After(w, e, wire) == v;
    assert After(v, Restart, wire) == w;
    assert After(w, LateWrite(d, n), wire) == x;
    assert !FileAgrees(x, wire);
    var ws, es := [w, v, w, x], [e, Restart, LateWrite(d, n)];
    assert IsRun(ws, es, wire) && Booted(ws[0], wire);
    assert LandsAfterRestart(ws, es, wire);
    assert !Inv(ws[3], wire);
  }

  // ---------------------------------------------------------------- which requests are granted

  /** The document a request asks for, where nothing is pending. */
  function Requested(c: Document, q: Request): Document {
    match q
    case ChangePassword(_, next, salt) => c.(salt := salt, passwordHash := Scrypt(next, salt))
    case IssueToken(id, minted) => c.(tokens := c.tokens[id := minted])
    case RevokeToken(id) => c.(tokens := c.tokens[id := ""])
    case UnenrollToken(id) => c.(tokens := c.tokens - {id})
    case ChangeMode(mode) => c.(mode := mode)
    case CreateToken(id, request, _, minted) =>
      c.(tokens := c.tokens[id := minted], enrollments := c.enrollments[id := Enrollment(Sha256(request), Sha256(minted))])
  }

  /** What the administrator must be entitled to, and what there must be room for. */
  ghost predicate Entitles(c: Document, q: Request) {
    match q
    case ChangePassword(current, next, _) => ValidPassword(next) && ValidPassword(current) && c.passwordHash == Scrypt(current, c.salt)
    case IssueToken(id, _) => ValidAgentId(id) && (id in c.tokens || |c.tokens| < MAX_AGENT_CREDENTIALS)
    case RevokeToken(id) => ValidAgentId(id)
    case UnenrollToken(id) => ValidAgentId(id) && c.mode == Transition && id in c.tokens
    case ChangeMode(mode) => KnownMode(mode)
    case CreateToken(id, request, admitted, _) =>
      && ValidEnrollmentRequest(id, request) && admitted && id !in c.tokens && id !in c.enrollments
      && (forall other | other in c.enrollments :: c.enrollments[other].request != Sha256(request))
      && |c.enrollments| < MAX_AGENT_CREDENTIALS && |c.tokens| < MAX_AGENT_CREDENTIALS
  }

  /**
   * Where nothing is pending and the write is confirmed, a request that asks for a change is granted if and only if the
   * administrator is entitled to it and the document it asks for may be published; that document is then in force, in
   * memory and on file.
   */
  lemma FreshRequestIsGrantedIff(w: World, q: Request, wire: Wire)
    requires PendingDocument(w.manager).None? && (q.CreateToken? ==> q.id !in w.manager.credential.enrollments)
    requires q != ChangeMode(w.manager.credential.mode)
    ensures var r, d := Serve(w, q, Confirmed, wire), Requested(w.manager.credential, q);
            && (!r.1.Failed? <==> Entitles(w.manager.credential, q) && ValidDocument(d, wire(d)))
            && (!r.1.Failed? ==> r.0 == World(Manager(d, None, None), d))
            && (r.1.Failed? ==> r.0 == w)
  {
    if q.CreateToken? {
      FreshCreateIsGrantedIff(w, q, wire);
    } else {
      FreshMutationIsGrantedIff(w, q, wire);
    }
  }

  lemma FreshMutationIsGrantedIff(w: World, q: Request, wire: Wire)
    requires PendingDocument(w.manager).None? && !q.CreateToken? && q != ChangeMode(w.manager.credential.mode)
    ensures var r, d := Serve(w, q, Confirmed, wire), Requested(w.manager.credential, q);
            && (!r.1.Failed? <==> Entitles(w.manager.credential, q) && ValidDocument(d, wire(d)))
            && (!r.1.Failed? ==> r.0 == World(Manager(d, None, None), d))
            && (r.1.Failed? ==> r.0 == w)
  {
    hide ValidDocument, ValidAgentId, ServeCreate;
  }

  lemma FreshCreateIsGrantedIff(w: World, q: Request, wire: Wire)
    requires PendingDocument(w.manager).None? && q.CreateToken? && q.id !in w.manager.credential.enrollments
    ensures var r, d := Serve(w, q, Confirmed, wire), Requested(w.manager.credential, q);
            && (!r.1.Failed? <==> Entitles(w.manager.credential, q) && ValidDocument(d, wire(d)))
            && (!r.1.Failed? ==> r.0 == World(Manager(d, None, None), d))
            && (r.1.Failed? ==> r.0 == w)
  {
    hide ValidDocument, ValidAgentId, ValidEnrollmentRequest;
    assert Enrolled(w.manager.credential, q.id, Sha256(q.request), q.minted) == Requested(w.manager.credential, q);
  }

  /** After a change of password the new one is accepted, and the old one only if it is the same. */
  lemma ChangedPasswordIsInForce(w: World, current: string, next: string, salt: string, wire: Wire, tried: string)
    requires Serve(w, ChangePassword(current, next, salt), Confirmed, wire).1.Done?
    ensures var d := Serve(w, ChangePassword(current, next, salt), Confirmed, wire).0.manager.credential;
            PasswordMatches(d, tried) <==> tried == next
  {
    hide ValidDocument;
  }

  /** An identity that is enrolled is answered with its token again, to the request it was enrolled by and to no other. */
  lemma EnrolledIsAnsweredIff(w: World, id: string, request: string, admitted: bool, minted: string, o: Outcome, wire: Wire)
    requires PendingDocument(w.manager).None? && ValidEnrollmentRequest(id, request) && id in w.manager.credential.enrollments
    ensures var r, c := Serve(w, CreateToken(id, request, admitted, minted), o, wire), w.manager.credential;
            && r.0 == w
            && (r.1.Token? <==> c.enrollments[id].request == Sha256(request) && TokenIn(c, id) != "" && c.enrollments[id].token == Sha256(TokenIn(c, id)))
            && (r.1.Token? ==> r.1.token == TokenIn(c, id))
            && (!r.1.Token? ==> r.1 == Failed(EnrollmentConflict))
  {
    hide ValidDocument, ValidAgentId, Trimmed;
  }

  /** While a publication is pending, every other request fails and changes nothing. */
  lemma OthersWaitWhilePending(w: World, q: Request, o: Outcome, wire: Wire)
    requires PendingDocument(w.manager).Some?
    requires w.manager.pendingMutation.Some? ==> !SameOperation(w.manager.pendingMutation.value.operation, q)
    requires w.manager.pendingEnrollment.Some? && q.CreateToken? ==>
               !EnrolledWith(w.manager.pendingEnrollment.value, q.id, Sha256(q.request))
    ensures Serve(w, q, o, wire).1.Failed? && Serve(w, q, o, wire).0 == w
  {
    hide ValidDocument, ValidAgentId, Trimmed;
  }

  /** What a fresh request is answered when it is granted. */
  lemma FreshAnswers(w: World, q: Request, wire: Wire)
    requires PendingDocument(w.manager).None? && (q.CreateToken? ==> q.id !in w.manager.credential.enrollments)
    requires !Serve(w, q, Confirmed, wire).1.Failed?
    ensures Serve(w, q, Confirmed, wire).1 ==
            match q
            case IssueToken(_, minted) => Token(minted)
            case CreateToken(_, _, _, minted) => Token(minted)
            case ChangeMode(mode) => Done(mode != w.manager.credential.mode)
            case _ => Done(true)
  {
    hide ValidDocument, ValidAgentId, Trimmed, RequestTaken;
  }

  /** The operation under which a pending publication remembers a request. */
  predicate SameOperation(op: Operation, q: Request) {
    match op
    case PasswordOperation => q.ChangePassword?
    case IssueOperation(id) => q.IssueToken? && q.id == id
    case RevokeOperation(id) => q == RevokeToken(id)
    case UnenrollOperation(id) => q == UnenrollToken(id)
    case ModeOperation(mode) => q == ChangeMode(mode)
  }

  /** Identities are made of the ASCII letters and digits and four marks, and are up to 128 characters long. */
  lemma AgentIdsAre(id: string)
    ensures ValidAgentId(id) <==> 1 <= |id| <= 128 && forall i | 0 <= i < |id| :: IdentifierCharacter(id[i])
  {
    forall i | 0 <= i < |id| ensures IdentifierCharacter(id[i]) <==> IdentityCharacter(id[i]) {
      CharactersAre(id[i]);
    }
    hide IdentifierCharacter, IdentityCharacter;
  }

  /** What the request of an entitled administrator has to carry for its document to be publishable beside a valid one. */
  lemma RequestedIsPublishableIff(c: Document, size: nat, q: Request, n: nat)
    requires ValidDocument(c, size) && Entitles(c, q)
    ensures ValidDocument(Requested(c, q), n) <==>
              && 0 < n <= 16384
              && match q
                 case ChangePassword(_, _, salt) => |salt| == 16
                 case IssueToken(id, minted) => Trimmed(id) && (minted != "" ==> Trimmed(minted) && 32 <= |minted| <= 512)
                 case RevokeToken(id) => Trimmed(id) && (id in c.tokens || |c.tokens| < 64)
                 case UnenrollToken(_) => true
                 case ChangeMode(_) => true
                 case CreateToken(_, _, _, minted) => minted != "" ==> Trimmed(minted) && 32 <= |minted| <= 512
  {
    hide ValidAgentId, Trimmed, Trim;
    match q {
      case IssueToken(id, minted) =>
        TokenIsPublishableIff(c, size, id, minted, n);
      case RevokeToken(id) =>
        if id in c.tokens || |c.tokens| < 64 {
          TokenIsPublishableIff(c, size, id, "", n);
        }
      case CreateToken(id, request, _, minted) =>
        TokenIsPublishableIff(c, size, id, minted, n);
        EnrolmentIsPublishable(c.(tokens := c.tokens[id := minted]), n, id, Enrollment(Sha256(request), Sha256(minted)));
      case _ =>
    }
  }

  lemma TokenIsPublishableIff(c: Document, size: nat, id: string, token: string, n: nat)
    requires ValidDocument(c, size) && ValidAgentId(id) && (id in c.tokens || |c.tokens| < 64)
    ensures ValidDocument(c.(tokens := c.tokens[id := token]), n) <==>
              0 < n <= 16384 && Trimmed(id) && (token != "" ==> Trimmed(token) && 32 <= |token| <= 512)
  {
    hide ValidAgentId, Trimmed, Trim, ValidEnrollments;
    var d := c.(tokens := c.tokens[id := token]);
    assert d.tokens[id] == token;
  }

  lemma EnrolmentIsPublishable(c: Document, n: nat, id: string, e: Enrollment)
    requires ValidEnrollments(c.enrollments) && ValidAgentId(id) && |c.enrollments| < 64
    requires forall other | other in c.enrollments :: c.enrollments[other].request != e.request
    ensures ValidDocument(c.(enrollments := c.enrollments[id := e]), n) <==> ValidDocument(c, n)
  {
    hide ValidAgentId, Trimmed, Trim;
  }
}
