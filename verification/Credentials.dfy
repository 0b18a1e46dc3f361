/**
 * The administrator's credential document and the rules under which the credential manager
 * publishes a new one through a persister whose errors do not say whether the write happened.
 *
 * SHA-256 and scrypt are modelled as free (injective) constructors, and the JSON form of a document as
 * the document itself; its size is given by an arbitrary function, over which every result quantifies.
 */
module Credentials {
  import opened Common

  const MAX_AUTH_BYTES := 16384
  const MAX_AGENT_CREDENTIALS := 64

  datatype Digest = Sha256(preimage: string)

  datatype PasswordHash = Scrypt(password: string, salt: string)

  /** An Agent token mode as a document or a request spells it, once trimmed. */
  datatype Mode = Unset | Transition | Scoped | Unknown

  datatype Enrollment = Enrollment(request: Digest, token: Digest)

  datatype Document = Document(
    version: int,
    username: string,
    salt: string,
    passwordHash: PasswordHash,
    agentToken: string,
    mode: Mode,
    tokens: map<string, string>,
    enrollments: map<string, Enrollment>)

  /** The size in bytes of a document's JSON form, newline included. */
  type Wire = Document -> nat

  // ---------------------------------------------------------------- what a document may hold

  predicate IdentityCharacter(c: char) {
    'a' <= c <= 'z' || 'A' <= c <= 'Z' || '0' <= c <= '9' || c in "-_.:"
  }

  predicate ValidAgentId(id: string) {
    1 <= |id| <= 128 && forall i | 0 <= i < |id| :: IdentityCharacter(id[i])
  }

  predicate ValidPassword(password: string) {
    0 < |password| <= 256
  }

  predicate ValidToken(token: string) {
    token == "" || 32 <= |token| <= 512
  }

  ghost predicate ValidEnrollments(enrollments: map<string, Enrollment>) {
    && |enrollments| <= MAX_AGENT_CREDENTIALS
    && (forall id | id in enrollments :: ValidAgentId(id))
    && (forall a, b | a in enrollments && b in enrollments && a != b ::
          enrollments[a].request != enrollments[b].request)
  }

  function EffectiveMode(mode: Mode): Mode {
    if mode == Unset then Transition else mode
  }

  predicate KnownMode(mode: Mode) {
    mode == Transition || mode == Scoped
  }

  /** validateCredentialDocument: what the manager and the persister are willing to publish. */
  ghost predicate ValidDocument(d: Document, size: nat) {
    && 0 < size <= MAX_AUTH_BYTES
    && d.version == 1
    && 0 < |Trim(d.username)| <= 64
    && |d.salt| == 16
    && KnownMode(EffectiveMode(d.mode))
    && |d.tokens| <= MAX_AGENT_CREDENTIALS
    && (forall id | id in d.tokens :: Trimmed(id) && ValidAgentId(id))
    && (forall id | id in d.tokens :: d.tokens[id] != "" ==> Trimmed(d.tokens[id]) && ValidToken(d.tokens[id]))
    && ValidEnrollments(d.enrollments)
  }

  /** NewManager: the credentials a restarted process starts with, or None when it refuses the file. */
  ghost function Load(d: Document, size: nat): Option<Document> {
    var username := if Trim(d.username) == "" then "admin" else Trim(d.username);
    var tokens := map id | id in d.tokens :: Trim(d.tokens[id]);
    if && size <= MAX_AUTH_BYTES
       && d.version == 1
       && |username| <= 64
       && |d.salt| == 16
       && KnownMode(EffectiveMode(d.mode))
       && |d.tokens| <= MAX_AGENT_CREDENTIALS
       && (forall id | id in d.tokens :: Trimmed(id) && ValidAgentId(id) && ValidToken(tokens[id]))
       && ValidEnrollments(d.enrollments)
    then Some(Document(1, username, d.salt, d.passwordHash, Trim(d.agentToken), EffectiveMode(d.mode), tokens, d.enrollments))
    else None
  }

  /** The form every in-memory credential has, because NewManager trims what it reads. */
  predicate Canonical(d: Document) {
    && d.version == 1
    && d.username != "" && Trimmed(d.username)
    && Trimmed(d.agentToken)
    && KnownMode(d.mode)
  }

  lemma LoadIsCanonical(d: Document, size: nat)
    requires Load(d, size).Some?
    ensures Canonical(Load(d, size).value)
  {
  }

  lemma LoadedTokens(d: Document, size: nat)
    requires ValidDocument(d, size)
    ensures (map id | id in d.tokens :: Trim(d.tokens[id])) == d.tokens
  {
    forall id | id in d.tokens ensures Trim(d.tokens[id]) == d.tokens[id] {
      TrimFixesTrimmed(d.tokens[id]);
    }
  }

  /** Every document the manager publishes is one a restarted manager accepts, and reads back unchanged. */
  lemma PublishedDocumentReloads(d: Document, size: nat)
    requires ValidDocument(d, size) && Canonical(d)
    ensures Load(d, size) == Some(d)
  {
    TrimFixesTrimmed(d.username);
    TrimFixesTrimmed(d.agentToken);
    LoadedTokens(d, size);
  }

  // ---------------------------------------------------------------- the manager

  datatype Operation =
    | PasswordOperation
    | IssueOperation(id: string)
    | RevokeOperation(id: string)
    | UnenrollOperation(id: string)
    | ModeOperation(mode: Mode)

  datatype Pending = Pending(document: Document, operation: Operation)

  datatype Manager = Manager(
    credential: Document,
    pendingEnrollment: Option<Document>,
    pendingMutation: Option<Pending>)

  /** What one PersistCredential call does: an error may hide a completed write. */
  datatype Outcome = Confirmed | LostAfterWrite | NotWritten

  /** The manager together with the document on disk. */
  datatype World = World(manager: Manager, file: Document)

  datatype Error = InvalidCredentials | AgentCredential | EnrollmentConflict | CredentialPending | InvalidDocument

  datatype Reply = Failed(error: Error) | Token(token: string) | Done(changed: bool)

  /** Requests as the methods see them once their arguments are trimmed. */
  datatype Request =
    | ChangePassword(current: string, next: string, salt: string)
    | IssueToken(id: string, minted: string)
    | RevokeToken(id: string)
    | UnenrollToken(id: string)
    | ChangeMode(mode: Mode)
    | CreateToken(id: string, request: string, admitted: bool, minted: string)

  function Persisted(file: Document, d: Document, o: Outcome): Document {
    if o.NotWritten? then file else d
  }

  /** writeCredentialLocked followed by adopting the document in memory, which happens only after Confirmed. */
  ghost function Write(w: World, d: Document, op: Operation, o: Outcome, wire: Wire): (r: (World, Option<Error>)) {
    var m := w.manager;
    if m.pendingEnrollment.Some? then (w, Some(CredentialPending))
    else if !ValidDocument(d, wire(d)) then (w, Some(InvalidDocument))
    else if m.pendingMutation.Some? && m.pendingMutation.value != Pending(d, op) then (w, Some(CredentialPending))
    else if o.Confirmed? then (World(Manager(d, None, None), Persisted(w.file, d, o)), None)
    else (World(m.(pendingMutation := Some(Pending(d, op))), Persisted(w.file, d, o)), Some(CredentialPending))
  }

  ghost function Written(r: (World, Option<Error>), reply: Reply): (World, Reply) {
    if r.1.None? then (r.0, reply) else (r.0, Failed(r.1.value))
  }

  predicate PasswordMatches(d: Document, password: string) {
    ValidPassword(password) && Scrypt(password, d.salt) == d.passwordHash
  }

  /** The salt a password change uses: a retry repeats the pending one. */
  function UsedSalt(m: Manager, salt: string): string {
    if m.pendingMutation.Some? then m.pendingMutation.value.document.salt else salt
  }

  ghost function ServePassword(w: World, current: string, next: string, salt: string, o: Outcome, wire: Wire): (World, Reply) {
    var m := w.manager;
    if !ValidPassword(next) || !PasswordMatches(m.credential, current) then (w, Failed(InvalidCredentials))
    else if m.pendingMutation.Some? && !m.pendingMutation.value.operation.PasswordOperation? then (w, Failed(CredentialPending))
    else
      var used := UsedSalt(m, salt);
      Written(Write(w, m.credential.(salt := used, passwordHash := Scrypt(next, used)), PasswordOperation, o, wire), Done(true))
  }

  ghost function ServeIssue(w: World, id: string, minted: string, o: Outcome, wire: Wire): (World, Reply) {
    var m := w.manager;
    if !ValidAgentId(id) then (w, Failed(AgentCredential))
    else if id !in m.credential.tokens && |m.credential.tokens| >= MAX_AGENT_CREDENTIALS then (w, Failed(AgentCredential))
    else if m.pendingMutation.Some? && m.pendingMutation.value.operation != IssueOperation(id) then (w, Failed(CredentialPending))
    else
      var token := IssuedToken(m, id, minted);
      Written(Write(w, m.credential.(tokens := m.credential.tokens[id := token]), IssueOperation(id), o, wire), Token(token))
  }

  /** The token an issue publishes: a retry repeats the pending one. */
  function IssuedToken(m: Manager, id: string, minted: string): string {
    if m.pendingMutation.Some? then TokenIn(m.pendingMutation.value.document, id) else minted
  }

  /** A Go map read: the empty token when the id has no entry. */
  function TokenIn(d: Document, id: string): string {
    if id in d.tokens then d.tokens[id] else ""
  }

  ghost function ServeRevoke(w: World, id: string, o: Outcome, wire: Wire): (World, Reply) {
    var c := w.manager.credential;
    if !ValidAgentId(id) then (w, Failed(AgentCredential))
    else Written(Write(w, c.(tokens := c.tokens[id := ""]), RevokeOperation(id), o, wire), Done(true))
  }

  ghost function ServeUnenroll(w: World, id: string, o: Outcome, wire: Wire): (World, Reply) {
    var c := w.manager.credential;
    if !ValidAgentId(id) || c.mode != Transition || id !in c.tokens then (w, Failed(AgentCredential))
    else Written(Write(w, c.(tokens := c.tokens - {id}), UnenrollOperation(id), o, wire), Done(true))
  }

  ghost function ServeMode(w: World, mode: Mode, o: Outcome, wire: Wire): (World, Reply) {
    var m := w.manager;
    if !KnownMode(mode) then (w, Failed(AgentCredential))
    else if m.pendingEnrollment.Some? || (m.pendingMutation.Some? && m.pendingMutation.value.operation != ModeOperation(mode)) then
      (w, Failed(CredentialPending))
    else if m.credential.mode == mode then (w, Done(false))
    else Written(Write(w, m.credential.(mode := mode), ModeOperation(mode), o, wire), Done(true))
  }

  predicate ValidEnrollmentRequest(id: string, request: string) {
    Trimmed(id) && ValidAgentId(id) && 32 <= |request| <= 128 && ValidAgentId(request)
  }

  ghost predicate RequestTaken(c: Document, digest: Digest) {
    exists id :: id in c.enrollments && c.enrollments[id].request == digest
  }

  /** Go's zero enrolment makes the digest of a missing id differ from every request's. */
  predicate EnrolledWith(d: Document, id: string, digest: Digest) {
    id in d.enrollments && d.enrollments[id].request == digest
  }

  /** The document CreateAgentToken publishes. */
  function Enrolled(c: Document, id: string, digest: Digest, token: string): Document {
    c.(tokens := c.tokens[id := token], enrollments := c.enrollments[id := Enrollment(digest, Sha256(token))])
  }

  /** CreateAgentToken up to the point where it asks for admission: Some is an early return. */
  ghost function CreateEarly(w: World, id: string, request: string, o: Outcome): (r: (World, Option<Reply>))
  {
    var m, digest := w.manager, Sha256(request);
    if !ValidEnrollmentRequest(id, request) then (w, Some(Failed(AgentCredential)))
    else if m.pendingMutation.Some? then (w, Some(Failed(CredentialPending)))
    else if m.pendingEnrollment.Some? && !EnrolledWith(m.pendingEnrollment.value, id, digest) then (w, Some(Failed(CredentialPending)))
    else if m.pendingEnrollment.Some? && !o.Confirmed? then
      (World(m, Persisted(w.file, m.pendingEnrollment.value, o)), Some(Failed(CredentialPending)))
    else
      var w1 := if m.pendingEnrollment.None? then w
                else World(Manager(Adopted(m.credential, m.pendingEnrollment.value), None, None), m.pendingEnrollment.value);
      var c := w1.manager.credential;
      if id in c.enrollments then
        (w1, Some(if c.enrollments[id].request != digest || TokenIn(c, id) == "" || c.enrollments[id].token != Sha256(TokenIn(c, id))
                  then Failed(EnrollmentConflict) else Token(TokenIn(c, id))))
      else if RequestTaken(c, digest) || id in c.tokens then (w1, Some(Failed(EnrollmentConflict)))
      else (w1, None)
  }

  /** A retried enrolment adopts only the two maps of the pending document. */
  function Adopted(c: Document, pending: Document): Document {
    c.(tokens := pending.tokens, enrollments := pending.enrollments)
  }

  /** The rest of CreateAgentToken, run while the id is reserved. */
  ghost function CreateLate(w: World, id: string, request: string, minted: string, o: Outcome, wire: Wire): (World, Reply) {
    var m := w.manager;
    var d := Enrolled(m.credential, id, Sha256(request), minted);
    if |m.credential.enrollments| >= MAX_AGENT_CREDENTIALS || |m.credential.tokens| >= MAX_AGENT_CREDENTIALS then
      (w, Failed(AgentCredential))
    else if !ValidDocument(d, wire(d)) then (w, Failed(InvalidDocument))
    else if o.Confirmed? then (World(m.(credential := Adopted(m.credential, d)), d), Token(minted))
    else (World(m.(pendingEnrollment := Some(d)), Persisted(w.file, d, o)), Failed(CredentialPending))
  }

  ghost function ServeCreate(w: World, id: string, request: string, admitted: bool, minted: string, o: Outcome, wire: Wire): (World, Reply) {
    var early := CreateEarly(w, id, request, o);
    if early.1.Some? then (early.0, early.1.value)
    else if !admitted then (early.0, Failed(EnrollmentConflict))
    else CreateLate(early.0, id, request, minted, o, wire)
  }

  ghost function Serve(w: World, q: Request, o: Outcome, wire: Wire): (World, Reply) {
    match q
    case ChangePassword(current, next, salt) => ServePassword(w, current, next, salt, o, wire)
    case IssueToken(id, minted) => ServeIssue(w, id, minted, o, wire)
    case RevokeToken(id) => ServeRevoke(w, id, o, wire)
    case UnenrollToken(id) => ServeUnenroll(w, id, o, wire)
    case ChangeMode(mode) => ServeMode(w, mode, o, wire)
    case CreateToken(id, request, admitted, minted) => ServeCreate(w, id, request, admitted, minted, o, wire)
  }

  /** TokenForAgent. */
  function TokenForAgent(m: Manager, id: string): (r: Result<string, Error>) {
    var c := m.credential;
    if !ValidAgentId(id) then Err(AgentCredential)
    else if id !in c.enrollments && m.pendingEnrollment.Some? && id in m.pendingEnrollment.value.enrollments then Err(CredentialPending)
    else if id in c.tokens then (if c.tokens[id] == "" then Err(AgentCredential) else Ok(c.tokens[id]))
    else if c.mode != Transition || |c.agentToken| < 32 then Err(AgentCredential)
    else Ok(c.agentToken)
  }
}
