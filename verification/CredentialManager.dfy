/** The credential manager as it runs: one object whose methods, each under the manager's mutex, update its fields. */
module CredentialManager {
  import opened Common
  import opened Credentials

  /** validateEnrollments. */
  method ValidateEnrollments(entries: map<string, Enrollment>) returns (ok: bool)
    ensures ok <==> ValidEnrollments(entries)
  {
    if |entries| > MAX_AGENT_CREDENTIALS {
      return false;
    }
    var requests: set<Digest> := {};
    var remaining := entries.Keys;
    while remaining != {}
      invariant remaining <= entries.Keys
      invariant requests == set id | id in entries.Keys - remaining :: entries[id].request
      invariant forall id | id in entries.Keys - remaining :: ValidAgentId(id)
      invariant forall a, b | a in entries.Keys - remaining && b in entries.Keys - remaining && a != b ::
                  entries[a].request != entries[b].request
    {
      var id :| id in remaining;
      if !ValidAgentId(id) || entries[id].request in requests {
        return false;
      }
      requests := requests + {entries[id].request};
      remaining := remaining - {id};
    }
    return true;
  }

  /** validateCredentialDocument, on a document and its size. */
  method ValidateCredentialDocument(d: Document, size: nat) returns (ok: bool)
    ensures ok <==> ValidDocument(d, size)
  {
    if size == 0 || size > MAX_AUTH_BYTES {
      return false;
    }
    var username := Trim(d.username);
    if d.version != 1 || username == "" || |username| > 64 || |d.salt| != 16 || !KnownMode(EffectiveMode(d.mode))
       || |d.tokens| > MAX_AGENT_CREDENTIALS {
      return false;
    }
    var remaining := d.tokens.Keys;
    while remaining != {}
      invariant remaining <= d.tokens.Keys
      invariant forall id | id in d.tokens.Keys - remaining :: Trimmed(id) && ValidAgentId(id)
      invariant forall id | id in d.tokens.Keys - remaining :: d.tokens[id] != "" ==> Trimmed(d.tokens[id]) && ValidToken(d.tokens[id])
    {
      var id :| id in remaining;
      var token := d.tokens[id];
      TrimFixesTrimmed(id);
      TrimFixesTrimmed(token);
      if id != Trim(id) || !ValidAgentId(id) || (token != "" && (token != Trim(token) || |token| < 32 || |token| > 512)) {
        return false;
      }
      remaining := remaining - {id};
    }
    ok := ValidateEnrollments(d.enrollments);
  }

  /** The scoped tokens of NewManager, trimmed, or None when one of them is malformed. */
  method LoadTokens(stored: map<string, string>) returns (r: Option<map<string, string>>)
    ensures r.Some? <==> forall id | id in stored :: Trimmed(id) && ValidAgentId(id) && ValidToken(Trim(stored[id]))
    ensures r.Some? ==> r.value == map id | id in stored :: Trim(stored[id])
  {
    var tokens: map<string, string> := map[];
    var remaining := stored.Keys;
    while remaining != {}
      invariant remaining <= stored.Keys
      invariant tokens == map id | id in stored.Keys - remaining :: Trim(stored[id])
      invariant forall id | id in tokens :: Trimmed(id) && ValidAgentId(id) && ValidToken(tokens[id])
    {
      var id :| id in remaining;
      var token := Trim(stored[id]);
      TrimFixesTrimmed(id);
      if id != Trim(id) || !ValidAgentId(id) || (token != "" && (|token| < 32 || |token| > 512)) {
        return None;
      }
      tokens := tokens[id := token];
      remaining := remaining - {id};
    }
    return Some(tokens);
  }

  /** The checks of NewManager: the credentials a process starts with. */
  method LoadCredential(d: Document, size: nat) returns (r: Option<Document>)
    ensures r == Load(d, size)
  {
    if size > MAX_AUTH_BYTES {
      return None;
    }
    var username := Trim(d.username);
    if username == "" {
      username := "admin";
    }
    var mode := EffectiveMode(d.mode);
    if d.version != 1 || |username| > 64 || |d.salt| != 16 {
      return None;
    }
    if !KnownMode(mode) || |d.tokens| > MAX_AGENT_CREDENTIALS {
      return None;
    }
    var tokens := LoadTokens(d.tokens);
    if tokens.None? {
      return None;
    }
    var valid := ValidateEnrollments(d.enrollments);
    if !valid {
      return None;
    }
    return Some(Document(1, username, d.salt, d.passwordHash, Trim(d.agentToken), mode, tokens.value, d.enrollments));
  }

  class Manager {
    var username: string
    var salt: string
    var passwordHash: PasswordHash
    var agentToken: string
    var agentTokenMode: Mode
    var agentTokens: map<string, string>
    var agentEnrollments: map<string, Enrollment>
    var pendingEnrollment: Option<Document>
    var pendingMutation: Option<Pending>
    /** The document behind the persister. */
    var file: Document
    const wire: Wire

    /** credentialLocked. */
    function Credential(): Document
      reads this
    {
      Document(1, username, salt, passwordHash, agentToken, agentTokenMode, agentTokens, agentEnrollments)
    }

    ghost function View(): World
      reads this
    {
      World(Credentials.Manager(Credential(), pendingEnrollment, pendingMutation), file)
    }

    constructor (loaded: Document, file: Document, wire: Wire)
      requires Load(file, wire(file)) == Some(loaded)
      ensures View() == World(Credentials.Manager(loaded, None, None), file) && this.wire == wire
    {
      username, salt, passwordHash, agentToken := loaded.username, loaded.salt, loaded.passwordHash, loaded.agentToken;
      agentTokenMode, agentTokens, agentEnrollments := loaded.mode, loaded.tokens, loaded.enrollments;
      pendingEnrollment, pendingMutation := None, None;
      this.file := file;
      this.wire := wire;
    }

    method PersistCredential(d: Document, o: Outcome) returns (confirmed: bool)
      modifies this`file
      ensures file == Persisted(old(file), d, o) && confirmed == o.Confirmed?
    {
      if !o.NotWritten? {
        file := d;
      }
      confirmed := o.Confirmed?;
    }

    /** writeCredentialLocked. */
    method WriteCredential(stored: Document, operation: Operation, o: Outcome) returns (failure: Option<Error>)
      modifies this`file, this`pendingMutation
      ensures var r := Write(old(View()), stored, operation, o, wire);
              && failure == r.1
              && View() == (if failure.None? then r.0.(manager := r.0.manager.(credential := Credential())) else r.0)
    {
      if pendingEnrollment.Some? {
        return Some(CredentialPending);
      }
      var valid := ValidateCredentialDocument(stored, wire(stored));
      if !valid {
        return Some(InvalidDocument);
      }
      if pendingMutation.Some? {
        if pendingMutation.value.operation != operation || pendingMutation.value.document != stored {
          return Some(CredentialPending);
        }
      }
      var confirmed := PersistCredential(stored, o);
      if !confirmed {
        pendingMutation := Some(Pending(stored, operation));
        return Some(CredentialPending);
      }
      pendingMutation := None;
      return None;
    }

    method ChangePassword(current: string, next: string, randomSalt: string, o: Outcome) returns (reply: Reply)
      modifies this
      ensures (View(), reply) == Serve(old(View()), Request.ChangePassword(current, next, randomSalt), o, wire)
    {
      if !ValidPassword(next) {
        return Failed(InvalidCredentials);
      }
      if !ValidPassword(current) || Scrypt(current, salt) != passwordHash {
        return Failed(InvalidCredentials);
      }
      var chosen := randomSalt;
      if pendingMutation.Some? {
        if !pendingMutation.value.operation.PasswordOperation? {
          return Failed(CredentialPending);
        }
        chosen := pendingMutation.value.document.salt;
      }
      var hash := Scrypt(next, chosen);
      var stored := Credential().(salt := chosen, passwordHash := hash);
      var failure := WriteCredential(stored, PasswordOperation, o);
      if failure.Some? {
        return Failed(failure.value);
      }
      salt := chosen;
      passwordHash := hash;
      return Done(true);
    }

    method IssueAgentToken(rawId: string, random: string, o: Outcome) returns (reply: Reply)
      modifies this
      ensures (View(), reply) == Serve(old(View()), IssueToken(Trim(rawId), random), o, wire)
    {
      hide ValidAgentId, Trim, Load;
      var id := Trim(rawId);
      if !ValidAgentId(id) {
        return Failed(AgentCredential);
      }
      if id !in agentTokens && |agentTokens| >= MAX_AGENT_CREDENTIALS {
        return Failed(AgentCredential);
      }
      var token := random;
      if pendingMutation.Some? {
        if pendingMutation.value.operation != IssueOperation(id) {
          return Failed(CredentialPending);
        }
        token := TokenIn(pendingMutation.value.document, id);
      }
      var stored := Credential();
      stored := stored.(tokens := stored.tokens[id := token]);
      var failure := WriteCredential(stored, IssueOperation(id), o);
      if failure.Some? {
        return Failed(failure.value);
      }
      agentTokens := agentTokens[id := token];
      return Token(token);
    }

    method RevokeAgentToken(rawId: string, o: Outcome) returns (reply: Reply)
      modifies this
      ensures (View(), reply) == Serve(old(View()), RevokeToken(Trim(rawId)), o, wire)
    {
      hide ValidAgentId, Trim, Load;
      var id := Trim(rawId);
      if !ValidAgentId(id) {
        return Failed(AgentCredential);
      }
      var stored := Credential();
      stored := stored.(tokens := stored.tokens[id := ""]);
      var failure := WriteCredential(stored, RevokeOperation(id), o);
      if failure.Some? {
        return Failed(failure.value);
      }
      agentTokens := agentTokens[id := ""];
      return Done(true);
    }

    method UnenrollAgentToken(rawId: string, o: Outcome) returns (reply: Reply)
      modifies this
      ensures (View(), reply) == Serve(old(View()), UnenrollToken(Trim(rawId)), o, wire)
    {
      hide ValidAgentId, Trim, Load;
      var id := Trim(rawId);
      if !ValidAgentId(id) {
        return Failed(AgentCredential);
      }
      if agentTokenMode != Transition || id !in agentTokens {
        return Failed(AgentCredential);
      }
      var stored := Credential();
      stored := stored.(tokens := stored.tokens - {id});
      var failure := WriteCredential(stored, UnenrollOperation(id), o);
      if failure.Some? {
        return Failed(failure.value);
      }
      agentTokens := agentTokens - {id};
      return Done(true);
    }

    method SetAgentCredentialMode(mode: Mode, o: Outcome) returns (reply: Reply)
      modifies this
      ensures (View(), reply) == Serve(old(View()), ChangeMode(mode), o, wire)
    {
      if !KnownMode(mode) {
        return Failed(AgentCredential);
      }
      if pendingEnrollment.Some? || (pendingMutation.Some? && pendingMutation.value.operation != ModeOperation(mode)) {
        return Failed(CredentialPending);
      }
      if agentTokenMode == mode {
        return Done(false);
      }
      var stored := Credential().(mode := mode);
      var failure := WriteCredential(stored, ModeOperation(mode), o);
      if failure.Some? {
        return Failed(failure.value);
      }
      agentTokenMode := mode;
      return Done(true);
    }

    /** The scan over the retired and live enrolments for a request that was already used. */
    method RequestUsed(digest: Digest) returns (used: bool)
      ensures used <==> RequestTaken(Credential(), digest)
    {
      var remaining := agentEnrollments.Keys;
      while remaining != {}
        invariant remaining <= agentEnrollments.Keys
        invariant forall id | id in agentEnrollments.Keys - remaining :: agentEnrollments[id].request != digest
      {
        var id :| id in remaining;
        if agentEnrollments[id].request == digest {
          assert id in Credential().enrollments;
          return true;
        }
        remaining := remaining - {id};
      }
      return false;
    }

    /** CreateAgentToken; admitted is the answer of the admission callback, should it be reached. */
    method CreateAgentToken(id: string, request: string, admitted: bool, random: string, o: Outcome) returns (reply: Reply)
      modifies this
      ensures (View(), reply) == Serve(old(View()), CreateToken(id, request, admitted, random), o, wire)
    {
      hide CreateLate, Trim, Write, ValidAgentId;
      TrimFixesTrimmed(id);
      if id != Trim(id) || !ValidAgentId(id) || |request| < 32 || |request| > 128 || !ValidAgentId(request) {
        return Failed(AgentCredential);
      }
      if pendingMutation.Some? {
        return Failed(CredentialPending);
      }
      var digest := Sha256(request);
      if pendingEnrollment.Some? {
        var pending := pendingEnrollment.value;
        if !(id in pending.enrollments && pending.enrollments[id].request == digest) {
          return Failed(CredentialPending);
        }
        var confirmed := PersistCredential(pending, o);
        if !confirmed {
          return Failed(CredentialPending);
        }
        agentTokens := pending.tokens;
        agentEnrollments := pending.enrollments;
        pendingEnrollment := None;
      }
      reply := CreateOnce(id, digest, admitted, random, o);
    }

    /** CreateAgentToken once no publication is pending. */
    method CreateOnce(id: string, digest: Digest, admitted: bool, random: string, o: Outcome) returns (reply: Reply)
      requires pendingEnrollment.None? && pendingMutation.None?
      requires Trimmed(id) && ValidAgentId(id)
      modifies this
      ensures forall request | digest == Sha256(request) && ValidEnrollmentRequest(id, request) ::
                (View(), reply) == ServeCreate(old(View()), id, request, admitted, random, o, wire)
    {
      if id in agentEnrollments {
        var token := TokenIn(Credential(), id);
        if agentEnrollments[id].request != digest || token == "" || agentEnrollments[id].token != Sha256(token) {
          return Failed(EnrollmentConflict);
        }
        return Token(token);
      }
      var used := RequestUsed(digest);
      if used {
        return Failed(EnrollmentConflict);
      }
      if id in agentTokens {
        return Failed(EnrollmentConflict);
      }
      if !admitted {
        return Failed(EnrollmentConflict);
      }
      reply := PublishEnrollment(id, digest, random, o);
    }

    /** The tail of CreateAgentToken, run under the reservation. */
    method PublishEnrollment(id: string, digest: Digest, random: string, o: Outcome) returns (reply: Reply)
      modifies this
      ensures forall request | digest == Sha256(request) :: (View(), reply) == CreateLate(old(View()), id, request, random, o, wire)
    {
      if |agentEnrollments| >= MAX_AGENT_CREDENTIALS || |agentTokens| >= MAX_AGENT_CREDENTIALS {
        return Failed(AgentCredential);
      }
      var stored := Credential();
      stored := stored.(tokens := stored.tokens[id := random], enrollments := stored.enrollments[id := Enrollment(digest, Sha256(random))]);
      var valid := ValidateCredentialDocument(stored, wire(stored));
      if !valid {
        return Failed(InvalidDocument);
      }
      var confirmed := PersistCredential(stored, o);
      if !confirmed {
        pendingEnrollment := Some(stored);
        return Failed(CredentialPending);
      }
      agentTokens := stored.tokens;
      agentEnrollments := stored.enrollments;
      return Token(random);
    }

    /** TokenForAgent. */
    method TokenForAgent(rawId: string) returns (r: Result<string, Error>)
      ensures r == Credentials.TokenForAgent(View().manager, Trim(rawId))
    {
      hide ValidAgentId, Trim, Load;
      var id := Trim(rawId);
      if !ValidAgentId(id) {
        return Err(AgentCredential);
      }
      if id !in agentEnrollments && pendingEnrollment.Some? && id in pendingEnrollment.value.enrollments {
        return Err(CredentialPending);
      }
      if id in agentTokens {
        if agentTokens[id] == "" {
          return Err(AgentCredential);
        }
        return Ok(agentTokens[id]);
      }
      if agentTokenMode != Transition || |agentToken| < 32 {
        return Err(AgentCredential);
      }
      return Ok(agentToken);
    }
  }
}
