/**
 * The remote credential persister and the compare-and-set handler behind it: a protocol over requests that may be
 * delivered late, more than once or never, and responses that may be lost. SHA-256 is injective, so a digest is
 * modelled by the document it was computed from, and the digest "missing" by None.
 */
module RemotePersister {
  import opened Common
  import opened Credentials

  type Digested = Option<Document>

  /** A publication request: the If-Match digest and the new document. */
  datatype Post = Post(base: Digested, payload: Document)

  /** What the privileged write does; it can fail after its rename, when the directory cannot be synchronised. */
  datatype WriteResult = Succeeded | FailedAfterRename | FailedBeforeRename

  datatype Response = Accepted(digest: Document) | Conflict | InternalError

  // ---------------------------------------------------------------- the handler

  /** The handler refuses a document that was not prepared against what the file now holds. */
  predicate Refused(file: Digested, post: Post) {
    && !(file.None? && post.base.None?)
    && (file.None? || (file != post.base && file != Some(post.payload)))
  }

  function Handled(file: Digested, post: Post, write: WriteResult): (Digested, Response) {
    if Refused(file, post) then (file, Conflict)
    else match write
      case Succeeded => (Some(post.payload), Accepted(post.payload))
      case FailedAfterRename => (Some(post.payload), InternalError)
      case FailedBeforeRename => (file, InternalError)
  }

  class Handler {
    var file: Digested

    constructor (file: Digested)
      ensures this.file == file
    {
      this.file := file;
    }

    /** persistCredentialFile: the rename is the point at which the document changes. */
    method Write(payload: Document, write: WriteResult) returns (ok: bool)
      modifies this
      ensures ok == write.Succeeded?
      ensures file == if write.FailedBeforeRename? then old(file) else Some(payload)
    {
      if !write.FailedBeforeRename? {
        file := Some(payload);
      }
      ok := write.Succeeded?;
    }

    /** The POST branch of ServeHTTP, under the handler's mutex. */
    method Publish(post: Post, write: WriteResult) returns (response: Response)
      modifies this
      ensures (file, response) == Handled(old(file), post, write)
    {
      var missingBase := file.None? && post.base.None?;
      if !missingBase && (file.None? || (file != post.base && file != Some(post.payload))) {
        return Conflict;
      }
      var ok := Write(post.payload, write);
      if !ok {
        return InternalError;
      }
      return Accepted(post.payload);
    }
  }

  /** A delivered request changes the file exactly when it was prepared against what the file holds and the write lands. */
  lemma DeliveryOverwrites(file: Digested, post: Post, write: WriteResult)
    ensures Handled(file, post, write).0 != file <==>
              file == post.base && file != Some(post.payload) && !write.FailedBeforeRename?
  {
  }

  // ---------------------------------------------------------------- the persister

  datatype Client = Client(pending: Option<Document>, base: Digested)

  /** The persister's first half: None is an early error, before anything is sent. */
  function Prepared(c: Client, payload: Document, digest: Option<Digested>): (Client, Option<Post>) {
    if c.pending.Some? && c.pending.value != payload then (c, None)
    else if c.pending.Some? then (c, Some(Post(c.base, payload)))
    else if digest.None? then (c, None)
    else (Client(Some(payload), digest.value), Some(Post(digest.value, payload)))
  }

  /** Its second half: the answer, if any arrived, then the readback that is tried after anything but an acceptance. */
  predicate Concluded(payload: Document, response: Option<Response>, readback: Option<Digested>) {
    response == Some(Accepted(payload)) || readback == Some(Some(payload))
  }

  class RemoteCredentialPersister {
    var pending: Option<Document>
    var base: Digested

    function View(): Client
      reads this
    {
      Client(pending, base)
    }

    constructor ()
      ensures View().pending.None?
    {
      pending, base := None, None;
    }

    /**
     * PersistCredential; the exchanges with the handler are its arguments: the digest read first (None: unreadable),
     * the response to the POST (None: lost) and the digest read back after a failure.
     */
    method PersistCredential(payload: Document, digest: Option<Digested>, response: Option<Response>, readback: Option<Digested>)
      returns (sent: Option<Post>, ok: bool)
      modifies this
      ensures sent == Prepared(old(View()), payload, digest).1
      ensures ok <==> sent.Some? && Concluded(payload, response, readback)
      ensures var prepared := Prepared(old(View()), payload, digest).0;
              View() == if ok then prepared.(pending := None) else prepared
    {
      if pending.Some? && pending.value != payload {
        return None, false;
      }
      if pending.None? {
        if digest.None? {
          return None, false;
        }
        base := digest.value;
        pending := Some(payload);
      }
      sent := Some(Post(base, payload));
      if response.None? {
        if readback.Some? && readback.value == Some(payload) {
          pending := None;
          return sent, true;
        }
        return sent, false;
      }
      if response.value.Accepted? && response.value.digest == payload {
        pending := None;
        return sent, true;
      }
      if readback.Some? && readback.value == Some(payload) {
        pending := None;
        return sent, true;
      }
      return sent, false;
    }
  }

  // ---------------------------------------------------------------- both sides and the network between them

  datatype Phase = Idle | Posting(payload: Document) | Confirming(payload: Document)

  /**
   * committed is the document the manager last read at its start or had confirmed, wanted the one it still holds as
   * unconfirmed, attempted everything the file ever held or a request carried. A request once sent may be delivered at
   * any later time, any number of times, also after the process that sent it has been restarted.
   */
  datatype State = State(
    file: Digested,
    client: Client,
    network: set<Post>,
    phase: Phase,
    committed: Digested,
    wanted: Option<Document>,
    attempted: set<Digested>)

  datatype Event =
    | Call(payload: Document, digestRead: bool)
    | Deliver(post: Post, write: WriteResult, answers: bool)
    | LoseResponse
    | Readback(readable: bool)
    | Restart

  /** The manager retries only what is unconfirmed. */
  predicate Enabled(s: State, e: Event) {
    match e
    case Call(payload, _) => s.phase.Idle? && (s.wanted.Some? ==> payload == s.wanted.value)
    case Deliver(post, _, _) => post in s.network
    case LoseResponse => s.phase.Posting?
    case Readback(_) => s.phase.Confirming?
    case Restart => true
  }

  /** A request is first sent for a document that no request carried before, or for the one that is there already. */
  predicate NoRecurrence(s: State, e: Event) {
    e.Call? && s.client.pending.None? ==> Some(e.payload) !in s.attempted || Some(e.payload) == s.committed
  }

  /** No request under way was prepared against what the file holds now. */
  ghost predicate Quiet(s: State) {
    forall post | post in s.network && post.base == s.file :: Some(post.payload) == s.file
  }

  function Finish(s: State, payload: Document, ok: bool): State {
    if ok then s.(phase := Idle, client := s.client.(pending := None), committed := Some(payload), wanted := None)
    else s.(phase := Idle, wanted := Some(payload))
  }

  function Next(s: State, e: Event): State
    requires Enabled(s, e)
  {
    match e
    case Call(payload, digestRead) =>
      var prepared := Prepared(s.client, payload, if digestRead then Some(s.file) else None);
      var t := s.(client := prepared.0);
      if prepared.1.None? then Finish(t, payload, false)
      else t.(network := s.network + {prepared.1.value}, phase := Posting(payload), attempted := s.attempted + {Some(payload)})
    case Deliver(post, write, answers) =>
      var r := Handled(s.file, post, write);
      var t := s.(file := r.0);
      if answers && s.phase == Posting(post.payload) && s.client.base == post.base
      then (if Concluded(post.payload, Some(r.1), None) then Finish(t, post.payload, true) else t.(phase := Confirming(post.payload)))
      else t
    case LoseResponse => s.(phase := Confirming(s.phase.payload))
    case Readback(readable) =>
      Finish(s, s.phase.payload, Concluded(s.phase.payload, None, if readable then Some(s.file) else None))
    case Restart =>
      s.(client := Client(None, None), phase := Idle, wanted := None, committed := s.file)
  }

  function InProgress(s: State): Option<Document> {
    if s.phase.Idle? then s.wanted else Some(s.phase.payload)
  }

  /** A request that can no longer change anything the file may hold. */
  predicate Stale(s: State, post: Post) {
    post.base == Some(post.payload) ||
    (post.base != s.committed && (s.client.pending.Some? ==> post.base != s.client.pending))
  }

  ghost predicate Inv(s: State) {
    && s.committed in s.attempted
    && (!s.phase.Idle? ==> s.client.pending.Some? && (s.wanted.Some? ==> s.wanted == InProgress(s)))
    && (s.client.pending.Some? ==> s.client.pending == InProgress(s) && s.client.pending in s.attempted && s.client.base == s.committed)
    && (s.file == s.committed || (s.client.pending.Some? && s.file == s.client.pending))
    && (forall post | post in s.network ::
          && post.base in s.attempted && Some(post.payload) in s.attempted
          && (Stale(s, post) || (post.base == s.client.base && s.client.pending == Some(post.payload))))
  }

  lemma NextKeepsInv(s: State, e: Event)
    requires Inv(s) && Enabled(s, e) && NoRecurrence(s, e) && (e.Restart? ==> Quiet(s))
    ensures Inv(Next(s, e))
  {
    if e.Call? {
      CallKeepsInv(s, e);
    } else if e.Deliver? {
      DeliveryKeepsInv(s, e);
    } else {
      QuietStepKeepsInv(s, e);
    }
  }

  lemma CallKeepsInv(s: State, e: Event)
    requires Inv(s) && Enabled(s, e) && NoRecurrence(s, e) && e.Call?
    ensures Inv(Next(s, e))
  {
  }

  lemma DeliveryKeepsInv(s: State, e: Event)
    requires Inv(s) && Enabled(s, e) && e.Deliver?
    ensures Inv(Next(s, e))
  {
  }

  lemma QuietStepKeepsInv(s: State, e: Event)
    requires Inv(s) && Enabled(s, e) && !e.Call? && !e.Deliver? && (e.Restart? ==> Quiet(s))
    ensures Inv(Next(s, e))
  {
  }

  /**
   * A restart keeps the protocol intact if and only if no request is under way that the file would still accept:
   * otherwise such a request changes the file behind the new process, which has nothing pending.
   */
  lemma RestartIsSafeIff(s: State)
    requires Inv(s)
    ensures var t := Next(s, Restart);
            && (Inv(t) <==> Quiet(s))
            && (Quiet(s) <==> forall post | post in t.network :: Next(t, Deliver(post, Succeeded, false)).file == t.committed)
  {
    var t := Next(s, Restart);
    if post :| post in s.network && post.base == s.file && Some(post.payload) != s.file {
      assert post in t.network && Next(t, Deliver(post, Succeeded, false)).file == Some(post.payload);
    }
  }

  ghost predicate IsRun(ss: seq<State>, es: seq<Event>) {
    && |ss| == |es| + 1
    && (forall i {:trigger es[i]} | 0 <= i < |es| :: Enabled(ss[i], es[i]) && ss[i + 1] == Next(ss[i], es[i]))
  }

  /** No document recurs, and no restart leaves a request under way that the file would still accept. */
  ghost predicate Orderly(ss: seq<State>, es: seq<Event>)
    requires IsRun(ss, es)
  {
    forall i {:trigger es[i]} | 0 <= i < |es| :: NoRecurrence(ss[i], es[i]) && (es[i].Restart? ==> Quiet(ss[i]))
  }

  predicate Started(s: State) {
    s.client.pending.None? && s.network == {} && s.phase.Idle? && s.committed == s.file && s.wanted.None? && s.attempted == {s.file}
  }

  lemma {:induction false} RunKeepsInv(ss: seq<State>, es: seq<Event>, i: nat)
    requires IsRun(ss, es) && Orderly(ss, es) && Started(ss[0]) && i < |ss|
    ensures Inv(ss[i])
  {
    if i > 0 {
      RunKeepsInv(ss, es, i - 1);
      NextKeepsInv(ss[i - 1], es[i - 1]);
    }
  }

  /** The persister never holds a document other than the manager's, so its mismatch branch cannot be reached. */
  lemma PersisterFollowsManager(ss: seq<State>, es: seq<Event>, i: nat)
    requires IsRun(ss, es) && Orderly(ss, es) && Started(ss[0]) && i < |es|
    ensures ss[i].client.pending.None? || ss[i].client.pending == InProgress(ss[i])
    ensures es[i].Call? && ss[i].client.pending.Some? ==> ss[i].client.pending == Some(es[i].payload)
  {
    RunKeepsInv(ss, es, i);
  }

  /** The event makes PersistCredential return, and report success. */
  predicate ReportsSuccess(s: State, e: Event)
    requires Enabled(s, e)
  {
    !s.phase.Idle? && !e.Restart? && Next(s, e).phase.Idle? && Next(s, e).wanted.None?
  }

  /** With or without recurrence and restarts: a reported success means the file held the payload at that moment. */
  lemma SuccessMeansPublished(s: State, e: Event)
    requires Enabled(s, e) && ReportsSuccess(s, e)
    ensures Next(s, e).file == Some(s.phase.payload) && Next(s, e).committed == Some(s.phase.payload)
  {
  }

  /** An unconfirmed publication can always be completed: its request is never refused, and once answered it is a success. */
  lemma RetryIsNeverRefused(ss: seq<State>, es: seq<Event>, i: nat)
    requires IsRun(ss, es) && Orderly(ss, es) && Started(ss[0]) && i < |ss| && ss[i].client.pending.Some?
    ensures var post := Post(ss[i].client.base, ss[i].client.pending.value);
            && !Refused(ss[i].file, post)
            && (ss[i].phase.Posting? ==> post in ss[i].network ==> ReportsSuccess(ss[i], Deliver(post, Succeeded, true)))
            && (ss[i].phase.Idle? ==>
                  var e := Call(ss[i].client.pending.value, false);
                  Enabled(ss[i], e) && Next(ss[i], e).phase.Posting? && post in Next(ss[i], e).network)
  {
    RunKeepsInv(ss, es, i);
  }

  lemma StepRefines(s: State, e: Event)
    requires Inv(s) && Enabled(s, e) && NoRecurrence(s, e)
    ensures s.file == s.committed || (InProgress(s).Some? && s.file == InProgress(s))
    ensures Next(s, e).file != s.file ==> s.file == s.committed && Next(s, e).file == InProgress(s)
    ensures Next(s, e).committed != s.committed ==> Next(s, e).committed == InProgress(s) && Next(s, e).file == Next(s, e).committed
  {
  }

  /**
   * Refinement of the uncertain persister: at every moment the file holds the document the manager has or the one
   * still in progress, and it changes only from the first to the second; a restart reads one of the two.
   */
  lemma RefinesUncertainPersister(ss: seq<State>, es: seq<Event>, i: nat)
    requires IsRun(ss, es) && Orderly(ss, es) && Started(ss[0]) && i < |es|
    ensures ss[i].file == ss[i].committed || (InProgress(ss[i]).Some? && ss[i].file == InProgress(ss[i]))
    ensures ss[i + 1].file != ss[i].file ==> ss[i].file == ss[i].committed && ss[i + 1].file == InProgress(ss[i])
    ensures ss[i + 1].committed != ss[i].committed ==> ss[i + 1].committed == InProgress(ss[i]) && ss[i + 1].file == ss[i + 1].committed
  {
    RunKeepsInv(ss, es, i);
    StepRefines(ss[i], es[i]);
  }

  /** A delayed request for an older document never touches a newer one. */
  lemma DelayedPostIsHarmless(ss: seq<State>, es: seq<Event>, i: nat)
    requires IsRun(ss, es) && Orderly(ss, es) && Started(ss[0]) && i < |es|
    requires es[i].Deliver? && InProgress(ss[i]) != Some(es[i].post.payload)
    ensures ss[i + 1].file == ss[i].file
  {
    RunKeepsInv(ss, es, i);
  }

  // ---------------------------------------------------------------- restarts with a request under way

  /** A request is sent, the process restarts, and the request lands: the file differs from memory and nothing is pending. */
  lemma RequestOutlivesRestart(a: Document, b: Document)
    requires a != b
    ensures exists ss: seq<State>, es: seq<Event> ::
              && IsRun(ss, es) && Started(ss[0]) && (forall i | 0 <= i < |es| :: NoRecurrence(ss[i], es[i]))
              && ss[|es|].file == Some(b) && ss[|es|].committed == Some(a) && InProgress(ss[|es|]).None?
  {
    var es := [Call(b, true), Restart, Deliver(Post(Some(a), b), Succeeded, false)];
    var s0 := State(Some(a), Client(None, None), {}, Idle, Some(a), None, {Some(a)});
    var s1 := Next(s0, es[0]);
    var s2 := Next(s1, es[1]);
    var s3 := Next(s2, es[2]);
    var ss := [s0, s1, s2, s3];
    assert IsRun(ss, es);
    assert forall i | 0 <= i < |es| :: NoRecurrence(ss[i], es[i]);
  }

  /** The persister holds a request that the file has moved away from, and the file accepts no request under way. */
  ghost predicate Wedged(s: State) {
    && s.client.pending.Some? && s.file != s.client.base && s.file != s.client.pending && s.file.Some?
    && InProgress(s) == s.client.pending && (s.wanted.Some? ==> s.wanted == s.client.pending)
    && (forall post | post in s.network :: post.base != s.file)
  }

  /** From there no publication ever succeeds, retried or not, until the process restarts. */
  lemma {:induction false} WedgedUntilRestart(ss: seq<State>, es: seq<Event>, i: nat)
    requires IsRun(ss, es) && Wedged(ss[0]) && i < |ss|
    requires forall k | 0 <= k < |es| :: !es[k].Restart?
    ensures Wedged(ss[i]) && ss[i].file == ss[0].file && ss[i].client == ss[0].client
    ensures i < |es| ==> !ReportsSuccess(ss[i], es[i])
  {
    if i > 0 {
      WedgedUntilRestart(ss, es, i - 1);
      WedgedStep(ss[i - 1], es[i - 1]);
    }
    if i < |es| {
      WedgedStep(ss[i], es[i]);
    }
  }

  lemma WedgedStep(s: State, e: Event)
    requires Wedged(s) && Enabled(s, e) && !e.Restart?
    ensures Wedged(Next(s, e)) && Next(s, e).file == s.file && Next(s, e).client == s.client && !ReportsSuccess(s, e)
  {
  }

  /** The case occurs: the new process has read the old base before the request of the old one lands. */
  lemma RestartCanWedge(a: Document, b: Document, c: Document)
    requires a != b && b != c && a != c
    ensures exists ss: seq<State>, es: seq<Event> ::
              IsRun(ss, es) && Started(ss[0]) && (forall i | 0 <= i < |es| :: NoRecurrence(ss[i], es[i])) && Wedged(ss[|es|])
  {
    var es := [Call(b, true), Restart, Call(c, true), Deliver(Post(Some(a), b), Succeeded, false)];
    var s0 := State(Some(a), Client(None, None), {}, Idle, Some(a), None, {Some(a)});
    var s1 := Next(s0, es[0]);
    var s2 := Next(s1, es[1]);
    var s3 := Next(s2, es[2]);
    var s4 := Next(s3, es[3]);
    var ss := [s0, s1, s2, s3, s4];
    assert IsRun(ss, es);
    assert forall i | 0 <= i < |es| :: NoRecurrence(ss[i], es[i]);
  }

  /** Recurrence breaks this: a to b to a, and the delayed request for b lands on the second a. */
  lemma RecurrenceRevivesDelayedPost(a: Document, b: Document)
    requires a != b
    ensures exists ss: seq<State>, es: seq<Event> :: IsRun(ss, es) && Started(ss[0]) && ss[|es|].committed == Some(a) && ss[|es|].wanted.None? && ss[|es|].file == Some(b)
  {
    var late := Post(Some(a), b);
    var es := [Call(b, true), LoseResponse, Readback(false), Call(b, true), Deliver(late, Succeeded, true),
               Call(a, true), Deliver(Post(Some(b), a), Succeeded, true), Deliver(late, Succeeded, false)];
    var s0 := State(Some(a), Client(None, None), {}, Idle, Some(a), None, {Some(a)});
    var s1 := Next(s0, es[0]);
    var s2 := Next(s1, es[1]);
    var s3 := Next(s2, es[2]);
    var s4 := Next(s3, es[3]);
    var s5 := Next(s4, es[4]);
    var s6 := Next(s5, es[5]);
    var s7 := Next(s6, es[6]);
    var s8 := Next(s7, es[7]);
    var ss := [s0, s1, s2, s3, s4, s5, s6, s7, s8];
    assert IsRun(ss, es);
  }

  // ---------------------------------------------------------------- publication when nothing goes wrong

  /** An undisturbed publication succeeds: the document is on file, reported, and nothing stays pending. */
  lemma UndisturbedPublicationSucceeds(s: State, payload: Document)
    requires s.phase.Idle? && s.client.pending.None? && s.wanted.None?
    ensures Enabled(s, Call(payload, true))
    ensures var sent, post := Next(s, Call(payload, true)), Post(s.file, payload);
            && Enabled(sent, Deliver(post, Succeeded, true)) && ReportsSuccess(sent, Deliver(post, Succeeded, true))
            && var done := Next(sent, Deliver(post, Succeeded, true));
            done.file == done.committed == Some(payload) && done.client.pending.None? && done.phase.Idle?
  {
  }

  /** So does one whose answer is lost, if the file can be read back. */
  lemma LostAnswerIsReadBack(s: State, payload: Document)
    requires s.phase.Idle? && s.client.pending.None? && s.wanted.None?
    ensures var sent, post := Next(s, Call(payload, true)), Post(s.file, payload);
            && Enabled(sent, Deliver(post, Succeeded, false))
            && var landed := Next(sent, Deliver(post, Succeeded, false));
            && Enabled(landed, LoseResponse)
            && var unsure := Next(landed, LoseResponse);
            && Enabled(unsure, Readback(true)) && ReportsSuccess(unsure, Readback(true)) && !ReportsSuccess(unsure, Readback(false))
            && Next(unsure, Readback(true)).committed == Some(payload)
  {
  }
}
