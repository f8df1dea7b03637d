/** A resumable work item: its record on disk and what each operation makes of it. */
module WorkJobs {
  import opened Options

  type Token = string

  const KEEP := 4
  const MAX_STATE_BYTES := 2 * 1024 * 1024
  const MAX_PROVIDER_BYTES := 1024 * 1024
  const STUCK := "Two batches repeated work without useful new progress. Stopped before another paid request"
  const WARN := "```leanfm-result\n{\"status\":\"warn\"}\n```\n\n"
  const CANCEL_TEXT := WARN + "Task cancelled. Earlier checked edits remain in Project memory."

  datatype State = Running | Checkpointed | Completed | Blocked | Gate | Cancelled

  datatype Identity = Identity(account: string, owner: string, credential: string, provider: string, model: string)

  /** What a caller may see of the item. */
  datatype Public = Public(state: State, checkpoint: Option<Token>, batch: nat, progress: string, cancelled: bool, requiresResume: bool)

  datatype Response = Response(text: string, work: Public)

  /** The answer given for a checkpoint, or (None) for the first request. */
  datatype Receipt = Receipt(consumed: Option<Token>, response: Response)

  /** Context for the model: given by the caller, or a marker to rebuild it. */
  datatype Provider = Context(data: string) | Restart

  datatype Task = Task(trace: string, rest: string)

  /** The record kept on disk. */
  datatype Job = Job(
    identity: Identity, state: State, batch: nat, checkpoint: Option<Token>, claim: Token, consumed: Option<Token>,
    provider: Provider, task: Task, receipts: seq<Receipt>, noProgress: nat, cancelled: bool, revision: string, progress: string)

  /** What the operation finds around it: the project's revision, another task's reservation, and how long records are when written. */
  datatype Around = Around(revision: string, otherActive: bool, size: Job -> nat, providerSize: Provider -> nat)

  datatype Reply =
    | Rejected(status: nat)
    | Cached(response: Response, work: Public)
    | Granted(job: Job)
    | Saved(response: Response, work: Public)
    | CancelDone(work: Public, newly: bool, last: Option<Response>)

  function PublicOf(j: Job, who: Identity): Public {
    Public(j.state, j.checkpoint, j.batch, j.progress, j.cancelled, j.identity.owner != who.owner)
  }

  predicate Authorized(j: Job, who: Identity, newSession: bool) {
    && who.account != "" && who.account == j.identity.account
    && who.credential != "" && who.credential == j.identity.credential
    && who.provider != "" && who.provider == j.identity.provider
    && who.model != "" && who.model == j.identity.model
    && (j.identity.owner == who.owner || newSession)
  }

  predicate IsId(t: Token) {
    16 <= |t| <= 80 && forall c <- t :: 'A' <= c <= 'Z' || 'a' <= c <= 'z' || '0' <= c <= '9' || c == '_' || c == '-'
  }

  // ----- writing the record -----

  function Last(receipts: seq<Receipt>): (r: seq<Receipt>)
    ensures |r| <= KEEP && (receipts != [] ==> r != [])
  {
    if |receipts| > KEEP then receipts[|receipts| - KEEP..] else receipts
  }

  /** Oldest receipts go, down to one, while the record is too long. */
  function Shed(a: Around, j: Job): Job
    decreases |j.receipts|
  {
    if a.size(j) > MAX_STATE_BYTES && |j.receipts| > 1 then Shed(a, j.(receipts := j.receipts[1..])) else j
  }

  /** Oversized context is dropped and only the latest receipts stay. */
  function Prepared(a: Around, j: Job): Job {
    j.(provider := if a.providerSize(j.provider) > MAX_PROVIDER_BYTES then Restart else j.provider, receipts := Last(j.receipts))
  }

  /** What is written, if it fits. */
  function Written(a: Around, j: Job): Option<Job> {
    var j1 := Shed(a, Prepared(a, j));
    var j2 := if a.size(j1) > MAX_STATE_BYTES then j1.(provider := Restart, task := j1.task.(trace := "")) else j1;
    if a.size(j2) > MAX_STATE_BYTES then None else Some(j2)
  }

  // ----- operations -----

  datatype Done = Done(job: Job, reply: Reply)

  /** The record is replaced only if the new one fits. */
  function Stored(a: Around, was: Job, j: Job, reply: Reply): Done {
    match Written(a, j)
    case None => Done(was, Rejected(409))
    case Some(w) => Done(w, reply)
  }

  function New(who: Identity, claim: Token, revision: string): Job {
    Job(who, Running, 0, None, claim, None, Context(""), Task("", ""), [], 0, false, revision, "Starting requested work")
  }

  /** The first receipt for a token. */
  function ReceiptFor(receipts: seq<Receipt>, t: Token): (r: Option<Response>)
    ensures r.None? <==> forall x <- receipts :: x.consumed != Some(t)
  {
    if receipts == [] then None
    else if receipts[0].consumed == Some(t) then Some(receipts[0].response)
    else ReceiptFor(receipts[1..], t)
  }

  function LastResponse(receipts: seq<Receipt>): Option<Response> {
    if receipts == [] then None else Some(receipts[|receipts| - 1].response)
  }

  /** The first request sent again: its answer, once there is one. */
  function StartAgain(j: Job, who: Identity): Reply {
    if !Authorized(j, who, false) then Rejected(403)
    else if j.receipts == [] then Rejected(409)
    else Cached(LastResponse(j.receipts).value, PublicOf(j, who))
  }

  /** Continue from a checkpoint: start the next batch, or repeat the answer if the checkpoint was used before. */
  function Claim(a: Around, j: Job, who: Identity, resume: bool, checkpoint: Token, restart: bool, newClaim: Token): Done {
    if !Authorized(j, who, resume) then Done(j, Rejected(403))
    else if !IsId(checkpoint) then Done(j, Rejected(400))
    else if ReceiptFor(j.receipts, checkpoint).Some? then Done(j, Cached(ReceiptFor(j.receipts, checkpoint).value, PublicOf(j, who)))
    else if j.cancelled || j.state != Checkpointed || j.checkpoint != Some(checkpoint) || a.otherActive then Done(j, Rejected(409))
    else if j.revision != a.revision && !restart then Done(j, Rejected(409))
    else
      var j' := j.(provider := if j.revision != a.revision then Restart else j.provider, identity := j.identity.(owner := who.owner),
                   state := Running, claim := newClaim, consumed := Some(checkpoint));
      match Written(a, j')
      case None => Done(j, Rejected(409))
      case Some(w) => Done(w, Granted(w))
  }

  datatype Outcome = Outcome(state: State, provider: Provider, task: Task, progressed: bool, progress: string, text: string)

  function StateAfter(j: Job, o: Outcome, noProgress: nat): State {
    var s := if j.cancelled then Cancelled else o.state;
    if s == Checkpointed && noProgress >= 2 then Blocked else s
  }

  /** The job after a batch, before it is written, and the response to its caller. */
  function AfterBatch(a: Around, j: Job, o: Outcome, newCheckpoint: Token): Job {
    var n := if o.progressed then 0 else j.noProgress + 1;
    var s := StateAfter(j, o, n);
    var stuck := !j.cancelled && o.state == Checkpointed && n >= 2;
    j.(batch := j.batch + 1, provider := o.provider, task := o.task, noProgress := n,
       progress := if stuck then STUCK else if |o.progress| > 2000 then o.progress[..2000] else o.progress,
       state := s, checkpoint := if s == Checkpointed then Some(newCheckpoint) else None, revision := a.revision)
  }

  function BatchResponse(j: Job, o: Outcome, who: Identity): Response {
    Response(if j.state == Blocked && o.state == Checkpointed then WARN + j.progress else o.text, PublicOf(j, who))
  }

  /** The end of a batch. */
  function Save(a: Around, j: Job, who: Identity, resume: bool, claim: Token, o: Outcome, newCheckpoint: Token): Done {
    if !Authorized(j, who, resume) then Done(j, Rejected(403))
    else if j.state != Running || j.claim != claim then Done(j, Rejected(409))
    else if o.state == Running then Done(j, Rejected(400))
    else
      var j1 := AfterBatch(a, j, o, newCheckpoint);
      var response := BatchResponse(j1, o, who);
      Stored(a, j, j1.(receipts := j.receipts + [Receipt(j.consumed, response)]), Saved(response, PublicOf(j1, who)))
  }

  function AfterCancel(j: Job, who: Identity): Job {
    var j1 := j.(cancelled := true, state := if j.state == Checkpointed then Cancelled else j.state);
    if j.state == Checkpointed
    then j1.(receipts := j.receipts + [Receipt(j.checkpoint, Response(CANCEL_TEXT, PublicOf(j1, who)))])
    else j1
  }

  /** No further batch: a waiting checkpoint is answered with the cancellation. */
  function Cancel(a: Around, j: Job, caller: Identity, resume: bool): Done {
    var who := caller.(credential := j.identity.credential, provider := j.identity.provider, model := j.identity.model);
    if !Authorized(j, who, resume) then Done(j, Rejected(403))
    else
      var j1 := AfterCancel(j, who);
      Stored(a, j, j1, CancelDone(PublicOf(j1, who), j.state == Checkpointed, LastResponse(j1.receipts)))
  }

  // ----- the operations on the stored record -----

  class WorkStore {
    var job: Job

    /** A first request that succeeds. */
    constructor (who: Identity, claim: Token, revision: string)
      ensures job == New(who, claim, revision)
    {
      job := New(who, claim, revision);
    }

    /** Trims the record until it fits and stores it, or rejects it. */
    method Write(a: Around, j: Job) returns (ok: bool)
      modifies this
      ensures match Written(a, j) case None => !ok && job == old(job) case Some(w) => ok && job == w
    {
      var x := j;
      if a.providerSize(x.provider) > MAX_PROVIDER_BYTES {
        x := x.(provider := Restart);
      }
      x := x.(receipts := Last(x.receipts));
      while a.size(x) > MAX_STATE_BYTES && |x.receipts| > 1
        invariant Shed(a, x) == Shed(a, Prepared(a, j))
        decreases |x.receipts|
      {
        x := x.(receipts := x.receipts[1..]);
      }
      if a.size(x) > MAX_STATE_BYTES {
        x := x.(provider := Restart, task := x.task.(trace := ""));
      }
      if a.size(x) > MAX_STATE_BYTES {
        return false;
      }
      job := x;
      return true;
    }

    /** The first request sent again starts nothing. */
    method RepeatStart(who: Identity) returns (reply: Reply)
      ensures reply == StartAgain(job, who)
    {
      if !Authorized(job, who, false) {
        return Rejected(403);
      }
      if job.receipts != [] {
        return Cached(job.receipts[|job.receipts| - 1].response, PublicOf(job, who));
      }
      return Rejected(409);
    }

    method ClaimBatch(a: Around, who: Identity, resume: bool, checkpoint: Token, restart: bool, newClaim: Token) returns (reply: Reply)
      modifies this
      ensures Done(job, reply) == Claim(a, old(job), who, resume, checkpoint, restart, newClaim)
    {
      hide Written, IsId;
      if !Authorized(job, who, resume) {
        return Rejected(403);
      }
      if !IsId(checkpoint) {
        return Rejected(400);
      }
      for i := 0 to |job.receipts|
        invariant ReceiptFor(job.receipts, checkpoint) == ReceiptFor(job.receipts[i..], checkpoint)
      {
        if job.receipts[i].consumed == Some(checkpoint) {
          return Cached(job.receipts[i].response, PublicOf(job, who));
        }
      }
      if job.cancelled {
        return Rejected(409);
      }
      if job.state != Checkpointed || job.checkpoint != Some(checkpoint) {
        return Rejected(409);
      }
      if a.otherActive {
        return Rejected(409);
      }
      var j := job;
      if j.revision != a.revision {
        if !restart {
          return Rejected(409);
        }
        j := j.(provider := Restart);
      }
      j := j.(identity := j.identity.(owner := who.owner), state := Running, claim := newClaim, consumed := Some(checkpoint));
      var ok := Write(a, j);
      if !ok {
        return Rejected(409);
      }
      return Granted(job);
    }

    /** The job at the end of a batch: counts, state, progress and a new checkpoint. */
    method EndBatch(a: Around, o: Outcome, newCheckpoint: Token) returns (j: Job)
      ensures j == AfterBatch(a, job, o, newCheckpoint) && j.receipts == job.receipts && j.consumed == job.consumed
    {
      j := job.(batch := job.batch + 1, provider := o.provider, task := o.task, noProgress := if o.progressed then 0 else job.noProgress + 1);
      var state := o.state;
      if j.cancelled {
        state := Cancelled;
      }
      if state == Checkpointed && j.noProgress >= 2 {
        state := Blocked;
        j := j.(progress := STUCK);
      } else {
        j := j.(progress := if |o.progress| > 2000 then o.progress[..2000] else o.progress);
      }
      j := j.(state := state, checkpoint := if state == Checkpointed then Some(newCheckpoint) else None, revision := a.revision);
    }

    method SaveBatch(a: Around, who: Identity, resume: bool, claim: Token, o: Outcome, newCheckpoint: Token) returns (reply: Reply)
      modifies this
      ensures Done(job, reply) == Save(a, old(job), who, resume, claim, o, newCheckpoint)
    {
      hide Written, AfterBatch;
      if !Authorized(job, who, resume) {
        return Rejected(403);
      }
      if job.state != Running || job.claim != claim {
        return Rejected(409);
      }
      if o.state == Running {
        return Rejected(400);
      }
      var j := EndBatch(a, o, newCheckpoint);
      var response := Response(if j.state == Blocked && o.state == Checkpointed then WARN + j.progress else o.text, PublicOf(j, who));
      var work := PublicOf(j, who);
      j := j.(receipts := j.receipts + [Receipt(j.consumed, response)]);
      var ok := Write(a, j);
      if !ok {
        return Rejected(409);
      }
      return Saved(response, work);
    }

    method CancelWork(a: Around, caller: Identity, resume: bool) returns (reply: Reply)
      modifies this
      ensures Done(job, reply) == Cancel(a, old(job), caller, resume)
    {
      hide Written;
      var who := caller.(credential := job.identity.credential, provider := job.identity.provider, model := job.identity.model);
      if !Authorized(job, who, resume) {
        return Rejected(403);
      }
      var j := job.(cancelled := true);
      var newly := j.state == Checkpointed;
      if newly {
        j := j.(state := Cancelled);
        j := j.(receipts := j.receipts + [Receipt(j.checkpoint, Response(CANCEL_TEXT, PublicOf(j, who)))]);
      }
      var work := PublicOf(j, who);
      var ok := Write(a, j);
      if !ok {
        return Rejected(409);
      }
      return CancelDone(work, newly, LastResponse(j.receipts));
    }
  }
}
