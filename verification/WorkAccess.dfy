/** Who may work on an item, when a batch is granted, and what is kept of it, each written out over the fields. */
module WorkAccess {
  import opened Options
  import opened WorkJobs
  import opened WorkRuns

  /** The caller said that the work goes on under a new login. */
  predicate Resumed(op: Op) {
    !op.StartOp? && op.resume
  }

  /** The caller has the item's account, and its login unless it resumed explicitly; all but a cancellation need the item's
      credential, provider and model as well. Nothing counts that is empty. */
  predicate Entitled(j: Job, op: Op) {
    var i, who := j.identity, op.who;
    && who.account == i.account && i.account != ""
    && (who.owner == i.owner || Resumed(op))
    && i.credential != "" && i.provider != "" && i.model != ""
    && (op.CancelOp? || (who.credential == i.credential && who.provider == i.provider && who.model == i.model))
  }

  /** A caller is turned away, and nothing happens, if and only if it is not entitled. */
  lemma TurnedAwayIff(j: Job, op: Op)
    ensures Perform(j, op).reply == Rejected(403) <==> !Entitled(j, op)
    ensures !Entitled(j, op) ==> Perform(j, op).job == j
  {
    hide Written, IsId, ReceiptFor, AfterBatch, BatchResponse, AfterCancel, PublicOf, LastResponse;
  }

  // ----- what is written -----

  /** The last `n` receipts. */
  function Latest(receipts: seq<Receipt>, n: nat): seq<Receipt> {
    if n <= |receipts| then receipts[|receipts| - n..] else receipts
  }

  /** The record with its `n` latest receipts, and the context dropped if it alone is too long. */
  function Keeping(a: Around, j: Job, n: nat): Job {
    j.(provider := if a.providerSize(j.provider) > MAX_PROVIDER_BYTES then Restart else j.provider, receipts := Latest(j.receipts, n))
  }

  function Bare(j: Job): Job {
    j.(provider := Restart, task := j.task.(trace := ""))
  }

  /** As many of the last four receipts as fit, at least one if there is any; if that does not fit the context and the trace go;
      if even that does not fit nothing is written. */
  predicate Fitted(a: Around, j: Job, n: nat, w: Option<Job>) {
    && n <= 4 && (n > 0 || j.receipts == [])
    && (forall m: nat :: n < m <= 4 && m <= |j.receipts| ==> a.size(Keeping(a, j, m)) > MAX_STATE_BYTES)
    && (a.size(Keeping(a, j, n)) > MAX_STATE_BYTES ==> n <= 1)
    && w == (if a.size(Keeping(a, j, n)) <= MAX_STATE_BYTES then Some(Keeping(a, j, n))
             else if a.size(Bare(Keeping(a, j, n))) <= MAX_STATE_BYTES then Some(Bare(Keeping(a, j, n)))
             else None)
  }

  lemma {:induction false} ShedIs(a: Around, j: Job, n: nat) returns (m: nat)
    requires n <= |j.receipts|
    ensures m <= n && (n > 0 ==> m > 0)
    ensures var p := Keeping(a, j, n); Shed(a, p) == Keeping(a, j, m)
    ensures forall l: nat :: m < l <= n ==> a.size(Keeping(a, j, l)) > MAX_STATE_BYTES
    ensures a.size(Keeping(a, j, m)) > MAX_STATE_BYTES ==> m <= 1
    decreases n
  {
    var p := Keeping(a, j, n);
    if a.size(p) > MAX_STATE_BYTES && n > 1 {
      assert p.receipts[1..] == Latest(j.receipts, n - 1);
      assert p.(receipts := p.receipts[1..]) == Keeping(a, j, n - 1);
      m := ShedIs(a, j, n - 1);
    } else {
      m := n;
    }
  }

  lemma WrittenIsFitted(a: Around, j: Job) returns (n: nat)
    ensures Fitted(a, j, n, Written(a, j))
  {
    hide Shed, Keeping, Prepared, Bare;
    var k := if |j.receipts| > 4 then 4 else |j.receipts|;
    n := ShedIs(a, j, k);
    PreparedKeeps(a, j, k);
    BareIs(Keeping(a, j, n));
  }

  lemma PreparedKeeps(a: Around, j: Job, k: nat)
    requires k == if |j.receipts| > 4 then 4 else |j.receipts|
    ensures Prepared(a, j) == Keeping(a, j, k)
  {
  }

  lemma BareIs(j: Job)
    ensures Bare(j) == j.(provider := Restart, task := j.task.(trace := ""))
  {
  }

  // ----- starting a batch -----

  /** The record a claim leads to, before it is fitted. */
  function Claimed(j: Job, op: Op): Job
    requires op.ClaimOp?
  {
    Job(j.identity.(owner := op.who.owner), Running, j.batch, j.checkpoint, op.newClaim, Some(op.checkpoint),
        if j.revision == op.around.revision then j.provider else Restart,
        j.task, j.receipts, j.noProgress, j.cancelled, j.revision, j.progress)
  }

  /** A batch is granted if and only if the caller is entitled, the token is well formed, is the waiting checkpoint and was never
      answered, nothing was cancelled, no other task holds the project, the files are unchanged or the caller restarts from
      them, and the new record fits. */
  lemma GrantedIff(j: Job, op: Op)
    requires op.ClaimOp?
    ensures Perform(j, op).reply.Granted? <==>
              && Entitled(j, op)
              && 16 <= |op.checkpoint| <= 80 && (forall c <- op.checkpoint :: 'A' <= c <= 'Z' || 'a' <= c <= 'z' || '0' <= c <= '9' || c == '_' || c == '-')
              && (forall r <- j.receipts :: r.consumed != Some(op.checkpoint))
              && !j.cancelled && j.state == Checkpointed && j.checkpoint == Some(op.checkpoint)
              && !op.around.otherActive && (j.revision == op.around.revision || op.restart)
              && Written(op.around, Claimed(j, op)).Some?
    ensures Perform(j, op).reply.Granted? ==>
              Perform(j, op) == Done(Written(op.around, Claimed(j, op)).value, Granted(Written(op.around, Claimed(j, op)).value))
  {
    hide Written, PublicOf;
    assert Claimed(j, op) == j.(provider := if j.revision != op.around.revision then Restart else j.provider, identity := j.identity.(owner := op.who.owner),
                                state := Running, claim := op.newClaim, consumed := Some(op.checkpoint));
  }

  // ----- ending a batch -----

  /** The state a batch ends in. */
  function EndState(j: Job, o: Outcome): State {
    if j.cancelled then Cancelled else if Stuck(j, o) then Blocked else o.state
  }

  /** A second batch without progress that would go on. */
  predicate Stuck(j: Job, o: Outcome) {
    !j.cancelled && o.state == Checkpointed && !o.progressed && j.noProgress >= 1
  }

  /** The record a batch ends with, before its receipt and before it is fitted. */
  function Ended(j: Job, op: Op): Job
    requires op.SaveOp?
  {
    var o := op.outcome;
    Job(j.identity, EndState(j, o), j.batch + 1, if EndState(j, o) == Checkpointed then Some(op.newCheckpoint) else None, j.claim, j.consumed,
        o.provider, o.task, j.receipts, if o.progressed then 0 else j.noProgress + 1, j.cancelled, op.around.revision,
        if Stuck(j, o) then STUCK else if |o.progress| > 2000 then o.progress[..2000] else o.progress)
  }

  /** What the caller may see of an item, and whether it has to resume to go on. */
  function Shown(j: Job, who: Identity): Public {
    Public(j.state, j.checkpoint, j.batch, j.progress, j.cancelled, who.owner != j.identity.owner)
  }

  /** A new item is running under its first claim, as its caller's, and its first batch ends as it asks, progress or not. */
  lemma FirstBatchMayStall(who: Identity, claim: Token, revision: string, op: Op)
    requires op.SaveOp?
    ensures var j := New(who, claim, revision);
            && j.identity == who && j.state == Running && j.claim == claim && j.revision == revision && j.checkpoint == j.consumed == None
            && Ended(j, op).state == op.outcome.state && Ended(j, op).batch == 1
  {
  }

  function Answer(j: Job, op: Op): Response
    requires op.SaveOp?
  {
    Response(if Stuck(j, op.outcome) then WARN + STUCK else op.outcome.text,
             Shown(Ended(j, op), op.who))
  }

  function WithReceipt(j: Job, r: Receipt): Job {
    j.(receipts := j.receipts + [r])
  }

  /** A batch is saved if and only if the caller is entitled, the claim is that of the running batch, the outcome is an end, and
      the record fits; then counts, state, context, task, revision and progress are these, and the answer is kept under the
      token that started the batch. */
  lemma SavedIff(j: Job, op: Op)
    requires op.SaveOp?
    ensures var w := Written(op.around, WithReceipt(Ended(j, op), Receipt(j.consumed, Answer(j, op))));
            && (Perform(j, op).reply.Saved? <==>
                  Entitled(j, op) && j.state == Running && j.claim == op.claim && op.outcome.state != Running && w.Some?)
            && (Perform(j, op).reply.Saved? ==> Perform(j, op) == Done(w.value, Saved(Answer(j, op), Shown(Ended(j, op), op.who))))
  {
    hide Written;
    EndedIs(j, op);
  }

  lemma EndedIs(j: Job, op: Op)
    requires op.SaveOp?
    ensures AfterBatch(op.around, j, op.outcome, op.newCheckpoint) == Ended(j, op)
    ensures BatchResponse(Ended(j, op), op.outcome, op.who) == Answer(j, op)
  {
  }

  // ----- cancelling -----

  function CancelledJob(j: Job): Job {
    j.(cancelled := true, state := if j.state == Checkpointed then Cancelled else j.state)
  }

  function AfterCancelling(j: Job, op: Op): Job {
    if j.state == Checkpointed
    then WithReceipt(CancelledJob(j), Receipt(j.checkpoint, Response(CANCEL_TEXT, Shown(CancelledJob(j), op.who))))
    else CancelledJob(j)
  }

  /** A cancellation goes through if and only if the caller is entitled and the record fits; a waiting checkpoint is answered
      with it. */
  lemma CancelledIff(j: Job, op: Op)
    requires op.CancelOp?
    ensures var w := Written(op.around, AfterCancelling(j, op));
            && (Perform(j, op).reply.CancelDone? <==> Entitled(j, op) && w.Some?)
            && (Perform(j, op).reply.CancelDone? ==> Perform(j, op).job == w.value && Perform(j, op).reply.newly == (j.state == Checkpointed)
                                                     && Perform(j, op).reply.work == Shown(CancelledJob(j), op.who))
  {
    hide Written;
    var who := op.who.(credential := j.identity.credential, provider := j.identity.provider, model := j.identity.model);
    assert AfterCancel(j, who) == AfterCancelling(j, op);
  }

  // ----- over whole runs -----

  /** Writing does not touch the identity. */
  lemma StepKeepsIdentity(w: World, op: Op)
    ensures var i, k := w.job.identity, After(w, op).job.identity;
            k == i || (op.ClaimOp? && Perform(w.job, op).reply.Granted? && k == i.(owner := op.who.owner))
  {
    hide Written, Authorized, IsId, ReceiptFor;
    match op
    case StartOp(_) =>
    case ClaimOp(a, _, _, _, _, _) =>
      GrantedIff(w.job, op);
      if Perform(w.job, op).reply.Granted? { WrittenKeeps(a, Claimed(w.job, op)); }
    case SaveOp(a, _, _, _, o, t) =>
      SavedIff(w.job, op);
      if Perform(w.job, op).reply.Saved? { WrittenKeeps(a, WithReceipt(Ended(w.job, op), Receipt(w.job.consumed, Answer(w.job, op)))); }
    case CancelOp(a, _, _) =>
      CancelledIff(w.job, op);
      if Perform(w.job, op).reply.CancelDone? { WrittenKeeps(a, AfterCancelling(w.job, op)); }
  }

  predicate GrantedBefore(ws: seq<World>, ops: seq<Op>, i: nat, owner: string)
    requires |ws| == |ops| + 1 && i <= |ops|
  {
    exists k :: 0 <= k < i && ops[k].ClaimOp? && Perform(ws[k].job, ops[k]).reply.Granted? && ops[k].who.owner == owner
  }

  /** An item stays with the account, credential, provider and model it was started under; only the login changes, and only
      to that of a caller who was granted a batch. */
  lemma {:induction false} IdentityStays(ws: seq<World>, ops: seq<Op>, i: nat)
    requires IsRun(ws, ops) && i < |ws|
    ensures var first, now := ws[0].job.identity, ws[i].job.identity;
            && now == first.(owner := now.owner) && (now.owner == first.owner || GrantedBefore(ws, ops, i, now.owner))
  {
    hide Perform, After, Begin;
    if i > 0 {
      IdentityStays(ws, ops, i - 1);
      StepKeepsIdentity(ws[i - 1], ops[i - 1]);
      assert ws[i - 1 + 1] == After(ws[i - 1], ops[i - 1]);
      if ws[i].job.identity == ws[i - 1].job.identity && ws[i - 1].job.identity.owner != ws[0].job.identity.owner {
        var k :| 0 <= k < i - 1 && ops[k].ClaimOp? && Perform(ws[k].job, ops[k]).reply.Granted? && ops[k].who.owner == ws[i].job.identity.owner;
        assert GrantedBefore(ws, ops, i, ws[i].job.identity.owner);
      }
    }
  }

  /** So in any run nobody but the account the item was started under gets anything out of it, and for all but a cancellation
      only with the credential, provider and model it was started under. */
  lemma StrangersGetNothing(ws: seq<World>, ops: seq<Op>, i: nat)
    requires IsRun(ws, ops) && i < |ops|
    requires var first, who := ws[0].job.identity, ops[i].who;
             || who.account != first.account || first.account == ""
             || (!ops[i].CancelOp? && (who.credential != first.credential || who.provider != first.provider || who.model != first.model))
    ensures Perform(ws[i].job, ops[i]) == Done(ws[i].job, Rejected(403))
  {
    hide Perform;
    IdentityStays(ws, ops, i);
    TurnedAwayIff(ws[i].job, ops[i]);
  }
}
