/** What a work item's callers can rely on over any sequence of operations. */
module WorkRuns {
  import opened Options
  import opened WorkJobs

  datatype Op =
    | StartOp(who: Identity)
    | ClaimOp(around: Around, who: Identity, resume: bool, checkpoint: Token, restart: bool, newClaim: Token)
    | SaveOp(around: Around, who: Identity, resume: bool, claim: Token, outcome: Outcome, newCheckpoint: Token)
    | CancelOp(around: Around, who: Identity, resume: bool)

  function Perform(j: Job, op: Op): Done {
    match op
    case StartOp(who) => Done(j, StartAgain(j, who))
    case ClaimOp(a, who, resume, t, restart, c) => Claim(a, j, who, resume, t, restart, c)
    case SaveOp(a, who, resume, c, o, t) => Save(a, j, who, resume, c, o, t)
    case CancelOp(a, who, resume) => Cancel(a, j, who, resume)
  }

  /** The job together with what has happened to it: tokens made, checkpoints that started a batch, claims saved, every
      receipt written, batches that made progress, and whether a cancellation went through. */
  datatype World = World(job: Job, minted: set<Token>, started: set<Token>, saved: set<Token>, log: seq<Receipt>,
                         batches: nat, useful: nat, cancelled: bool)

  function MintedBy(op: Op): set<Token> {
    match op
    case StartOp(_) => {}
    case ClaimOp(_, _, _, _, _, c) => {c}
    case SaveOp(_, _, _, _, _, t) => {t}
    case CancelOp(_, _, _) => {}
  }

  function LastReceipt(j: Job): Receipt
    requires j.receipts != []
  {
    j.receipts[|j.receipts| - 1]
  }

  function After(w: World, op: Op): World {
    var d := Perform(w.job, op);
    var w' := w.(job := d.job, minted := w.minted + MintedBy(op));
    match d.reply
    case Granted(_) => w'.(started := w.started + (if op.ClaimOp? then {op.checkpoint} else {}), batches := w.batches + 1)
    case Saved(_, _) =>
      w'.(saved := w.saved + (if op.SaveOp? then {op.claim} else {}), log := if d.job.receipts == [] then w.log else w.log + [LastReceipt(d.job)],
          useful := if op.SaveOp? && op.outcome.progressed then w.useful + 1 else w.useful)
    case CancelDone(_, newly, _) => w'.(cancelled := true, log := if newly && d.job.receipts != [] then w.log + [LastReceipt(d.job)] else w.log)
    case _ => w'
  }

  function Begin(who: Identity, claim: Token, revision: string): World {
    World(New(who, claim, revision), {claim}, {}, {}, [], 1, 0, false)
  }

  /** Tokens are never made twice. */
  ghost predicate IsRun(ws: seq<World>, ops: seq<Op>) {
    && |ws| == |ops| + 1
    && (exists who, claim, revision :: ws[0] == Begin(who, claim, revision))
    && (forall i :: 0 <= i < |ops| ==> ws[i + 1] == After(ws[i], ops[i]) && MintedBy(ops[i]) !! ws[i].minted)
  }

  predicate Used(log: seq<Receipt>, t: Option<Token>) {
    exists r <- log :: r.consumed == t
  }

  predicate OncePerToken(log: seq<Receipt>) {
    forall i, j :: 0 <= i < j < |log| ==> log[i].consumed != log[j].consumed
  }

  predicate IsSuffix(s: seq<Receipt>, log: seq<Receipt>) {
    |s| <= |log| && s == log[|log| - |s|..]
  }

  predicate Known(t: Option<Token>, minted: set<Token>) {
    t.Some? ==> t.value in minted
  }

  /** A waiting checkpoint has started nothing and has no answer yet; a running batch's claim is not saved. */
  predicate TokensApart(w: World) {
    var j := w.job;
    && j.claim in w.minted && Known(j.checkpoint, w.minted) && Known(j.consumed, w.minted)
    && w.started <= w.minted && w.saved <= w.minted && (forall r <- w.log :: Known(r.consumed, w.minted))
    && (j.state == Running ==> j.claim !in w.saved && !Used(w.log, j.consumed))
    && (j.state == Checkpointed ==> j.checkpoint.Some? && j.checkpoint.value !in w.started && !Used(w.log, j.checkpoint) && !j.cancelled)
  }

  predicate LogKept(w: World) {
    OncePerToken(w.log) && IsSuffix(w.job.receipts, w.log) && (w.log != [] ==> w.job.receipts != [])
  }

  predicate Counted(w: World) {
    var j := w.job;
    && (w.cancelled <==> j.cancelled)
    && w.batches == j.batch + (if j.state == Running then 1 else 0)
    && j.batch <= 2 * w.useful + j.noProgress
    && (j.state == Running || j.state == Checkpointed ==> j.noProgress <= 1) && j.noProgress <= 2
  }

  predicate Inv(w: World) {
    TokensApart(w) && LogKept(w) && Counted(w)
  }

  /** Writing keeps everything but old receipts and context. */
  lemma WrittenKeeps(a: Around, j: Job)
    requires Written(a, j).Some?
    ensures var w := Written(a, j).value;
            && w == j.(provider := w.provider, task := w.task, receipts := w.receipts)
            && IsSuffix(w.receipts, j.receipts) && (j.receipts != [] ==> w.receipts != [])
  {
    hide Shed, IsSuffix, Last, Written;
    var p := Prepared(a, j);
    ShedKeeps(a, p);
    WrittenIsShed(a, j);
    LastIsSuffix(j.receipts);
    SuffixOf(Shed(a, p).receipts, p.receipts, j.receipts);
  }

  lemma WrittenIsShed(a: Around, j: Job)
    requires Written(a, j).Some?
    ensures var w, s := Written(a, j).value, Shed(a, Prepared(a, j)); w == s.(provider := w.provider, task := w.task)
  {
    hide Shed, Prepared;
  }

  lemma LastIsSuffix(receipts: seq<Receipt>)
    ensures IsSuffix(Last(receipts), receipts) && (receipts != [] ==> Last(receipts) != [])
  {
  }

  lemma {:induction false} ShedKeeps(a: Around, j: Job)
    ensures Shed(a, j) == j.(receipts := Shed(a, j).receipts)
    ensures IsSuffix(Shed(a, j).receipts, j.receipts) && (j.receipts != [] ==> Shed(a, j).receipts != [])
    decreases |j.receipts|
  {
    if a.size(j) > MAX_STATE_BYTES && |j.receipts| > 1 {
      ShedKeeps(a, j.(receipts := j.receipts[1..]));
      SuffixOf(Shed(a, j).receipts, j.receipts[1..], j.receipts);
    }
  }

  lemma SuffixOf(a: seq<Receipt>, b: seq<Receipt>, c: seq<Receipt>)
    requires IsSuffix(a, b) && IsSuffix(b, c)
    ensures IsSuffix(a, c)
  {
    assert c[|c| - |b|..][|b| - |a|..] == c[|c| - |a|..];
  }

  lemma SuffixGrows(a: seq<Receipt>, b: seq<Receipt>, r: Receipt)
    requires IsSuffix(a, b)
    ensures IsSuffix(a + [r], b + [r])
  {
    assert (b + [r])[|b| - |a|..] == b[|b| - |a|..] + [r];
  }

  lemma LogGrows(log: seq<Receipt>, r: Receipt)
    requires OncePerToken(log) && !Used(log, r.consumed)
    ensures OncePerToken(log + [r])
    ensures forall t :: Used(log + [r], t) <==> Used(log, t) || t == r.consumed
    ensures forall x :: x in log + [r] <==> x in log || x == r
  {
    forall t | Used(log + [r], t) ensures Used(log, t) || t == r.consumed {}
    forall t | Used(log, t) || t == r.consumed ensures Used(log + [r], t) {
      if t == r.consumed { assert r in log + [r]; } else {
        var x :| x in log && x.consumed == t;
        assert x in log + [r];
      }
    }
  }

  /** A granted claim: what the record says then. */
  predicate ClaimedFrom(w: World, op: Op, v: World)
    requires op.ClaimOp?
  {
    var j, k := w.job, v.job;
    && j.state == Checkpointed && j.checkpoint == Some(op.checkpoint) && !j.cancelled
    && k == j.(provider := k.provider, task := k.task, receipts := k.receipts, identity := k.identity,
               state := Running, claim := op.newClaim, consumed := j.checkpoint)
    && IsSuffix(k.receipts, j.receipts) && (j.receipts != [] ==> k.receipts != [])
    && v == w.(job := k, minted := w.minted + {op.newClaim}, started := w.started + {op.checkpoint}, batches := w.batches + 1)
  }

  lemma ClaimGranted(w: World, op: Op)
    requires op.ClaimOp? && Perform(w.job, op).reply.Granted?
    ensures ClaimedFrom(w, op, After(w, op))
  {
    hide Written, IsSuffix, Authorized, IsId, ReceiptFor;
    var j := w.job;
    WrittenKeeps(op.around, j.(provider := if j.revision != op.around.revision then Restart else j.provider, identity := j.identity.(owner := op.who.owner),
                               state := Running, claim := op.newClaim, consumed := Some(op.checkpoint)));
  }

  lemma ClaimKeeps(w: World, op: Op)
    requires Inv(w) && op.ClaimOp? && MintedBy(op) !! w.minted
    ensures Inv(After(w, op))
  {
    if Perform(w.job, op).reply.Granted? {
      ClaimGranted(w, op);
      GrantKeeps(w, op, After(w, op));
    } else {
      NothingHappened(w, op);
    }
  }

  lemma GrantKeeps(w: World, op: Op, v: World)
    requires Inv(w) && op.ClaimOp? && op.newClaim !in w.minted && ClaimedFrom(w, op, v)
    ensures Inv(v)
  {
    hide Used, OncePerToken, IsSuffix;
    SuffixOf(v.job.receipts, w.job.receipts, w.log);
  }

  /** A refused or repeated request changes nothing but the tokens made for it. */
  lemma NothingHappened(w: World, op: Op)
    requires Inv(w) && !(Perform(w.job, op).reply.Granted? || Perform(w.job, op).reply.Saved? || Perform(w.job, op).reply.CancelDone?)
    ensures Inv(After(w, op)) && After(w, op) == w.(minted := w.minted + MintedBy(op))
  {
    hide Written, IsSuffix, OncePerToken, Used, Authorized, IsId, ReceiptFor, AfterBatch, BatchResponse, AfterCancel;
  }

  /** One more receipt on the record and in the log. */
  lemma Answered(w: World, a: Around, j1: Job, r: Receipt)
    requires OncePerToken(w.log) && IsSuffix(w.job.receipts, w.log) && !Used(w.log, r.consumed)
    requires j1.receipts == w.job.receipts + [r] && Written(a, j1).Some?
    ensures var d := Written(a, j1).value;
            && d.receipts != [] && LastReceipt(d) == r && IsSuffix(d.receipts, w.log + [r]) && OncePerToken(w.log + [r])
            && (forall t :: Used(w.log + [r], t) <==> Used(w.log, t) || t == r.consumed)
            && (forall x :: x in w.log + [r] <==> x in w.log || x == r)
  {
    hide Written, Used, OncePerToken;
    WrittenKeeps(a, j1);
    SuffixGrows(w.job.receipts, w.log, r);
    SuffixOf(Written(a, j1).value.receipts, j1.receipts, w.log + [r]);
    LogGrows(w.log, r);
  }

  /** A saved batch: what the record says then. */
  predicate SavedFrom(w: World, op: Op, v: World, r: Receipt)
    requires op.SaveOp?
  {
    var j, k := w.job, v.job;
    var n := if op.outcome.progressed then 0 else j.noProgress + 1;
    && j.state == Running && j.claim == op.claim && op.outcome.state != Running
    && r.consumed == j.consumed && !Used(w.log, r.consumed)
    && k.state == StateAfter(j, op.outcome, n) && k.batch == j.batch + 1 && k.noProgress == n
    && k.checkpoint == (if k.state == Checkpointed then Some(op.newCheckpoint) else None)
    && k.claim == j.claim && k.consumed == j.consumed && k.cancelled == j.cancelled
    && v == w.(job := k, minted := w.minted + {op.newCheckpoint}, saved := w.saved + {op.claim}, log := w.log + [r],
               useful := if op.outcome.progressed then w.useful + 1 else w.useful)
  }

  lemma SaveWritten(w: World, op: Op) returns (r: Receipt)
    requires Inv(w) && op.SaveOp? && Perform(w.job, op).reply.Saved?
    ensures SavedFrom(w, op, After(w, op), r) && r.response == Perform(w.job, op).reply.response && LogKept(After(w, op))
  {
    hide Written, Used, OncePerToken, IsSuffix, Authorized, PublicOf, BatchResponse, StateAfter, Counted;
    var j := w.job;
    var j1 := AfterBatch(op.around, j, op.outcome, op.newCheckpoint);
    r := Receipt(j.consumed, BatchResponse(j1, op.outcome, op.who));
    Answered(w, op.around, j1.(receipts := j.receipts + [r]), r);
    WrittenKeeps(op.around, j1.(receipts := j.receipts + [r]));
  }

  lemma SaveKeeps(w: World, op: Op)
    requires Inv(w) && op.SaveOp? && MintedBy(op) !! w.minted
    ensures Inv(After(w, op))
  {
    if Perform(w.job, op).reply.Saved? {
      var r := SaveWritten(w, op);
      SavingKeeps(w, op, After(w, op), r);
    } else {
      NothingHappened(w, op);
    }
  }

  lemma SavingKeeps(w: World, op: Op, v: World, r: Receipt)
    requires TokensApart(w) && Counted(w) && op.SaveOp? && op.newCheckpoint !in w.minted && SavedFrom(w, op, v, r)
    ensures TokensApart(v) && Counted(v)
  {
    NotUsedYet(w, op.newCheckpoint);
  }

  /** A new token has no receipt. */
  lemma NotUsedYet(w: World, t: Token)
    requires TokensApart(w) && t !in w.minted
    ensures !Used(w.log, Some(t))
  {
  }

  /** A cancellation that went through: what the record says then, and the receipts added. */
  predicate CancelledFrom(w: World, v: World, added: seq<Receipt>) {
    var j, k := w.job, v.job;
    && k == j.(provider := k.provider, task := k.task, receipts := k.receipts, cancelled := true,
               state := if j.state == Checkpointed then Cancelled else j.state)
    && (if j.state == Checkpointed then |added| == 1 && added[0].consumed == j.checkpoint else added == [])
    && v == w.(job := k, cancelled := true, log := w.log + added)
  }

  lemma CancelWritten(w: World, op: Op) returns (added: seq<Receipt>)
    requires Inv(w) && op.CancelOp? && Perform(w.job, op).reply.CancelDone?
    ensures CancelledFrom(w, After(w, op), added) && LogKept(After(w, op))
  {
    hide Written, Used, OncePerToken, IsSuffix, Authorized, PublicOf, Counted;
    var j := w.job;
    var who := op.who.(credential := j.identity.credential, provider := j.identity.provider, model := j.identity.model);
    var j1 := AfterCancel(j, who);
    WrittenKeeps(op.around, j1);
    assert w.minted + MintedBy(op) == w.minted;
    if j.state == Checkpointed {
      added := [j1.receipts[|j.receipts|]];
      Answered(w, op.around, j1, added[0]);
    } else {
      added := [];
      assert w.log + added == w.log;
      SuffixOf(After(w, op).job.receipts, j.receipts, w.log);
    }
  }

  lemma CancelKeeps(w: World, op: Op)
    requires Inv(w) && op.CancelOp?
    ensures Inv(After(w, op))
  {
    hide Written, Authorized, AfterCancel, After, TokensApart, LogKept, Counted;
    if Perform(w.job, op).reply.CancelDone? {
      var added := CancelWritten(w, op);
      CancellingKeeps(w, After(w, op), added);
    } else {
      NothingHappened(w, op);
    }
  }

  lemma CancellingKeeps(w: World, v: World, added: seq<Receipt>)
    requires TokensApart(w) && Counted(w) && CancelledFrom(w, v, added)
    ensures TokensApart(v) && Counted(v)
  {
    if w.job.state != Checkpointed { assert w.log + added == w.log; }
  }

  lemma {:induction false} RunKeepsInv(ws: seq<World>, ops: seq<Op>, i: nat)
    requires IsRun(ws, ops) && i < |ws|
    ensures Inv(ws[i])
  {
    hide Inv, After, Begin;
    if i == 0 {
      var who, claim, revision :| ws[0] == Begin(who, claim, revision);
      BeginInv(who, claim, revision);
    } else {
      RunKeepsInv(ws, ops, i - 1);
      var w, op := ws[i - 1], ops[i - 1];
      assert ws[i - 1 + 1] == After(w, op);
      match op
      case StartOp(_) => NothingHappened(w, op);
      case ClaimOp(_, _, _, _, _, _) => ClaimKeeps(w, op);
      case SaveOp(_, _, _, _, _, _) => SaveKeeps(w, op);
      case CancelOp(_, _, _) => CancelKeeps(w, op);
    }
  }

  lemma BeginInv(who: Identity, claim: Token, revision: string)
    ensures Inv(Begin(who, claim, revision))
  {
  }

  lemma StepGrows(w: World, op: Op)
    ensures var v := After(w, op);
            w.started <= v.started && w.saved <= v.saved && w.log <= v.log && (w.cancelled ==> v.cancelled)
  {
    hide Perform;
  }

  lemma {:induction false} RunGrows(ws: seq<World>, ops: seq<Op>, i: nat, k: nat)
    requires IsRun(ws, ops) && i <= k < |ws|
    ensures ws[i].started <= ws[k].started && ws[i].saved <= ws[k].saved && ws[i].log <= ws[k].log && (ws[i].cancelled ==> ws[k].cancelled)
    decreases k
  {
    hide After, Begin;
    if i < k {
      RunGrows(ws, ops, i, k - 1);
      StepGrows(ws[k - 1], ops[k - 1]);
      assert ws[k - 1 + 1] == After(ws[k - 1], ops[k - 1]);
    }
  }

  predicate Starts(ws: seq<World>, ops: seq<Op>, i: nat, t: Token)
    requires i < |ops| < |ws|
  {
    ops[i].ClaimOp? && ops[i].checkpoint == t && Perform(ws[i].job, ops[i]).reply.Granted?
  }

  /** Each checkpoint starts at most one batch. */
  lemma CheckpointStartsOnce(ws: seq<World>, ops: seq<Op>, i: nat, k: nat, t: Token)
    requires IsRun(ws, ops) && i < k < |ops| && Starts(ws, ops, i, t)
    ensures !Starts(ws, ops, k, t)
  {
    hide Inv, Perform, After, Begin, IsSuffix;
    RunKeepsInv(ws, ops, k);
    assert ws[i + 1] == After(ws[i], ops[i]);
    ClaimGranted(ws[i], ops[i]);
    RunGrows(ws, ops, i + 1, k);
    NotStartedAgain(ws[k], t);
    if Starts(ws, ops, k, t) { ClaimGranted(ws[k], ops[k]); }
  }

  lemma NotStartedAgain(w: World, t: Token)
    requires Inv(w) && t in w.started
    ensures w.job.state != Checkpointed || w.job.checkpoint != Some(t)
  {
  }

  /** Each claim is saved at most once; no receipt is ever replaced. */
  lemma ClaimSavedOnce(ws: seq<World>, ops: seq<Op>, i: nat, k: nat)
    requires IsRun(ws, ops) && i < k < |ops| && ops[i].SaveOp? && ops[k].SaveOp? && ops[i].claim == ops[k].claim
    requires Perform(ws[i].job, ops[i]).reply.Saved?
    ensures !Perform(ws[k].job, ops[k]).reply.Saved? && Perform(ws[k].job, ops[k]).job == ws[k].job
  {
    RunKeepsInv(ws, ops, k);
    hide Written, Authorized, Begin, AfterBatch, BatchResponse, Used, OncePerToken, IsSuffix;
    assert ws[i + 1] == After(ws[i], ops[i]);
    RunGrows(ws, ops, i + 1, k);
  }

  /** No batch starts after a cancellation. */
  lemma NoBatchAfterCancel(ws: seq<World>, ops: seq<Op>, i: nat, k: nat, t: Token)
    requires IsRun(ws, ops) && i < k < |ops|
    requires ops[i].CancelOp? && Perform(ws[i].job, ops[i]).reply.CancelDone?
    ensures !Starts(ws, ops, k, t)
  {
    RunKeepsInv(ws, ops, k);
    hide Written, Authorized, Begin, Used, OncePerToken, IsSuffix;
    assert ws[i + 1] == After(ws[i], ops[i]);
    RunGrows(ws, ops, i + 1, k);
  }

  /** The batches paid for are at most twice those that made progress, and two more. */
  lemma BatchesAreBounded(ws: seq<World>, ops: seq<Op>, i: nat)
    requires IsRun(ws, ops) && i < |ws|
    ensures ws[i].batches <= 2 * ws[i].useful + 2
  {
    RunKeepsInv(ws, ops, i);
  }

  lemma {:induction false} ReceiptIsFirst(receipts: seq<Receipt>, i: nat)
    requires i < |receipts| && OncePerToken(receipts) && receipts[i].consumed.Some?
    ensures ReceiptFor(receipts, receipts[i].consumed.value) == Some(receipts[i].response)
  {
    if i > 0 {
      assert receipts[0].consumed != receipts[i].consumed;
      assert receipts[1..][i - 1] == receipts[i];
      ReceiptIsFirst(receipts[1..], i - 1);
    }
  }

  lemma SuffixOnce(s: seq<Receipt>, log: seq<Receipt>)
    requires IsSuffix(s, log) && OncePerToken(log)
    ensures OncePerToken(s) && forall r <- s :: r in log
  {
    var d := |log| - |s|;
    forall i, j | 0 <= i < j < |s| ensures s[i].consumed != s[j].consumed {
      assert s[i] == log[d + i] && s[j] == log[d + j];
    }
    forall r | r in s ensures r in log {
      var i :| 0 <= i < |s| && s[i] == r;
      assert log[d + i] == r;
    }
  }

  /** A claim whose token is still among the receipts is answered with the response written for that token when its one
      batch was saved (or its cancellation went through), and changes nothing. */
  lemma RetainedIsRepeated(ws: seq<World>, ops: seq<Op>, k: nat, r: Receipt)
    requires IsRun(ws, ops) && k < |ops| && ops[k].ClaimOp? && Some(ops[k].checkpoint) == r.consumed
    requires r in ws[k].job.receipts && Authorized(ws[k].job, ops[k].who, ops[k].resume) && IsId(ops[k].checkpoint)
    ensures Perform(ws[k].job, ops[k]) == Done(ws[k].job, Cached(r.response, PublicOf(ws[k].job, ops[k].who)))
    ensures r in ws[k].log && forall x <- ws[k].log :: x.consumed == r.consumed ==> x == r
  {
    RunKeepsInv(ws, ops, k);
    hide IsRun, Authorized, IsId;
    var j := ws[k].job;
    SuffixOnce(j.receipts, ws[k].log);
    var i :| 0 <= i < |j.receipts| && j.receipts[i] == r;
    ReceiptIsFirst(j.receipts, i);
  }

  /** The answer to the batch just saved is always retained, and repeated to whoever asks for its checkpoint again. */
  lemma LatestIsRepeated(ws: seq<World>, ops: seq<Op>, i: nat, again: Op)
    requires IsRun(ws, ops) && i < |ops| && ops[i].SaveOp? && Perform(ws[i].job, ops[i]).reply.Saved?
    requires again.ClaimOp? && Some(again.checkpoint) == ws[i].job.consumed && IsId(again.checkpoint)
    requires Authorized(ws[i + 1].job, again.who, again.resume)
    ensures Perform(ws[i + 1].job, again).reply == Cached(Perform(ws[i].job, ops[i]).reply.response, PublicOf(ws[i + 1].job, again.who))
  {
    RunKeepsInv(ws, ops, i);
    RunKeepsInv(ws, ops, i + 1);
    hide Written, Authorized, IsId, Begin, Used, BatchResponse, AfterBatch, Perform, Inv;
    assert ws[i + 1] == After(ws[i], ops[i]);
    var r := SaveWritten(ws[i], ops[i]);
    LatestReceipt(ws[i + 1], r);
    RepeatsLatest(ws[i + 1], again, r);
  }

  /** The first request sent again never starts anything; once a batch was saved or a checkpoint cancelled it brings the
      latest response ever written, however many receipts were dropped since. */
  lemma RepeatedStartGetsLatest(ws: seq<World>, ops: seq<Op>, k: nat, who: Identity)
    requires IsRun(ws, ops) && k < |ws| && Authorized(ws[k].job, who, false)
    ensures Perform(ws[k].job, StartOp(who)).job == ws[k].job
    ensures Perform(ws[k].job, StartOp(who)).reply ==
              if ws[k].log == [] then Rejected(409)
              else Cached(ws[k].log[|ws[k].log| - 1].response, PublicOf(ws[k].job, who))
  {
    RunKeepsInv(ws, ops, k);
    hide IsRun, Authorized, OncePerToken;
    if ws[k].log != [] { LatestReceipt(ws[k], ws[k].log[|ws[k].log| - 1]); }
  }

  lemma LatestReceipt(w: World, r: Receipt)
    requires Inv(w) && w.log != [] && w.log[|w.log| - 1] == r
    ensures w.job.receipts != [] && w.job.receipts[|w.job.receipts| - 1] == r && OncePerToken(w.job.receipts)
  {
    SuffixOnce(w.job.receipts, w.log);
  }

  lemma RepeatsLatest(w: World, again: Op, r: Receipt)
    requires again.ClaimOp? && Some(again.checkpoint) == r.consumed && IsId(again.checkpoint) && Authorized(w.job, again.who, again.resume)
    requires w.job.receipts != [] && w.job.receipts[|w.job.receipts| - 1] == r && OncePerToken(w.job.receipts)
    ensures Perform(w.job, again).reply == Cached(r.response, PublicOf(w.job, again.who))
  {
    hide IsId, Authorized;
    ReceiptIsFirst(w.job.receipts, |w.job.receipts| - 1);
  }
}
