/**
 Three replicas and any number of concurrent proposers as one transition system. Messages may be lost,
 delayed and reordered; disks may fail and processes may crash and restart at every step.
 */
module PaxosProtocol {
  import opened Options
  import opened PaxosBallots
  import opened PaxosStorage

  const REPLICAS := 3
  const QUORUM := 2

  /** A successful answer to "prepare". A replica that accepted nothing reports the zero ballot. */
  datatype Reply = Reply(from: nat, slot: nat, ballot: Ballot, accepted: Ballot, value: Value)

  /** Why `choose` was called, each with the status query that came before: `Put` wants its own value in the slot after
      the last, `recover` re-decides a slot from what the replicas reported. */
  datatype Cause = OwnValue(query: nat) | Redecided(query: nat)

  /** One ballot of one `choose` call, as its "prepare" request shows it. */
  datatype Attempt = Attempt(slot: nat, ballot: Ballot, want: Value, cause: Cause)

  /** An "accept" request together with the promises it was computed from. */
  datatype Proposal = Proposal(slot: nat, ballot: Ballot, value: Value, basis: seq<Reply>)

  datatype Prepared = Prepared(at: nat, slot: nat, ballot: Ballot)

  datatype Ack = Ack(from: nat, slot: nat, ballot: Ballot)

  datatype CommitMessage = CommitMessage(slot: nat, value: Value)

  datatype CommitAck = CommitAck(from: nat, slot: nat, value: Value)

  /** A successful return of `choose`. */
  datatype Outcome = Outcome(slot: nat, value: Value)

  /** What a status answer says about one slot. */
  datatype SlotState = SlotState(slot: nat, accepted: Ballot, value: Value, committed: bool)

  /** The answer of one replica to the "status" request of one `recover` call. */
  datatype Status = Status(query: nat, from: nat, slots: seq<SlotState>)

  /** One `recover` call: the value of the `Put` it is for, none if it is for a `List`, and the slots that had their
      accept quorum when it began. */
  datatype Query = Query(put: Option<Value>, before: set<nat>)

  /** What `recover` works from: all the slot states in a quorum of answers, and the end of the log they show. */
  datatype Plan = Plan(all: seq<SlotState>, end: nat)

  datatype System = System(
    replicas: seq<Replica>,
    counters: map<string, nat>,
    attempts: set<Attempt>,
    prepared: set<Prepared>,
    promises: set<Reply>,
    proposals: seq<Proposal>,
    acks: set<Ack>,
    commits: set<CommitMessage>,
    commitAcks: set<CommitAck>,
    outcomes: set<Outcome>,
    queries: map<nat, Query>,
    statuses: set<Status>,
    plans: map<nat, Plan>)

  datatype Step =
    | Prepare(node: string, slot: nat, want: Value, cause: Cause)
    | MoveCounter(node: string, counter: nat)
    | DeliverPrepare(r: nat, attempt: Attempt, fault: Fault)
    | Propose(attempt: Attempt, ok: seq<Reply>)
    | DeliverAccept(r: nat, i: nat, fault: Fault)
    | SendCommit(i: nat)
    | DeliverCommit(r: nat, message: CommitMessage, fault: Fault)
    | Return(slot: nat, value: Value)
    | RestartReplica(r: nat, k: nat, synced: nat)
    | Ask(query: nat, put: Option<Value>)
    | AnswerStatus(r: nat, query: nat, slots: seq<SlotState>)
    | PlanSlots(query: nat, good: seq<Status>, end: nat)

  const INITIAL := System([FRESH, FRESH, FRESH], map[], {}, {}, {}, [], {}, {}, {}, {}, map[], {}, map[])

  function CounterOf(s: System, node: string): nat {
    if node in s.counters then s.counters[node] else 0
  }

  /** The loop over the promises in `choose`: the value reported with the highest accepted ballot, else `chosen`. */
  function Adopt(ok: seq<Reply>, high: Ballot, chosen: Value): Value
    decreases |ok|
  {
    if ok == [] then chosen
    else if ok[0].accepted.counter > 0 && (Less(high, ok[0].accepted) || high == ZERO) then
      Adopt(ok[1..], ok[0].accepted, ok[0].value)
    else
      Adopt(ok[1..], high, chosen)
  }

  predicate DistinctSenders(ok: seq<Reply>) {
    forall i, j :: 0 <= i < j < |ok| ==> ok[i].from != ok[j].from
  }

  predicate DistinctAnswers(good: seq<Status>) {
    forall i, j :: 0 <= i < j < |good| ==> good[i].from != good[j].from
  }

  predicate HasProposal(s: System, slot: nat, b: Ballot) {
    exists i :: 0 <= i < |s.proposals| && s.proposals[i].slot == slot && s.proposals[i].ballot == b
  }

  /** Two replicas acknowledged "accept" for this ballot. */
  predicate Chosen(s: System, slot: nat, b: Ballot) {
    exists r, q :: 0 <= r < REPLICAS && 0 <= q < REPLICAS && r != q
                   && Ack(r, slot, b) in s.acks && Ack(q, slot, b) in s.acks
  }

  predicate ChosenAt(s: System, i: nat) {
    i < |s.proposals| && Chosen(s, s.proposals[i].slot, s.proposals[i].ballot)
  }

  /** Slots for which some proposal already has its accept quorum. */
  ghost function ChosenSlots(s: System): set<nat> {
    set i: nat | i < |s.proposals| && ChosenAt(s, i) :: s.proposals[i].slot
  }

  function StateOf(n: nat, x: Slot): SlotState {
    SlotState(n, x.accepted, x.value, x.committed)
  }

  /** A replica's answer: its slots in order. */
  predicate IsSnapshot(slots: seq<SlotState>, m: Slots) {
    && (forall x <- slots :: x.slot in m && x == StateOf(x.slot, m[x.slot]))
    && (forall n <- m :: StateOf(n, m[n]) in slots)
    && (forall i, j :: 0 <= i < j < |slots| ==> slots[i].slot < slots[j].slot)
  }

  /** All slot states of some answers, in the order they came. */
  function Reported(good: seq<Status>): seq<SlotState> {
    if good == [] then [] else Reported(good[..|good| - 1]) + good[|good| - 1].slots
  }

  /** Whether a slot state counts towards the end of the log. */
  predicate Counts(x: SlotState) {
    x.accepted.counter > 0 || x.committed
  }

  /** The end of the log seen by `recover`: the largest slot that counts, 0 if none. */
  predicate IsEndOfLog(all: seq<SlotState>, end: nat) {
    && (forall x <- all :: Counts(x) ==> x.slot <= end)
    && (end == 0 || exists x <- all :: Counts(x) && x.slot == end)
  }

  /** State `i` has the highest accepted ballot reported for its slot, and is the first with it. */
  predicate Wins(all: seq<SlotState>, id: nat, i: nat) {
    && i < |all| && all[i].slot == id && all[i].accepted.counter > 0
    && (forall j :: 0 <= j < i && all[j].slot == id && all[j].accepted.counter > 0 ==> Less(all[j].accepted, all[i].accepted))
    && (forall j :: i < j < |all| && all[j].slot == id && all[j].accepted.counter > 0 ==> !Less(all[i].accepted, all[j].accepted))
  }

  /** The state `recover` re-decides a slot from. */
  predicate IsSelected(all: seq<SlotState>, id: nat, x: SlotState) {
    exists i: nat :: i < |all| && Wins(all, id, i) && all[i] == x
  }

  predicate SelectsValue(all: seq<SlotState>, id: nat, v: Value) {
    exists x <- all :: IsSelected(all, id, x) && x.value == v
  }

  /** Which `choose` calls there are: the ones of `recover`, and the one of `Put` that follows. */
  predicate CanPrepare(s: System, slot: nat, want: Value, cause: Cause) {
    && cause.query in s.queries && cause.query in s.plans
    && var plan := s.plans[cause.query];
       match cause
       case OwnValue(query) => s.queries[query].put == Some(want) && slot == plan.end + 1
       case Redecided(_) => 1 <= slot <= plan.end && SelectsValue(plan.all, slot, want)
  }

  predicate CanPropose(s: System, a: Attempt, ok: seq<Reply>) {
    && a in s.attempts
    && !HasProposal(s, a.slot, a.ballot)
    && |ok| >= QUORUM
    && DistinctSenders(ok)
    && forall p <- ok :: p in s.promises && p.slot == a.slot && p.ballot == a.ballot
  }

  ghost predicate Next(s: System, step: Step, t: System) {
    match step
    case Prepare(node, slot, want, cause) => CanPrepare(s, slot, want, cause) && t == AfterPrepare(s, node, slot, want, cause)
    case MoveCounter(node, c) =>
      // catching up with a higher promised counter, or a process start that reads a later clock
      CounterOf(s, node) <= c && t == s.(counters := s.counters[node := c])
    case DeliverPrepare(r, a, fault) =>
      && r < |s.replicas| && a in s.attempts && Prepared(r, a.slot, a.ballot) !in s.prepared
      && t == AfterPromise(s, r, a, Promise(s.replicas[r], a.slot, a.ballot, fault))
    case Propose(a, ok) =>
      && CanPropose(s, a, ok)
      && t == s.(proposals := s.proposals + [Proposal(a.slot, a.ballot, Adopt(ok, ZERO, a.want), ok)])
    case DeliverAccept(r, i, fault) =>
      && r < |s.replicas| && i < |s.proposals|
      && t == AfterAccept(s, r, s.proposals[i],
                          Accept(s.replicas[r], s.proposals[i].slot, s.proposals[i].ballot, s.proposals[i].value, fault))
    case SendCommit(i) =>
      && ChosenAt(s, i)
      && t == s.(commits := s.commits + {CommitMessage(s.proposals[i].slot, s.proposals[i].value)})
    case DeliverCommit(r, m, fault) =>
      && r < |s.replicas| && m in s.commits
      && t == AfterCommit(s, r, m, Commit(s.replicas[r], m.slot, m.value, fault))
    case Return(slot, value) =>
      CanReturn(s, slot, value) && t == s.(outcomes := s.outcomes + {Outcome(slot, value)})
    case RestartReplica(r, k, synced) =>
      && r < |s.replicas| && CanRestart(s.replicas[r], k, synced)
      && t == s.(replicas := s.replicas[r := Restart(s.replicas[r], k, synced)])
    case Ask(query, put) =>
      query !in s.queries && t == s.(queries := s.queries[query := Query(put, ChosenSlots(s))])
    case AnswerStatus(r, query, slots) =>
      && r < |s.replicas| && query in s.queries && IsSnapshot(slots, s.replicas[r].mem)
      && t == s.(statuses := s.statuses + {Status(query, r, slots)})
    case PlanSlots(query, good, end) =>
      CanPlan(s, query, good) && IsEndOfLog(Reported(good), end) && t == s.(plans := s.plans[query := Plan(Reported(good), end)])
  }

  /** `nextBallot` takes the successor of the node's counter. */
  function AfterPrepare(s: System, node: string, slot: nat, want: Value, cause: Cause): System {
    var c := CounterOf(s, node) + 1;
    s.(counters := s.counters[node := c], attempts := s.attempts + {Attempt(slot, Ballot(c, node), want, cause)})
  }

  function AfterPromise(s: System, r: nat, a: Attempt, p: PromiseResult): System
    requires r < |s.replicas|
  {
    s.(replicas := s.replicas[r := p.after],
       prepared := s.prepared + {Prepared(r, a.slot, a.ballot)},
       promises := if p.ok then s.promises + {ReplyOf(r, a, p.reply)} else s.promises)
  }

  function AfterAccept(s: System, r: nat, p: Proposal, a: Appended): System
    requires r < |s.replicas|
  {
    s.(replicas := s.replicas[r := a.after],
       acks := if a.ok then s.acks + {Ack(r, p.slot, p.ballot)} else s.acks)
  }

  function AfterCommit(s: System, r: nat, m: CommitMessage, c: Appended): System
    requires r < |s.replicas|
  {
    s.(replicas := s.replicas[r := c.after],
       commitAcks := if c.ok then s.commitAcks + {CommitAck(r, m.slot, m.value)} else s.commitAcks)
  }

  /** `choose` succeeds once two replicas acknowledged its commit. */
  predicate CanReturn(s: System, slot: nat, value: Value) {
    && CommitMessage(slot, value) in s.commits
    && exists r, q :: 0 <= r < REPLICAS && 0 <= q < REPLICAS && r != q
                      && CommitAck(r, slot, value) in s.commitAcks && CommitAck(q, slot, value) in s.commitAcks
  }

  predicate CanPlan(s: System, query: nat, good: seq<Status>) {
    && query in s.queries && query !in s.plans
    && |good| >= QUORUM && DistinctAnswers(good)
    && forall a <- good :: a in s.statuses && a.query == query
  }

  function ReplyOf(r: nat, a: Attempt, x: Slot): Reply {
    Reply(r, a.slot, a.ballot,
          if x.hasAccepted then x.accepted else ZERO,
          if x.hasAccepted then x.value else NO_VALUE)
  }

  /** A finite execution: it starts empty and every system follows from the one before. */
  ghost predicate IsRun(run: seq<System>, steps: seq<Step>) {
    && |run| == |steps| + 1
    && run[0] == INITIAL
    && forall i :: 0 <= i < |steps| ==> Next(run[i], steps[i], run[i + 1])
  }
}
