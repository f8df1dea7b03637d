# What is modelled

Six independent components of the repository, each modelled in Dafny and proved against an independent
definition of what it is for.

- **Replicated log** (`Paxos*.dfy`). Three replicas of the PaxosKV store. `PaxosStorage` gives one acceptor as values:
  memory, the lines of its write-ahead log, how many of them a crash can no longer take, and whether the file ends in
  a torn line. `PaxosStore` is the `Store` object updated in place, on the bytes of a log file; `PaxosWal` is what
  cutting such a file does to its lines, `PaxosHistory` what survives in the log, `PaxosLives` which acknowledgements
  survive, and `PaxosCodec` one line format that meets what is asked of lines. `PaxosProtocol` is the transition
  system: any number of concurrent proposers; messages lost, late and reordered, and repeated too, except that a
  replica handles each `prepare` request at most once; writes and syncs that fail at any step; processes that crash
  and restart; `Put` and `List` calls that ask for the replicas' state, re-decide old slots and take the slot after
  the last. `PaxosInvariant`, `PaxosSteps` and `PaxosTheorems` prove agreement, validity, durability and real-time
  order over all its runs. A later `commit` rewrites a slot's value without its accepted ballot, so a promise may
  report an old ballot with a chosen value; the invariant says that a reported value is what was proposed at the
  reported ballot or is already chosen, and the proof goes by induction on the order in which proposals were made.
  `PaxosDurable` joins the lives of single acceptors to the runs, and `PaxosNode` and `PaxosStatus`
  have the proposer's loops and the answer to a status request.
- **N-player Go** (`Go*.dfy`, `Words.dfy`). `GoBoard` defines groups without any algorithm, as the least closed sets of
  cells; `GoRules` says what a move does; `GoEngine` has the program's arrays, stamps and explicit stacks, proved to do
  exactly that. `GoAlive`, `GoSuicide`, `GoCapture`, `GoKo`, `GoStones` and `GoScore` prove the rules' promises,
  `GoRuns` carries them over whole games with the superko history, `GoEnds` and `GoKoRule` tell from the moves alone when
  a game is over and what ko forbids. `GoTurns` and `GoGame` are the server's turn machine: deadlines, bot searches,
  resignations, autopilot; `GoServing` is any sequence of requests, answers and timers, `GoAsking` says who may do what in
  it, and `GoBowl` what its tally of captured stones means.
- **GIF encoder** (`Lzw*.dfy`). The LZW encoder with its bit packing and sub-blocks, against a decoder written from
  Appendix F of the GIF89a specification; `LzwFormat` has that format's bit order, first codes and code lengths.
- **Wire codec** (`Codec*.dfy`). Varints, tagged fields, nested and repeated messages, a cursor decoder, frames on a
  connection that may break anywhere; `CodecTable` gives the bytes themselves. The formats are those of "Base 128 Varints" and "Message Structure" in the
  Protocol Buffers encoding specification.
- **Resumable work** (`Work*.dfy`). Start, claim, save and cancel of a work item with single-use tokens and kept
  receipts; `WorkAccess` says who may work on an item and what is kept of each batch.
- **Smaller cores**. Longest-path layering (`Layering`), the sweep over order intervals (`Sweep`) and the bakery's
  first-in-first-out stock (`Bakery*.dfy`), with the books of every batch in `BakeryLedger`.

Classes carry the fields the program updates; each method is proved against a function of the old state, and the
lemmas are about those functions. Statements over runs quantify over every run, with no bound on its length.

Four claims that the design might suggest are false of the code; each has a concrete input and an exact condition:

- A replica's committed value can change (`PaxosOverwrite.CommittedValueCanChange`,
  `PaxosOverwrite.AcceptKeepsCommittedIff`); in a run only requests from below the chosen ballot can do that
  (`PaxosOverwrite.OnlyStaleRequestsDiffer`). What was chosen is not affected.
- A store that goes on after a write that failed part way may never open again: the next line is glued to the fragment
  (`PaxosHistory.GluedOnceNeverReopens`). It opens after every crash exactly if no line was ever glued
  (`PaxosHistory.AlwaysReopensIff`), and after some crash exactly if nothing was acknowledged from a glued line on
  (`PaxosHistory.ReopensIff`). Whenever it opens, no record that an acknowledged write put in the log is missing
  (`PaxosHistory.CrashSafe`).
- An acknowledged promise can be lost: a promise found equal in memory is acknowledged without a write, and a start
  that has no fragment to cut off does not sync the lines it finds (`PaxosLives.RepeatedPromiseIsLost`). Over every history of operations, failures and
  crashes an acknowledgement stands exactly if it was written, or some write was acknowledged since the last start, or
  the log found at that start promises the ballot wherever it may be cut (`PaxosLives.AcknowledgedSurvivesIff`);
  acceptances and commits are always written. If every start synced what it found, nothing acknowledged would ever be
  lost (`PaxosLives.SyncingStartsLoseNothing`). In the protocol such a promise only comes after its ballot has made its
  proposal (`PaxosDurable.AcknowledgedPromiseBinds`), so agreement is not affected.
- With three or more seats a capture can leave a dead group on the board, when two dead groups touch
  (`GoSaved.DeadGroupCanStay`, `GoCapture.AllTakenIff`). The comment at the head of `engine.go` says every such group
  is removed; the model follows the code. No group is dead once the move is over.

The bakery looks only at the front of a shelf for expired bread. That is enough exactly if no fresh lot stands before an
expired one (`BakeryShelf.FrontIsEnoughIff`), and the simulation keeps its shelves in that order.

## Model

| member | source | states |
|---|---|---|
| `PaxosBallots.StrictTotalOrder` | projects/PaxosKV/source/internal/paxos/storage.go:21-24 | Ballots are strictly and totally ordered by counter and node, with the zero ballot at the bottom |
| `PaxosStorage.AppendPossible` | projects/PaxosKV/source/internal/paxos/storage.go:130-143 | Whatever an acceptor may show after an append, failed or not, it might have shown before, or is that with the one record applied; after a successful append nothing else |
| `PaxosStorage.RestartPossible` | projects/PaxosKV/source/internal/paxos/storage.go:72-110 | A restart shows nothing the acceptor might not have shown already |
| `PaxosStorage.PromiseAnswers` | projects/PaxosKV/source/internal/paxos/storage.go:145-158 | A promise is given exactly for ballots not below the one promised, on disk unless it repeats it; the reply is the slot with that ballot, or as it was, and no other slot changes |
| `PaxosStorage.AcceptAnswers` | projects/PaxosKV/source/internal/paxos/storage.go:160-173 | An acceptance is given exactly for ballots not below the promise, unless another value was accepted under that ballot, and once on disk; promised and accepted ballot and value are then those asked for, and the commit mark stays |
| `PaxosStorage.CommitAnswers` | projects/PaxosKV/source/internal/paxos/storage.go:175-182 | A commit is taken exactly unless another value was committed, once on disk; only the value and the mark change |
| `PaxosWal.CutKeepsLines` | projects/PaxosKV/source/internal/paxos/storage.go:72-110 | A file cut after any byte holds its first complete lines unchanged, and nothing else that counts as a line |
| `PaxosWal.CutIsRestart` | projects/PaxosKV/source/internal/paxos/storage.go:72-110 | Cutting the file anywhere past its synced lines leaves a log that begins as before and keeps at least those |
| `PaxosStore.Store.Append` | projects/PaxosKV/source/internal/paxos/storage.go:130-143 | The bytes written, torn or whole, and the slot table change as the acceptor's append says, and success means synced |
| `PaxosStore.Store.Promise` | projects/PaxosKV/source/internal/paxos/storage.go:145-158 | Refuses lower ballots, repeats an equal promise, otherwise logs the promise before it counts |
| `PaxosStore.Store.Accept` | projects/PaxosKV/source/internal/paxos/storage.go:160-173 | Refuses ballots below the promise and a second value for an accepted ballot, otherwise logs the acceptance before it counts |
| `PaxosStore.Store.Commit` | projects/PaxosKV/source/internal/paxos/storage.go:175-182 | Refuses a second committed value, otherwise logs the commit before it counts |
| `PaxosStore.Store.Recover` | projects/PaxosKV/source/internal/paxos/storage.go:72-110 | Reading the file rebuilds the fold of its records and cuts off an unterminated end; it fails exactly if some complete line is not a record |
| `PaxosStore.Store.Entries` | projects/PaxosKV/source/internal/paxos/storage.go:193-211 | The entries are, for each key, the committed value in the highest slot, with the highest committed slot |
| `PaxosStore.CrashAndReopen` | projects/PaxosKV/source/internal/paxos/storage.go:52-110 | A crash that cuts the file after any byte past the synced lines and a reopening is the protocol's restart, and fails exactly when that is impossible |
| `PaxosHistory.UngluedLogIsWritten` | projects/PaxosKV/source/internal/paxos/storage.go:130-143 | Unless a line was glued to a fragment, the log holds exactly the records whose lines were written |
| `PaxosHistory.CrashSafe` | projects/PaxosKV/source/internal/paxos/storage.go:72-143 | For every history of appends with any failures and every crash after which the log can be read, a restart finds the fold of a first part of the records written, with every record of an acknowledged append in it at its place |
| `PaxosHistory.AcknowledgedForGood` | projects/PaxosKV/source/internal/paxos/storage.go:52-143 | Through any number of crashes and starts, an acknowledged record stays in the log where it was written, and memory is what the log amounts to |
| `PaxosHistory.GluedIsLost` | projects/PaxosKV/source/internal/paxos/storage.go:72-84 | If a write failed part way, a later line was written and one from then on acknowledged, no restart can read the log |
| `PaxosHistory.ReopensIff` | projects/PaxosKV/source/internal/paxos/storage.go:72-143 | A store can be opened again after some crash if and only if no append was acknowledged at or after one glued to a failed write |
| `PaxosHistory.AlwaysReopensIff` | projects/PaxosKV/source/internal/paxos/storage.go:72-143 | A store can be opened again after every crash if and only if no line was written after a write that failed part way |
| `PaxosHistory.GluedOnceNeverReopens` | projects/PaxosKV/source/internal/paxos/storage.go:72-143 | A concrete life: one record cut off half way, the next acknowledged, and no start ever again |
| `PaxosLives.AcknowledgedSurvivesIff` | projects/PaxosKV/source/internal/paxos/storage.go:52-183 | For every history of promises, acceptances, commits, failures and crashes: an acknowledged operation stands whatever follows if and only if it was written, or (a promise repeated from memory) a write was acknowledged since the last start, or the log found at that start promises it at every cut |
| `PaxosLives.SurvivesIffSecured` | projects/PaxosKV/source/internal/paxos/storage.go:72-183 | What was acknowledged survives every continuation if and only if no table the acceptor may show now lacks it |
| `PaxosLives.RepeatedPromiseIsLost` | projects/PaxosKV/source/internal/paxos/storage.go:145-158 | A concrete life for any slot and ballot: a promise whose sync failed is found at a start, acknowledged again without a write, and gone after a crash |
| `PaxosLives.SyncingStartsLoseNothing` | projects/PaxosKV/source/internal/paxos/storage.go:72-110 | If every start made all the lines it found durable, every acknowledged operation would survive everything |
| `PaxosInvariant.AdoptPicksHighest` | projects/PaxosKV/source/internal/paxos/node.go:217-225 | `choose` takes the value reported with the highest accepted ballot, and its own only if no promise reports an acceptance |
| `PaxosInvariant.HighestReport` | projects/PaxosKV/source/internal/paxos/node.go:187-225 | Above a chosen ballot, a proposal's promises include a report no lower than it, and an earlier proposal explains the value taken |
| `PaxosInvariant.FollowsChosen` | projects/PaxosKV/source/internal/paxos/node.go:187-236 | Every proposal above a chosen ballot carries the chosen value, although reports may pair old ballots with chosen values |
| `PaxosSteps.StepKeepsInv` | projects/PaxosKV/source/internal/paxos/node.go:78-119 | Every step of every process, message and disk keeps the protocol's invariant |
| `PaxosSteps.RunKeepsInv` | projects/PaxosKV/source/internal/paxos/node.go:187-248 | The invariant holds in every state of every run |
| `PaxosTheorems.ChosenValuesAgree` | projects/PaxosKV/source/internal/paxos/node.go:226-236 | In every run all values that reach an accept quorum for one slot, at whatever times, are equal |
| `PaxosTheorems.Agreement` | projects/PaxosKV/source/internal/paxos/node.go:187-248 | In every run all values with an accept quorum, all commit messages and all successful `choose` calls for one slot carry one value, and what `choose` returned has an accept quorum |
| `PaxosTheorems.Validity` | projects/PaxosKV/source/internal/paxos/node.go:187-323 | Every value `choose` returns, and every value with an accept quorum, is one that some client's `Put` asked for in that slot; what `recover` re-decides goes back to such a `Put` |
| `PaxosTheorems.BallotsAreFresh` | projects/PaxosKV/source/internal/paxos/node.go:38 | `nextBallot` never issues a ballot twice in a run, provided a restarted node's clock is not behind its counter |
| `PaxosTheorems.AcknowledgedIsDurable` | projects/PaxosKV/source/internal/paxos/storage.go:112-173 | A replica that acknowledged an acceptance shows, now and after any crash, an acceptance at that ballot or above, and none above its promise |
| `PaxosTheorems.AcceptedUpToPromised` | projects/PaxosKV/source/internal/paxos/storage.go:112-173 | No replica ever shows an accepted ballot above the promised one, before or after any crash |
| `PaxosTheorems.PromisesNeverRecede` | projects/PaxosKV/source/internal/paxos/storage.go:72-182 | Over any stretch of a run no operation, failed write or restart takes back a promise that had become binding |
| `PaxosDurable.AcknowledgedPromiseBinds` | projects/PaxosKV/source/internal/paxos/storage.go:145-158 | A promise a replica acknowledged is binding at every later time of the run, unless its ballot had already made its proposal |
| `PaxosDurable.AcknowledgedCommitStays` | projects/PaxosKV/source/internal/paxos/storage.go:175-183 | A replica that acknowledged a commit shows the slot as committed at every later time, now and after any crash |
| `PaxosDurable.ReplicasLive` | projects/PaxosKV/source/internal/paxos/node.go:78-110 | Every replica of every run lives one of the lives of an acceptor, so all that holds of lives holds of runs |
| `PaxosTheorems.RealTimeOrder` | projects/PaxosKV/source/internal/paxos/node.go:250-323 | If `choose` succeeded at a slot before a later `Put` asked for the replicas' state, that `Put` asks for and proposes its own value only in slots beyond it |
| `PaxosNode.AdoptValue` | projects/PaxosKV/source/internal/paxos/node.go:214-225 | The loop over the promises computes the adopted value |
| `PaxosNode.Node.NextBallot` | projects/PaxosKV/source/internal/paxos/node.go:38 | Issues the successor of the counter under the node's name |
| `PaxosNode.Node.CatchUp` | projects/PaxosKV/source/internal/paxos/node.go:205-209 | Leaves the counter at the larger of itself and the highest counter seen, whichever way the swap goes |
| `PaxosNode.Node.Choose` | projects/PaxosKV/source/internal/paxos/node.go:187-248 | Over the answers themselves: no prepare quorum exactly if no round has two promises; otherwise the first round with two promises counts, and the value is the caller's own if no promise of that round reports an acceptance, else the one reported first at the highest accepted ballot; it is returned exactly if two replicas accepted and two committed; the ballot is the node's counter, which is determined |
| `PaxosNode.ChooseTakesSteps` | projects/PaxosKV/source/internal/paxos/node.go:187-248 | A successful `choose` is a proposal, a commit message and a return of the protocol, all with the value it returns, given only that the promises among its answers are promises replicas made and the acknowledgements are theirs; the promises it proposes with are exactly the successful answers |
| `PaxosNode.AttemptIsPrepare` | projects/PaxosKV/source/internal/paxos/node.go:191-193 | Each attempt's ballot is a prepare step of the protocol: the node's next counter under its name |
| `PaxosNode.CatchUpIsStep` | projects/PaxosKV/source/internal/paxos/node.go:205-209 | Catching up with the counters promised elsewhere is a step of the protocol |
| `PaxosNode.RetriesGoBeyond` | projects/PaxosKV/source/internal/paxos/node.go:191-209 | A retry's ballot is above all tried before and above every promise that refused them |
| `PaxosNode.CounterComesFrom` | projects/PaxosKV/source/internal/paxos/node.go:191-209 | After any refused rounds the counter is at least one more a round, at least every promised counter that came back, and no larger than what brought it there |
| `PaxosNode.QuorumOfVotes` | projects/PaxosKV/source/internal/paxos/node.go:226-247 | The count of acknowledgements reaches the quorum exactly if two different answers say yes |
| `PaxosStatus.StatusEnvelope` | projects/PaxosKV/source/internal/paxos/node.go:137-144 | A status answer has every slot of the replica once, as it stands, in ascending order: what the protocol's step asks for |
| `PaxosStatus.OneSnapshot` | projects/PaxosKV/source/internal/paxos/node.go:137-144 | What a replica holds leaves it exactly one answer to give |
| `PaxosNode.PlanRecovery` | projects/PaxosKV/source/internal/paxos/node.go:262-287 | Recovery stops at the largest slot accepted or committed anywhere and re-decides each slot up to it from the first report with the highest accepted ballot, which is what the protocol's steps allow it |
| `PaxosStatus.RecoveryIsAllowed` | projects/PaxosKV/source/internal/paxos/node.go:250-323 | With the answers of two replicas, planning is a step of the protocol, and so is every ballot `recover` and `Put` then ask for |
| `PaxosOverwrite.AcceptKeepsCommittedIff` | projects/PaxosKV/source/internal/paxos/storage.go:160-173 | An accepted request leaves a committed value alone exactly if it is refused or carries that value |
| `PaxosOverwrite.OnlyStaleRequestsDiffer` | projects/PaxosKV/source/internal/paxos/node.go:226-236 | Only proposals below every chosen ballot of a slot can carry another value than the chosen one |
| `PaxosOverwrite.CommittedValueCanChange` | projects/PaxosKV/source/internal/paxos/storage.go:112-182 | A run in which a replica commits the chosen value and later shows another one |
| `Lzw.Emit` | projects/GoServer/source/cmd/demo/static/gameview.js:434 | Codes go out least significant bit first; the bytes and what is pending are the bits so far |
| `Lzw.DecoderCatchesUp` | projects/GoServer/source/cmd/demo/static/gameview.js:433-435 | The decoder's table lags the encoder's by one entry, and adding the entry for a code just defined (the first-pixel rule) gives the same table |
| `Lzw.PendingIsRead` | projects/GoServer/source/cmd/demo/static/gameview.js:433-436 | A decoder in step reads each pixel code at its own current width and outputs exactly the pixels it stands for |
| `Lzw.ClearIsRead` | projects/GoServer/source/cmd/demo/static/gameview.js:435 | At 4096 codes the clear is read at the width the decoder expects and restarts it |
| `Lzw.Encode` | projects/GoServer/source/cmd/demo/static/gameview.js:433-436 | For every pixel sequence and code size from 2 to 8 bits the decoder recovers exactly the pixels; an empty sequence comes out as one pixel 0 |
| `LzwFormat.StreamBit` | projects/GoServer/source/cmd/demo/static/gameview.js:434 | Bit j of byte i, least significant first, is bit 8*i+j of the code stream |
| `LzwFormat.CodeBit` | projects/GoServer/source/cmd/demo/static/gameview.js:434 | A code's least significant bit comes first |
| `LzwFormat.FirstCodes` | projects/GoServer/source/cmd/demo/static/gameview.js:433 | With eight bits a pixel the codes up to 255 are the pixels, 256 clears, 257 ends, and codes have nine bits at first |
| `LzwFormat.CodeLengthFits` | projects/GoServer/source/cmd/demo/static/gameview.js:435 | After any codes the code length is the shortest, up to 12 bits, that can hold the next code to be defined |
| `Lzw.SubBlocks` | projects/GoServer/source/cmd/demo/static/gameview.js:440 | Cutting into blocks of at most 255 bytes is undone by reading the blocks, whatever follows |
| `Lzw.EncodeFrame` | projects/GoServer/source/cmd/demo/static/gameview.js:439-440 | Unblocking and decoding a frame's image data gives the frame's pixels |
| `GoBoard.SameGroup` | projects/GoServer/source/engine.go:168-197 | Any stone of a group has the same group |
| `GoBoard.ClearKeepsOthers` | projects/GoServer/source/engine.go:199-222 | Taking off one group leaves every other as it is, with at least its liberties |
| `GoBoard.PlaceKeepsOthers` | projects/GoServer/source/engine.go:270-273 | A stone leaves every group it does not join as it is, minus that liberty |
| `GoFill.Filled` | projects/GoServer/source/engine.go:168-222 | A fill with nothing pending has marked exactly the group and found exactly its liberties |
| `GoEngine.State.constructor` | projects/GoServer/source/engine.go:109-113 | A new game starts on the empty board with seat 1 to move |
| `GoEngine.State.Clone` | projects/GoServer/source/engine.go:115-120 | A copy equal to the position in arrays of its own |
| `GoEngine.State.IsTerminal` | projects/GoServer/source/engine.go:126-141 | Computes whether the position counts as over; what that means is `GoEnds.TerminalIffOver` |
| `GoEngine.Work.Next` | projects/GoServer/source/engine.go:157-166 | A stamp that no mark carries, also when the 32-bit stamp is used up |
| `GoEngine.Work.LibsUpTo` | projects/GoServer/source/engine.go:168-197 | The number of distinct liberties of the group, counted up to the limit |
| `GoEngine.Work.RemoveGroup` | projects/GoServer/source/engine.go:199-222 | Exactly the group's cells become open, the count is its size, and the hash is again the hash of the board |
| `GoEngine.Work.Place` | projects/GoServer/source/engine.go:270-308 | Captures in the program's order, suicide, ko and hash come out as the rules say |
| `GoEngine.Work.Play` | projects/GoServer/source/engine.go:249-312 | Every kind of move changes the whole position as the rules say |
| `GoEngine.Work.WouldSuicide` | projects/GoServer/source/engine.go:414-432 | Answers from liberty counts alone whether the point is doomed |
| `GoEngine.Work.Region` | projects/GoServer/source/engine.go:341-360 | The fill visits exactly the open region once and collects exactly the colours around it |
| `GoEngine.Work.Score` | projects/GoServer/source/engine.go:321-373 | Territory is the number of open points whose region borders that seat's stones only, the score that less the losses, and the owner map agrees |
| `GoRules.HashUpdate` | projects/GoServer/source/engine.go:210-273 | Changing one cell changes the hash of the board by that cell's two words, so the incremental hash is the hash of the board |
| `GoAlive.CapturesKeep` | projects/GoServer/source/engine.go:275-289 | While captures go on, every group has a liberty, holds the new stone or is still to be visited |
| `GoAlive.PlayLeavesNoDead` | projects/GoServer/source/engine.go:249-312 | After every move every group has a liberty, with any number of seats and whatever the order of captures |
| `GoSuicide.OpponentDiesIff` | projects/GoServer/source/engine.go:425-429 | A neighbouring opponent's group is dead after the stone exactly if the point was its only liberty |
| `GoSuicide.SuicideIffDoomed` | projects/GoServer/source/engine.go:414-432 | On every position and open point, `wouldSuicide` holds if and only if `Play` there reports suicide |
| `GoCapture.CapturesCatch` | projects/GoServer/source/engine.go:275-289 | Only cells of groups left dead by the stone come off, whole groups at a time, and of two that touch at most one |
| `GoCapture.AllTakenIff` | projects/GoServer/source/engine.go:275-289 | All opponents' groups left dead by a stone come off if and only if no two of them touch |
| `GoCapture.ExactlyTheDead` | projects/GoServer/source/engine.go:275-289 | If no two touch, exactly the cells of the dead groups come off, so the order of directions is of no account |
| `GoCapture.OneOpponentNoneTouch` | projects/GoServer/source/engine.go:275-289 | If all dead groups are one seat's, no two touch |
| `GoSaved.DeadGroupCanStay` | projects/GoServer/source/engine.go:270-293 | A game of three seats, every group alive and the game not over, in which a permitted stone takes only one of the two groups it leaves without a liberty |
| `GoKo.KoIsSet` | projects/GoServer/source/engine.go:296-306 | The ko is set only after a single stone was taken by a lone stone whose one liberty is where it stood |
| `GoKo.KoIsSuperko` | projects/GoServer/source/engine.go:235-237 | With two seats the move refused as ko would bring back exactly the board and the seat to move from before the capture |
| `GoKo.KoBringsTurnBackIff` | projects/GoServer/source/engine.go:302-306 | A move refused as ko brings back the seat to move if and only if there are two seats |
| `GoStones.PlayConservesStones` | projects/GoServer/source/engine.go:270-295 | A move changes each seat's stones plus losses only by the stone it places, and its result accounts for every loss |
| `GoStones.PlayCountsStones` | projects/GoServer/source/engine.go:270-295 | Captured and suicide together count the stones that left the board, and only one of them is nonzero |
| `GoScore.RegionOwner` | projects/GoServer/source/engine.go:361-371 | A region whose collected colours are one is owned by that seat at every point, and by nobody otherwise |
| `GoScore.EveryPointCountsOnce` | projects/GoServer/source/engine.go:321-373 | Territories of all seats, neutral points and stones add up to N*N |
| `GoScore.PointsCount` | projects/GoServer/source/engine.go:64-70 | The points inside the walls number N*N |
| `GoRuns.EmptyIsSound` | projects/GoServer/source/engine.go:55-70 | The empty walled board is sound: its points have four neighbours and its hash is 0 |
| `GoRuns.GameIsHealthy` | projects/GoServer/source/game.go:663-700 | In every position of every game the board is sound, no group is dead, the move number counts the moves and tells whose turn it is |
| `GoRuns.SeenIffOccurred` | projects/GoServer/source/game.go:644-659 | `seen` answers exactly whether the board and seat to move occurred in the game so far, whatever keys collide |
| `GoRuns.NoPlacementRepeats` | projects/GoServer/source/game.go:615-631 | With ko on, no stone placed in any game brings back a board with the same seat to move |
| `GoRuns.KoNeverBindsAlone` | projects/GoServer/source/engine.go:235-237 | In every two-seat game a move refused as ko would have been refused by superko |
| `GoRuns.StonesAreConserved` | projects/GoServer/source/engine.go:270-295 | At every point of every game each seat's stones and losses make up the stones it placed |
| `GoEnds.TerminalIffOver` | projects/GoServer/source/engine.go:126-141 | In every game, told from the moves alone: it is over after i moves exactly if i reaches 3*N*N, or every seat has resigned or has passed with no stone placed since, or since the last other move of a seat still in there were timeouts, at least as many as seats still in |
| `GoEnds.GameKeepsBooks` | projects/GoServer/source/engine.go:249-268 | In every position of every game the resigned seats, the passes and the timeouts kept by the program are what the moves amount to |
| `GoKoRule.KoIsSetIff` | projects/GoServer/source/engine.go:296-306 | The ko point is set, for the seat that lost the stone and until its next turn, exactly if with ko on a stone standing alone took exactly the one stone there and has no other liberty |
| `GoKoRule.KoRefusesIff` | projects/GoServer/source/engine.go:235-237 | In any game an open point is refused as ko exactly if the last move took exactly the one stone there with a lone stone, and the stone was of the seat now to move |
| `GoTurns.StartedKeeps` | projects/GoServer/source/game.go:516-525 | A started game satisfies the turn machine's invariant |
| `GoTurns.AppliedKeeps` | projects/GoServer/source/game.go:663-752 | Ending a turn leads, through however many passes and lost turns, to a finished game or an open turn: not over, no resigned seat to move, a timer for the current revision unless closed, a search if a bot is to move |
| `GoTurns.PlayRequestKeeps` | projects/GoServer/source/game.go:565-612 | A player's request changes nothing or ends the turn, and keeps the invariant |
| `GoTurns.BotAnswerKeeps` | projects/GoServer/source/game.go:774-794 | A bot's answer changes something if and only if it is for the current revision of a game under way with a bot in the seat |
| `GoTurns.TimerFiredKeeps` | projects/GoServer/source/game.go:822-830 | A timer changes something if and only if it is for the current revision of a game under way |
| `GoTurns.AutopilotRequestKeeps` | projects/GoServer/source/game.go:529-562 | Handing over or taking back a seat keeps the invariant, and restarts the turn if it is that seat's |
| `GoTurns.ShutDownKeeps` | projects/GoServer/source/game.go:1136-1151 | Closing the server keeps the invariant |
| `GoServing.RunKeeps` | projects/GoServer/source/game.go:516-830 | At every moment of every sequence of requests, bot answers and timers: the table shows a game of the rules with one record a move; a game under way is not over, waits on no resigned seat and, until closed, has a timer for its turn; otherwise there is none |
| `GoServing.PlayingUntilOver` | projects/GoServer/source/game.go:704-717 | At every moment of every run the table is playing exactly if the moves made do not say that the game is over |
| `GoServing.StartsAsGiven` | projects/GoServer/source/game.go:516-525 | A table starts with the number of seats, the ko setting and the players it was given |
| `GoServing.RunOnward` | projects/GoServer/source/game.go:663-752 | Over any stretch of a run the turn revision never goes back, no record is changed or dropped, the rules stay and no seat changes hands |
| `GoServing.TurnEndsOnce` | projects/GoServer/source/game.go:774-830 | Once a turn has ended or been restarted, no timer and no bot search started for it changes anything, however late it comes |
| `GoServing.FinishedStays` | projects/GoServer/source/game.go:704-717 | A finished game stays as it is whatever still arrives |
| `GoAsking.RequestIff` | projects/GoServer/source/game.go:565-612 | A request changes the table exactly if the game is under way, a person not on autopilot plays the seat to move, that person asks, for the current move, and either the time is used up or the move named is permitted; it records a lost turn by the deadline, or the move asked for by a person, in the name of the seat to move, and a new turn begins now |
| `GoAsking.StrangersAreTold` | projects/GoServer/source/game.go:573-590 | Which answer each refused asker gets: the game is not under way, it is another's turn, the move number is stale, the deadline has passed |
| `GoAsking.PlayerIsTold` | projects/GoServer/source/game.go:591-612 | The player to move gets the record of the move, or is told that the point is not one, is occupied, is ko or repeats the board |
| `GoAsking.AskedInRun` | projects/GoServer/source/game.go:565-612 | The same at every moment of every run |
| `GoAsking.BotIff` | projects/GoServer/source/game.go:774-794 | A bot's answer changes the table exactly if it is for the current turn of a seat a bot or the autopilot plays; it records the move answered if permitted and a pass if not, as the bot's or the autopilot's |
| `GoAsking.TimerIff` | projects/GoServer/source/game.go:822-830 | A timer changes the table exactly if it is for the current turn, which is recorded as lost |
| `GoAsking.ResignedPasses` | projects/GoServer/source/game.go:710-713 | A turn that falls to a resigned seat is recorded as its pass |
| `GoAsking.FreshTurn` | projects/GoServer/source/game.go:714-752 | A new turn's clock starts now; a bot gets a search and a timer, a person a timer, or loses the turn if there is no time at all |
| `GoAsking.AutopilotIff` | projects/GoServer/source/game.go:529-562 | Switching a seat is for its own player's first seat and touches only that seat unless it is its turn; then what was pending is void, and a person's time still counts from the start of the turn |
| `GoAsking.NobodysAutopilot` | projects/GoServer/source/game.go:529-545 | A player without a seat switches nothing and is told so |
| `GoTurns.RecordsAreComplete` | projects/GoServer/source/game.go:690-692 | No record is dropped by the cap: record i has move number i and seat i mod K + 1 |
| `GoTurns.RecordsAccount` | projects/GoServer/source/game.go:667-689 | A record's captured stones are those that left the board, and its victims and suicide are each seat's losses |
| `GoTurns.RecordedBowl` | projects/GoServer/source/game.go:680-687 | Each victim's row of the bowl sums to that seat's losses |
| `GoBowl.RunTells` | projects/GoServer/source/game.go:679-688 | At every moment of every run, row v and column c of the bowl is the number of stones of v that the recorded moves of c took, with c's own by suicide |
| `GoTurns.PointComesBack` | projects/GoServer/source/engine.go:82-90 | Column and row of a request come back in the record of its move |
| `GoGame.Game.constructor` | projects/GoServer/source/game.go:516-525 | Starting a game remembers the empty board and begins the first turn |
| `GoGame.Game.SeenBefore` | projects/GoServer/source/game.go:635-652 | The loop over one bucket finds the exact situation if it is there |
| `GoGame.Game.RememberSituation` | projects/GoServer/source/game.go:654-659 | Adds the situation once, under its key |
| `GoGame.Game.Judge` | projects/GoServer/source/game.go:615-631 | Occupied, ko or superko, tried on a copy, with nothing changed |
| `GoGame.Game.ApplyMove` | projects/GoServer/source/game.go:663-700 | The whole table after a turn ends, through every recursive turn it leads to; the recursion ends |
| `GoGame.Game.BeginTurn` | projects/GoServer/source/game.go:704-717 | Finishes a game that is over, passes for a resigned seat, else starts the seat's clock |
| `GoGame.Game.ArmTurn` | projects/GoServer/source/game.go:721-752 | A bot gets a search and a timer, a person a timer for the time left, or loses the turn |
| `GoGame.Game.PlayMove` | projects/GoServer/source/game.go:565-612 | Seat, move number, deadline, point and legality are checked in this order, as in the function that `GoAsking` describes field by field |
| `GoGame.Game.BotMoveChosen` | projects/GoServer/source/game.go:774-794 | An illegal answer becomes a pass, a stale one nothing |
| `GoGame.Game.TimedOut` | projects/GoServer/source/game.go:822-830 | A current timer enters a timeout |
| `GoGame.Game.SetAutopilot` | projects/GoServer/source/game.go:529-562 | Switching the seat to move discards what is pending and restarts its clock |
| `GoGame.Game.Close` | projects/GoServer/source/game.go:1136-1151 | Stops the timer for good |
| `CodecWire.PutVarint` | projects/PaxosKV/source/internal/protocol/requirements.pb.go:30-36 | The loop appends the base-128 digits, low first |
| `CodecWire.Decoder.ReadVarint` | projects/PaxosKV/source/internal/protocol/requirements.pb.go:113-127 | Reads at most ten bytes, 64 bits, within bounds, and moves the cursor past what it read |
| `CodecWire.Decoder.ReadBytes` | projects/PaxosKV/source/internal/protocol/requirements.pb.go:128-139 | A length and that many bytes, or an error if fewer are left |
| `CodecWire.DecodeFields` | projects/PaxosKV/source/internal/protocol/requirements.pb.go:152-184 | For any bytes the loop ends, within bounds, and sets every field in order or reports the first error |
| `CodecWire.VarintReads` | projects/PaxosKV/source/internal/protocol/requirements.pb.go:30-36 | Every number below 2^64 comes back from its varint with nothing else consumed |
| `CodecWire.VarintSize` | projects/PaxosKV/source/internal/protocol/requirements.pb.go:113-127 | A number below 2^64 takes at most ten bytes |
| `CodecTable.VarintDigits` | projects/PaxosKV/source/internal/protocol/requirements.pb.go:30-36 | Byte k of a varint is the kth base-128 digit, with its top bit set exactly if another byte follows, and no leading zero is written |
| `CodecWire.UnknownFieldsSkipped` | projects/PaxosKV/source/internal/protocol/requirements.pb.go:140-184 | Fields the receiver does not set are passed over |
| `CodecMessages.EntryRoundTrip` | projects/PaxosKV/source/internal/protocol/requirements.pb.go:65-70 | An entry comes back from its encoding, empty strings included |
| `CodecMessages.SlotRoundTrip` | projects/PaxosKV/source/internal/protocol/requirements.pb.go:71-83 | A slot state comes back from its encoding, zero values and full-range counters included |
| `CodecMessages.RoundTrip` | projects/PaxosKV/source/internal/protocol/requirements.pb.go:84-106 | Decoding what was encoded gives back the envelope, with repeated entries and slots in order |
| `CodecMessages.Unmarshal` | projects/PaxosKV/source/internal/protocol/requirements.pb.go:222-267 | Decodes all fields into an empty envelope |
| `CodecTable.EntryBytes` | projects/PaxosKV/source/internal/protocol/requirements.pb.go:65-70 | The bytes of an entry, field after field, each with its literal tag byte |
| `CodecTable.SlotBytes` | projects/PaxosKV/source/internal/protocol/requirements.pb.go:71-83 | The bytes of a slot state, field after field, each with its literal tag byte, zero values left out |
| `CodecTable.EnvelopeBytes` | projects/PaxosKV/source/internal/protocol/requirements.pb.go:84-106 | The bytes of an envelope, field after field, each with its literal tag byte, entries and slots in their places |
| `CodecFrames.WriteAll` | projects/PaxosKV/source/internal/protocol/requirements.pb.go:283-295 | Everything is written or an error reported, through short writes; what went out is a beginning |
| `CodecFrames.WriteFrame` | projects/PaxosKV/source/internal/protocol/requirements.pb.go:271-282 | An envelope over the limit is refused with nothing written; otherwise a beginning of its frame goes out, all of it on success |
| `CodecFrames.Stream.ReadFrame` | projects/PaxosKV/source/internal/protocol/requirements.pb.go:296-314 | Takes one frame off the stream, or reports why it cannot |
| `CodecFrames.FrameRoundTrip` | projects/PaxosKV/source/internal/protocol/requirements.pb.go:269-314 | A frame written is read back and what follows is left untouched |
| `CodecTable.HeaderDigits` | projects/PaxosKV/source/internal/protocol/requirements.pb.go:271-282 | The header is the length in base 256, most significant digit first, and the envelope's bytes follow |
| `CodecFrames.CutFrameIsNotRead` | projects/PaxosKV/source/internal/protocol/requirements.pb.go:296-314 | A frame cut short is never read as one |
| `CodecFrames.StreamRoundTrip` | projects/PaxosKV/source/internal/protocol/requirements.pb.go:269-314 | However a connection breaks, its reader gets the envelopes written, in order, up to the last whole one |
| `WorkJobs.WorkStore.Write` | scripts/chatui_work_state.py:84-100 | The last four receipts, fewer if the record is too long but at least one, then less context, or a rejection that leaves the stored record alone |
| `WorkJobs.WorkStore.RepeatStart` | scripts/chatui_work_state.py:160-166 | The first request sent again starts nothing: it gets the latest answer or is told to wait |
| `WorkJobs.WorkStore.ClaimBatch` | scripts/chatui_work_state.py:233-254 | A receipt is repeated; otherwise a batch starts as in the function that `WorkAccess.GrantedIff` describes field by field |
| `WorkJobs.WorkStore.SaveBatch` | scripts/chatui_work_state.py:255-284 | Only the running claim is saved; cancellation and a second batch without progress override the requested state |
| `WorkJobs.WorkStore.CancelWork` | scripts/chatui_work_state.py:220-232 | A waiting checkpoint is answered with the cancellation; a running batch is marked |
| `WorkAccess.TurnedAwayIff` | scripts/chatui_work_state.py:122-127 | Any operation is rejected with 403 exactly if the caller's account is not the item's, or empty, or its login differs and it did not resume explicitly, or (but for a cancellation) its credential, provider or model differ, or the item lacks one; then nothing changes |
| `WorkAccess.GrantedIff` | scripts/chatui_work_state.py:233-254 | A batch is granted exactly if the caller is entitled, the token is well formed, waiting and unanswered, nothing was cancelled, no other task holds the project, the files are unchanged or the caller restarts, and the record fits; and which record that is, field by field |
| `WorkAccess.FirstBatchMayStall` | scripts/chatui_work_state.py:166-178 | A new item is its caller's, running under its first claim, and its first batch ends as it asks, progress or not |
| `WorkAccess.SavedIff` | scripts/chatui_work_state.py:255-284 | A batch is saved exactly if the caller is entitled, the claim is the running one and the outcome is an end, and the record fits; its counts, state, context, task, revision, progress and receipt are given field by field |
| `WorkAccess.CancelledIff` | scripts/chatui_work_state.py:220-232 | A cancellation goes through exactly if the caller is entitled and the record fits; a waiting checkpoint gets its receipt |
| `WorkAccess.WrittenIsFitted` | scripts/chatui_work_state.py:84-100 | A record is written with as many of its last four receipts as fit, at least one, then without context, then not at all |
| `WorkAccess.IdentityStays` | scripts/chatui_work_state.py:122-127 | In any run an item keeps the account, credential, provider and model it was started under; its login changes only to one that was granted a batch |
| `WorkAccess.StrangersGetNothing` | scripts/chatui_work_state.py:122-127 | In any run another account, or for all but a cancellation another credential, provider or model, changes nothing and is rejected |
| `WorkRuns.RunKeepsInv` | scripts/chatui_work_state.py:136-284 | The invariant of tokens, receipts and counts holds after every sequence of operations |
| `WorkRuns.CheckpointStartsOnce` | scripts/chatui_work_state.py:239-254 | Each checkpoint token starts at most one batch |
| `WorkRuns.ClaimSavedOnce` | scripts/chatui_work_state.py:255-257 | Each claim is saved at most once; a second save changes nothing |
| `WorkRuns.NoBatchAfterCancel` | scripts/chatui_work_state.py:220-241 | No batch starts after a cancellation |
| `WorkRuns.BatchesAreBounded` | scripts/chatui_work_state.py:261-269 | Batches started are at most twice those that made progress, and two |
| `WorkRuns.RetainedIsRepeated` | scripts/chatui_work_state.py:236-239 | A claim whose token is among the retained receipts returns the one response ever written for it and changes nothing |
| `WorkRuns.LatestIsRepeated` | scripts/chatui_work_state.py:84-96 | The response to the batch just saved is always retained |
| `WorkRuns.RepeatedStartGetsLatest` | scripts/chatui_work_state.py:160-166 | At any time the first request sent again gets the last response ever written and changes nothing |
| `Layering.EdgeRanks` | assets/aggregateGraph.js:229-251 | Each rank is the length of some walk, and the passes settle or use up the whole budget |
| `Layering.SettledIffAcyclic` | assets/aggregateGraph.js:229-251 | The ranks go up along every edge if and only if the graph has no cycle, so the budget suffices for every graph that has layers |
| `Layering.EdgesGoUpIff` | assets/aggregateGraph.js:229-251 | In terms of the edges as given: those between two different nodes of the graph all go up if and only if no walk along them leads back; all other edges are of no account |
| `Layering.RanksAreLongestPaths` | assets/aggregateGraph.js:229-251 | On every acyclic graph each rank is the length of the longest path to its node |
| `Sweep.MaxActive` | scripts/reduce_bakery_events.py:77-85 | The scan's largest count is the maximum over time of the intervals with start <= t < stop, and is attained |
| `Sweep.Reached` | scripts/reduce_bakery_events.py:82-85 | The running total after the events up to t is the number of intervals open at t |
| `Sweep.PeakSplits` | scripts/reduce_bakery_events.py:83-85 | Where the running total is largest all events of that time have been counted, because stops come first |
| `Bakery.Lcg.Below` | scripts/generate_bakery_events.py:14-19 | A number below the bound from the next 32-bit state |
| `BakeryShelf.ReserveFifo` | scripts/generate_bakery_events.py:85-94 | All of the quantity from the oldest lots with empty front lots dropped, or nothing |
| `BakeryShelf.ReservedExactly` | scripts/generate_bakery_events.py:85-94 | A reservation is for exactly the quantity and the shelf has that much less |
| `BakeryShelf.OldestFirst` | scripts/generate_bakery_events.py:85-94 | A lot gives something only once every older lot is empty |
| `BakeryShelf.FrontIsEnough` | scripts/generate_bakery_events.py:31-34 | On a shelf in order, clearing the front clears exactly the expired lots |
| `BakeryShelf.FrontIsEnoughIff` | scripts/generate_bakery_events.py:31-34 | On any shelf, clearing the front leaves nothing expired if and only if no fresh lot stands before an expired one |
| `BakeryLedger.ServedIsKept` | scripts/generate_bakery_events.py:96-115 | A sale keeps the books: every reservation's draws amount to its units, each of at least one unit of its product from a lot stocked before, sold exactly as reserved; and of every batch the units stocked are those drawn, given away and left |
| `BakeryLedger.DonationKept` | scripts/generate_bakery_events.py:31-46 | So does giving away an expired lot: every donation is of a batch past its days, of at least one unit, and of what was sent |
| `BakeryLedger.DeliveryKept` | scripts/generate_bakery_events.py:70-83 | So does stocking a batch |
| `BakeryLedger.StockComesFirst` | scripts/generate_bakery_events.py:143 | In the sorted file every lot a reservation draws on was stocked further up |
| `Bakery.ServedIsSound` | scripts/generate_bakery_events.py:96-115 | A sale keeps units balanced and draws on no expired lot |
| `BakeryIds.PriorsComeFirst` | scripts/generate_bakery_events.py:143 | Sorted by time, whatever breaks ties, every event stands after the one event with each identifier it names |
| `BakeryDays.Simulation.ExpireLots` | scripts/generate_bakery_events.py:31-46 | Each shelf loses its expired front, given away unless empty, and is then fresh |
| `BakeryDays.Simulation.MorningProduction` | scripts/generate_bakery_events.py:48-83 | Each shelf gets exactly one lot of the day at its end, of at least the planned size; every event is after its priors |
| `BakeryDays.SuppliesTheDay` | scripts/generate_bakery_events.py:50-59 | A morning brings each product a unit for every order expected that day, and no more than half as many again and one |
| `BakeryDays.LotsForSort` | scripts/generate_bakery_events.py:70-82 | Reordering the truck's queue by loading time still brings each product its one lot |
| `BakeryDays.Simulation.RetailSale` | scripts/generate_bakery_events.py:96-115 | One order bought from the oldest lots, or a stockout; `BakeryLedger.ServedIsKept` says what that means for the books |
| `BakeryDays.Simulation.ShiftEvents` | scripts/generate_bakery_events.py:117-127 | Seven payments for the day, each in the afternoon |
| `BakeryDays.Simulation.Run` | scripts/generate_bakery_events.py:135-142 | For any orders and days: exactly the orders given are served; every reservation's draws amount to it and come from lots stocked before and not expired; of every batch the units stocked are drawn, donated or left; every event is later than its priors; no identifier is used twice |
| `BakeryDays.Generate` | scripts/generate_bakery_events.py:129-143 | The whole program, for any seed: the file is sorted, no identifier stands twice, every event stands after all its priors and every draw after the stocking of its lot, and the file's units, batch by batch, and orders add up |
| `BakeryIds.Shuffled` | scripts/generate_bakery_events.py:143 | Reordering the events changes no tally and no count, and repeats no identifier |

## Left out

- BakeryDays.Generate: identifiers are values, and any total order on them may decide between events of one time; their text is not modelled. Byte counts and pay are not modelled, though the draws for them are made.
- BakeryShelf.ReserveFifo: lots are values in their shelf; the program's allocations hold references to the lots and read only their batch identifiers.
- CodecFrames.Stream.ReadFrame: the stream is the buffered reader; a caller that passes an unbuffered one loses what was read ahead between frames.
- GoEngine.Work.Play: bit masks of seats (resigned, passed, colours around a region) are sets of seats; int8 fields and counters are unbounded numbers, only the stamp has its 32 bits.
- GoGame.Game.ApplyMove: within one call the clock is read once, and a timer may run out at any time, so how long it is set for is not part of it; identities, sessions and the request cache of `server.go` are not modelled, nor is what a bot search computes.
- Lzw.Encode: states the round trip on pixels, not the width of the final end code, which is one bit narrower than a strict decoder expects when the stream ends just as the decoder would widen.
- PaxosStore.Store.Append: lines are encoded by a codec whose encodings hold no newline and do not parse when glued to a fragment (`PaxosCodec.PlainIsGood` has one); JSON text itself is not modelled, nor are slot and ballot numbers bounded by 64 bits.
- PaxosTheorems.Agreement: a replica handles one prepare request at most once, as `collect` sends it; a repeated one could be acknowledged without a write, and `PaxosLives.AcknowledgedSurvivesIff` says when that acknowledgement can be lost.
- PaxosTheorems.BallotsAreFresh: a restarted node takes its counter from the clock; the model assumes that is no lower than any counter it used.
- PaxosTheorems.RealTimeOrder: starts from the second write's status query; its read of its own entries before choosing is not part of the statement.
- WorkRuns.RunKeepsInv: one work item with tokens that never repeat; the project reservation is only "another task holds it or not". Its lease, the identifier and tag patterns of identities, and the `guard` and `status` operations are not modelled.
- TCP, HTTP, contexts, timeouts and fsync itself: messages are steps, a sync succeeds or fails.
- Linearizable `List` and at-most-once `Put`: both read the node's own store, which need not be in the commit quorum.
- Search, rewards, playouts and move picking of the Go engine: floating point and heuristics.
- Rooms, chat, seats before the start, teams, winners, and the rest of the GIF container: easy members only.
