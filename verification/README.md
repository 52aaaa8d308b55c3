# Verification of aigem's stateful cores

A Dafny model of the parts of aigem in which a hard invariant has to survive every operation, and proofs
that it does:

- **The ticket book** (`TicketRules`, `TicketTable`, `TicketRequests`, `TicketBook` and the proofs in
  `WaitGraph`, `TicketInvariants`, `TicketSteps`, `TicketLinks`, `TicketRows`, `TicketDrops`,
  `TicketTheorems`, `TicketExact`, `TicketEffects`, `TicketGrants`, `TicketMoves`): a two-level ticket tree with dependencies, parents
  whose status follows their subtickets, plan drafts and runs. Every request is a change of a copied table,
  one settling pass and a save that may fail. For every history of requests from an empty table: the wait graph is acyclic, every
  reference resolves, parents follow their subtickets, ids never return, and ready work never deadlocks. Each
  request is granted exactly under the conditions stated for it, changes what it says, leaves every other ticket
  alone, and announces every row it changed; every status has the causes stated for it and no other.
- **The fan-out subscriber** (`Fanout`, `FanoutRuns`): the bounded queue with history headroom, splicing and
  drop marker, as an object and as a machine whose critical sections and channel operations interleave in
  any order. What a reader gets is a gapless, duplicate-free segment; no wake-up is lost.
- **The conversation** (`Conversation`, `Compaction`, `Turn`, `Agent`): the turn loop, injected messages, forced
  answers, eviction, truncation and compaction. What the world decides round by round leaves a turn one course,
  and the loop takes it: every admitted batch runs and is answered. Tool blocks stay whole, budgets hold, the
  system prompt stays.
- **Registries** (`RunTable`, `Runs`, `Projects`, `ProjectAnswers`, `Logins`, with `Counting`): critical sections
  that interleave with unlocked slow work. Ceilings hold, releases and environments are given back exactly once,
  loads are shared, every caller of a project is told of the same environment, login slots are conserved, runs
  only go forward and their ids never come back.
- **Smaller cores** (`LoopDetector`, `PathGrants`): the streaming repetition detector is independent of
  chunking and trips exactly on six repeats; path grants stay an antichain and each change of them changes
  what is allowed by exactly one directory.

The form follows the source: what the program updates in place is a class whose methods are proved against a
function of the old state; loops stay loops; what the program does concurrently is a state, a set of atomic
actions and a run of any sequence of them. `Text` and `Wrappers` hold the few string operations and the
option type the model needs.

Where the outside world decides (a save, a load, a model's reply, a hook, a timeout, a tokenizer, which lock
is taken first) the outcome is a parameter, so the theorems hold for all of them.

Six statements one might expect of the code are false; each has its exact condition here:

- Splicing history into a queue does not always leave "each element once and in order". It does, up to and
  with the next element the subscriber takes, if and only if the history reaches the first queued element and
  does not run past the end, where the end is the larger of the last number pushed and skipTo, and an empty
  queue has to be reached at the end (`FanoutRuns.SpliceIsExact`, with a failing input in
  `FanoutRuns.ShortHistoryLeavesAGap`).
- History counts against the cap after all when a splice ends below history, or backlog, that was given before
  it: headroom then covers the newest history only, and the older one left behind it counts like what was
  pushed. Of the splices that join exactly this happens if and only if the splice ends below the highest number
  given so far (`FanoutRuns.ShorterSpliceCounts`); in a run without such a splice only pushed elements count
  (`FanoutRuns.OnlyLiveElementsDrop`). `FanoutRuns.HistoryDropsTheReader` is a run in which a reader is dropped
  with nothing but history in its queue.
- A splice after a drop removes the resume marker, if and only if it brings any history
  (`FanoutRuns.SpliceAfterDropLosesMarker`, with such a run in `FanoutRuns.LateHistoryLosesMarker`).
- Callers that wait for one load do not always take its answer: they are told what the newest load of the project
  that did not panic left. That is their own load's answer if and only if their own did not panic and no newer one
  has ended by the time they wake (`ProjectAnswers.WaiterToldByNewest`, with a failing input in
  `ProjectAnswers.LaterLoadAnswers`). A load that left an environment is always its callers' answer
  (`ProjectAnswers.AnswersComeFromLoads`).
- A path grant covers "everything beneath it" for every directory but the root: a grant on `/` covers only
  `/` (`PathGrants.WithinIsBeneath`).
- Forgetting a grant takes back exactly the paths within it if and only if the project has no other grant
  above or beneath it; a file edited by hand may have one, a file made by the program cannot
  (`PathGrants.ForgetIsExact`, `PathGrants.EveryFileIsAntichain`).

The project registry asks one thing of the loader it is given: an environment or an error, never both. The
program's loader keeps to that (cmd/aigem/webcmd.go:138-144). With it every environment is conserved
(`Projects.EnvironmentsConserved`); `Projects.ConservedUnlessLost` says exactly when another loader would
lose one.

## Model

| member | source | states |
|---|---|---|
| `TicketTheorems.EveryReachableTable` | internal/runner/tickets.go:530-594 | After any history of requests, saved or not, granted or refused: ids unique and minted, two levels, dependencies exist, acyclic waits, drafts private, open and run-free, plans and childless running tickets have runs, every unheld parent has its derived status. |
| `TicketTheorems.RequestKeepsInvariant` | internal/runner/tickets.go:530-566 | One request, whichever it is and whether its save succeeds, keeps all of that. |
| `TicketTheorems.Progress` | internal/runner/ticket_rules.go:109-216 | From every childless ready ticket of a reachable table a chain of waits leads to a ticket that is runnable or whose status is neither ready nor done. |
| `TicketTheorems.NoDeadlock` | internal/runner/ticket_rules.go:194-216 | If every leaf is ready or done and one is ready, some ticket is runnable. |
| `TicketTheorems.IdsNeverReturn` | internal/runner/tickets.go:115-151 | An id that was handed out and has left the table never names a ticket again, whatever requests follow. |
| `TicketMoves.StatusesHaveCauses` | internal/runner/tickets.go:115-528 | Whatever is requested of a reachable table, a ticket without subtickets, or held by a plan, gets a new status only for that status's reasons: running by a start of its blocked ticket by the last run, or of a ready one with everything it and its parent wait for done; planning, review, ready, blocked, done, closed and open each by the requests and from the statuses named. |
| `TicketMoves.FieldsStay` | internal/runner/tickets.go:115-528 | Whatever is requested of a reachable table, a ticket that stays keeps id, title and parent; its dependencies change only when an update asks for them, its runs only by the run that starts, plans or revises it being added last, the pending merge only at a start or the end of a run. |
| `TicketMoves.StartRuns` | internal/runner/tickets.go:246-280 | In every reachable table a ticket without subtickets that may be started is left running under the asking run, otherwise as it was; a run it did not have is added as its last. |
| `TicketMoves.AnswerShowsTheSubject` | internal/runner/tickets.go:530-566 | The answer to a request that changed a reachable table shows, as the request left them, first the ticket it was about, then the others touched, then each parent looked at, once: the row, whether it may run, and how many of its subtickets are done. |
| `TicketMoves.RefusedChangesNothing` | internal/runner/tickets.go:537-552 | A refused or unsaved request changes nothing and is answered by an error. |
| `TicketMoves.WorkIsReached` | internal/runner/tickets.go:115-280 | From the empty book a create and an update lead to a ready ticket that may run, and a start leaves it running: there is work for Progress to speak of. |
| `TicketGrants.CreateGranted` | internal/runner/tickets.go:115-151 | A create is granted exactly when the title is not blank, the parent, if any, is an existing top-level ticket, the caller may change its subtickets (a person while it is not planned, a run while it plans it), and the new ticket may wait for everything it asks for. |
| `TicketGrants.UpdateGranted` | internal/runner/tickets.go:158-208 | An update is granted exactly when a run asks for no status, new dependencies are of a ticket the caller may rearrange and may all be waited for, and a new status is one of a person's eleven moves of a ticket that is no draft and has no subtickets. |
| `TicketGrants.StartGranted` | internal/runner/tickets.go:246-280 | A start is granted exactly to the last run of a running or blocked ticket, and on a ready ticket without subtickets, all of whose waits are done, to its last run or one it never had. |
| `TicketGrants.FinishGranted` | internal/runner/tickets.go:438-467 | A run is ended exactly by the last run of a running or blocked ticket, as done or blocked. |
| `TicketGrants.BlockGranted` | internal/runner/tickets.go:469-492 | A block is granted exactly on a ready ticket without subtickets all of whose waits are done. |
| `TicketGrants.StartPlanGranted` | internal/runner/tickets.go:282-315 | A plan is started exactly by the last run of a ticket in planning or review, or by a run the ticket never had when that is open and has neither parent nor subtickets. |
| `TicketGrants.PlanReviewGranted` | internal/runner/tickets.go:317-342 | A plan is handed in exactly by the last run of a ticket in planning or review. |
| `TicketGrants.DecisionGranted` | internal/runner/tickets.go:356-436 | A plan is decided exactly in review: approved when it has subtickets, rejected or revised with a text. |
| `TicketGrants.RemoveGranted` | internal/runner/tickets.go:497-528 | A delete is granted exactly when the caller may change the ticket's siblings, it is not running, planning or in review, has no subtickets, and nothing depends on it. |
| `TicketGrants.MissingIsRefused` | internal/runner/tickets.go:165-167 | A request that makes sense by itself fails for want of its ticket when there is none. |
| `TicketGrants.AdmissibleExactly` | internal/runner/ticket_rules.go:130-157 | A dependency is accepted exactly when it exists, is no draft of another plan, and reaches neither the ticket nor a subticket of it; the refusals of the ticket itself, its parent and its subtickets are cases of that. |
| `TicketExact.CycleCheckIsExact` | internal/runner/ticket_rules.go:129-157 | In an acyclic table new dependencies keep the graph acyclic if and only if none of them leads back, in the old table, to the ticket or one of its subtickets: testing each against the old rows refuses neither too little nor too much. |
| `TicketLinks.RelinkAcyclic` | internal/runner/ticket_rules.go:129-192 | Dependencies that pass the check one by one, against the old rows, leave the whole new graph acyclic. |
| `TicketRules.CheckedDepsMeaning` | internal/runner/ticket_rules.go:129-157 | The check passes exactly when no dependency is refused, and then returns the same ids without repeats. |
| `TicketRules.CheckedDepsOrder` | internal/runner/ticket_rules.go:130-157 | The accepted dependencies stand in the order in which they were first asked for. |
| `TicketRules.DerivedMeaning` | internal/runner/ticket_rules.go:109-127 | A parent is closed exactly when every subticket is, done exactly when all are done or closed and one is done, and otherwise has the most pressing status among them: blocked before running before ready before open. |
| `Text.TrimSpaceMeans` | internal/runner/tickets.go:116-119 | Trimming takes the white space off both ends, all of it and nothing else. |
| `TicketRules.WaitPath` | internal/runner/ticket_rules.go:168-192 | Terminates on any table, cyclic or not; a returned list is a chain of wait edges between the two tickets; with nothing seen it returns one exactly when the target is reachable; what it marked is closed under waits. |
| `TicketRules.SearchBack` | internal/runner/ticket_rules.go:148-153 | Finds a way back to the ticket or a subticket exactly when there is one. |
| `TicketRules.CheckDeps` | internal/runner/ticket_rules.go:129-157 | The loop returns the checked list or the first refusal, as the specification whose meaning CheckedDepsMeaning proves. |
| `TicketRules.Derive` | internal/runner/ticket_rules.go:109-127 | The counting loop gives the status defined on what statuses occur among the subtickets. |
| `TicketRules.CountAll` | internal/runner/ticket_rules.go:109-120 | The counts equal the number of subtickets exactly when every one is done or closed, and exactly when every one is closed. |
| `TicketRules.ComputeSubtickets` | internal/runner/ticket_rules.go:86-94 | Collects exactly the rows with that parent, in order. |
| `TicketRules.View` | internal/runner/ticket_rules.go:194-216 | A childless ticket is shown runnable exactly when it is ready and all it waits for is done; a parent shows how many of its subtickets are done. |
| `WaitGraph.NewWaitsKeepAcyclic` | internal/runner/ticket_rules.go:129-192 | New edges from a set of sources to targets that reach no source close no cycle, however many are added at once. |
| `WaitGraph.OldChainBack` | internal/runner/ticket_rules.go:168-192 | A cycle of the new graph that uses a new edge yields a chain of the old graph from a target back to a source. |
| `TicketInvariants.SettlePass` | internal/runner/tickets.go:568-594 | One settling pass over the touched ids settles every parent the pass decides and keeps the rest of the invariant. |
| `TicketInvariants.CommitKeepsInvariant` | internal/runner/tickets.go:530-566 | A sound change whose unsettled parents are among those the touched ids decide leaves the whole table settled; a failed save leaves the old table. |
| `TicketInvariants.RewriteUnsettles` | internal/runner/tickets.go:568-594 | Rewriting one row can unsettle only that ticket and its parent. |
| `TicketInvariants.SameShapeEdges` | internal/runner/ticket_rules.go:159-192 | A change that keeps ids, parents and dependencies keeps every wait edge. |
| `TicketRows.CreateGood` | internal/runner/tickets.go:115-151 | A created ticket, with its checked dependencies, keeps references, acyclicity and the plan rules, and only its parent is left to settle. |
| `TicketRows.AppendedAcyclic` | internal/runner/tickets.go:115-151 | A new subticket, which waits for whatever its parent waits for and which its parent waits for, closes no cycle. |
| `TicketLinks.UpdateGood` | internal/runner/tickets.go:158-208 | A relink or a person's status move keeps the invariant up to the parents the change reports. |
| `TicketLinks.RelinkPrivate` | internal/runner/ticket_rules.go:142-143 | After a relink still only sibling drafts depend on a draft. |
| `TicketSteps.StartGood` | internal/runner/tickets.go:246-280 | Starting a run keeps the invariant, even where it writes a parent's status directly. |
| `TicketSteps.StartPlanGood` | internal/runner/tickets.go:282-315 | Starting a plan takes only a top-level ticket that is held already or has no subtickets, records its run and keeps the invariant. |
| `TicketSteps.PlanReviewGood` | internal/runner/tickets.go:317-342 | Handing a plan in keeps the invariant. |
| `TicketSteps.ReviseGood` | internal/runner/tickets.go:412-436 | Sending a plan back keeps the invariant. |
| `TicketSteps.FinishGood` | internal/runner/tickets.go:438-467 | Ending a run keeps the invariant, whatever status it writes. |
| `TicketSteps.BlockGood` | internal/runner/tickets.go:469-492 | Blocking a runnable ticket keeps the invariant. |
| `TicketDrops.ApproveGood` | internal/runner/tickets.go:356-381 | Approval makes every draft ready at once and keeps the invariant; the parent ends with the status its subtickets give it. |
| `TicketDrops.RejectGood` | internal/runner/tickets.go:383-410 | Deleting all drafts of a plan leaves no reference to any of them. |
| `TicketDrops.RejectedStrandsNoWait` | internal/runner/tickets.go:383-410 | No remaining ticket depended on a deleted draft, because only sibling drafts can. |
| `TicketEffects.EveryChangeIsAnnounced` | internal/runner/tickets.go:530-594 | On any table and for any request, every row that is new or different afterwards, and every row that is gone, is among the announced ids. |
| `TicketEffects.OthersUnchanged` | internal/runner/tickets.go:530-594 | A request leaves every ticket exactly as it was, all but those it touches and their parents. |
| `TicketEffects.SettlingWritesParentsOnly` | internal/runner/tickets.go:568-594 | Settling writes nothing but statuses, and never that of a childless or held ticket. |
| `TicketEffects.CreateAddsOne` | internal/runner/tickets.go:115-151 | A create adds one row under the next id, with the trimmed title, open, without runs, waiting for exactly what was asked; every other row keeps all but perhaps its status. |
| `TicketEffects.UpdateDoesWhatWasAsked` | internal/runner/tickets.go:158-208 | An update that is not refused leaves the dependencies asked for, of a parent too, and, where the ticket's own status was settled, the status asked for; what was not asked about stays. |
| `TicketEffects.NoneOwnParent` | internal/runner/tickets.go:124-134 | In every reachable table no ticket is its own parent, which is all that the statements about single requests ask of a table. |
| `TicketEffects.StartTakesTheTicket` | internal/runner/tickets.go:246-280 | Whether it has subtickets or not, a started ticket has that run as its last, every other run is refused, and while it is running starting again changes nothing; a childless ticket is running, a parent taken up again has the status its subtickets give it. |
| `TicketEffects.FinishGivesTheOutcome` | internal/runner/tickets.go:438-467 | The outcome is as asked, or for a parent as its subtickets decide, merge-pending only with blocked; nothing finishes a done ticket again and the run of a blocked one may resume. |
| `TicketEffects.PlanHoldsTheTicket` | internal/runner/tickets.go:282-315 | A plan keeps its ticket in planning under its run through the commit; asking again changes nothing and the run may hand it in. |
| `TicketEffects.PlanReviewHandsIn` | internal/runner/tickets.go:317-342 | A plan handed in is in review and otherwise as it was: its run may no longer change it but may take it back, a person may decide it, and no other run can hand it in. |
| `TicketEffects.ReviseSendsBack` | internal/runner/tickets.go:412-436 | A revised plan is being planned by the run asked for, which becomes the ticket's last: it cannot be approved or rejected meanwhile, and no other run changes it or hands it in. |
| `TicketEffects.BlockStopsTheTicket` | internal/runner/tickets.go:469-492 | A blocked ticket is blocked and otherwise as it was, is not runnable, and can be started exactly by its last run. |
| `TicketEffects.CommentChangesNothing` | internal/runner/tickets.go:210-229 | A comment is recorded exactly when it says something about a ticket that exists; in a settled table the commit changes no row, and the ticket is announced. |
| `TicketEffects.ApproveReadiesThePlan` | internal/runner/tickets.go:356-381 | After an approval the ticket and every subticket are ready, otherwise as they were, and none is a draft. |
| `TicketEffects.RejectTakesTheDrafts` | internal/runner/tickets.go:383-410 | After a rejection the ticket is open, otherwise as it was, and has no subtickets. |
| `TicketEffects.RemoveTakesOne` | internal/runner/tickets.go:497-528 | A delete takes exactly the one row and keeps the order of the rest, each as it was but for a status that settling decides. |
| `TicketDrops.RemoveGood` | internal/runner/tickets.go:497-528 | A delete leaves no dangling parent or dependency and, if it took a running parent's last subticket, leaves it settled. |
| `TicketRequests.SettleParents` | internal/runner/tickets.go:568-594 | The pass over the touched ids computes the settled rows and the announced ids the specification names. |
| `TicketRequests.ComputeCreate` | internal/runner/tickets.go:115-151 | The create steps in order compute the create change, which CreateGranted says when is granted and CreateAddsOne what it adds. |
| `TicketRequests.ComputeUpdate` | internal/runner/tickets.go:158-208 | The update steps in order, refusing exactly where the specification does. |
| `TicketRequests.ComputeStart` | internal/runner/tickets.go:246-280 | The start guards in order compute the start change, which StartGranted says when is granted and StartRuns what it leaves. |
| `TicketRequests.ComputeStartPlan` | internal/runner/tickets.go:282-315 | The plan guards in order, with the resume of the planning run. |
| `TicketRequests.ComputeApprove` | internal/runner/tickets.go:356-381 | Refuses a plan that is not in review or has no subtickets; otherwise readies them all and touches each. |
| `TicketRequests.ComputeReject` | internal/runner/tickets.go:383-410 | The in-place delete of all drafts equals the filter of the specification. |
| `TicketRequests.ComputeBlock` | internal/runner/tickets.go:469-492 | Blocks only a ticket that is ready and runnable. |
| `TicketRequests.ComputeRemove` | internal/runner/tickets.go:497-528 | Refuses a busy, awaited or parent ticket; otherwise removes the row and touches the parent. |
| `TicketBook.Book.Commit` | internal/runner/tickets.go:530-566 | The new table and the answer: a refusal, a failed save or an untouched table change nothing, otherwise the settled table is kept and its announced rows are returned. |
| `TicketBook.Book.CreateTicket` | internal/runner/tickets.go:110-151 | Keeps the invariant; new table and answer are those of the create change. |
| `TicketBook.Book.UpdateTicket` | internal/runner/tickets.go:153-208 | Keeps the invariant; new table and answer are those of the update change. |
| `TicketBook.Book.StartRun` | internal/runner/tickets.go:246-280 | Keeps the invariant; new table and answer are those of the start change. |
| `TicketBook.Book.ApprovePlan` | internal/runner/tickets.go:356-381 | Keeps the invariant; new table and answer are those of the approval. |
| `TicketBook.Book.RejectPlan` | internal/runner/tickets.go:383-410 | Keeps the invariant; new table and answer are those of the rejection. |
| `TicketBook.Book.FinishRun` | internal/runner/tickets.go:438-467 | Keeps the invariant; new table and answer are those of the finish change. |
| `TicketBook.Book.RemoveTicket` | internal/runner/tickets.go:494-528 | Keeps the invariant; new table and answer are those of the delete. |
| `TicketBook.Book.CommentOn` | internal/runner/tickets.go:210-229 | Keeps the invariant; new table and answer are those of the comment, which CommentChangesNothing describes. |
| `TicketBook.Book.StartPlanning` | internal/runner/tickets.go:282-315 | Keeps the invariant; new table and answer are those of the plan start. |
| `TicketBook.Book.ReviewPlan` | internal/runner/tickets.go:317-342 | Keeps the invariant; new table and answer are those of handing a plan in. |
| `TicketBook.Book.RevisePlan` | internal/runner/tickets.go:412-436 | Keeps the invariant; new table and answer are those of sending a plan back. |
| `TicketBook.Book.BlockTicket` | internal/runner/tickets.go:469-492 | Keeps the invariant; new table and answer are those of the block. |
| `Fanout.Sub.constructor` | internal/fanout/fanout.go:63-81 | Starts from the backlog, counts it as headroom and signals once if there is any. |
| `Fanout.Sub.Push` | internal/fanout/fanout.go:87-117 | Ignores what the coming history covers, drops at the cap with a marker, otherwise queues; signals exactly when the queue was written. |
| `Fanout.Sub.Prepend` | internal/fanout/fanout.go:119-143 | The history in front of the queued elements newer than its last; headroom is its length. |
| `Fanout.Sub.TakeNext` | internal/fanout/fanout.go:157-172 | Takes the oldest element and one unit of headroom. |
| `Fanout.Sub.Drain` | internal/fanout/fanout.go:154-178 | A pump left alone delivers the whole queue, in order. |
| `Fanout.Sub.Stop` | internal/fanout/fanout.go:187-199 | Empties the queue for good; closing twice is closing once. |
| `FanoutRuns.EveryInterleaving` | internal/fanout/fanout.go:87-199 | In every interleaving of numbered and unnumbered pushes, splices, stops and the pump: of the numbered elements, delivered, in flight and queued are together exactly the segment due; of the unnumbered ones, exactly those accepted since the last splice of any history, in order (after a stop both are prefixes of that); headroom is exactly what is left of the newest history at the front of the queue, and behind it every element is unnumbered or numbered past it; and a parked pump with work or a dead subscriber has a wake-up present, owed or a close under way. |
| `FanoutRuns.RestsOnlyWhenDone` | internal/fanout/fanout.go:145-185 | Left alone from any reachable state, pump and pending signals come to rest only when everything due, and every unnumbered element kept, is delivered and a dead subscriber's channel is closed. |
| `FanoutRuns.DroppedOnlyWhenBehind` | internal/fanout/fanout.go:101-110 | A push the subscriber takes, numbered or not, drops the reader exactly when the queued elements past all backlog and history ever given (or unnumbered), together with the queued history past the end of the newest, are as many as the cap. |
| `FanoutRuns.ShorterSpliceCounts` | internal/fanout/fanout.go:119-143 | In every run: after a splice, all the history given before and past its end counts against the cap, and none does if and only if the splice ends at or past everything given before. |
| `FanoutRuns.OnlyLiveElementsDrop` | internal/fanout/fanout.go:101-143 | In every run whose splices never end below what was given before: a push drops the reader exactly when as many pushed elements as the cap are queued. |
| `FanoutRuns.HistoryDropsTheReader` | internal/fanout/fanout.go:101-143 | With cap 1, the backlog 1, 2 and a splice of 1 alone, the next push drops the reader although the queue holds 1 and 2 and nothing pushed. |
| `FanoutRuns.DroppedReaderKnowsWhere` | internal/fanout/fanout.go:101-109 | A channel that closed without a stop delivered the whole segment and, last of all, the marker with the last number delivered before it. |
| `FanoutRuns.SpliceIsExact` | internal/fanout/fanout.go:119-143 | In every run, before the pump starts and before any drop: the queue a splice leaves, with the next element the subscriber takes, has no gap and no repeat if and only if the history reaches the first queued number (or, with none queued, the end) and does not run past the end, the larger of the last number pushed and skipTo. |
| `FanoutRuns.ShortHistoryLeavesAGap` | internal/fanout/fanout.go:93-97 | With skipTo 3, one element pushed and a history of that element alone, the reader gets 1 and then 4. |
| `FanoutRuns.SpliceAfterDropLosesMarker` | internal/fanout/fanout.go:119-143 | After a drop the marker survives a splice if and only if the splice brings no history. |
| `FanoutRuns.LateHistoryLosesMarker` | internal/fanout/fanout.go:101-143 | A run of two pushes at cap 1 drops the reader with its marker, and a splice of element 1 then leaves no marker. |
| `Conversation.RunsAreBlocks` | internal/agent/agent.go:546-554 | Whole blocks mean: every maximal run of tool results directly follows the assistant message it answers, one result a call, in call order. |
| `Conversation.AppendResults` | internal/agent/agent.go:546-554 | Appending the results of the last message's calls keeps blocks whole. |
| `Conversation.AppendPlain` | internal/agent/agent.go:428-431 | A message that is no tool result may be added at any boundary. |
| `Conversation.RewritingKeepsBlocks` | internal/agent/compact.go:463-484 | Changing contents only keeps blocks whole. |
| `Conversation.TailKeepsBlocks` | internal/agent/compact.go:65-77 | A tail that does not start with a tool result can follow any plain messages. |
| `Conversation.DropLastPlain` | internal/agent/agent.go:646-648 | Taking back an unanswered prompt keeps blocks whole. |
| `Conversation.AnsweredByResults` | internal/agent/agent.go:546-554 | Appending the results of the last message's calls answers it, so that every message that calls tools is followed by its results. |
| `Conversation.TailKeepsAnswered` | internal/agent/compact.go:65-77 | A tail behind messages that call nothing leaves every call answered that was. |
| `Compaction.EvictToolResults` | internal/agent/compact.go:99-150 | Exactly the tool results before the protected tail that are older than the window or read again later are elided, all else is unchanged, and freed is exactly the bytes saved when positive. |
| `Compaction.EvictionIsIdempotent` | internal/agent/compact.go:99-150 | Evicting twice is evicting once. |
| `Compaction.EvictedForAgeOrReadAgain` | internal/agent/compact.go:99-150 | With no tail protected, a tool result goes exactly when it is too old or its file is read again later. |
| `Compaction.OldAreTheExcess` | internal/agent/compact.go:103-111 | Exactly as many results are too old as there are more than keepTools. |
| `Compaction.OnlyTheOldestGo` | internal/agent/compact.go:103-111 | Whatever is older than a result that is too old is too old. |
| `Compaction.EvictionIsRewriting` | internal/agent/compact.go:99-150 | Eviction keeps roles, calls and ids and every message from the protected tail on. |
| `Compaction.ReadPaths` | internal/agent/compact.go:79-97 | Maps each call id to the path its last read names. |
| `Compaction.SafeBoundary` | internal/agent/compact.go:60-77 | The latest boundary that keeps the last keepTurns messages and is no tool result. |
| `Compaction.FirstUserIndex` | internal/agent/compact.go:49-58 | The first user message, or -1 exactly when there is none. |
| `Agent.Agent.TruncateLargest` | internal/agent/compact.go:463-484 | For any tokenizer it ends, within budget or with every content but the first under 256 bytes; it cuts one content after another, each the first of the largest by then and only while the conversation does not fit, to its first half and the marker; each cut frees at least 97 bytes. |
| `Agent.Agent.FitContext` | internal/agent/compact.go:429-461 | Changes nothing when the conversation fits in 85 percent of the window, evicts all but the newest tool result when that is enough, and otherwise goes on to cut the largest contents until it fits or nothing is left to cut. |
| `Agent.Agent.CompactNow` | internal/agent/compact.go:493-545 | Compacts exactly when there is a summary and something between the goal and the boundary: system prompt, goal, summary and the verbatim tail of at least keepTurns messages, blocks whole; otherwise nothing changes. |
| `Agent.Agent.MaybeCompact` | internal/agent/compact.go:400-425 | At the compaction percentage it compacts when it can; below it, at the eviction percentage, it evicts exactly the old results before the kept tail if that saves bytes; otherwise, and when off, it changes nothing. |
| `Agent.Agent.SetMessages` | internal/agent/agent.go:252-267 | A resumed conversation, whatever was saved, starts with the live system prompt and keeps every other saved message; its blocks are whole when those of the saved one were. |
| `Agent.Agent.AppendToolResults` | internal/agent/agent.go:546-554 | One result for each call, in call order, after an unchanged conversation. |
| `Agent.Agent.ForceAnswer` | internal/agent/agent.go:584-597 | Adds one prompt and the reply, when there is one, to the conversation, whose messages keep all but their contents. |
| `Agent.Agent.BudgetStop` | internal/agent/agent.go:626-652 | Adds a prompt and the reply exactly when there is one that is not blank, otherwise neither. |
| `Agent.Agent.DeliverInjected` | internal/agent/agent.go:426-431 | Every waiting text becomes one user message, in order, behind an unchanged conversation, and none waits any longer. |
| `Agent.Agent.AfterFinalAnswer` | internal/agent/agent.go:461-518 | A message waiting when that is looked at keeps the turn going and nothing else is asked; otherwise the evaluator is asked exactly when an open plan has moved and pushes are left, and the hook after it, and the conversation and what waits are as their answers make them. |
| `Agent.Agent.CountRepeats` | internal/agent/agent.go:523-531 | A batch is let through exactly when it leaves every call within its limit, and is then counted exactly. |
| `Agent.Agent.ToolRound` | internal/agent/agent.go:520-554 | A batch runs exactly when no budget forbids it after what was executed: then each call's result, in call order, follows an unchanged conversation; otherwise the conversation is left as it is. |
| `Agent.Agent.EndOrPush` | internal/agent/agent.go:461-518 | An answer ends the turn exactly when nothing waited at the check and neither the evaluator nor the hook, each below its limit, kept it going; the counters grow by exactly that. |
| `Agent.Agent.RunTurn` | internal/agent/agent.go:355-568 | The turn takes the one course the world's decisions leave it: every round before the last heard the model, and ran its whole batch or was kept going; the last ends for exactly the reason given (hook, cancelled, round budget, failed call, repetition, tool budget, futile edits, final answer, cut off). Executed calls, model calls, pushes and blocks are those of that course and within their budgets, injections are conserved, the system prompt and whole blocks stay, and every call is answered but those the reason leaves open. |
| `Turn.OneCourse` | internal/agent/agent.go:420-568 | The budgets and what is decided outside determine how many whole rounds a turn takes and why it ends. |
| `Turn.GoesOnBecause` | internal/agent/agent.go:420-568 | A round that does not end the turn was not cancelled, was within the round budget, and heard a reply that did not repeat itself; its calls were within the tool budgets and not the last of the futile edits, or its answer had a message waiting, a push of the top level's evaluator below twelve, or a hook's block below three. |
| `Turn.EndsBecause` | internal/agent/agent.go:420-568 | Each reason a turn ends for says what was the case in its last round: a final answer had no calls, nothing waiting, no push and no block left; the tool budget was exceeded by what was asked; and so on. |
| `Turn.PushesBounded` | internal/agent/agent.go:461-514 | Only the top level is pushed, at most twelve times, and a hook blocks at most three times. |
| `RunTable.LoadWritten` | internal/runner/runs.go:1178-1192 | Loading what was written gives the same runs in the same order, all closed, and the same counter, whichever runs were removed. |
| `RunTable.RunNumberMeans` | internal/runner/runs.go:361-370 | An id counts only when, without the prefix, it is a number and not a negative one. |
| `RunTable.IdsNeverComeBack` | internal/runner/runs.go:326-370 | Over any history of creates, removes, failed saves and restarts the next number was never in a written table. |
| `RunTable.StepSafe` | internal/runner/runs.go:307-358 | Every event keeps a disk that reads back a table covering every number ever written. |
| `RunTable.LoadedMeans` | internal/runner/runs.go:326-352 | Whatever rows a file holds: each named run with a row that is no tombstone is listed once, closed, in the order of those rows, and the counter is the highest number in any row. |
| `RunTable.EventEffects` | internal/runner/runs.go:379-1055 | Whatever happens to the table, a run comes only by its create, open and last, goes only by a saved remove, and changes only to closed, by a close or a restart. |
| `RunTable.RemovalTakesOne` | internal/runner/runs.go:887-891 | A removal takes the one run, from its place in the order, and leaves every other as it was. |
| `RunTable.RestartReadsTheSave` | internal/runner/runs.go:1172-1192 | An event that is not saved leaves the file alone; after one that is, a restart reads every run of the table in its order, all closed, and the same counter. |
| `RunTable.Store.constructor` | internal/runner/runs.go:326-352 | The loading loop computes the loaded table: duplicates and unnamed rows dropped, tombstones only counted. |
| `RunTable.Store.Write` | internal/runner/runs.go:1178-1192 | Writes the rows in order and a tombstone exactly when the last id has no row; a failed write changes nothing. |
| `RunTable.Store.Delete` | internal/runner/runs.go:876-898 | A delete that cannot be written leaves table and file as they were. |
| `Runs.CeilingAndReleases` | internal/runner/runs.go:379-478 | In every interleaving of Create, Stop, Remove and Close: live rows plus pending creates stay within the ceiling, no release is called twice, and one not called yet waits in exactly one place. |
| `Runs.QuietMeansReleased` | internal/runner/runs.go:935-1055 | When every call has returned, a release was called exactly once unless a live row still keeps it; after Close exactly once. |
| `Runs.EveryInterleaving` | internal/runner/runs.go:379-1055 | The counters are exactly the calls in progress, reserved ids have no row and are reserved once, and every release has one keeper, in every interleaving. |
| `Runs.WaitIsComplete` | internal/runner/runs.go:1001-1017 | When the wait group is at zero no Create, Stop or Remove is at work. |
| `Runs.SweptForGood` | internal/runner/runs.go:1018-1055 | After Close has detached the sessions nothing brings a live one back. |
| `Runs.RunsOnlyGoForward` | internal/runner/runs.go:379-1055 | In every interleaving a run goes one way, from being opened to live, closed and past: what is closed is never live again and an id that is past never comes back. |
| `Runs.OnlyRemoveTakesOut` | internal/runner/runs.go:876-912 | In every interleaving only a saved Remove takes a run out of the table. |
| `Runs.RowStep` | internal/runner/runs.go:449-1033 | Every change of a row has one cause: its Create installed it, Stop or Close detached its session and left it closed, or a saved Remove took it out. |
| `Runs.RowEffects` | internal/runner/runs.go:876-955 | In an open registry Stop of a live run leaves it in the table, closed, and Stop of a closed one nothing; a saved Remove takes it out and an unsaved one nothing. |
| `Runs.Registry.LiveLocked` | internal/runner/runs.go:1107-1116 | The loop counts exactly the rows with a session. |
| `Runs.Registry.Enter` | internal/runner/runs.go:387-408 | Refuses exactly when closed or at the ceiling; otherwise takes the next id and a place. |
| `Runs.Registry.Install` | internal/runner/runs.go:449-471 | In one section the new live row, with what its close gives back, replaces the place; a closed registry takes no row. |
| `Runs.Registry.GiveBack` | internal/runner/runs.go:416-427 | A create without a row gives its place back, and there is one to give. |
| `Runs.Registry.Done` | internal/runner/runs.go:422-427 | The wait group falls by one and was above zero. |
| `Runs.Registry.BeginRemove` | internal/runner/runs.go:876-912 | Takes exactly that row out with what it keeps, or changes nothing when closed, missing or unsaved. |
| `Runs.Registry.BeginStop` | internal/runner/runs.go:935-955 | Detaches the session and its release together and leaves that row, closed, in an otherwise unchanged table. |
| `Runs.Registry.BeginClose` | internal/runner/runs.go:987-990 | Closes the registry to new runs and leaves rows, places and the wait group as they are. |
| `Runs.Registry.Sweep` | internal/runner/runs.go:1018-1033 | Detaches every live session and collects exactly their releases. |
| `Runs.DetachAll` | internal/runner/runs.go:1018-1032 | The row-by-row loop detaches exactly the live rows and collects exactly their releases. |
| `Projects.OneLoadInFlight` | internal/runner/projects.go:301-356 | No record ever has two loads in flight. |
| `Projects.EnvironmentsConserved` | internal/runner/projects.go:301-433 | With a loader that never returns an environment beside an error, every environment a load produced was closed exactly once or is kept in exactly one place, in every interleaving. |
| `Projects.ConservedUnlessLost` | internal/runner/projects.go:357-380 | For any loader: environments are conserved if and only if no load returned one beside an error while its project was there and the registry open. |
| `Projects.BrokenContractLoses` | internal/runner/projects.go:373-380 | A concrete run in which such a load leaves its environment neither installed nor closed. |
| `Projects.RetainedIsSafe` | internal/runner/projects.go:194-223 | An environment somebody retains is installed and not closed, and Remove of its project does nothing, until the registry closes. |
| `Projects.LateLoadIsClosed` | internal/runner/projects.go:357-371 | A load that ends after its project was removed or the registry closed installs nothing and keeps what it built to close it. |
| `Projects.NobodyWaitsForNothing` | internal/runner/projects.go:317-355 | A waiter can go on or its load is still running, whatever became of the load, a panic included. |
| `Projects.ClosedMeansAllClosed` | internal/runner/projects.go:417-433 | With a loader that keeps its contract, a closed registry and nothing left to close, every environment was closed exactly once. |
| `Projects.EveryInterleaving` | internal/runner/projects.go:154-433 | All of it, with exact reference counts, holds in every interleaving of Add, Remove, open, release and Close. |
| `Projects.TakenOut` | internal/runner/projects.go:194-223 | Only Close, and Remove with no holder, take an environment out of its record. |
| `Projects.TableStep` | internal/runner/projects.go:154-223 | A project enters the table only under a new number with a saved add and leaves it only with a saved Remove while nobody retains it; both do so. |
| `Projects.OnlyRemoveTakesOut` | internal/runner/projects.go:194-223 | In every interleaving only a saved Remove takes a project out. |
| `ProjectAnswers.AnswersComeFromLoads` | internal/runner/projects.go:301-396 | In every interleaving each answer of open that is an environment or a failed load is what one load of that project left, never an older one than the caller's own unless that panicked; a caller whose own load, run or waited for, left an environment is told that one. |
| `ProjectAnswers.OneEnvironmentEach` | internal/runner/projects.go:301-396 | All callers ever told of an environment of one project record are told of the same one, and callers of different ones of different ones. |
| `ProjectAnswers.WaiterToldByNewest` | internal/runner/projects.go:317-340 | A waiter is told what the newest load of its project that did not panic left: its own exactly when its own did not panic and no newer one has ended. |
| `ProjectAnswers.LaterLoadAnswers` | internal/runner/projects.go:317-340 | A run in which a waiter whose load failed is told of the environment of a later load. |
| `Projects.Registry.AddProject` | internal/runner/projects.go:172-187 | A project that cannot be saved is not there; its number is not used again. |
| `Projects.Registry.RemoveProject` | internal/runner/projects.go:194-218 | Removes exactly an unretained project of a table that can be saved, handing over its environment; otherwise everything is back in place. |
| `Projects.Registry.LookUp` | internal/runner/projects.go:302-334 | The head of open: that the registry is closed, that there is no such project, the installed environment with its count, the channel of the load in flight, or a new load. |
| `Projects.Registry.AfterWait` | internal/runner/projects.go:324-334 | A waiter takes the environment, takes the failure, or starts over. |
| `Projects.Registry.FinishLoad` | internal/runner/projects.go:357-391 | Clears the load, and installs the environment and answers with it, records and answers the failure, or hands the environment back and answers that the registry is closed or the project gone, exactly by whether the project is still this one and the registry open. |
| `Projects.Registry.RecoverLoad` | internal/runner/projects.go:345-353 | A panic clears the load and nothing else of its record. |
| `Projects.Registry.ReleaseEnv` | internal/runner/projects.go:402-415 | One release takes exactly one from the count that EveryInterleaving proves to be the number of holders. |
| `Projects.Registry.Close` | internal/runner/projects.go:417-433 | Takes out exactly the environments of the table's projects and leaves none installed. |
| `Logins.CapsHold` | cmd/aigem/webphase1.go:132-245 | Reservations plus listed pending flows stay within 8, and within 1 for OpenAI and 4 for the other provider, in every interleaving. The flow of a discarded start is in neither while it is being cancelled. |
| `Logins.DiscardedComesOnTop` | cmd/aigem/webphase1.go:247-266 | A discarded start's slot is given back before its flow is cancelled: a run in which OpenAI has one reservation and one such flow at once. |
| `Logins.PlacesGivenBack` | cmd/aigem/webphase1.go:161-266 | When no start is still to be answered, in time or abandoned, no reservation is left. |
| `Logins.FlowsConserved` | cmd/aigem/webphase1.go:216-266 | No flow leaks: in every interleaving each flow a provider produced was listed, was torn down, or is being torn down. |
| `Logins.EveryInterleaving` | cmd/aigem/webphase1.go:132-392 | Reservation counts are exactly the unanswered starts, the wait group exactly the calls at work, and the order lists each flow once, oldest first, in every interleaving. |
| `Logins.WaitIsComplete` | cmd/aigem/webphase1.go:376-392 | Shutdown's wait ends only when every start, teardown and watcher has. |
| `Logins.PendingIsKept` | cmd/aigem/webphase1.go:348-374 | Nothing forgets a pending flow. |
| `Logins.CleanForgetsTheOldest` | cmd/aigem/webphase1.go:348-374 | A forgotten flow is finished and older than every finished flow kept. |
| `Logins.CleanKeepsTheLimit` | cmd/aigem/webphase1.go:348-374 | A clean-up drops exactly the excess the first pass counted and keeps at least 32 finished flows while there are that many; exactly that many when none ended between the passes. |
| `Logins.SweptDropsTheOldest` | cmd/aigem/webphase1.go:361-373 | The second pass drops every finished flow up to some place in the order and none past it, as many as asked for. |
| `Logins.Desk.TakePlace` | cmd/aigem/webphase1.go:136-162 | Refuses exactly when closed or when reservations and flows read as pending reach 8, or 1 for OpenAI and 4 for the other provider; otherwise counts one reservation more. |
| `Logins.Desk.CountPending` | cmd/aigem/webphase1.go:141-149 | The loop counts the flows read as pending, all and of one provider, on top of the reservations. |
| `Logins.Desk.Answered` | cmd/aigem/webphase1.go:216-244 | Gives the place back and, if there is a flow and the backend is open, lists it last under a new id. |
| `Logins.Desk.Discard` | cmd/aigem/webphase1.go:247-266 | An abandoned start gives its place back when it is answered. |
| `Logins.Desk.CleanUp` | cmd/aigem/webphase1.go:348-374 | The two passes over the order, with statuses that may change between them, do what the sweep specifies. |
| `Logins.Desk.Filter` | cmd/aigem/webphase1.go:361-373 | The in-place filter keeps the swept order and exactly its flows. |
| `Logins.Desk.CloseBackend` | cmd/aigem/webphase1.go:376-384 | Closing collects in one section every listed flow, pending ones included, and forgets none. |
| `Logins.ClosedForGood` | cmd/aigem/webphase1.go:216-240 | After that section no action lists another flow, so cancelling the collected ones reaches all. |
| `Logins.FlowWritesOnce` | internal/auth/flow.go:85-134 | However a flow's goroutine and its cancellers race, it writes a credential at most once, exactly if it ends done; once ended it shows no link and never changes. |
| `Logins.FirstOpDecides` | internal/auth/flow.go:85-134 | Whoever gets the flow's lock first decides how it ends. |
| `Logins.FlowEndsAs` | internal/auth/flow.go:85-134 | A flow ends cancelled when a cancel came first, done when a granted token came first and was stored, failed otherwise, and shows no link. |
| `Logins.LoginFlow.FinishWith` | internal/auth/flow.go:85-103 | The store is written exactly on the step from pending to done. |
| `Logins.LoginFlow.Abandon` | internal/auth/flow.go:121-134 | Cancels a pending flow, clears its link, and leaves a finished one alone. |
| `LoopDetector.TripsExactly` | internal/llm/llm.go:447-486 | A stream, in whatever deltas, trips the detector exactly when some trimmed non-blank line comes six times in a row among the complete lines, blank ones ignored. |
| `LoopDetector.ChunksDoNotMatter` | internal/llm/llm.go:458-486 | However a stream is cut, the detector ends as if it came whole. |
| `LoopDetector.DetectorTracks` | internal/llm/llm.go:447-486 | Until it trips, the fields are the unfinished line, the last line and the length of its run. |
| `LoopDetector.LinesAreTheText` | internal/llm/llm.go:464-469 | The lines and the unfinished rest are the text, and no line holds a line break. |
| `LoopDetector.Detector.Feed` | internal/llm/llm.go:458-486 | The loop with its early return does what the stream specification does and reports the trip. |
| `PathGrants.WithinIsBeneath` | internal/pathgrant/pathgrant.go:189-197 | On clean paths the test holds exactly when the directory's elements are a prefix of the path's, except that the root directory covers only itself. |
| `PathGrants.WithinTransitive` | internal/pathgrant/pathgrant.go:189-197 | Within is transitive on all strings. |
| `PathGrants.WithinComparable` | internal/pathgrant/pathgrant.go:189-197 | Two directories with a path in common lie one within the other. |
| `PathGrants.AddAllowsExactly` | internal/pathgrant/pathgrant.go:64-96 | Whatever the file held, Add allows exactly what was allowed and what lies within the directory. |
| `PathGrants.EveryFileIsAntichain` | internal/pathgrant/pathgrant.go:64-188 | After any sequence of Add, Forget and ForgetProject, saved or not, no grant of a project lies within another and none is recorded twice. |
| `PathGrants.ForgetIsExact` | internal/pathgrant/pathgrant.go:130-160 | Forgetting a recorded grant takes back exactly the paths within it if and only if the project has no other comparable grant. |
| `PathGrants.ForgetProjectIsExact` | internal/pathgrant/pathgrant.go:162-188 | Forgetting a project takes back all it was granted and nothing else. |
| `PathGrants.AddLeaves` | internal/pathgrant/pathgrant.go:64-96 | Add drops the grants of the project beneath the new one and no other, however often one was recorded, and changes nothing when a grant already covers it. |
| `PathGrants.ForgetLeaves` | internal/pathgrant/pathgrant.go:130-160 | Forget drops the grant it names and no other. |
| `PathGrants.ForgetProjectLeaves` | internal/pathgrant/pathgrant.go:162-188 | Forgetting a project drops its grants and no other. |
| `PathGrants.SortedIsOrdered` | internal/pathgrant/pathgrant.go:247-252 | What is written is in project, then path order. |
| `PathGrants.BeforeMeans` | internal/pathgrant/pathgrant.go:247-252 | The order of strings: where two part, one ends or has the smaller character. |
| `PathGrants.SortedMembers` | internal/pathgrant/pathgrant.go:247-252 | Sorting loses and repeats nothing. |
| `PathGrants.GrantFile.Allowed` | internal/pathgrant/pathgrant.go:40-62 | True exactly when some grant of the project covers the path; an error exactly when a path or the file cannot be read. |
| `PathGrants.GrantFile.Add` | internal/pathgrant/pathgrant.go:64-96 | The in-place filter with its early return: covered means nothing is written, otherwise the subsumed grants give way to the new one; a failed write changes nothing. |
| `PathGrants.GrantFile.Forget` | internal/pathgrant/pathgrant.go:130-160 | Reports whether the grant was there and writes only if it was. |
| `PathGrants.GrantFile.ForgetProject` | internal/pathgrant/pathgrant.go:162-188 | Reports how many grants went and writes only if any did. |

## Left out

- Agent.Agent.RunTurn: takes any finite number of rounds, after which the context counts as cancelled, because without a round budget the program's loop has no bound of its own.
- Agent.Agent.CallModel: takes the reply as it is given; parsing of the stream, retries and usage are not modelled.
- Which of several reasons a refused ticket request is given, beyond a missing ticket: when each is refused is stated, the order of the checks is not.
- Runs.Registry.Sweep: detaches in one section what the program detaches in the first of two; the second only rewrites records.
- Texts, titles, comment bodies and times of tickets and runs, notices and rendered messages; a comment is only whom it touches.
- A splice that lands while the pump runs or after a drop, beyond what SpliceAfterDropLosesMarker says of it.
- The chain of ids printed with a refused cycle; the refusal itself is modelled.
- Several projects' ticket books, and ticket tables loaded from disk, which the program does not validate: histories start from an empty book.
- Announcements and their order, and the views they carry beyond the ticket views returned.
- 64-bit overflow of counters; numbers are unbounded.
- Repair of invalid UTF-8 beyond its length; contents are strings and sizes are their lengths.
- Tokenizers that answer differently about the same conversation; one function stands for the tokenizer.
- The journals and files a deleted run leaves, and what a discarded session saves.
- Messages injected while no turn runs, which the program refuses.
- The object identity of live run rows: a row is found by its id, since ids are never reused.
- Provider exchanges, sockets, pasted codes and the panic of a provider call, which would end the process.
- Other processes writing the grant file at the same time; grant times.
- Canonical path resolution; its result or failure is a parameter.
- The run dispatcher, ticket runs over git, project runtimes, the model registry overlay, credential rotation, retrying streams and hook aggregation: not part of this model.
