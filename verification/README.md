# A crash-safe application protocol, modelled and proved

libpkgapply applies a package operation plan to a target so that the process
may die at any moment.  Before anything happens it freezes the whole job: the
payloads to stage, the old objects to capture, and a deterministic order of the
active effects.  It then keeps a write-ahead journal, one immutable step and one
compare-and-swap of a bounded cursor for each transition, and goes through the
phases capture, stage, publish rejected objects, execute active effects,
observe, publish evidence and seal.  An attempt that stops is undone in reverse
order.  A process that finds an unfinished attempt rebuilds its view from the
journal and runs a second copy of every phase.

This project models that protocol in Dafny and proves what it promises.

## How it is built

- `Paths`, `Plans`, `Schedule`, `Jobs`: the plan, the scheduler, the captures,
  the payload closure, and the frozen effect graph.
- `Journal`, `Record`, `History`, `Store`: the journal values, the batch
  validator of the record, the incremental history, and the durable store with
  its append and load protocols.  Every store call may end with the process
  dying before or after it took effect.
- `Ledger`, `Protocol`: the journal read effect by effect, and the invariant
  that ties it to the calls made so far: the order of the effects, what each
  state has behind it, and what published evidence may say.  Each kind of step
  and each kind of call is proved to keep it.
- `Namespace`: what the invariant says about the real target.  One backend
  contract lets an effect transform the whole target, with an inverse that is
  good only while no later effect is in force; a second one keeps each effect on
  its own path.
- `Backend`, `Applications`: the backend, whose calls may fail, be uncertain, lie
  or never return, and the one place where steps are published.
- `Phases`, `Preparation`, `Publication`, `Execution`, `Completion`, `Recovery`,
  `Apply`: a first run.
- `RestartView`, `Restart`, `ResumePreparation`, `ResumePublication`,
  `ResumeExecution`, `ResumeCompletion`, `Runs`: restarted runs, and any number
  of them after a first run.
- `Corners`, `PlanCorners`: reachable journals that a restart can never end, only
  undo, or never complete, and plans whose results cannot be sealed.
- `Receipts`: durability rules, receipts, completed evidence and what their
  constructors refuse.
- `Bytes`, `IdentityText`, `CanonicalRecord`, `Wire`, `TransportCodec`,
  `StepCodec`, `SignedIntegers`, `Results`: identities, the records they are
  digests of, and the binary forms.

A call returns `Live(value)`, `Crashed` (the process died inside it) or
`Thrown(fault)`.  What a method promises on all three is stated: wherever a run
ends, the store is durable and the attempt is safe.  Stores and backends carry
constants that say whether the process may die in them and whether the backend
keeps its contract; no method crashes without such a store or backend.

## The main results

1. Every attempt, through a first run and any number of crashes and
   resumptions, stays safe (`Runs.Run`, `Runs.RunIsSafe`): every mechanism was
   called under an intent that was durable at that moment, at most once on a
   path, in the scheduled order, and never executed after a recovery.  All
   receipts ever returned are one.
2. Receipts are true of the target (`Runs.RunRestores`, `Runs.RunPathIsTrue`):
   a fully recovered or unmutated attempt left it as it was, and every path
   holds what its receipt says, whether admitted or observed.  In the first
   model the reverse order of recovery is what the proof rests on.
3. A first run ends completed exactly when nothing that success requires failed
   (`Apply.RunFirst`), and returns a receipt unless the process dies or the
   backend breaks its contract, outside three cases that are characterised
   exactly (below).
4. A restarted run of a resumable attempt returns its receipt unless the process
   dies, the backend breaks its contract, or a named corner has come about
   (`Runs.ResumeAttempt`, `Runs.Cornered`).  An attempt that is stranded (no
   restart takes it up, or each finds an interruption that cannot be constructed)
   stays so over any number of resumptions (`Runs.ResumeRepeatedly`), one that
   balks over a merely visible synchronization ends at the second
   (`Runs.ResumeBalked`), and one in which a required effect failed is never
   reported as completed (`Runs.NeverCompletes`).  `Corners` and
   `PlanCorners` show that each corner is reached.
5. Whatever crashes leave behind, loading yields exactly the durable steps
   (`Store.Load`), and the incremental history agrees with the batch validator
   in both directions (`History.ReplayIsBatch`).
6. The scheduler refuses exactly the cyclic plans, its order is unique and does
   not depend on the input order, and ancestor edges never form a cycle.  A job
   is prepared exactly when its plan is bound, supplied by the image and free of
   cycles (`Jobs.PrepareJob`).
7. A first run leaves only journals that the restart view accepts, and the view
   shows exactly what the backend answered (`Runs.FirstRun`,
   `Runs.ViewTellsResults`).
8. Cursor identities stand for whole journals under a digest without collisions
   among the records concerned; cursor bytes and identity texts are canonical.

## Where the code does less than it may seem to

Each of these is proved as an equivalence or shown by a lemma.

- A run in which no active effect changed the target never performs the active
  synchronization it declared, so its success seal is refused
  (`Completion.FreshDone`, `PlanCorners.RetainedIsNotSealed`).
- A retained directory followed by a failure with nothing changed makes the
  receipt constructor throw (`Recovery.ReceiptRefused`,
  `PlanCorners.RetainedHasNoReceipt`).
- Completed evidence is refused for a plan that keeps an object that was absent
  (`Completion.EvidenceAccepted`, `PlanCorners.KeptAbsentHasNoEvidence`).
- A resumed recovery counts an unconfirmed recovered namespace as not recovered;
  a fresh one does not (`ResumeExecution.FinishResumedRecovery`,
  `Recovery.FinishFirstRecovery`).
- A restart whose attempt failed derives an interruption that its constructor
  rejects when a recovery was left uncertain or the recovered namespace is
  already confirmed, and so does every later restart
  (`ResumeExecution.RestartInterruption`, `Runs.StrandedStays`,
  `Corners.UncertainRecovery`, `Corners.ConfirmedRecovery`).
- A restart that goes forward rejects an active synchronization that was reported
  visible, after it has handed the attempt to recovery; only the restart after it
  ends the attempt (`ResumeExecution.ConcludeReexecution`, `Runs.ResumeBalked`,
  `Corners.VisibleSynchronization`).
- Staging again after a crash may record other evidence, and then no later
  restart can read the journal (`ResumePreparation.RestagingMayConflict`,
  `RestartView.ViewAccepts`, `PlanCorners.StagedTwice`).
- Evidence whose publication failed before the seal was durable makes a later
  completion throw wherever the results still match, and the attempt is never
  completed (`ResumeCompletion.RepublishEvidence`, `Corners.UnpublishedEvidence`).
- An attempt whose evidence could not be made durable is never completed, and
  under any other projection its seal is refused however durable the evidence is
  made then (`ResumeCompletion.ResumeComplete`, `Corners.UnconfirmedEvidence`).
- Step bytes are not canonical: every order of the backend evidence decodes to
  the same step (`StepCodec.StepCodecExact`), although the cursor codec is exact.
- A negative zero is read as zero by the signed integer codec
  (`SignedIntegers.SignedExact`); the receipt decoder relies on its re-encoding
  check to refuse it.

## Model

| member | source | states |
|---|---|---|
| Runs.Run | src/apply.cpp:97-154 | A first run and any number of resumptions, each cut short anywhere: the attempt stays safe, the journals left by the runs each extend the ones before, every receipt ever returned is the one receipt in the journal, and after a stranded journal no run returns any. |
| Runs.RunIsSafe | src/application_engine.cpp:2702-2758 | Over any such run every single mechanism call was made under an intent that was durable at that moment; no mechanism is called twice on a path, rejected publication precedes execution precedes recovery, and the calls of each kind are a prefix of the rejected order, the active schedule, and the candidates the journal determines. |
| Runs.RunRestores | src/application_engine.cpp:4022-4210 | A durable receipt, fresh or resumed, that says fully recovered or failed before target mutation implies that the target equals the admitted one, under a backend whose effects may transform the whole target and are undone exactly only in last-in-first-out position. |
| Runs.RunPathIsTrue | src/application_engine.cpp:3780-3877 | Every path of a durable receipt is in the state the receipt records for it afterwards: it holds its admitted object, or an object is present exactly as the receipt says was observed, or nothing is claimed. |
| Runs.FirstRun | src/restart_view.cpp:230-520 | Wherever a first run is cut short, the restart view accepts the journal and shows exactly what it records. |
| Runs.ViewTellsResults | src/restart_view.cpp:300-500 | What the view shows for a path is what the backend answered: the outcome of the calls of a mechanism, the record of a rejected object, the latest capture. |
| Runs.ResumeAttempt | src/restart.cpp:519-533 | Resuming keeps the attempt safe and only extends the durable steps. An attempt with a receipt, in a state that is not resumable or with conflicting staging facts is refused and left alone; any other ends with its durable receipt unless the process dies, the backend breaks its contract, or a named corner has come about. Where the interruption cannot be constructed or the attempt balks, no receipt is returned, a backend that keeps its contract makes it throw, and the journal left behind is stated exactly. |
| Runs.ResumeRepeatedly | src/restart.cpp:519-533 | Over any number of resumptions the journals only grow, all receipts are one, and an attempt that is stranded after some run is stranded after every later one and never returns a receipt, whatever crashes and whatever the backend does. |
| Runs.StrandedStays | src/application_engine.cpp:5130-5267 | A restart of a stranded attempt returns no receipt and leaves it stranded; once recovery has begun, or if it is not taken up, the journal says the same as before. |
| Runs.ResumeBalked | src/application_engine.cpp:5192-5217 | An attempt whose active synchronization is on record as merely visible needs two restarts: the first throws and hands it to recovery, the second returns a durable receipt, not of a completed attempt. |
| Runs.NeverCompletes | src/journal.cpp:210-225 | Once an effect that success requires is on record as failed or uncertain, no journal that goes on from there ever holds the receipt of a completed attempt. |
| Runs.PastActiveEnds | src/application_engine.cpp:5440-5715 | Past the active phase the restart of a regular plan throws only over evidence whose publication failed, or over evidence whose synchronization failed and which is published again under another projection. |
| Runs.FinishReplay | src/application_engine.cpp:5719-5789 | A restarted run stays safe throughout and throws, a broken backend contract aside, only in a named corner of the journal it found or left; over an interruption that cannot be constructed and over a merely visible synchronization it returns no receipt and leaves the journal as it was or in the state of the interruption. |
| Runs.ReceiptStays | src/journal_transport.cpp:299-305 | A durable receipt never changes however far the journal grows. |
| Corners.UncertainRecovery | src/application_engine.cpp:5130-5267 | A reachable journal, for every pair of paths, in which an active effect failed and the recovery of another was left uncertain: restarts take it up, and it is stranded. |
| Corners.ConfirmedRecovery | src/application_engine.cpp:5230-5267 | The same where everything was undone and the recovered namespace confirmed, but the process died before the seal. |
| Corners.VisibleSynchronization | src/application_engine.cpp:5077-5126 | A reachable journal whose active synchronization is on record as merely visible: its first restart balks, although recovery would accept it. |
| Corners.UnpublishedEvidence | src/application_engine.cpp:5588-5599 | A reachable journal, all results observed, whose evidence was not published: restarts take it up, and however it goes on it is never reported as completed. |
| Corners.UnconfirmedEvidence | src/application_engine.cpp:5642-5715 | A reachable journal whose evidence was published but not made durable: its seal is refused under every projection but the first, and however it goes on it is never reported as completed. |
| PlanCorners.RetainedIsNotSealed | src/application_engine.cpp:2760-2761 | A reachable journal of a plan that removes one directory if it is empty: the directory was retained, everything success requires has completed but the active synchronization that never runs, and no success seal is accepted. |
| PlanCorners.KeptAbsentHasNoEvidence | src/result.cpp:444-479 | A reachable journal of a plan that keeps an absent object: its result matches, and completed evidence is refused under every projection. |
| PlanCorners.RetainedHasNoReceipt | src/result.cpp:500-507 | A reachable journal with a retained directory and a failed effect: nothing can be undone, and the receipt of the failure is refused. |
| PlanCorners.StagedTwice | src/application_engine.cpp:4739-4743 | A reachable journal of a run that died between staging two files; it can be taken up, and staging the second one with other evidence leaves a reachable journal that is stranded. |
| Schedule.OrderActiveNodes | src/schedule.cpp:114-180 | Refused exactly when a hard-link anchor is missing or the edges have a cycle; otherwise a permutation of the nodes in which every edge goes forward and each node is the least ready one. |
| Schedule.TopologicalOrder | src/schedule.cpp:146-180 | The loop emits greedily; if it stops early the edges have a cycle, otherwise the order is a permutation. |
| Schedule.BuildEdges | src/schedule.cpp:114-146 | The edge sets and indegrees are exactly those of the ancestor and hard-link relation. |
| Schedule.Release | src/schedule.cpp:160-171 | Emitting a node keeps every indegree equal to the number of its unemitted predecessors. |
| Schedule.AncestorEdgesAcyclic | src/schedule.cpp:91-131 | Ancestor edges alone never form a cycle, whatever the mix of outcomes. |
| Schedule.AncestorOrder | src/schedule.cpp:91-131 | Without a hard-link node no plan is refused; incoming directories precede everything below them and all other nodes follow their descendants, so removals put every descendant before its ancestor. |
| Schedule.ScheduleUnique | src/schedule.cpp:149-174 | A set of nodes with distinct paths has at most one greedy schedule. |
| Schedule.ScheduleIndependent | src/schedule.cpp:149-174 | Two node lists with the same nodes in any order give the same schedule. |
| Schedule.ScheduleForward | src/schedule.cpp:146-180 | In a complete schedule every dependency edge goes forward. |
| Schedule.CycleOfNodes | src/schedule.cpp:175-179 | The refusal is about the nodes and not their numbering: the index graph has a cycle exactly when the node relation has. |
| Schedule.ForwardAcyclic | src/schedule.cpp:175-179 | A permutation in which all edges go forward excludes every cycle. |
| Schedule.NodesAreDecisions | src/schedule.cpp:68-89 | The scheduled nodes are exactly the decisions that need the active mechanism, with their image entries. |
| Jobs.PrepareJob | src/schedule.cpp:197-257 | A job is prepared if and only if the image supplies every decision, no absent object has to be kept, every node is bound, no anchor is missing and the order has no cycle; it is then well formed, scheduled from its plan and image, and selects exactly the entries whose bytes some decision needs. |
| Jobs.CapturesExact | src/capture.cpp:26-74 | A path is captured exactly when recovery was selected and its effect may destroy the old object, or its rejected decision stages the observed object. |
| Jobs.PreparePayloads | src/payload.cpp:49-91 | One requirement for each decision that needs an image entry, in plan order, with the payload of that entry, hard links resolved to their anchors; the selection is strictly increasing and exactly the set of these payloads; refused exactly when the image lacks something. |
| Jobs.RegularPayload | src/payload.cpp:14-41 | The payload of an entry is found exactly when there is one: the entry itself, the regular anchor of a hard link, or none for other kinds. |
| Jobs.JournalEffects | src/application_engine.cpp:469-520 | The effect graph in ordinal order is the one the job determines. |
| Jobs.RecoveryReversed | src/application_engine.cpp:488-497 | The declared recovery effects are the exact reverse of the active effects. |
| Jobs.JobKeysExact | src/application_engine.cpp:469-520 | An effect is declared exactly when the job needs it. |
| Jobs.JobKeysDistinct | src/application_engine.cpp:469-520 | No two declared effects share a kind and a path. |
| Jobs.FindEffect | src/application_engine.cpp:760-778 | Looking an effect up finds the declared one and fails exactly for an undeclared one. |
| Jobs.DeclarationLookups | src/application_engine.cpp:758-778 | Declarations have consecutive ordinals, and a lookup succeeds exactly for the effects of the job. |
| History.ReplayIsBatch | src/journal_history.cpp:131-261 | The incremental history accepts a journal exactly when the batch rules of the record accept it step by step. |
| History.StepIsBatch | src/journal_history.cpp:192-236 | One more step is admissible exactly when cursor, events and resolution all satisfy the batch rules. |
| History.CounterExact | src/journal_history.cpp:162-189 | The completed counter equals the required count exactly when every required effect completed. |
| History.SnapshotAccepted | src/journal_history.cpp:328-333 | A snapshot of an accepted history is never refused by the record constructor. |
| History.SnapshotSuccessor | src/journal_codec.cpp:647-699 | Replacing the record by that of one more step is legal exactly while no receipt is retained, or when nothing changed. |
| History.TerminalStays | src/journal_transport.cpp:126-176 | Abandoned, recovered and completed states are never left, and a retained receipt never changes. |
| History.CompletionPath | src/journal_transport.cpp:126-176 | A completed journal visited preparing, prepared, mutating, effects visible and result observed in that order. |
| History.JournalHistory.ValidateStep | src/journal_history.cpp:192-236 | Validation yields the next cursor and counter exactly for admissible steps. |
| History.JournalHistory.Append | src/journal_history.cpp:246-261 | Appending extends the accepted journal by the step or changes nothing. |
| History.JournalHistory.Snapshot | src/journal_history.cpp:328-333 | The record of the whole history, always accepted. |
| Record.ValidateEvents | src/journal.cpp:159-199 | The batch progress of all events, or a refusal, event by event. |
| Record.CheckSuccessEffects | src/journal.cpp:210-225 | True exactly when every effect that success requires has completed. |
| Record.MakeRecord | src/journal.cpp:443-466 | A record is built exactly when events and resolution are valid. |
| Store.AppendJournalStep | src/application_engine.cpp:642-674 | A step is thrown out exactly when the history refuses it, and then nothing became durable; otherwise at most this one step did, and after a crash the store is still durable. |
| Store.Load | src/journal_history.cpp:57-109 | On any store crashes have left, loading never refuses an existing journal, returns exactly the durable steps, and settles the cursor on them. |
| Store.AdoptOrphan | src/journal_history.cpp:88-106 | Exactly one step beyond the cursor is adopted. |
| Store.JournalStore.PublishStep | src/application_engine.cpp:657-663 | A durable step is never rewritten. |
| Ledgers.AdmissibleIsAllowed | src/journal_history.cpp:131-236 | A chained step is accepted by the history exactly when the per-effect ledger of the journal allows it. |
| Ledgers.LedgerAgrees | src/journal_history.cpp:246-261 | The ledger of an accepted journal gives the same state, progress, receipt and evidence as the history. |
| Ledgers.DoneStays | src/journal_history.cpp:132-159 | A terminal event is final. |
| Protocol.KeepMechanism | src/application_engine.cpp:2702-2758 | Publishing the intent or the terminal event of a mechanism whose turn it is keeps the protocol invariant. |
| Protocol.KeepRight | src/application_engine.cpp:5530-5582 | Published evidence is, and stays, the one that plan, seed and journal determine, so an earlier run and a restart cannot disagree about it. |
| Protocol.KeepMechanismCall | src/application_engine.cpp:2720-2724 | Calling a mechanism once under its durable intent, in its turn, keeps the protocol invariant. |
| Protocol.KeepNeutral | src/application_engine.cpp:833-870 | Steps about no capture and no mechanism keep the protocol invariant; a receipt may be sealed only if it is truthful. |
| Protocol.NoLaterCall | src/application_engine.cpp:4843-4926 | When a mechanism has its turn, no call of a later phase was made before. |
| Protocol.SameShape | src/application_engine.cpp:5128-5182 | Journals that agree on the mechanism effects determine the same candidates, orders and gates. |
| Applications.Application.Publish | src/application_engine.cpp:642-674 | One step is published or refused exactly as the ledger allows; the attempt stays safe wherever the process dies. |
| Applications.RunActive | src/application_engine.cpp:2711-2745 | Intent, one call, terminal event; the recorded outcome is the one returned. |
| Applications.RunRejected | src/application_engine.cpp:1763-1783 | Intent, one call, terminal event with the record of the rejected object. |
| Applications.RunRecover | src/application_engine.cpp:4105-4130 | Intent, one call, terminal event of a recovery whose turn it is. |
| Applications.RunCapture | src/application_engine.cpp:984-1032 | Intent, call, terminal event of a capture; a capture that must allow exact recovery and does not is recorded as failed. |
| Applications.RunSynchronization | src/application_engine.cpp:1118-1139 | Intent, call, terminal event of a durability domain, with the reported status. |
| Preparation.Prepare | src/application_engine.cpp:1164-1223 | Either everything is captured, staged, durable and prepared with nothing else begun, or a failure receipt is sealed because some effect did not complete. |
| Preparation.CaptureOldObjects | src/application_engine.cpp:978-1041 | Captures every requested object in order and stops at the first that does not complete. |
| Preparation.StageIncomingPayloads | src/application_engine.cpp:1050-1115 | One staging call under all intents, one terminal event for every staged entry. |
| Phases.FailPreparation | src/application_engine.cpp:945-968 | A failed preparation is abandoned with a receipt that claims no mutation. |
| Publication.PublishRejected | src/application_engine.cpp:1735-1868 | Every rejected object is published and, where asked for, durable before anything active; otherwise a failure receipt is sealed. |
| Publication.FailRejected | src/application_engine.cpp:1693-1731 | The failure receipt of the rejected phase is accepted and truthful; only records that repeat make it throw. |
| Execution.ExecuteEach | src/application_engine.cpp:2702-2758 | Active effects run in scheduled order until one neither completes nor retains its object. |
| Execution.ExecuteActive | src/application_engine.cpp:2688-2821 | The phase ends complete and synchronized where something changed, or interrupted exactly because an effect or the synchronization did not complete. |
| Completion.CompleteFirst | src/application_engine.cpp:3408-3605 | Seals completion exactly when nothing failed; it throws only over the active synchronization that was never run or over an object the plan keeps that was never there. |
| Completion.FreshDone | src/application_engine.cpp:2760-2761 | With observations and evidence done, every required effect has completed if and only if not (no active effect changed the target while an active synchronization is declared). |
| Completion.EvidenceAccepted | src/result.cpp:444-479 | The completed evidence of a matched run is refused if and only if the plan keeps an object that was absent. |
| Completion.SealCompletion | src/application_engine.cpp:3587-3604 | The success seal is accepted exactly when every other required effect has completed. |
| Completion.SealTerminalReceipt | src/application_engine.cpp:3388-3404 | The seal publishes its intent and terminal event with the receipt, exactly if the journal allows the sealed state. |
| Completion.ConcludeObservations | src/application_engine.cpp:3436-3485 | Each observation is judged against its decision and recorded; a verdict other than matched leaves a failed observation. |
| Recovery.RecoverFirst | src/application_engine.cpp:4024-4210 | Under exact-prior-state control a run whose recoveries all complete is fully recovered; it throws only when nothing can be undone and a directory was retained. |
| Recovery.UndoListIsCandidates | src/application_engine.cpp:3801-3815 | The reverse list built from the results in memory is the one the journal determines. |
| Recovery.ExactControlIsExact | src/application_engine.cpp:3780-3798 | Under exact-prior-state control every scheduled effect of a prepared run can be undone exactly. |
| Recovery.ReceiptRefused | src/result.cpp:500-507 | The failure receipt of a recovery is refused if and only if it would call an attempt unmutated in which a directory was retained. |
| Recovery.UndoEach | src/application_engine.cpp:4090-4147 | Candidates are undone in order and the first recovery that does not complete ends the undoing. |
| Recovery.FinishFirstRecovery | src/application_engine.cpp:4152-4210 | A fresh recovery is classified without regard to the status of the recovered namespace. |
| Recovery.SealRecovery | src/application_engine.cpp:3995-4020 | Seals the classified ending truthfully, or throws exactly in the refused case. |
| Apply.RunFirst | src/apply.cpp:97-154 | A first run ends completed exactly when no effect that success requires failed; it throws, a broken backend contract aside, only where a declared active synchronization never ran, the plan keeps an absent object, or a directory was retained and nothing can be undone; on a plan without conditional removals and impossible retentions it does not. |
| Apply.ApplyPlan | src/apply.cpp:97-154 | Without a crash, with a backend that keeps its contract and such a plan, applying an admitted job always returns a durable receipt; a plan is refused exactly when it cannot be prepared, and then leaves no journal and makes no call. |
| Apply.Begin | src/application_engine.cpp:537-574 | The declaration and the initial cursor become durable in this order, from nothing. |
| Apply.Admit | src/application_engine.cpp:106-145 | A plan is admitted exactly when what was observed satisfies its preconditions; then every path was seen as planned and the seed is the planned one. |
| Apply.SeedAdmits | src/precondition.cpp:134-160 | The seed made of the observations is the planned one if and only if every path was seen as planned, which satisfied preconditions imply. |
| RestartView.BuildView | src/restart_view.cpp:230-520 | The loop over the steps computes the view, or refuses; synchronizations are kept by domain, the latest replacing the one before. |
| RestartView.ViewShows | src/restart_view.cpp:230-520 | A view of an accepted journal shows exactly the facts of its terminal events, for each domain one of its synchronizations, and the durability they all add up to. |
| RestartView.ViewAccepts | src/restart_view.cpp:316-324 | The view refuses the journal of a safe attempt if and only if two staging effects retain different facts. |
| Restart.Assess | src/restart.cpp:113-150 | A loaded attempt is refused if and only if it has a receipt, its state is not resumable, or its staging facts conflict; it goes on in recovery exactly if it was there or an active effect was begun and did not go through. |
| Restart.DispositionOf | src/restart.cpp:113-150 | Exactly when a record is resumed forward, resumed in recovery, or left to external resolution; a mutating one goes forward exactly if no active effect failed or may have. |
| Restart.ActiveRequiresRecovery | src/restart.cpp:88-110 | True exactly when an active effect was intended and did not complete. |
| ResumePreparation.ResumePrepare | src/application_engine.cpp:4541-4818 | A restarted preparation changes only preparation effects, and nothing once the attempt was prepared; it ends with every capture recorded as completed, or with a durable receipt, and throws only if the backend breaks its contract. |
| ResumePreparation.RestagingMayConflict | src/application_engine.cpp:4739-4743 | Re-staging may record other evidence than before the crash: the journal takes the step, and the staging facts conflict from then on. |
| ResumePublication.ResumePublish | src/application_engine.cpp:4822-4977 | The restarted rejected phase ends with every rejected object recorded as completed and, where declared, the rejected store recorded as durable, or with a durable receipt; it makes no step where an earlier run had finished, and throws only if the backend breaks its contract. |
| ResumePublication.RepublishNext | src/application_engine.cpp:4843-4926 | An object already intended or concluded makes no call and no step; an intent without a terminal event counts as indeterminate. |
| ResumeExecution.ResumeExecute | src/application_engine.cpp:4981-5126 | The restarted active phase changes only active effects and ends with exactly the recorded effects, all gone through or interrupted; it throws, a broken backend contract aside, exactly where the active synchronization is on record as merely visible. |
| ResumeExecution.ConcludeReexecution | src/application_engine.cpp:5077-5126 | After all effects the phase completes or stops at its synchronization; it throws, a broken backend contract aside, if and only if that synchronization, of this run or an earlier one, is on record as merely visible, and then hands the attempt to recovery. |
| ResumeExecution.ReexecuteNext | src/application_engine.cpp:4995-5074 | An effect already intended or concluded makes no call and no step; an intent without a terminal event counts as indeterminate. |
| Recovery.UndoNext | src/application_engine.cpp:5306-5366 | A recovery already intended or concluded makes no call and no step; an intent without a terminal event counts as indeterminate. |
| ResumeExecution.RestartInterruption | src/application_engine.cpp:5130-5267 | The interrupted attempt rebuilt from the journal holds exactly the recorded effects and the first cause found there: a failed effect, an uncertain one, the synchronization, an observation. It is refused if and only if nothing is found, an observation is uncertain, or the recorded active durability does not go with a failed effect or observation. |
| ResumeExecution.FoundFits | src/application_engine.cpp:5246-5267 | The interruption found in the journal satisfies the constructor exactly unless the restart is refused. |
| ResumeExecution.FinishResumedRecovery | src/application_engine.cpp:5372-5436 | A resumed recovery is fully recovered if and only if all candidates were undone, exactly, and, where all domains are required, the recovered namespace is on record as confirmed. |
| ResumeExecution.ResumeRecover | src/application_engine.cpp:5271-5436 | A resumed recovery ends in a durable receipt, never of a completed attempt, and throws only if the backend breaks its contract or where nothing can be undone and a directory was retained. |
| ResumeCompletion.ResumeComplete | src/application_engine.cpp:5440-5715 | A restarted completion goes on to recovery where results do not match. Where they match it is refused exactly over an absent object that is kept, then exactly over a failed publication; otherwise, if the backend publishes and confirms, its seal is refused if and only if the synchronization of the evidence failed and the evidence is published again, or the declared active synchronization never ran, and the attempt completes if and only if neither failed or was left out. |
| ResumeCompletion.FinishSynchronized | src/application_engine.cpp:5642-5715 | After the evidence is published the attempt completes only where no required synchronization failed or was left out; with a backend that confirms, it completes and its seal is refused exactly under the stated conditions. |
| ResumeCompletion.RepublishEvidence | src/application_engine.cpp:5583-5640 | Publishing the evidence again is refused if and only if its publication is on record as not completed, or other evidence is on record and is to be kept. |
| ResumeCompletion.EvidenceAgainFits | src/application_engine.cpp:5530-5582 | A restart can make its evidence unless the plan keeps an absent object; evidence on record is the same but for its projection, so publishing again is refused exactly over a failed publication. |
| Namespace.Unwinds | src/application_engine.cpp:3801-3815 | In every run with the proved call order, unwinding the effects in force leads back to the first target. |
| Namespace.UndoneRestores | src/application_engine.cpp:4090-4147 | Undoing all candidates exactly in reverse order restores the admitted target. |
| Namespace.ReceiptRestores | src/application_engine.cpp:4187-4193 | A fully recovered or unmutated receipt is right about the target. |
| Namespace.AfterIsTrue | src/application_engine.cpp:3830-3877 | The admitted state or the observed presence that a receipt records for a path is the real one. |
| Namespace.CallsInOrder | src/application_engine.cpp:5306-5366 | Active calls are a prefix of the schedule, recoveries a prefix of the candidates, and no execution follows a recovery. |
| Namespace.CallsAreSafe | src/application_engine.cpp:4995-5074 | No mechanism is called twice on a path, and no call of an earlier phase follows one of a later phase. |
| CanonicalRecord.CursorIdentityFixesJournal | src/journal_transport.cpp:283-313 | If the digest has no collision among the records of two linked journals, equal cursor identities mean the same declaration and the same entire step sequence. |
| CanonicalRecord.StepRecordInjective | src/journal_transport.cpp:54-97 | The record of a step determines all its fields. |
| CanonicalRecord.CursorRecordInjective | src/journal_transport.cpp:99-124 | The record of a cursor determines all its fields. |
| CanonicalRecord.EffectRecordInjective | src/journal.cpp:123-138 | The record of an effect determines its ordinal, kind and path. |
| CanonicalRecord.IdentifyEffect | src/journal.cpp:122-138 | Appending the fields one by one yields the digest of the effect record. |
| CanonicalRecord.DeclarationRecordFixes | src/journal_transport.cpp:36-52 | The record of a declaration determines its header identity, effect identities and replay seed. |
| CanonicalRecord.DomainsSeparate | src/canonical_record.cpp:23-31 | Records of two kinds never coincide. |
| CanonicalRecord.IdentifyStep | src/journal_transport.cpp:54-97 | Appending the fields one by one yields the digest of the step record. |
| CanonicalRecord.IdentifyCursor | src/journal_transport.cpp:99-124 | Appending the fields one by one yields the digest of the cursor record. |
| CanonicalRecord.IdentifyDeclaration | src/journal_transport.cpp:36-52 | Appending the fields one by one yields the digest of the declaration record. |
| CanonicalRecord.RecordBuffer.AppendU64 | src/canonical_record.cpp:54-59 | The shifting loop appends the eight bytes of the number, most significant first. |
| IdentityText.ParsesItsTextOnly | src/digest.cpp:43-80 | A text parses to a digest if and only if it is the text printed for that digest. |
| IdentityText.Parse | src/digest.cpp:43-80 | Every text is answered as the reading function says, refusals by their code. |
| IdentityText.FromSha256 | src/identity_factory.h:16-28 | The loop prints the canonical text of a digest. |
| TransportCodec.CursorCodecExact | src/journal_transport_codec.cpp:705-774 | Bytes decode to a cursor if and only if they are its encoding and it satisfies the constructors, for any digest function. |
| TransportCodec.EncodeCursor | src/journal_transport_codec.cpp:705-726 | Encoding a cursor never meets the size ceiling and yields its bytes. |
| TransportCodec.DecodeCursor | src/journal_transport_codec.cpp:728-774 | Decoding answers every byte string, refusals by their code, as the reading function says. |
| StepCodec.StepRoundTrip | src/journal_transport_codec.cpp:624-696 | Decoding the encoding gives back every step within the limits. |
| StepCodec.StepCodecExact | src/journal_transport_codec.cpp:651-696 | The bytes that decode to a step are its encodings under the orders of its backend evidence, and no others. |
| StepCodec.StepBytesAreNotCanonical | src/journal.cpp:86-92 | Evidence written in descending order decodes to the same step as in ascending order, so step bytes are not canonical. |
| StepCodec.EncodeStep | src/journal_transport_codec.cpp:624-649 | Encoding refuses exactly the steps beyond the evidence count or the size ceiling. |
| StepCodec.DecodeStep | src/journal_transport_codec.cpp:651-696 | Decoding answers every byte string, refusals by their code, as the reading function says. |
| StepCodec.SortedIsUnique | src/journal.cpp:86-92 | Sorting any order of an ascending evidence list gives that list. |
| Wire.IdentityExact | src/journal_transport_codec.cpp:242-252 | An identity is read from bytes exactly when its text was written there. |
| Wire.Reader.ReadU64 | src/journal_transport_codec.cpp:147-153 | The shifting loop reads the number of the next eight bytes, or finds the data truncated. |
| Wire.Writer.AppendIdentities | src/journal_transport_codec.cpp:500-510 | Identities are appended in order, exactly if they fit. |
| SignedIntegers.SignedExact | src/application_receipt_codec.cpp:62-69 | Every 64-bit integer, the minimum included, is read back from its form, and from no other bytes except that a negative zero also reads as zero. |
| SignedIntegers.AppendI64 | src/application_receipt_codec.cpp:62-69 | Sign and magnitude are written without overflow for every 64-bit integer, or the size ceiling is met. |
| SignedIntegers.ReadI64 | src/application_receipt_codec.cpp:148-169 | Sign and magnitude are read, and values out of range refused. |

## Left out

- SHA-256 (`src/sha256.cpp`): an arbitrary function from bytes to 32 bytes; where injectivity matters, absence of collisions among finitely many records is a hypothesis.
- libpkgplan, libpkgimage and libpkgbuild: paths are texts ordered lexicographically with `/`-prefix ancestry, plans are canonical lists of decisions, images are normalized lists of entries; parsing them is not part of this model.
- Admission, requests, target contexts, leases and incoming packages: sequences of equality checks on identities.
- Object facts: the field-by-field comparison of observed objects (`src/precondition.cpp:52-132`, `src/application_engine.cpp:2868-3112`) is one verdict for each path given by the backend.
- Evidence identities of backend calls: not kept in the engine model; the step codec has them.
- The consequence fields for role, ownership transition, incoming entry and rejected record, and the lookups of plan decisions that no frozen job can fail.
- Archive replay and payload sinks: staging is one backend call with an outcome and an evidence number.
- Three request templates (install, upgrade, remove): one request with an optional image.
- Backend calls that throw: a backend call returns a result or the process dies in it; a result that breaks the contract raises `BackendFault`.
- Concurrent writers of one journal: excluded by the lease.
- A store with several attempts: a store holds one declaration.
- Widths of sequence numbers and counts: unbounded in the engine model, 64-bit in the records and codecs.
- Identities in the engine model: steps, effects and receipts are compared as values; `CanonicalRecord` proves what the byte records contribute.
- The declaration codec and the state projection in its header: many identities of types whose parsers are foreign to the repository.
- The receipt, completed-evidence, replay-fact and batch journal codecs, except for the signed integers: further field lists of the same shape, behind a checksum frame.
- Memory exhaustion and the conversion of 64-bit lengths to the host size type.
- Runs.ViewTellsResults: speaks of mechanisms and captures; staging and synchronization results are not recorded in the trace of calls.
