# Iterative rule driver of the Volcano planner

This project models `IterativeRuleDriver`, the rule driver of Apache Calcite's
Volcano planner. The model proves properties of it in Dafny. The driver runs
the planner's phases in declaration order. Within a phase it asks the rule
queue for the next rule match of that phase and checks that the match's rule
still matches it. It then fires the match and canonicalizes the memo. It
repeats this until the queue has nothing left for the phase, and then tells
the queue that the phase is complete. If firing a match raises the planner's
timeout, the driver canonicalizes (once, in place of the usual
canonicalization), completes the current phase and
abandons the whole run (the labelled `break PLANNING`). Later phases are never
entered.

Modules:

- `Planning` (`planning.dfy`) holds the shared values:
  - a phase, identified by its ordinal;
  - a rule match;
  - the outcome of firing a match (`Ok` or `Timeout`);
  - a queue entry: a match scoped to a phase;
  - the handles the notification hooks receive.
- `Trace` (`trace.dfy`) describes a run by the calls the driver makes on its
  collaborators: `Pop(phase, match-or-none)`, `Apply(match, outcome)`,
  `Canonize` and `PhaseCompleted(phase)`.
  - `CallLog` is a ghost log of those calls. The queue's `PopMatch` and
    `PhaseCompleted` and the planner's `OnMatch` and `Canonize` each append
    their own event to it when called.
  - A `PhaseBlock` describes one entered phase: the matches fired normally,
    in order, and whether the phase drained or timed out on a last match.
  - `Events(blocks)` is the sequence of calls a run over `blocks` makes.
    The lemmas of `Trace` state the ordering and "exactly once" properties
    of every such sequence.
- `RuleQueue` (`rule_queue.dfy`) is the class `VolcanoRuleQueue`. For each
  phase it holds the list of pending matches. It also keeps the set of entries
  ever queued, so a match is queued for a phase at most once.
- `Planner` (`planner.dfy`) is the class `VolcanoPlanner`, the facade the
  driver calls:
  - `OnMatch` fires a match; its effect is given by an oracle saying how the
    firing ends and which entries it queues;
  - `Canonize` re-homes the root.
- `Driver` (`driver.dfy`) is the class `IterativeRuleDriver`:
  - `Drive` is the outer loop over phases;
  - `RunNextPhase` is one pass of it, and `RunPhase` is that pass's work: the
    inner `while (true)` loop of a phase and the phase's completion;
  - `Iterate` is one pass of the inner loop: a pop and, when it returns a
    match, the firing;
  - `Fire` is the check-then-fire step with its canonicalization;
  - `Clear` and the two no-op hooks.

The driver holds the log as a ghost field. `Drive` returns, as a ghost
result, one `PhaseBlock` per entered phase, and its contract states that the
calls it appends to the log are exactly `Events(blocks)`. So every property the
`Trace` lemmas prove of `Events(blocks)` is a property of the calls the driver
actually makes. The lemma `Driver.RecordedRun` states the main ones directly
of the log.

`Drive` proves that the blocks form a well-formed run:
- the phases entered are the first phases of the enumeration, in order;
- only the last entered phase may have timed out;
- fewer phases than exist are entered only when a timeout ended the run.

It also proves the following:
- no match is popped twice within a phase;
- every firing has the outcome the planner's oracle gives it;
- the root is current after the run exactly when it was current before or
  some match was fired;
- starting from an empty queue, every phase is entered and nothing is fired;
- the queue afterwards is stated in terms of the logged firings
  (`QueueAfter`). The record of what was queued is the earlier record plus
  what the firings of the popped matches produced. The list of an entered
  phase holds just the matches newly queued for it after that phase ended.
  The list of a phase not entered holds its earlier matches plus those newly
  queued for it. Lists are compared as multisets;
- every entered phase that drained popped, and so fired, exactly the matches
  its list held when the run started together with those newly queued for it
  by the end of the phase. A phase that timed out popped only such matches
  (`AllExhausted`, as multisets). The lemma `Driver.PendingFired` draws the
  consequence for a single match: a match pending for a drained phase at the
  start is fired in the run, with a normal outcome.

`RunPhase` additionally proves the following:
- every match it pops was queued for its phase;
- the phase's list is empty when it returns;
- what it popped is exactly what the phase's list held on entry together with
  the matches newly queued for the phase while it ran, when it drained; on a
  timeout, only such matches (`Exhausted`, as multisets);
- the record of what was queued gains exactly what the firings of its popped
  matches produced, and every other phase's list gains exactly the matches
  newly queued for it (`Elsewhere`);
- a phase whose list starts empty is drained without firing and leaves the
  queue as it was.

`Drive` terminates because the planner's firings can only ever queue entries
from a finite supply, and an entry is queued at most once. The measure of the
inner loop is the number of supply entries not yet queued, then the length of
the phase's pending list.

## Model

| member | source | states |
|---|---|---|
| Driver.IterativeRuleDriver.constructor | core/src/main/java/org/apache/calcite/plan/volcano/IterativeRuleDriver.java:39-42 | The driver keeps the given planner and a fresh rule queue with an empty list for every phase and nothing queued. The call log starts empty. |
| Driver.IterativeRuleDriver.Drive | core/src/main/java/org/apache/calcite/plan/volcano/IterativeRuleDriver.java:48-76 | The calls appended to the log are exactly `Events(blocks)`. The entered phases are the first ones in declaration order, each entered only after the previous one drained. Fewer than all phases are entered only when the last one timed out. Within a phase no match is popped twice, and every firing has the oracle's outcome. The root is current afterwards iff it was before or some match fired. From an empty queue, all phases are entered and nothing fires. The record of what was queued afterwards is the earlier one plus what the popped matches' firings produced. Each entered phase's list holds just the matches newly queued for it after it ended; each phase not entered holds its earlier matches plus those newly queued for it (as multisets). Each entered phase that drained popped and fired exactly what its list held at the start plus what was newly queued for it by its end; a timed-out one popped only such matches (as multisets). |
| Driver.RecordedRun | core/src/main/java/org/apache/calcite/plan/volcano/IterativeRuleDriver.java:48-76 | About the calls a `Drive` run appends to the log: each call is followed by one the control flow allows. Matches are fired exactly in pop order, with one canonicalization per firing. Every entered phase is completed exactly once and no other phase is. The run canonicalizes iff some match fired. A timed-out firing is followed only by a canonicalization and the completion of the last phase entered. A run that entered fewer phases than exist ends that way. |
| Driver.IterativeRuleDriver.RunPhase | core/src/main/java/org/apache/calcite/plan/volcano/IterativeRuleDriver.java:51-74 | Pops and fires until a pop returns none, then completes the phase. On a timeout it stops after the canonicalization and the phase's completion, and reports it. The calls appended to the log are exactly the block's events. The timeout flag is exactly the block's timed-out ending. Every popped match was queued for the phase and is popped once, and each firing has the oracle's outcome. The phase's list is empty on return. The record of what was queued gains exactly what the popped matches' firings produced, and every other phase's list gains exactly the matches newly queued for it (as a multiset). The root is current iff it was before or a match fired. A phase whose list starts empty fires nothing and leaves the lists and the record of what was queued as they were. The popped matches are, as a multiset, exactly the phase's list on entry plus the matches newly queued for it when it drains, and are included in them on a timeout. |
| Driver.IterativeRuleDriver.RunNextPhase | core/src/main/java/org/apache/calcite/plan/volcano/IterativeRuleDriver.java:50-74 | One pass of the phase loop, for the phase after those already entered: the run's record, its queue accounting and its exhaustion facts extend to the run with this phase added. The root is current iff it was before or a match fired. A phase whose list starts empty fires nothing and leaves the lists as they were. |
| Driver.IterativeRuleDriver.Iterate | core/src/main/java/org/apache/calcite/plan/volcano/IterativeRuleDriver.java:55-71 | A pop that returns none happens only when the phase's list is empty; it changes nothing but the log, which gains that pop. A returned match is fired; the timeout flag is exactly a `Timeout` outcome, and the root is current afterwards. On a normal outcome, the matches fired so far plus the phase's list equal the list on entry plus what was newly queued for the phase (as multisets), and the loop's measure decreases. On a timeout, the phase's calls end with the completion, its list is empty, and what was fired is included in the list on entry plus the newly queued matches. |
| Driver.PendingFired | core/src/main/java/org/apache/calcite/plan/volcano/IterativeRuleDriver.java:29-30 | In a run recorded by `Drive`, a match that was pending for a phase at the start, where that phase was entered and drained, is fired in the run's calls with a normal outcome. |
| Driver.IterativeRuleDriver.Fire | core/src/main/java/org/apache/calcite/plan/volcano/IterativeRuleDriver.java:60-71 | The rule's `matches` check holds for a popped match (an assertion, proved from the planner's invariant). The outcome is the oracle's for that match. The log gains the firing and a canonicalization, plus the phase's completion on a timeout. The queued record gains exactly what the firing produced. Each phase's list gains exactly the matches newly queued for it (as a multiset), except the timed-out phase, whose list is emptied. The root is current afterwards. |
| Driver.IterativeRuleDriver.OnProduce | core/src/main/java/org/apache/calcite/plan/volcano/IterativeRuleDriver.java:78-79 | Changes nothing: driver, planner, queue and log are unchanged. |
| Driver.IterativeRuleDriver.OnSetMerged | core/src/main/java/org/apache/calcite/plan/volcano/IterativeRuleDriver.java:81-82 | Changes nothing: driver, planner, queue and log are unchanged. |
| Driver.IterativeRuleDriver.Clear | core/src/main/java/org/apache/calcite/plan/volcano/IterativeRuleDriver.java:84-86 | Every phase's list is empty and nothing is recorded as queued. Only the rule queue is modified; the planner is untouched. |
| RuleQueue.VolcanoRuleQueue.PopMatch | core/src/main/java/org/apache/calcite/plan/volcano/IterativeRuleDriver.java:55-58 | Returns none exactly when the phase's list is empty, leaving the queue as it was. Otherwise it removes and returns the head, and the other phases' lists are unchanged. The log gains the pop with its result. |
| RuleQueue.VolcanoRuleQueue.PhaseCompleted | core/src/main/java/org/apache/calcite/plan/volcano/IterativeRuleDriver.java:65-74 | Afterwards the completed phase has nothing pending, so a pop for it returns none. Other phases' lists and the record of what was queued are unchanged. The log gains the completion. |
| RuleQueue.VolcanoRuleQueue.Clear | core/src/main/java/org/apache/calcite/plan/volcano/IterativeRuleDriver.java:85 | Drops every pending match of every phase and the record of what was queued. |
| RuleQueue.VolcanoRuleQueue.AddMatch | core/src/main/java/org/apache/calcite/plan/volcano/IterativeRuleDriver.java:62 | Queues the match of an entry for its phase, once: an entry queued before changes nothing. Otherwise that phase's list gains exactly this match, in some position, and the other lists are unchanged. |
| Planner.VolcanoPlanner.OnMatch | core/src/main/java/org/apache/calcite/plan/volcano/IterativeRuleDriver.java:62 | Reports the oracle's outcome. Each phase's list gains exactly the matches newly queued for it (as a multiset). The record of what was queued gains exactly what the firing produced. The root may have been merged away. The log gains the firing with its outcome. |
| Planner.VolcanoPlanner.Canonize | core/src/main/java/org/apache/calcite/plan/volcano/IterativeRuleDriver.java:64-71 | Afterwards the root reference is current. The log gains the canonicalization. |
| Trace.RunFacts | core/src/main/java/org/apache/calcite/plan/volcano/IterativeRuleDriver.java:48-76 | Of every well-formed run's calls `Events(blocks)`, which `Drive` appends to the log: the facts `Driver.RecordedRun` states, before they are moved onto the log. |
| Trace.RunShape | core/src/main/java/org/apache/calcite/plan/volcano/IterativeRuleDriver.java:48-76 | Of the calls `Events(blocks)` a run makes: every pair of consecutive calls is one the driver's control flow allows. A non-empty run begins with a pop in the first phase and ends with the completion of the last phase entered. |
| Trace.CanonizeFollowsApply | core/src/main/java/org/apache/calcite/plan/volcano/IterativeRuleDriver.java:61-71 | In the calls a run makes, every firing is immediately followed by exactly one canonicalization. After it comes the next pop or the phase's completion, never a second canonicalization. |
| Trace.ApplyFollowsItsPop | core/src/main/java/org/apache/calcite/plan/volcano/IterativeRuleDriver.java:55-62 | In the calls a run makes, every firing is immediately preceded by the pop that returned that very match. |
| Trace.PopIsApplied | core/src/main/java/org/apache/calcite/plan/volcano/IterativeRuleDriver.java:55-62 | In the calls a run makes, a pop that returned a match is immediately followed by the firing of that match. |
| Trace.EmptyPopCompletesPhase | core/src/main/java/org/apache/calcite/plan/volcano/IterativeRuleDriver.java:55-74 | In the calls a run makes, a pop that returned null is immediately followed by the completion of its phase. |
| Trace.CompletionCause | core/src/main/java/org/apache/calcite/plan/volcano/IterativeRuleDriver.java:55-74 | In the calls a run makes, a phase is completed only right after a pop of that phase returned null, or right after the canonicalization that follows a timed-out firing. |
| Trace.CompletionEntersNextPhase | core/src/main/java/org/apache/calcite/plan/volcano/IterativeRuleDriver.java:50-74 | In the calls a run makes, after a phase is completed, if the run goes on, the next call is a pop in the next phase of the enumeration. |
| Trace.CanonizeStaysInPhase | core/src/main/java/org/apache/calcite/plan/volcano/IterativeRuleDriver.java:55-71 | In the calls a run makes, a canonicalization comes after a pop and a firing, and the call after it is a pop or a completion of the same phase as that pop: a canonicalization never crosses into another phase. |
| Trace.PhasesInOrder | core/src/main/java/org/apache/calcite/plan/volcano/IterativeRuleDriver.java:50 | In the calls a run makes, the phases named by pops and completions never go back, and each is one of the phases entered. |
| Trace.TimeoutEndsRun | core/src/main/java/org/apache/calcite/plan/volcano/IterativeRuleDriver.java:63-66 | In the calls a run makes, a timed-out firing is the third call from the end. It is followed only by one canonicalization and the completion of the last phase entered. |
| Trace.IncompleteRunTimedOut | core/src/main/java/org/apache/calcite/plan/volcano/IterativeRuleDriver.java:49-66 | A run that entered fewer phases than exist ended with a timed-out firing, three calls before the end of its calls. |
| Trace.PhaseCompletedOnce | core/src/main/java/org/apache/calcite/plan/volcano/IterativeRuleDriver.java:65-74 | In the calls a run makes, each entered phase is completed exactly once, on the normal and the timeout path alike. A phase not entered is never completed. |
| Trace.FiredInPopOrder | core/src/main/java/org/apache/calcite/plan/volcano/IterativeRuleDriver.java:55-71 | In the calls a run makes, the sequence of fired matches equals the sequence of non-null popped matches, so each is fired exactly once and in pop order. There are exactly as many canonicalizations as firings. |
| Trace.AnyFiredCanonizes | core/src/main/java/org/apache/calcite/plan/volcano/IterativeRuleDriver.java:64-71 | A run's calls include a canonicalization exactly when it fires some match. With `Drive`'s contract, the root is current after a run that canonicalized. |
| Trace.BlockPopsInTrace | core/src/main/java/org/apache/calcite/plan/volcano/IterativeRuleDriver.java:55-62 | The non-null pops among a phase's calls are exactly the phase's popped matches (those fired normally, then the one that timed out). So the distinctness `Drive` proves is about the pops actually made. |

## Left out

- The debug logging and the root's best cost (lines 52-53) are diagnostics only and are not modelled.
- The `getRuleQueue` accessor (lines 44-45) is not modelled as a method. The queue is the driver's `ruleQueue` field, which the model exposes directly.
- What a rule does when fired, and its `matches` test, are oracles of the planner.
  - The oracle `fire` gives the outcome and the entries a firing queues.
  - The oracle `ruleMatches` gives the `matches` test.
  - The assertion at line 60 is proved from the planner's invariant: every match it can queue passes its rule's test.
  - Rule semantics, the memo, costs and set merging are not modelled.
- The planner's timeout exception is modelled as the `Timeout` outcome of a firing. Other exceptions a rule may throw propagate in the source and are not modelled.
- The queue's priority order is not modelled: a newly queued match may take any place in its phase's list.
  - `VolcanoRuleQueue`, `VolcanoPlanner` and `VolcanoPlannerPhase` are not part of this model.
  - The queue is modelled from its use here: one list per phase, entries queued at most once, `phaseCompleted` discarding the phase's list, and `clear` discarding everything.
- The phase enumeration is modelled by its size. Its `values()` are the phases with ordinals 0 to n-1.
- `canonize` is modelled only by its effect on whether the root reference is current. Its set merging is not modelled.
- Termination of the inner loop rests on a modelling assumption: firings can only queue entries from a finite supply. The source does not bound how much firings may queue.
- The labelled `break PLANNING` appears differently in the model:
  - the inner loop and the phase's completion are the method `RunPhase`, which reports the timeout as a flag;
  - `Drive` then leaves its phase loop on that flag.

  The logged calls (pops, firings, canonicalizations and completions) and their order are those of the source.
- The call log is ghost state that the source does not keep. It records the pops, completions, firings and canonicalizations. `AddMatch` calls are not logged; their effect is stated through the queue.
- Drive: states the queue afterwards and what each phase popped as multisets, so the order in which pending matches are popped is not stated. A direct `AddMatch` of an entry that a later firing produces anyway would leave the same record and the same lists, so the contract does not rule it out.
- RunPhase: the same holds for the phase it runs: what it popped and the lists are compared as multisets, and an extra `AddMatch` of an entry that a later firing of the phase produces anyway is not ruled out.
- Firings in later phases may queue matches for phases already completed; the model keeps them pending, because the queue's handling of completed phases is not modelled.
- The rule's `matches` test is an oracle fixed for the whole run, and every match the planner can queue passes it. A popped match whose rule no longer matches it, the case the assertion at line 60 checks for, therefore cannot arise in the model.
