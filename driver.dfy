/** The iterative rule driver of the Volcano planner: it runs the phases in
    order and, within a phase, fires the matches the rule queue presents until
    the queue has none left for that phase; a timeout ends the whole run. */
module Driver {
  import opened Planning
  import opened Trace
  import opened RuleQueue
  import opened Planner

  class IterativeRuleDriver {
    const planner: VolcanoPlanner
    const ruleQueue: VolcanoRuleQueue
    /** The calls this driver has made on the rule queue and the planner. */
    ghost const log: CallLog

    /** The planner's firings only queue matches of known phases, and what the
        queue has seen comes from the planner's supply. */
    ghost predicate Valid()
      reads this, planner, ruleQueue
    {
      planner.Valid() && ruleQueue.Valid()
      && ruleQueue.seen <= planner.supply
      && (forall e :: e in planner.supply ==> e.phase.ordinal < ruleQueue.phaseCount)
    }

    /** A driver for `planner` over a phase enumeration of `phaseCount`
        constants, with a fresh, empty rule queue. */
    constructor (planner: VolcanoPlanner, phaseCount: nat)
      requires planner.Valid()
      requires forall e :: e in planner.supply ==> e.phase.ordinal < phaseCount
      ensures Valid() && this.planner == planner && fresh(ruleQueue)
      ensures ruleQueue.phaseCount == phaseCount && ruleQueue.seen == {} && ruleQueue.Empty()
      ensures fresh(log) && log.events == []
    {
      this.planner := planner;
      ruleQueue := new VolcanoRuleQueue(phaseCount);
      log := new CallLog();
    }

    /** Runs the phases in declaration order. In each phase, pops and fires
        matches until the queue has none for the phase, canonicalizing after
        each firing, then completes the phase. A firing that times out is
        followed by one canonicalization and the completion of its phase, and
        ends the run. `blocks` describes the entered phases, and the calls the
        run makes on the queue and the planner are `Events(blocks)`. */
    method Drive() returns (ghost blocks: seq<PhaseBlock>)
      requires Valid()
      modifies planner, ruleQueue, log
      ensures Valid()
      ensures Recorded(blocks, AnyFired(blocks), planner.fire, old(log.events), log.events)
      ensures |blocks| <= ruleQueue.phaseCount
      ensures |blocks| < ruleQueue.phaseCount ==> |blocks| > 0 && blocks[|blocks| - 1].ending.TimedOut?
      ensures planner.rootCurrent == (old(planner.rootCurrent) || AnyFired(blocks))
      ensures QueueAfter(blocks, planner.fire, old(ruleQueue.seen), old(ruleQueue.pending), ruleQueue.seen, ruleQueue.pending)
      ensures AllExhausted(blocks, planner.fire, old(ruleQueue.seen), old(ruleQueue.pending))
      ensures old(ruleQueue.Empty()) ==>
                |blocks| == ruleQueue.phaseCount && !AnyFired(blocks) && planner.rootCurrent == old(planner.rootCurrent)
    {
      blocks := [];
      ghost var anyFired := false;
      var phases := Values(ruleQueue.phaseCount);
      for i := 0 to |phases|
        invariant Valid()
        invariant |blocks| == i && Recorded(blocks, anyFired, planner.fire, old(log.events), log.events)
        invariant i > 0 ==> blocks[i - 1].ending == Drained
        invariant planner.rootCurrent == (old(planner.rootCurrent) || anyFired)
        invariant QueueAfter(blocks, planner.fire, old(ruleQueue.seen), old(ruleQueue.pending), ruleQueue.seen, ruleQueue.pending)
        invariant AllExhausted(blocks, planner.fire, old(ruleQueue.seen), old(ruleQueue.pending))
        invariant old(ruleQueue.Empty()) ==> Idle(ruleQueue.pending) && !anyFired
      {
        var phase := phases[i];
        var timedOut: bool;
        ghost var block: PhaseBlock;
        assert old(ruleQueue.Empty()) ==> ruleQueue.pending[phase.ordinal] == [];
        timedOut, block := RunNextPhase(phase, blocks, anyFired, old(log.events), old(ruleQueue.seen), old(ruleQueue.pending));
        anyFired := anyFired || Fires(block);
        blocks := blocks + [block];
        if timedOut {
          break;
        }
      }
    }

    /** Runs `phase`, the phase after the entered phases `blocks`, and carries
        what the run so far satisfies over to `blocks + [block]`. */
    method RunNextPhase(phase: Phase, ghost blocks: seq<PhaseBlock>, ghost anyFired: bool, ghost start: seq<Event>,
                        ghost seen0: set<Entry>, ghost pending0: seq<seq<RuleMatch>>)
      returns (timedOut: bool, ghost block: PhaseBlock)
      requires Valid() && phase.ordinal == |blocks| < ruleQueue.phaseCount
      requires Recorded(blocks, anyFired, planner.fire, start, log.events)
      requires blocks != [] ==> blocks[|blocks| - 1].ending == Drained
      requires QueueAfter(blocks, planner.fire, seen0, pending0, ruleQueue.seen, ruleQueue.pending)
      requires AllExhausted(blocks, planner.fire, seen0, pending0)
      modifies planner, ruleQueue, log
      ensures Valid()
      ensures block.phase == phase && timedOut == block.ending.TimedOut?
      ensures Recorded(blocks + [block], anyFired || Fires(block), planner.fire, start, log.events)
      ensures planner.rootCurrent == (old(planner.rootCurrent) || Fires(block))
      ensures QueueAfter(blocks + [block], planner.fire, seen0, pending0, ruleQueue.seen, ruleQueue.pending)
      ensures AllExhausted(blocks + [block], planner.fire, seen0, pending0)
      ensures old(ruleQueue.pending[phase.ordinal]) == [] ==>
                !timedOut && !Fires(block) && ruleQueue.pending == old(ruleQueue.pending)
    {
      ghost var before, seen, lists := log.events, ruleQueue.seen, ruleQueue.pending;
      timedOut, block := RunPhase(phase);
      EnterPhase(blocks, block, anyFired, planner.fire, ruleQueue.seen, start, before, log.events);
      EnterPhaseQueue(blocks, block, planner.fire, seen0, pending0, seen, lists, ruleQueue.seen, ruleQueue.pending);
    }

    /** One pass of the outer loop, for `phase`: pops and fires matches of
        `phase` until the queue has none for it, canonicalizing after each
        firing, then completes the phase. A firing that times out is followed
        by a canonicalization and the completion of the phase, and `timedOut`
        tells the caller to stop the whole run. `block` describes what
        happened, and the calls made are its events. */
    method RunPhase(phase: Phase) returns (timedOut: bool, ghost block: PhaseBlock)
      requires Valid() && phase.ordinal < ruleQueue.phaseCount
      modifies planner, ruleQueue, log
      ensures Valid()
      ensures block.phase == phase && timedOut == block.ending.TimedOut?
      ensures PhaseRecorded(block, planner.fire, ruleQueue.seen, old(log.events), log.events)
      ensures ruleQueue.pending[phase.ordinal] == []
      ensures planner.rootCurrent == (old(planner.rootCurrent) || Fires(block))
      ensures old(ruleQueue.seen) <= ruleQueue.seen
      ensures Elsewhere(phase, BlockPops(block), planner.fire, old(ruleQueue.seen), old(ruleQueue.pending),
                        ruleQueue.seen, ruleQueue.pending)
      ensures Exhausted(block, old(ruleQueue.pending[phase.ordinal]), old(ruleQueue.seen), ruleQueue.seen)
      ensures old(ruleQueue.pending[phase.ordinal]) == [] ==>
                !timedOut && !Fires(block)
                && ruleQueue.seen == old(ruleQueue.seen) && ruleQueue.pending == old(ruleQueue.pending)
    {
      ghost var applied: seq<RuleMatch> := [];
      ProgressStart(phase, planner.fire, ruleQueue.seen, ruleQueue.pending, log.events);
      while true
        invariant Valid()
        invariant Progress(phase, applied, planner.fire, old(ruleQueue.seen), old(ruleQueue.pending), old(log.events),
                           ruleQueue.seen, ruleQueue.pending, log.events)
        invariant planner.rootCurrent == (old(planner.rootCurrent) || applied != [])
        decreases |planner.supply - ruleQueue.seen|, |ruleQueue.pending[phase.ordinal]|
      {
        ghost var seen, before := ruleQueue.seen, log.events;
        var next: Option<RuleMatch>;
        next, timedOut := Iterate(phase, applied, old(log.events), old(ruleQueue.seen), old(ruleQueue.pending));
        if next.None? {
          DrainEnds(phase, applied, seen, planner.fire, old(log.events), before, log.events);
          break;
        }
        if timedOut {
          block := PhaseBlock(phase, applied, TimedOut(next.value));
          assert BlockPops(block) == applied + [next.value];
          break;
        }
        applied := applied + [next.value];
      }
      if !timedOut {
        ghost var lists := ruleQueue.pending;
        ruleQueue.PhaseCompleted(phase, log);
        block := PhaseBlock(phase, applied, Drained);
        ElsewhereCompleted(phase, applied, planner.fire, old(ruleQueue.seen), old(ruleQueue.pending),
                           ruleQueue.seen, lists, ruleQueue.pending);
        assert BlockPops(block) == applied;
      }
    }

    /** One pass of the inner loop of `phase`: pops the next match of the
        phase and, when there is one, fires it and canonicalizes, completing
        the phase as well on a timeout. `applied` are the matches fired
        normally in the phase so far; `start`, `seen0` and `pending0` are
        what the log and the queue held when the phase was entered. */
    method Iterate(phase: Phase, ghost applied: seq<RuleMatch>, ghost start: seq<Event>,
                   ghost seen0: set<Entry>, ghost pending0: seq<seq<RuleMatch>>)
      returns (next: Option<RuleMatch>, timedOut: bool)
      requires Valid() && phase.ordinal < ruleQueue.phaseCount
      requires Progress(phase, applied, planner.fire, seen0, pending0, start, ruleQueue.seen, ruleQueue.pending, log.events)
      modifies planner, ruleQueue, log
      ensures Valid()
      ensures next.None? ==>
                !timedOut && old(ruleQueue.pending[phase.ordinal]) == []
                && ruleQueue.seen == old(ruleQueue.seen) && ruleQueue.pending == old(ruleQueue.pending)
                && planner.rootCurrent == old(planner.rootCurrent) && log.events == old(log.events) + [Pop(phase, None)]
      ensures next.Some? ==>
                pending0[phase.ordinal] != [] && planner.rootCurrent && timedOut == (planner.fire(next.value).outcome == Timeout)
      ensures next.Some? && !timedOut ==>
                Progress(phase, applied + [next.value], planner.fire, seen0, pending0, start,
                         ruleQueue.seen, ruleQueue.pending, log.events)
                && (|planner.supply - ruleQueue.seen| < old(|planner.supply - ruleQueue.seen|)
                    || (ruleQueue.seen == old(ruleQueue.seen)
                        && |ruleQueue.pending[phase.ordinal]| < old(|ruleQueue.pending[phase.ordinal]|)))
      ensures timedOut ==>
                next.Some? && ruleQueue.pending[phase.ordinal] == []
                && PhaseRecorded(PhaseBlock(phase, applied, TimedOut(next.value)), planner.fire, ruleQueue.seen, start, log.events)
                && Elsewhere(phase, applied + [next.value], planner.fire, seen0, pending0, ruleQueue.seen, ruleQueue.pending)
                && multiset(applied + [next.value])
                   <= multiset(pending0[phase.ordinal]) + multiset(Fresh(seen0, ruleQueue.seen, phase))
    {
      ghost var queued, seen, before := ruleQueue.pending[phase.ordinal], ruleQueue.seen, log.events;
      ghost var lists := ruleQueue.pending;
      next := ruleQueue.PopMatch(phase, log);
      if next.None? {
        return next, false;
      }
      var m := next.value;
      ghost var popped := ruleQueue.pending;
      timedOut := Fire(phase, m);
      ElsewhereStep(phase, applied, m, planner.fire, seen0, pending0, seen, lists, queued[1..], popped,
                    ruleQueue.seen, ruleQueue.pending);
      if timedOut {
        ConsumedTimesOut(phase, applied, m, seen0, pending0[phase.ordinal], seen, queued, ruleQueue.seen);
        DrainTimesOut(phase, applied, queued, seen, ruleQueue.seen, planner.fire, start, before, log.events);
        return;
      }
      DrainStep(phase, applied, queued, ruleQueue.pending[phase.ordinal], seen, ruleQueue.seen, planner.fire,
                start, before, log.events);
      ConsumedStep(phase, applied, m, seen0, pending0[phase.ordinal], seen, queued, popped[phase.ordinal],
                   ruleQueue.seen, ruleQueue.pending[phase.ordinal]);
    }

    /** Fires `m`, a match of the rule queue for `phase`, checking first that
        its rule still matches it, then canonicalizes, since the root may have
        been merged away. The firing queues every match it produces that was
        not queued for its phase before. When it times out, the phase is
        completed as well, and `timedOut` reports it. */
    method Fire(phase: Phase, m: RuleMatch) returns (timedOut: bool)
      requires Valid() && phase.ordinal < ruleQueue.phaseCount && Entry(phase, m) in ruleQueue.seen
      modifies planner, ruleQueue, log
      ensures Valid() && planner.rootCurrent
      ensures timedOut == (planner.fire(m).outcome == Timeout)
      ensures log.events == old(log.events) + [Apply(m, planner.fire(m).outcome)] + [Canonize]
                            + (if timedOut then [PhaseCompleted(phase)] else [])
      ensures forall e :: e in ruleQueue.seen <==> e in old(ruleQueue.seen) || e in planner.fire(m).produced
      ensures Elsewhere(phase, [m], planner.fire, old(ruleQueue.seen), old(ruleQueue.pending), ruleQueue.seen, ruleQueue.pending)
      ensures !timedOut ==>
                multiset(ruleQueue.pending[phase.ordinal])
                == multiset(old(ruleQueue.pending)[phase.ordinal]) + multiset(Fresh(old(ruleQueue.seen), ruleQueue.seen, phase))
      ensures timedOut ==> ruleQueue.pending[phase.ordinal] == []
      ensures ruleQueue.seen == old(ruleQueue.seen) && !timedOut ==> ruleQueue.pending == old(ruleQueue.pending)
      ensures |planner.supply - ruleQueue.seen| <= old(|planner.supply - ruleQueue.seen|)
      ensures ruleQueue.seen != old(ruleQueue.seen) ==>
                |planner.supply - ruleQueue.seen| < old(|planner.supply - ruleQueue.seen|)
    {
      assert planner.ruleMatches(m);
      ghost var seenBefore := ruleQueue.seen;
      var outcome := planner.OnMatch(m, ruleQueue, log);
      SupplyShrinks(planner.supply, seenBefore, ruleQueue.seen);
      ProducedOne(m, planner.fire);
      planner.Canonize(log);
      if outcome == Timeout {
        ruleQueue.PhaseCompleted(phase, log);
        return true;
      }
      return false;
    }

    /** Notification that `rel` was registered in `subset`: this driver does
        not react to it. */
    method OnProduce(rel: RelNode, subset: RelSubset)
      ensures unchanged(this, planner, ruleQueue, log)
    {
    }

    /** Notification that `relSet` absorbed another set: this driver does not
        react to it. */
    method OnSetMerged(relSet: RelSet)
      ensures unchanged(this, planner, ruleQueue, log)
    {
    }

    /** Drops all pending matches of every phase; nothing else changes. */
    method Clear()
      requires Valid()
      modifies ruleQueue
      ensures Valid() && ruleQueue.seen == {} && ruleQueue.Empty()
    {
      ruleQueue.Clear();
    }
  }

  /** What the driver records of the phases it entered so far: they are the
      first phases of the enumeration in order, no match was popped twice
      within one, each agrees with the firings, and `anyFired` says whether
      some match was fired. */
  ghost predicate Recorded(blocks: seq<PhaseBlock>, anyFired: bool, fire: RuleMatch -> Firing,
                           start: seq<Event>, events: seq<Event>)
  {
    Ordered(blocks) && PopsDistinct(blocks) && anyFired == AnyFired(blocks)
    && (forall k :: 0 <= k < |blocks| ==> Witnessed(blocks[k], fire))
    && events == start + Events(blocks)
  }

  /** The calls a run of `Drive` leaves in the log, after the `start` that was
      logged before it, given what `Drive` ensures of a run over `phaseCount`
      phases: consecutive calls follow the driver's control flow, matches are
      fired exactly as popped and each firing is canonicalized once, every
      entered phase is completed exactly once, the root is canonicalized iff
      some match fired, and a timeout is the third call from the end. */
  lemma RecordedRun(blocks: seq<PhaseBlock>, anyFired: bool, fire: RuleMatch -> Firing, phaseCount: nat,
                    start: seq<Event>, events: seq<Event>)
    requires Recorded(blocks, anyFired, fire, start, events) && WellFormedRun(blocks, phaseCount)
    ensures |start| <= |events| && events[..|start|] == start
    ensures Chained(events[|start|..])
    ensures Applications(events[|start|..]) == Popped(events[|start|..])
    ensures Canonizations(events[|start|..]) == |Applications(events[|start|..])|
    ensures forall phase :: Completions(events[|start|..], phase) == if phase.ordinal < |blocks| then 1 else 0
    ensures anyFired <==> Canonize in events[|start|..]
    ensures forall i :: |start| <= i < |events| && IsTimeout(events[i]) ==>
              i == |events| - 3 && events[i + 1] == Canonize && events[i + 2] == PhaseCompleted(Phase(|blocks| - 1))
    ensures |blocks| < phaseCount ==> |events| >= |start| + 4 && IsTimeout(events[|events| - 3])
  {
    RunFacts(blocks, phaseCount);
    assert events[..|start|] == start && events[|start|..] == Events(blocks);
  }

  /** Outside `phase`, the queue after firing the matches `fired` in it, when
      it held `seen0` and `pending0` before: the record gained exactly what
      those firings produced, and every other phase's list gained exactly
      the matches newly queued for that phase. */
  ghost predicate Elsewhere(phase: Phase, fired: seq<RuleMatch>, fire: RuleMatch -> Firing,
                            seen0: set<Entry>, pending0: seq<seq<RuleMatch>>, seen: set<Entry>, pending: seq<seq<RuleMatch>>)
  {
    seen0 <= seen
    && (forall e {:trigger e in Produced(fired, fire)} :: e in seen <==> e in seen0 || e in Produced(fired, fire))
    && |pending| == |pending0|
    && forall i {:trigger Fresh(seen0, seen, Phase(i))} :: 0 <= i < |pending| && i != phase.ordinal ==>
         multiset(pending[i]) == multiset(pending0[i]) + multiset(Fresh(seen0, seen, Phase(i)))
  }

  /** The state of `phase` after firing `applied` normally, when the queue
      held `seen0` and `pending0` and the log `start` as the phase was
      entered: the matches are settled and their calls logged (`Draining`),
      the rest of the queue is accounted for (`Elsewhere`), the phase's own
      list with them (`Consumed`), and a phase whose list was empty has
      changed nothing. */
  ghost predicate Progress(phase: Phase, applied: seq<RuleMatch>, fire: RuleMatch -> Firing,
                           seen0: set<Entry>, pending0: seq<seq<RuleMatch>>, start: seq<Event>,
                           seen: set<Entry>, pending: seq<seq<RuleMatch>>, events: seq<Event>)
  {
    phase.ordinal < |pending0| == |pending|
    && Draining(phase, applied, seen, pending[phase.ordinal], fire, start, events)
    && Elsewhere(phase, applied, fire, seen0, pending0, seen, pending)
    && Consumed(phase, applied, seen0, pending0[phase.ordinal], seen, pending[phase.ordinal])
    && (pending0[phase.ordinal] == [] ==> applied == [] && seen == seen0 && pending == pending0)
  }

  /** On entering `phase`, nothing is fired and everything is accounted for. */
  lemma ProgressStart(phase: Phase, fire: RuleMatch -> Firing, seen: set<Entry>, pending: seq<seq<RuleMatch>>,
                      events: seq<Event>)
    requires phase.ordinal < |pending|
    ensures Progress(phase, [], fire, seen, pending, events, seen, pending, events)
  {
    assert Steps(phase, []) == [];
    forall i | 0 <= i < |pending|
      ensures Fresh(seen, seen, Phase(i)) == {}
    {
    }
    assert Fresh(seen, seen, phase) == {};
    assert forall e :: e !in Produced([], fire);
  }

  /** Popping `m` from the list of `phase` and firing it keeps the account of
      the rest of the queue, with `m` counted among the fired matches. */
  lemma ElsewhereStep(phase: Phase, fired: seq<RuleMatch>, m: RuleMatch, fire: RuleMatch -> Firing,
                      seen0: set<Entry>, pending0: seq<seq<RuleMatch>>, seenBefore: set<Entry>,
                      pendingBefore: seq<seq<RuleMatch>>, rest: seq<RuleMatch>, popped: seq<seq<RuleMatch>>,
                      seen: set<Entry>, pending: seq<seq<RuleMatch>>)
    requires Elsewhere(phase, fired, fire, seen0, pending0, seenBefore, pendingBefore)
    requires phase.ordinal < |pendingBefore| && popped == pendingBefore[phase.ordinal := rest]
    requires Elsewhere(phase, [m], fire, seenBefore, popped, seen, pending)
    ensures Elsewhere(phase, fired + [m], fire, seen0, pending0, seen, pending)
  {
    ProducedSnoc(fired, m, fire);
    ProducedOne(m, fire);
    forall i | 0 <= i < |pending| && i != phase.ordinal
      ensures multiset(pending[i]) == multiset(pending0[i]) + multiset(Fresh(seen0, seen, Phase(i)))
    {
      FreshSplit(seen0, seenBefore, seen, Phase(i));
    }
  }

  /** Completing `phase` keeps the account of the rest of the queue. */
  lemma ElsewhereCompleted(phase: Phase, fired: seq<RuleMatch>, fire: RuleMatch -> Firing,
                           seen0: set<Entry>, pending0: seq<seq<RuleMatch>>, seen: set<Entry>,
                           pending: seq<seq<RuleMatch>>, completed: seq<seq<RuleMatch>>)
    requires Elsewhere(phase, fired, fire, seen0, pending0, seen, pending)
    requires phase.ordinal < |pending| && completed == pending[phase.ordinal := []]
    ensures Elsewhere(phase, fired, fire, seen0, pending0, seen, completed)
  {
  }

  /** The queue after the phases of `blocks` were run, when it held `seen0`
      and `pending0` before: the record gained exactly what the firings of
      the popped matches produced, and each phase's list holds what `Owed`
      says. */
  ghost predicate QueueAfter(blocks: seq<PhaseBlock>, fire: RuleMatch -> Firing,
                             seen0: set<Entry>, pending0: seq<seq<RuleMatch>>, seen: set<Entry>, pending: seq<seq<RuleMatch>>)
  {
    var last := SeenAfter(seen0, blocks, fire, |blocks|);
    seen0 <= seen
    && (forall e {:trigger e in SeenAfter(seen0, blocks, fire, |blocks|)} :: e in seen <==> e in last)
    && |pending| == |pending0|
    && forall k {:trigger Owed(blocks, fire, seen0, pending0, seen, k)} :: 0 <= k < |pending| ==>
         multiset(pending[k]) == Owed(blocks, fire, seen0, pending0, seen, k)
  }

  /** The matches of phase `k` pending once the phases of `blocks` were run
      and the record is `seen`: for an entered phase, those newly queued for
      it after it ended; for a phase not entered, those it held before and
      those newly queued for it since. */
  ghost function Owed(blocks: seq<PhaseBlock>, fire: RuleMatch -> Firing,
                      seen0: set<Entry>, pending0: seq<seq<RuleMatch>>, seen: set<Entry>, k: nat): multiset<RuleMatch>
    requires k < |pending0|
  {
    if k < |blocks| then multiset(Fresh(SeenAfter(seen0, blocks, fire, k + 1), seen, Phase(k)))
    else multiset(pending0[k]) + multiset(Fresh(seen0, seen, Phase(k)))
  }

  /** Running the next phase `b`, which leaves its own list empty and popped
      what its list held and what was newly queued for it, keeps the account
      of the queue and of what each entered phase popped. */
  lemma EnterPhaseQueue(blocks: seq<PhaseBlock>, b: PhaseBlock, fire: RuleMatch -> Firing,
                        seen0: set<Entry>, pending0: seq<seq<RuleMatch>>, seenBefore: set<Entry>,
                        pendingBefore: seq<seq<RuleMatch>>, seen: set<Entry>, pending: seq<seq<RuleMatch>>)
    requires QueueAfter(blocks, fire, seen0, pending0, seenBefore, pendingBefore)
    requires b.phase.ordinal == |blocks| < |pending|
    requires Elsewhere(b.phase, BlockPops(b), fire, seenBefore, pendingBefore, seen, pending)
    requires pending[|blocks|] == []
    requires AllExhausted(blocks, fire, seen0, pending0) && Exhausted(b, pendingBefore[|blocks|], seenBefore, seen)
    ensures QueueAfter(blocks + [b], fire, seen0, pending0, seen, pending)
    ensures AllExhausted(blocks + [b], fire, seen0, pending0)
  {
    ExhaustedEntered(blocks, b, fire, seen0, pending0, seenBefore, pendingBefore, seen, pending);
    ExhaustedSnoc(blocks, b, fire, seen0, pending0);
    var entered := blocks + [b];
    SeenAfterSnoc(seen0, blocks, b, fire, |blocks|);
    SeenAfterGrows(seen0, blocks, fire, 0, |blocks|);
    assert seenBefore == SeenAfter(seen0, blocks, fire, |blocks|);
    assert seen == SeenAfter(seen0, entered, fire, |entered|);
    forall k | 0 <= k < |pending|
      ensures multiset(pending[k]) == Owed(entered, fire, seen0, pending0, seen, k)
    {
      assert multiset(pendingBefore[k]) == Owed(blocks, fire, seen0, pending0, seenBefore, k);
      if k < |blocks| {
        SeenAfterSnoc(seen0, blocks, b, fire, k + 1);
        SeenAfterGrows(seen0, blocks, fire, k + 1, |blocks|);
        FreshSplit(SeenAfter(seen0, blocks, fire, k + 1), seenBefore, seen, Phase(k));
      } else if k == |blocks| {
        assert Fresh(seen, seen, Phase(k)) == {};
      } else {
        FreshSplit(seen0, seenBefore, seen, Phase(k));
      }
    }
  }

  /** In `phase`, after firing `fired` from a list that held `list0` when
      the record was `seen0`: the fired matches and the list `list` left are
      together exactly what the list held and what was newly queued for the
      phase since. */
  ghost predicate Consumed(phase: Phase, fired: seq<RuleMatch>, seen0: set<Entry>, list0: seq<RuleMatch>,
                           seen: set<Entry>, list: seq<RuleMatch>)
  {
    seen0 <= seen
    && multiset(fired) + multiset(list) == multiset(list0) + multiset(Fresh(seen0, seen, phase))
  }

  /** Popping the head `m` of the phase's list and firing it normally moves
      `m` from the list to the fired matches, and the list gains what the
      firing newly queued for the phase. */
  lemma ConsumedStep(phase: Phase, fired: seq<RuleMatch>, m: RuleMatch, seen0: set<Entry>, list0: seq<RuleMatch>,
                     seenBefore: set<Entry>, queued: seq<RuleMatch>, rest: seq<RuleMatch>, seen: set<Entry>,
                     list: seq<RuleMatch>)
    requires Consumed(phase, fired, seen0, list0, seenBefore, queued)
    requires queued != [] && m == queued[0] && rest == queued[1..] && seenBefore <= seen
    requires multiset(list) == multiset(rest) + multiset(Fresh(seenBefore, seen, phase))
    ensures Consumed(phase, fired + [m], seen0, list0, seen, list)
  {
    FreshSplit(seen0, seenBefore, seen, phase);
    assert queued == [m] + rest;
    assert multiset(queued) == multiset{m} + multiset(rest);
    assert multiset(fired + [m]) == multiset(fired) + multiset{m};
    calc {
      multiset(fired + [m]) + multiset(list);
      multiset(fired) + multiset(queued) + multiset(Fresh(seenBefore, seen, phase));
      multiset(list0) + multiset(Fresh(seen0, seenBefore, phase)) + multiset(Fresh(seenBefore, seen, phase));
      multiset(list0) + multiset(Fresh(seen0, seen, phase));
    }
  }

  /** A timed-out firing of the head `m` leaves the fired matches and `m`
      among what the list held and what was newly queued for the phase. */
  lemma ConsumedTimesOut(phase: Phase, fired: seq<RuleMatch>, m: RuleMatch, seen0: set<Entry>, list0: seq<RuleMatch>,
                         seenBefore: set<Entry>, queued: seq<RuleMatch>, seen: set<Entry>)
    requires Consumed(phase, fired, seen0, list0, seenBefore, queued)
    requires queued != [] && m == queued[0] && seenBefore <= seen
    ensures multiset(fired + [m]) <= multiset(list0) + multiset(Fresh(seen0, seen, phase))
  {
    FreshSplit(seen0, seenBefore, seen, phase);
    assert queued == [m] + queued[1..];
    assert multiset(queued) == multiset{m} + multiset(queued[1..]);
    assert multiset(fired + [m]) == multiset(fired) + multiset{m};
    assert multiset(fired + [m]) <= multiset(fired) + multiset(queued);
  }

  /** The matches popped in the phase of `b` are among those its list held
      when the phase was entered (`list0`, with the record `seen0`) and those
      newly queued for it by the time the record is `seen`; all of them when
      the phase drained. */
  ghost predicate Exhausted(b: PhaseBlock, list0: seq<RuleMatch>, seen0: set<Entry>, seen: set<Entry>)
  {
    multiset(BlockPops(b)) <= multiset(list0) + multiset(Fresh(seen0, seen, b.phase))
    && (b.ending == Drained ==> multiset(BlockPops(b)) == multiset(list0) + multiset(Fresh(seen0, seen, b.phase)))
  }

  /** `Exhausted` for the `k`-th entered phase of a run that started from
      the record `seen0` and the lists `pending0`: what it popped is what its
      list held at the start of the run and what was newly queued for it by
      the end of that phase. */
  ghost predicate PhaseExhausted(blocks: seq<PhaseBlock>, fire: RuleMatch -> Firing,
                                 seen0: set<Entry>, pending0: seq<seq<RuleMatch>>, k: nat)
    requires k < |blocks| && k < |pending0|
  {
    Exhausted(blocks[k], pending0[k], seen0, SeenAfter(seen0, blocks, fire, k + 1))
  }

  /** `PhaseExhausted` for every entered phase of a run. */
  ghost predicate AllExhausted(blocks: seq<PhaseBlock>, fire: RuleMatch -> Firing,
                               seen0: set<Entry>, pending0: seq<seq<RuleMatch>>)
  {
    |blocks| <= |pending0|
    && forall k {:trigger PhaseExhausted(blocks, fire, seen0, pending0, k)} :: 0 <= k < |blocks| ==>
         PhaseExhausted(blocks, fire, seen0, pending0, k)
  }

  /** Entering one more phase `b`, which popped what its list held at the
      start of the run and what was newly queued for it, extends
      `AllExhausted` to it. */
  lemma ExhaustedSnoc(blocks: seq<PhaseBlock>, b: PhaseBlock, fire: RuleMatch -> Firing,
                      seen0: set<Entry>, pending0: seq<seq<RuleMatch>>)
    requires AllExhausted(blocks, fire, seen0, pending0) && |blocks| < |pending0|
    requires PhaseExhausted(blocks + [b], fire, seen0, pending0, |blocks|)
    ensures AllExhausted(blocks + [b], fire, seen0, pending0)
  {
    var entered := blocks + [b];
    forall k | 0 <= k < |blocks|
      ensures PhaseExhausted(entered, fire, seen0, pending0, k)
    {
      assert PhaseExhausted(blocks, fire, seen0, pending0, k);
      SeenAfterSnoc(seen0, blocks, b, fire, k + 1);
      assert entered[k] == blocks[k];
    }
  }

  /** The phase `b` just run popped what the list held at the start of the
      run and what was newly queued for it by its end. */
  lemma ExhaustedEntered(blocks: seq<PhaseBlock>, b: PhaseBlock, fire: RuleMatch -> Firing,
                         seen0: set<Entry>, pending0: seq<seq<RuleMatch>>, seenBefore: set<Entry>,
                         pendingBefore: seq<seq<RuleMatch>>, seen: set<Entry>, pending: seq<seq<RuleMatch>>)
    requires QueueAfter(blocks, fire, seen0, pending0, seenBefore, pendingBefore)
    requires b.phase.ordinal == |blocks| < |pendingBefore|
    requires Elsewhere(b.phase, BlockPops(b), fire, seenBefore, pendingBefore, seen, pending)
    requires Exhausted(b, pendingBefore[|blocks|], seenBefore, seen)
    ensures PhaseExhausted(blocks + [b], fire, seen0, pending0, |blocks|)
  {
    var n := |blocks|;
    SeenAfterSnoc(seen0, blocks, b, fire, n);
    assert seenBefore == SeenAfter(seen0, blocks, fire, n);
    assert seen == SeenAfter(seen0, blocks + [b], fire, n + 1);
    assert multiset(pendingBefore[n]) == Owed(blocks, fire, seen0, pending0, seenBefore, n);
    FreshSplit(seen0, seenBefore, seen, b.phase);
  }

  /** A match pending for a phase when a run starts is fired in that run,
      with a normal outcome, unless the phase was not entered or timed out:
      the driver iterates over the matches the queue presents until the
      phase's list is empty. */
  lemma PendingFired(blocks: seq<PhaseBlock>, anyFired: bool, fire: RuleMatch -> Firing, start: seq<Event>,
                     events: seq<Event>, seen0: set<Entry>, pending0: seq<seq<RuleMatch>>, k: nat, m: RuleMatch)
    requires Recorded(blocks, anyFired, fire, start, events) && AllExhausted(blocks, fire, seen0, pending0)
    requires k < |blocks| && blocks[k].ending == Drained && m in pending0[k]
    ensures |start| <= |events| && m in Applications(events[|start|..])
    ensures fire(m).outcome == Ok
  {
    assert PhaseExhausted(blocks, fire, seen0, pending0, k);
    assert m in multiset(BlockPops(blocks[k]));
    assert BlockPops(blocks[k]) == blocks[k].applied;
    PopsFiredInRun(blocks, k);
    assert events[|start|..] == Events(blocks);
    assert Witnessed(blocks[k], fire);
  }

  /** Recording one more entered phase, the next in declaration order after
      a drained one, keeps the record. */
  lemma EnterPhase(blocks: seq<PhaseBlock>, b: PhaseBlock, anyFired: bool, fire: RuleMatch -> Firing,
                    seen: set<Entry>, start: seq<Event>, before: seq<Event>, after: seq<Event>)
    requires Recorded(blocks, anyFired, fire, start, before) && b.phase.ordinal == |blocks|
    requires blocks != [] ==> blocks[|blocks| - 1].ending == Drained
    requires PhaseRecorded(b, fire, seen, before, after)
    ensures Recorded(blocks + [b], anyFired || Fires(b), fire, start, after)
  {
    var entered := blocks + [b];
    forall k | 0 <= k < |entered|
      ensures NoDuplicates(BlockPops(entered[k]))
    {
      if k < |blocks| {
        assert entered[k] == blocks[k];
      }
    }
    OrderedSnoc(blocks, b);
    AnyFiredSnoc(blocks, b);
    WitnessedSnoc(blocks, b, fire);
    RunSnoc(start, blocks, b, before, after);
  }

  /** What an entered phase leaves on record: the calls `after` extend the
      calls `before` by the events of `b` (less the final completion when the
      phase drained, which is left to the caller), no match was popped twice,
      each firing ended as `fire` says, and each popped match had been queued
      for the phase. */
  ghost predicate PhaseRecorded(b: PhaseBlock, fire: RuleMatch -> Firing, seen: set<Entry>, before: seq<Event>, after: seq<Event>)
  {
    after == before + BlockEvents(b)
    && NoDuplicates(BlockPops(b)) && Witnessed(b, fire) && Queued(b, seen)
  }

  /** The matches fired so far in `phase`: none twice, each queued for the
      phase (in `seen`), and none pending in `rest`. */
  ghost predicate Settled(phase: Phase, fired: seq<RuleMatch>, seen: set<Entry>, rest: seq<RuleMatch>)
  {
    NoDuplicates(fired)
    && (forall a :: a in fired ==> Entry(phase, a) in seen)
    && (forall a :: a in fired ==> a !in rest)
  }

  /** The state of a phase after firing `applied` normally: those matches
      are settled, each firing ended normally, and the calls `events` made
      since `start` are the steps of popping, firing and canonicalizing
      them. */
  ghost predicate Draining(phase: Phase, applied: seq<RuleMatch>, seen: set<Entry>, rest: seq<RuleMatch>,
                           fire: RuleMatch -> Firing, start: seq<Event>, events: seq<Event>)
  {
    Settled(phase, applied, seen, rest)
    && Witnessed(PhaseBlock(phase, applied, Drained), fire)
    && events == start + Steps(phase, applied)
  }

  /** A pop that found nothing ends a phase as drained. */
  lemma DrainEnds(phase: Phase, applied: seq<RuleMatch>, seen: set<Entry>, fire: RuleMatch -> Firing,
                  start: seq<Event>, before: seq<Event>, after: seq<Event>)
    requires Draining(phase, applied, seen, [], fire, start, before)
    requires after == before + [Pop(phase, None)]
    ensures PhaseRecorded(PhaseBlock(phase, applied, Drained), fire, seen, start, after + [PhaseCompleted(phase)])
  {
    StepsDrained(start, phase, applied, before, after);
    assert BlockPops(PhaseBlock(phase, applied, Drained)) == applied;
  }

  /** Popping the head `queued[0]` of a phase's pending list, firing it
      normally and canonicalizing adds it to the matches fired in the
      phase; the firing queued only matches not seen before. */
  lemma DrainStep(phase: Phase, applied: seq<RuleMatch>, queued: seq<RuleMatch>, pending: seq<RuleMatch>,
                  seenBefore: set<Entry>, seen: set<Entry>, fire: RuleMatch -> Firing,
                  start: seq<Event>, before: seq<Event>, after: seq<Event>)
    requires Draining(phase, applied, seenBefore, queued, fire, start, before)
    requires queued != [] && forall x :: multiset(queued)[x] <= 1
    requires forall x :: x in queued ==> Entry(phase, x) in seenBefore
    requires seenBefore <= seen
    requires multiset(pending) == multiset(queued[1..]) + multiset(Fresh(seenBefore, seen, phase))
    requires fire(queued[0]).outcome == Ok
    requires after == before + [Pop(phase, Some(queued[0]))] + [Apply(queued[0], Ok)] + [Canonize]
    ensures Draining(phase, applied + [queued[0]], seen, pending, fire, start, after)
  {
    var m := queued[0];
    PopStep(phase, applied, queued, queued[1..], seenBefore);
    FiredNotRequeued(phase, applied + [m], seenBefore, seen, queued[1..], pending);
    WitnessedNext(phase, applied, m, fire);
    StepsSnoc(start, phase, applied, m, before, after);
  }

  /** Popping the head `queued[0]` of a phase's pending list and firing it
      with a timeout, then canonicalizing and completing the phase, ends the
      phase as timed out. */
  lemma DrainTimesOut(phase: Phase, applied: seq<RuleMatch>, queued: seq<RuleMatch>,
                      seenBefore: set<Entry>, seen: set<Entry>, fire: RuleMatch -> Firing,
                      start: seq<Event>, before: seq<Event>, after: seq<Event>)
    requires Draining(phase, applied, seenBefore, queued, fire, start, before)
    requires queued != [] && forall x :: multiset(queued)[x] <= 1
    requires forall x :: x in queued ==> Entry(phase, x) in seenBefore
    requires seenBefore <= seen
    requires fire(queued[0]).outcome == Timeout
    requires after == before + [Pop(phase, Some(queued[0]))] + [Apply(queued[0], Timeout)] + [Canonize] + [PhaseCompleted(phase)]
    ensures PhaseRecorded(PhaseBlock(phase, applied, TimedOut(queued[0])), fire, seen, start, after)
  {
    var m := queued[0];
    PopStep(phase, applied, queued, queued[1..], seenBefore);
    WitnessedNext(phase, applied, m, fire);
    StepsTimedOut(start, phase, applied, m, before, after);
    assert BlockPops(PhaseBlock(phase, applied, TimedOut(m))) == applied + [m];
  }

  /** Popping the head of a phase's pending list, which holds no match twice,
      lets it join the matches fired in the phase. */
  lemma PopStep(phase: Phase, applied: seq<RuleMatch>, queued: seq<RuleMatch>, rest: seq<RuleMatch>, seen: set<Entry>)
    requires queued != [] && rest == queued[1..] && forall x :: multiset(queued)[x] <= 1
    requires forall x :: x in queued ==> Entry(phase, x) in seen
    requires Settled(phase, applied, seen, queued)
    ensures Entry(phase, queued[0]) in seen
    ensures Settled(phase, applied + [queued[0]], seen, rest)
  {
    HeadNotInTail(queued);
    NoDuplicatesSnoc(applied, queued[0]);
  }

  /** A match not yet in a list without duplicates can be appended to it. */
  lemma NoDuplicatesSnoc(s: seq<RuleMatch>, m: RuleMatch)
    requires NoDuplicates(s) && m !in s
    ensures NoDuplicates(s + [m])
  {
    var t := s + [m];
    NoDuplicatesPairs(s);
    NoDuplicatesPairs(t);
    forall i, j | 0 <= i < j < |t|
      ensures t[i] != t[j]
    {
      if j == |s| {
        assert t[i] == s[i] && t[j] == m;
      } else {
        assert t[i] == s[i] && t[j] == s[j];
      }
    }
  }

  /** The head of a list without duplicates is not in its tail. */
  lemma HeadNotInTail(s: seq<RuleMatch>)
    requires s != [] && forall m :: multiset(s)[m] <= 1
    ensures s[0] !in s[1..]
  {
    assert s == [s[0]] + s[1..];
    assert multiset(s) == multiset{s[0]} + multiset(s[1..]);
    assert multiset(s)[s[0]] <= 1;
  }

  /** Matches already seen for `phase` before a firing are not among those
      the firing queues for it, so a match fired in the phase is not pending
      again afterwards. */
  lemma FiredNotRequeued(phase: Phase, fired: seq<RuleMatch>, seenBefore: set<Entry>, seen: set<Entry>,
                         before: seq<RuleMatch>, after: seq<RuleMatch>)
    requires seenBefore <= seen && Settled(phase, fired, seenBefore, before)
    requires multiset(after) == multiset(before) + multiset(Fresh(seenBefore, seen, phase))
    ensures Settled(phase, fired, seen, after)
  {
    forall a | a in fired
      ensures a !in after
    {
      assert a !in Fresh(seenBefore, seen, phase);
      assert multiset(after)[a] == 0;
    }
  }
}
