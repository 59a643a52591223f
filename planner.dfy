/** The planner facade as the rule driver sees it: firing a rule match (which
    registers expressions in the memo and so queues further matches), the
    rule's own re-check of a match, and the canonicalization that re-homes the
    root after equivalence sets were merged. */
module Planner {
  import opened Planning
  import opened Trace
  import opened RuleQueue

  class VolcanoPlanner {
    /** What firing each match does: rule semantics are not modelled, only
        how the firing ends and which matches it queues. */
    const fire: RuleMatch -> Firing
    /** The rule's own `matches` test of a bound match. */
    const ruleMatches: RuleMatch -> bool
    /** The finite supply of phase-scoped matches that rule firings can give
        rise to. */
    const supply: set<Entry>
    /** Whether the root reference is known to point at the subset that now
        holds the query root, i.e. no merge happened since the last
        canonicalization. */
    var rootCurrent: bool

    /** Every match a firing queues comes from the finite supply, and every
        match of the supply passes its rule's `matches` test. */
    ghost predicate Valid()
    {
      (forall m, k :: 0 <= k < |fire(m).produced| ==> fire(m).produced[k] in supply)
      && (forall e :: e in supply ==> ruleMatches(e.ruleMatch))
    }

    constructor (fire: RuleMatch -> Firing, ruleMatches: RuleMatch -> bool, supply: set<Entry>, rootCurrent: bool)
      requires forall m, k :: 0 <= k < |fire(m).produced| ==> fire(m).produced[k] in supply
      requires forall e :: e in supply ==> ruleMatches(e.ruleMatch)
      ensures Valid()
      ensures this.fire == fire && this.ruleMatches == ruleMatches && this.supply == supply
      ensures this.rootCurrent == rootCurrent
    {
      this.fire := fire;
      this.ruleMatches := ruleMatches;
      this.supply := supply;
      this.rootCurrent := rootCurrent;
    }

    /** Folds newly proven equivalences and finds the new root subset. The
        call is recorded in `log`. */
    method Canonize(ghost log: CallLog)
      modifies this, log
      ensures rootCurrent
      ensures log.events == old(log.events) + [Event.Canonize]
    {
      rootCurrent := true;
      log.events := log.events + [Event.Canonize];
    }

    /** Fires `m`: the matches its firing produces are offered to `queue`,
        which keeps those it has not seen for their phase; the root may then
        have been merged away. Reports whether the firing timed out; the call
        is recorded in `log`. */
    method OnMatch(m: RuleMatch, queue: VolcanoRuleQueue, ghost log: CallLog) returns (outcome: Outcome)
      requires Valid() && queue.Valid() && queue.seen <= supply
      requires forall e :: e in supply ==> e.phase.ordinal < queue.phaseCount
      modifies this, queue, log
      ensures outcome == fire(m).outcome && !rootCurrent
      ensures log.events == old(log.events) + [Apply(m, outcome)]
      ensures queue.Valid() && queue.seen <= supply
      ensures queue.seen == old(queue.seen) + (set e | e in fire(m).produced)
      ensures forall i :: 0 <= i < |queue.pending| ==>
                multiset(queue.pending[i]) == multiset(old(queue.pending)[i]) + multiset(Fresh(old(queue.seen), queue.seen, Phase(i)))
      ensures queue.seen == old(queue.seen) ==> queue.pending == old(queue.pending)
    {
      var firing := fire(m);
      for k := 0 to |firing.produced|
        invariant queue.Valid() && queue.seen <= supply
        invariant queue.seen == old(queue.seen) + (set e | e in firing.produced[..k])
        invariant forall i :: 0 <= i < |queue.pending| ==>
                    multiset(queue.pending[i]) == multiset(old(queue.pending)[i]) + multiset(Fresh(old(queue.seen), queue.seen, Phase(i)))
        invariant queue.seen == old(queue.seen) ==> queue.pending == old(queue.pending)
        invariant log.events == old(log.events)
      {
        var e := firing.produced[k];
        ghost var before, queued := queue.seen, queue.pending;
        queue.AddMatch(e);
        QueueStep(old(queue.seen), firing.produced[..k], e, before, queue.seen, old(queue.pending), queued, queue.pending);
        PrefixSnoc(firing.produced, k);
      }
      assert firing.produced[..|firing.produced|] == firing.produced;
      rootCurrent := false;
      outcome := firing.outcome;
      log.events := log.events + [Apply(m, outcome)];
    }
  }

  /** One more produced entry offered to the queue keeps the loop's account
      of what was seen and what is pending. */
  lemma QueueStep(origin: set<Entry>, offered: seq<Entry>, e: Entry, before: set<Entry>, after: set<Entry>,
                  start: seq<seq<RuleMatch>>, prev: seq<seq<RuleMatch>>, next: seq<seq<RuleMatch>>)
    requires before == origin + (set x | x in offered)
    requires |start| == |prev| == |next| && e.phase.ordinal < |next|
    requires forall i :: 0 <= i < |prev| ==> multiset(prev[i]) == multiset(start[i]) + multiset(Fresh(origin, before, Phase(i)))
    requires before == origin ==> prev == start
    requires e in before ==> after == before && next == prev
    requires e !in before ==> after == before + {e}
    requires e !in before ==> multiset(next[e.phase.ordinal]) == multiset(prev[e.phase.ordinal]) + multiset{e.ruleMatch}
    requires e !in before ==> forall i :: 0 <= i < |next| && i != e.phase.ordinal ==> next[i] == prev[i]
    ensures after == origin + (set x | x in offered + [e])
    ensures forall i :: 0 <= i < |next| ==> multiset(next[i]) == multiset(start[i]) + multiset(Fresh(origin, after, Phase(i)))
    ensures after == origin ==> next == start
  {
    if e !in before {
      assert e in after && e !in origin;
      PendingGrows(origin, before, e, start, prev, next);
    }
  }

  lemma PrefixSnoc(s: seq<Entry>, k: nat)
    requires k < |s|
    ensures s[..k + 1] == s[..k] + [s[k]]
  {
  }

  /** The bags of pending matches keep equal to what they started with plus
      the fresh matches when one more entry is queued. */
  lemma PendingGrows(origin: set<Entry>, before: set<Entry>, e: Entry,
                     start: seq<seq<RuleMatch>>, prev: seq<seq<RuleMatch>>, next: seq<seq<RuleMatch>>)
    requires origin <= before && e !in before
    requires |start| == |prev| == |next| && e.phase.ordinal < |next|
    requires forall i :: 0 <= i < |prev| ==> multiset(prev[i]) == multiset(start[i]) + multiset(Fresh(origin, before, Phase(i)))
    requires multiset(next[e.phase.ordinal]) == multiset(prev[e.phase.ordinal]) + multiset{e.ruleMatch}
    requires forall i :: 0 <= i < |next| && i != e.phase.ordinal ==> next[i] == prev[i]
    ensures forall i :: 0 <= i < |next| ==>
              multiset(next[i]) == multiset(start[i]) + multiset(Fresh(origin, before + {e}, Phase(i)))
  {
    FreshGrows(origin, before, e);
    assert e.phase == Phase(e.phase.ordinal);
  }

  /** Queuing an entry not seen before adds its match to the fresh matches of
      its phase, and to those of no other phase. */
  lemma FreshGrows(origin: set<Entry>, seen: set<Entry>, e: Entry)
    requires origin <= seen && e !in seen
    ensures multiset(Fresh(origin, seen + {e}, e.phase)) == multiset(Fresh(origin, seen, e.phase)) + multiset{e.ruleMatch}
    ensures forall p :: p != e.phase ==> Fresh(origin, seen + {e}, p) == Fresh(origin, seen, p)
  {
    assert Fresh(origin, seen + {e}, e.phase) == Fresh(origin, seen, e.phase) + {e.ruleMatch};
    assert e.ruleMatch !in Fresh(origin, seen, e.phase);
  }
}
