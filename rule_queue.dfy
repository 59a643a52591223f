/** The rule queue the driver pops from: for each phase, the rule matches
    still to be fired in that phase, in the queue's priority order. */
module RuleQueue {
  import opened Planning
  import opened Trace

  /** No list in `lists` holds a match. */
  predicate Idle(lists: seq<seq<RuleMatch>>)
  {
    forall i :: 0 <= i < |lists| ==> lists[i] == []
  }

  class VolcanoRuleQueue {
    /** The number of constants of the phase enumeration. */
    const phaseCount: nat
    /** For each phase, by ordinal, its pending matches; the head is popped
        first. */
    var pending: seq<seq<RuleMatch>>
    /** Every match queued for a phase since the queue was last cleared; a
        match already in here is not queued for that phase again. */
    var seen: set<Entry>

    ghost predicate Valid()
      reads this
    {
      |pending| == phaseCount
      && (forall i, m :: 0 <= i < |pending| && m in pending[i] ==> Entry(Phase(i), m) in seen)
      && (forall i, m :: 0 <= i < |pending| ==> multiset(pending[i])[m] <= 1)
    }

    /** No phase has a pending match. */
    predicate Empty()
      reads this
    {
      Idle(pending)
    }

    /** A queue holding a (so far empty) list for every phase. */
    constructor (phaseCount: nat)
      ensures Valid() && this.phaseCount == phaseCount
      ensures seen == {} && Empty()
    {
      this.phaseCount := phaseCount;
      pending := seq(phaseCount, _ => []);
      seen := {};
    }

    /** Queues `e.ruleMatch` for `e.phase`, at the place the queue's priority
        order gives it, unless it was queued for that phase before. */
    method AddMatch(e: Entry)
      requires Valid() && e.phase.ordinal < phaseCount
      modifies this
      ensures Valid()
      ensures e in old(seen) ==> seen == old(seen) && pending == old(pending)
      ensures e !in old(seen) ==> seen == old(seen) + {e}
      ensures e !in old(seen) ==>
                multiset(pending[e.phase.ordinal]) == multiset(old(pending)[e.phase.ordinal]) + multiset{e.ruleMatch}
      ensures e !in old(seen) ==> forall i :: 0 <= i < |pending| && i != e.phase.ordinal ==> pending[i] == old(pending)[i]
    {
      if e !in seen {
        var s := pending[e.phase.ordinal];
        // The priority order is the queue's own policy and is left open: the
        // new match may take any place in the list.
        var k :| 0 <= k <= |s|;
        assert s == s[..k] + s[k..];
        pending := pending[e.phase.ordinal := s[..k] + [e.ruleMatch] + s[k..]];
        seen := seen + {e};
        forall i, m | 0 <= i < |pending| && m in pending[i]
          ensures Entry(Phase(i), m) in seen
        {
          if i == e.phase.ordinal && m != e.ruleMatch {
            assert multiset(pending[i])[m] == multiset(s)[m];
          }
        }
        forall i, m | 0 <= i < |pending|
          ensures multiset(pending[i])[m] <= 1
        {
          if i == e.phase.ordinal {
            assert e.ruleMatch !in s by {
              assert e == Entry(Phase(i), e.ruleMatch);
            }
            assert multiset(pending[i]) == multiset(s) + multiset{e.ruleMatch};
          }
        }
      }
    }

    /** Removes and returns the first pending match of `phase`, or returns
        none when there is none. The call is recorded in `log`. */
    method PopMatch(phase: Phase, ghost log: CallLog) returns (m: Option<RuleMatch>)
      requires Valid() && phase.ordinal < phaseCount
      modifies this, log
      ensures Valid() && seen == old(seen)
      ensures log.events == old(log.events) + [Pop(phase, m)]
      ensures old(pending[phase.ordinal]) == [] ==> m == None && pending == old(pending)
      ensures old(pending[phase.ordinal]) != [] ==>
                m == Some(old(pending[phase.ordinal][0]))
                && pending == old(pending)[phase.ordinal := old(pending[phase.ordinal][1..])]
    {
      var s := pending[phase.ordinal];
      if s == [] {
        m := None;
      } else {
        m := Some(s[0]);
        assert s == [s[0]] + s[1..];
        assert multiset(s) == multiset{s[0]} + multiset(s[1..]);
        pending := pending[phase.ordinal := s[1..]];
        forall i, x | 0 <= i < |pending| && x in pending[i]
          ensures Entry(Phase(i), x) in seen
        {
          if i == phase.ordinal {
            assert x in s;
          }
        }
        forall i, x | 0 <= i < |pending|
          ensures multiset(pending[i])[x] <= 1
        {
          if i == phase.ordinal {
            assert multiset(s)[x] <= 1;
          }
        }
      }
      log.events := log.events + [Pop(phase, m)];
    }

    /** Ends `phase`: whatever is still queued for it is discarded. The call
        is recorded in `log`. */
    method PhaseCompleted(phase: Phase, ghost log: CallLog)
      requires Valid() && phase.ordinal < phaseCount
      modifies this, log
      ensures Valid() && seen == old(seen)
      ensures pending == old(pending)[phase.ordinal := []]
      ensures log.events == old(log.events) + [Event.PhaseCompleted(phase)]
    {
      pending := pending[phase.ordinal := []];
      log.events := log.events + [Event.PhaseCompleted(phase)];
    }

    /** Drops every pending match of every phase, and the record of what was
        queued. */
    method Clear()
      requires Valid()
      modifies this
      ensures Valid() && seen == {} && Empty()
    {
      pending := seq(phaseCount, _ => []);
      seen := {};
    }
  }
}
