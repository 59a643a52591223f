/** Value types shared by the Volcano planner's rule driver, rule queue and
    planner facade: phases, rule matches, the outcome of firing a match, and
    the opaque handles the notification hooks receive. */
module Planning {

  datatype Option<T> = None | Some(value: T)

  /** A planner phase, identified by its position in the declaration order of
      the phase enumeration. */
  datatype Phase = Phase(ordinal: nat)

  /** The constants of a phase enumeration with `count` constants, in
      declaration order (what the enumeration's `values()` yields). */
  function Values(count: nat): (phases: seq<Phase>)
    ensures |phases| == count
    ensures forall i :: 0 <= i < count ==> phases[i] == Phase(i)
  {
    seq(count, i requires 0 <= i => Phase(i))
  }

  /** A rule bound to concrete operands of the memo: the rule's identity and
      the identities of the relational expressions it matched. */
  datatype RuleMatch = RuleMatch(rule: nat, operands: seq<nat>)

  /** How firing a rule match ended: normally, or by the planner's timeout
      signal. */
  datatype Outcome = Ok | Timeout

  /** A rule match queued for one phase. */
  datatype Entry = Entry(phase: Phase, ruleMatch: RuleMatch)

  /** What firing one rule match does, as far as the driver can observe it:
      how it ends, and the matches for the rule queue that the expressions it
      registered gave rise to, in the order they were produced. */
  datatype Firing = Firing(outcome: Outcome, produced: seq<Entry>)

  /** Opaque handles to a relational expression, an equivalence subset and an
      equivalence set of the memo. */
  datatype RelNode = RelNode(id: nat)
  datatype RelSubset = RelSubset(id: nat)
  datatype RelSet = RelSet(id: nat)

  /** The matches first queued for `phase` between the dedup sets `before`
      and `after`. */
  ghost function Fresh(before: set<Entry>, after: set<Entry>, phase: Phase): set<RuleMatch>
  {
    set e | e in after - before && e.phase == phase :: e.ruleMatch
  }

  /** The matches first queued for a phase over two stretches of queuing
      are those of the first stretch and, besides them, those of the second. */
  lemma FreshSplit(a: set<Entry>, b: set<Entry>, c: set<Entry>, phase: Phase)
    requires a <= b <= c
    ensures multiset(Fresh(a, c, phase)) == multiset(Fresh(a, b, phase)) + multiset(Fresh(b, c, phase))
  {
    var x, y := Fresh(a, b, phase), Fresh(b, c, phase);
    assert Fresh(a, c, phase) == x + y;
    forall r | r in x
      ensures r !in y
    {
      assert Entry(phase, r) in b;
    }
    assert x !! y;
  }

  /** Remembering more entries of a finite supply never leaves more of it
      unremembered, and remembering at least one more leaves strictly fewer. */
  lemma SupplyShrinks(supply: set<Entry>, before: set<Entry>, after: set<Entry>)
    requires before <= after <= supply
    ensures |supply - after| <= |supply - before|
    ensures before != after ==> |supply - after| < |supply - before|
  {
    SubsetCardinality(supply - after, supply - before);
    if before != after {
      assert after - before == {} ==> after <= before;
      var e :| e in after - before;
      var rest := (supply - before) - {e};
      assert supply - before == rest + {e};
      SubsetCardinality(supply - after, rest);
    }
  }

  lemma {:induction false} SubsetCardinality(a: set<Entry>, b: set<Entry>)
    requires a <= b
    ensures |a| <= |b|
  {
    if a != {} {
      var x :| x in a;
      SubsetCardinality(a - {x}, b - {x});
    }
  }
}
