/** The observable behaviour of one run of the iterative rule driver, as a
    trace of the calls it makes on its collaborators, and the properties every
    run's trace has. */
module Trace {
  import opened Planning

  /** One call the driver makes: a pop from the rule queue (with the match it
      returned, or none), the firing of a match (with how it ended), a
      canonicalization of the memo, and the end-of-phase notice to the queue. */
  datatype Event =
    | Pop(phase: Phase, popped: Option<RuleMatch>)
    | Apply(applied: RuleMatch, outcome: Outcome)
    | Canonize
    | PhaseCompleted(phase: Phase)

  /** How a phase ended: its queue ran dry, or firing `last` timed out. */
  datatype Ending = Drained | TimedOut(last: RuleMatch)

  /** One entered phase: the matches fired normally in it, in order, and how
      it ended. */
  datatype PhaseBlock = PhaseBlock(phase: Phase, applied: seq<RuleMatch>, ending: Ending)

  /** The calls made so far on the rule queue and the planner, in the order
      they were made; each of those calls appends its own event. */
  class CallLog {
    ghost var events: seq<Event>

    ghost constructor ()
      ensures events == []
    {
      events := [];
    }
  }

  /** The events of firing `ms` normally in `phase`: pop, fire, canonicalize. */
  function Steps(phase: Phase, ms: seq<RuleMatch>): seq<Event>
  {
    StepsOf(phase, ms, |ms|)
  }

  /** The events of firing the first `n` matches of `ms` normally. */
  function StepsOf(phase: Phase, ms: seq<RuleMatch>, n: nat): seq<Event>
    requires n <= |ms|
  {
    if n == 0 then []
    else StepsOf(phase, ms, n - 1) + [Pop(phase, Some(ms[n - 1])), Apply(ms[n - 1], Ok), Canonize]
  }

  /** The events that end a phase. */
  function Closing(phase: Phase, ending: Ending): seq<Event>
  {
    match ending
    case Drained => [Pop(phase, None), PhaseCompleted(phase)]
    case TimedOut(m) => [Pop(phase, Some(m)), Apply(m, Timeout), Canonize, PhaseCompleted(phase)]
  }

  function BlockEvents(b: PhaseBlock): seq<Event>
  {
    Steps(b.phase, b.applied) + Closing(b.phase, b.ending)
  }

  /** The trace of a run that entered the phases of `blocks`, in order. */
  function Events(blocks: seq<PhaseBlock>): seq<Event>
  {
    EventsOf(blocks, |blocks|)
  }

  /** The trace of the first `n` phases of `blocks`. */
  function EventsOf(blocks: seq<PhaseBlock>, n: nat): seq<Event>
    requires n <= |blocks|
  {
    if n == 0 then [] else EventsOf(blocks, n - 1) + BlockEvents(blocks[n - 1])
  }

  /** The phases of `blocks` are the first phases of the enumeration, in
      declaration order, and only the last of them may have timed out. */
  ghost predicate Ordered(blocks: seq<PhaseBlock>)
  {
    (forall k :: 0 <= k < |blocks| ==> blocks[k].phase.ordinal == k)
    && (forall k :: 0 <= k < |blocks| - 1 ==> blocks[k].ending == Drained)
  }

  /** A complete run over an enumeration of `phaseCount` phases: every phase
      is entered, unless a timeout ended the last phase entered. */
  ghost predicate WellFormedRun(blocks: seq<PhaseBlock>, phaseCount: nat)
  {
    Ordered(blocks)
    && |blocks| <= phaseCount
    && (|blocks| < phaseCount ==> |blocks| > 0 && blocks[|blocks| - 1].ending.TimedOut?)
  }

  /** Which call may come straight after `a` in a run. After a
      canonicalization it admits a pop or a completion of any phase;
      `CanonizeStaysInPhase` proves that in a run it is of the phase of the
      pop before the canonicalization. */
  predicate Follows(a: Event, b: Event)
  {
    match a
    case Pop(p, Some(m)) => b.Apply? && b.applied == m
    case Pop(p, None) => b == PhaseCompleted(p)
    case Apply(_, _) => b == Canonize
    case Canonize => b.Pop? || b.PhaseCompleted?
    case PhaseCompleted(p) => b.Pop? && b.phase == Phase(p.ordinal + 1)
  }

  ghost predicate Chained(s: seq<Event>)
  {
    forall i :: 0 <= i < |s| - 1 ==> Follows(s[i], s[i + 1])
  }

  /** The items `f` picks out of each event of `s`, in order. */
  function Collect<T>(s: seq<Event>, f: Event -> seq<T>): seq<T>
  {
    if s == [] then [] else Collect(s[..|s| - 1], f) + f(s[|s| - 1])
  }

  function PoppedOf(e: Event): seq<RuleMatch>
  {
    if e.Pop? && e.popped.Some? then [e.popped.value] else []
  }

  function AppliedOf(e: Event): seq<RuleMatch>
  {
    if e.Apply? then [e.applied] else []
  }

  function CanonizeOf(e: Event): seq<Event>
  {
    if e == Canonize then [e] else []
  }

  function CompletionOf(phase: Phase): Event -> seq<Event>
  {
    e => if e == PhaseCompleted(phase) then [e] else []
  }

  /** The non-null matches popped in `s`, in pop order. */
  function Popped(s: seq<Event>): seq<RuleMatch> { Collect(s, PoppedOf) }

  /** The matches fired in `s`, in firing order. */
  function Applications(s: seq<Event>): seq<RuleMatch> { Collect(s, AppliedOf) }

  /** How many times `s` canonicalizes the memo. */
  function Canonizations(s: seq<Event>): nat { |Collect(s, CanonizeOf)| }

  /** How many times `s` tells the queue that `phase` is complete. */
  function Completions(s: seq<Event>, phase: Phase): nat { |Collect(s, CompletionOf(phase))| }

  predicate IsTimeout(e: Event)
  {
    e.Apply? && e.outcome == Timeout
  }

  // ---------------------------------------------------------------------
  // Helpers about concatenation

  /** The trace of the first `n` phases is the trace of the prefix of
      length `n`. */
  lemma {:induction false} EventsPrefix(blocks: seq<PhaseBlock>, n: nat)
    requires n <= |blocks|
    ensures EventsOf(blocks, n) == Events(blocks[..n])
    decreases n
  {
    if n > 0 {
      EventsPrefix(blocks, n - 1);
      EventsPrefix(blocks[..n], n - 1);
      assert blocks[..n][..n - 1] == blocks[..n - 1];
    }
  }

  /** A non-empty run's trace is that of all but its last phase, then the
      last phase's events. */
  lemma EventsUnfold(blocks: seq<PhaseBlock>)
    requires blocks != []
    ensures Events(blocks) == Events(blocks[..|blocks| - 1]) + BlockEvents(blocks[|blocks| - 1])
  {
    EventsPrefix(blocks, |blocks| - 1);
  }

  lemma EventsSnoc(blocks: seq<PhaseBlock>, b: PhaseBlock)
    ensures Events(blocks + [b]) == Events(blocks) + BlockEvents(b)
  {
    EventsUnfold(blocks + [b]);
    assert (blocks + [b])[..|blocks|] == blocks;
  }

  /** The first `n` steps of `ms` are the steps of its prefix of length
      `n`. */
  lemma {:induction false} StepsPrefix(phase: Phase, ms: seq<RuleMatch>, n: nat)
    requires n <= |ms|
    ensures StepsOf(phase, ms, n) == Steps(phase, ms[..n])
    decreases n
  {
    if n > 0 {
      StepsPrefix(phase, ms, n - 1);
      StepsPrefix(phase, ms[..n], n - 1);
      assert ms[..n][..n - 1] == ms[..n - 1];
    }
  }

  /** The steps of a non-empty list are those of all but its last match,
      then the last match's pop, firing and canonicalization. */
  lemma StepsUnfold(phase: Phase, ms: seq<RuleMatch>)
    requires ms != []
    ensures Steps(phase, ms)
            == Steps(phase, ms[..|ms| - 1]) + [Pop(phase, Some(ms[|ms| - 1])), Apply(ms[|ms| - 1], Ok), Canonize]
  {
    StepsPrefix(phase, ms, |ms| - 1);
  }

  lemma Append3(a: seq<Event>, b: seq<Event>, c: seq<Event>)
    ensures a + b + c == a + (b + c)
  {
  }

  /** A match popped and fired normally, then a canonicalization, extend the
      calls `before` of a phase by one step. */
  lemma StepsSnoc(start: seq<Event>, phase: Phase, ms: seq<RuleMatch>, m: RuleMatch, before: seq<Event>, after: seq<Event>)
    requires before == start + Steps(phase, ms)
    requires after == before + [Pop(phase, Some(m))] + [Apply(m, Ok)] + [Canonize]
    ensures after == start + Steps(phase, ms + [m])
  {
    StepsUnfold(phase, ms + [m]);
    assert (ms + [m])[..|ms|] == ms;
    var step := [Pop(phase, Some(m)), Apply(m, Ok), Canonize];
    assert after == before + step;
    Append3(start, Steps(phase, ms), step);
  }

  /** A match popped and fired with a timeout, then a canonicalization and
      the phase's completion, close the calls `before` of a phase. */
  lemma StepsTimedOut(start: seq<Event>, phase: Phase, ms: seq<RuleMatch>, m: RuleMatch, before: seq<Event>, after: seq<Event>)
    requires before == start + Steps(phase, ms)
    requires after == before + [Pop(phase, Some(m))] + [Apply(m, Timeout)] + [Canonize] + [PhaseCompleted(phase)]
    ensures after == start + BlockEvents(PhaseBlock(phase, ms, TimedOut(m)))
  {
    var closing := Closing(phase, TimedOut(m));
    assert after == before + closing;
    Append3(start, Steps(phase, ms), closing);
  }

  /** A pop that finds nothing, followed by the phase's completion, closes
      the calls `before` of a phase. */
  lemma StepsDrained(start: seq<Event>, phase: Phase, ms: seq<RuleMatch>, before: seq<Event>, after: seq<Event>)
    requires before == start + Steps(phase, ms)
    requires after == before + [Pop(phase, None)]
    ensures after + [PhaseCompleted(phase)] == start + BlockEvents(PhaseBlock(phase, ms, Drained))
  {
    var closing := Closing(phase, Drained);
    assert after + [PhaseCompleted(phase)] == before + closing;
    Append3(start, Steps(phase, ms), closing);
  }

  /** The calls of one more entered phase extend the calls `before` of a
      run. */
  lemma RunSnoc(start: seq<Event>, blocks: seq<PhaseBlock>, b: PhaseBlock, before: seq<Event>, after: seq<Event>)
    requires before == start + Events(blocks) && after == before + BlockEvents(b)
    ensures after == start + Events(blocks + [b])
  {
    EventsSnoc(blocks, b);
    Append3(start, Events(blocks), BlockEvents(b));
  }

  lemma OrderedSnoc(blocks: seq<PhaseBlock>, b: PhaseBlock)
    requires Ordered(blocks) && b.phase.ordinal == |blocks|
    requires blocks != [] ==> blocks[|blocks| - 1].ending == Drained
    ensures Ordered(blocks + [b])
  {
    var entered := blocks + [b];
    forall k | 0 <= k < |entered|
      ensures entered[k].phase.ordinal == k
    {
      if k < |blocks| {
        assert entered[k] == blocks[k];
      }
    }
    forall k | 0 <= k < |entered| - 1
      ensures entered[k].ending == Drained
    {
      assert entered[k] == blocks[k];
    }
  }

  lemma OrderedInit(blocks: seq<PhaseBlock>, init: seq<PhaseBlock>)
    requires Ordered(blocks) && blocks != [] && init == blocks[..|blocks| - 1]
    ensures Ordered(init)
    ensures forall k :: 0 <= k < |init| ==> init[k].ending == Drained
  {
    forall k | 0 <= k < |init|
      ensures init[k].phase.ordinal == k && init[k].ending == Drained
    {
      assert init[k] == blocks[k];
    }
  }

  lemma {:induction false} CollectConcat<T>(a: seq<Event>, b: seq<Event>, f: Event -> seq<T>)
    ensures Collect(a + b, f) == Collect(a, f) + Collect(b, f)
  {
    if b == [] {
      assert a + b == a;
    } else {
      assert (a + b)[..|a + b| - 1] == a + b[..|b| - 1];
      assert (a + b)[|a + b| - 1] == b[|b| - 1];
      CollectConcat(a, b[..|b| - 1], f);
    }
  }

  lemma CollectCons<T>(e: Event, s: seq<Event>, f: Event -> seq<T>)
    ensures Collect([e] + s, f) == f(e) + Collect(s, f)
  {
    CollectConcat([e], s, f);
    assert [e][..0] == [];
  }

  lemma CollectStep<T>(phase: Phase, m: RuleMatch, f: Event -> seq<T>)
    ensures Collect([Pop(phase, Some(m)), Apply(m, Ok), Canonize], f)
            == f(Pop(phase, Some(m))) + f(Apply(m, Ok)) + f(Canonize)
  {
    assert [Pop(phase, Some(m)), Apply(m, Ok), Canonize] == [Pop(phase, Some(m))] + ([Apply(m, Ok)] + ([Canonize] + []));
    CollectCons(Pop(phase, Some(m)), [Apply(m, Ok)] + ([Canonize] + []), f);
    CollectCons(Apply(m, Ok), [Canonize] + [], f);
    CollectCons(Canonize, [], f);
  }

  lemma CollectClosing<T>(phase: Phase, ending: Ending, f: Event -> seq<T>)
    ensures Collect(Closing(phase, ending), f)
            == match ending
               case Drained => f(Pop(phase, None)) + f(PhaseCompleted(phase))
               case TimedOut(m) => f(Pop(phase, Some(m))) + f(Apply(m, Timeout)) + f(Canonize) + f(PhaseCompleted(phase))
  {
    match ending
    case Drained =>
      assert Closing(phase, ending) == [Pop(phase, None)] + ([PhaseCompleted(phase)] + []);
      CollectCons(Pop(phase, None), [PhaseCompleted(phase)] + [], f);
      CollectCons(PhaseCompleted(phase), [], f);
    case TimedOut(m) =>
      assert Closing(phase, ending)
             == [Pop(phase, Some(m))] + ([Apply(m, Timeout)] + ([Canonize] + ([PhaseCompleted(phase)] + [])));
      CollectCons(Pop(phase, Some(m)), [Apply(m, Timeout)] + ([Canonize] + ([PhaseCompleted(phase)] + [])), f);
      CollectCons(Apply(m, Timeout), [Canonize] + ([PhaseCompleted(phase)] + []), f);
      CollectCons(Canonize, [PhaseCompleted(phase)] + [], f);
      CollectCons(PhaseCompleted(phase), [], f);
  }

  lemma ChainedConcat(a: seq<Event>, b: seq<Event>)
    requires Chained(a) && Chained(b)
    requires a != [] && b != [] ==> Follows(a[|a| - 1], b[0])
    ensures Chained(a + b)
  {
    forall i | 0 <= i < |a + b| - 1
      ensures Follows((a + b)[i], (a + b)[i + 1])
    {
      if i >= |a| {
        assert (a + b)[i] == b[i - |a|] && (a + b)[i + 1] == b[i - |a| + 1];
      }
    }
  }

  // ---------------------------------------------------------------------
  // The shape of a phase

  lemma {:induction false} StepsShape(phase: Phase, ms: seq<RuleMatch>)
    ensures |Steps(phase, ms)| == 3 * |ms|
    ensures Chained(Steps(phase, ms))
    ensures ms != [] ==> Steps(phase, ms)[0] == Pop(phase, Some(ms[0]))
    ensures ms != [] ==> Steps(phase, ms)[|Steps(phase, ms)| - 1] == Canonize
    ensures forall i :: 0 <= i < |Steps(phase, ms)| ==> !IsTimeout(Steps(phase, ms)[i])
    ensures forall i :: 0 <= i < |Steps(phase, ms)| ==> !Steps(phase, ms)[i].PhaseCompleted?
    ensures forall i :: 0 <= i < |Steps(phase, ms)| && Steps(phase, ms)[i].Pop? ==> Steps(phase, ms)[i].phase == phase
  {
    if ms != [] {
      var init := ms[..|ms| - 1];
      StepsUnfold(phase, ms);
      var tail := [Pop(phase, Some(ms[|ms| - 1])), Apply(ms[|ms| - 1], Ok), Canonize];
      StepsShape(phase, init);
      ChainedConcat(Steps(phase, init), tail);
      if init != [] {
        assert init[0] == ms[0];
      }
    }
  }

  lemma BlockShape(b: PhaseBlock)
    ensures |BlockEvents(b)| >= 2
    ensures Chained(BlockEvents(b))
    ensures BlockEvents(b)[0].Pop? && BlockEvents(b)[0].phase == b.phase
    ensures BlockEvents(b)[|BlockEvents(b)| - 1] == PhaseCompleted(b.phase)
  {
    StepsShape(b.phase, b.applied);
    ChainedConcat(Steps(b.phase, b.applied), Closing(b.phase, b.ending));
  }

  // ---------------------------------------------------------------------
  // Properties of every run

  /** A run's trace obeys `Follows` throughout: it begins with a pop in the
      first phase and ends with the completion of the last phase entered.
      `Follows` leaves open the phase of the call after a canonicalization;
      `CanonizeStaysInPhase` pins it to the current phase. */
  lemma {:induction false} RunShape(blocks: seq<PhaseBlock>)
    requires Ordered(blocks)
    ensures Chained(Events(blocks))
    ensures blocks != [] ==> |Events(blocks)| >= 2
    ensures blocks != [] ==> Events(blocks)[0].Pop? && Events(blocks)[0].phase == Phase(0)
    ensures blocks != [] ==> Events(blocks)[|Events(blocks)| - 1] == PhaseCompleted(blocks[|blocks| - 1].phase)
  {
    if blocks != [] {
      var init := blocks[..|blocks| - 1];
      EventsUnfold(blocks);
      var last := blocks[|blocks| - 1];
      var e, t := Events(init), BlockEvents(last);
      assert Events(blocks) == e + t;
      OrderedInit(blocks, init);
      RunShape(init);
      BlockShape(last);
      var previous := if init == [] then Phase(0) else init[|init| - 1].phase;
      assert init != [] ==> previous.ordinal + 1 == last.phase.ordinal;
      JoinPhases(e, t, previous, last.phase);
    }
  }

  /** The events of one more phase, the one after the last phase of `e`,
      keep a run's trace chained. */
  lemma JoinPhases(e: seq<Event>, t: seq<Event>, previous: Phase, next: Phase)
    requires Chained(e) && Chained(t)
    requires |t| >= 2 && t[0].Pop? && t[0].phase == next && t[|t| - 1] == PhaseCompleted(next)
    requires e != [] ==> e[|e| - 1] == PhaseCompleted(previous) && next == Phase(previous.ordinal + 1)
    ensures Chained(e + t) && |e + t| >= 2
    ensures (e + t)[0] == if e == [] then t[0] else e[0]
    ensures (e + t)[|e + t| - 1] == PhaseCompleted(next)
  {
    ChainedConcat(e, t);
    assert (e + t)[|e + t| - 1] == t[|t| - 1];
  }

  /** Every firing is immediately followed by one canonicalization, and that
      by the next pop or the completion of the phase. */
  lemma CanonizeFollowsApply(blocks: seq<PhaseBlock>, i: nat)
    requires Ordered(blocks)
    requires i < |Events(blocks)| && Events(blocks)[i].Apply?
    ensures i + 2 < |Events(blocks)| && Events(blocks)[i + 1] == Canonize
    ensures Events(blocks)[i + 2].Pop? || Events(blocks)[i + 2].PhaseCompleted?
  {
    RunShape(blocks);
    assert Follows(Events(blocks)[i + 1], Events(blocks)[i + 2]);
  }

  /** Every firing is of the match popped just before it. */
  lemma ApplyFollowsItsPop(blocks: seq<PhaseBlock>, i: nat)
    requires Ordered(blocks)
    requires i < |Events(blocks)| && Events(blocks)[i].Apply?
    ensures i > 0 && Events(blocks)[i - 1].Pop?
    ensures Events(blocks)[i - 1].popped == Some(Events(blocks)[i].applied)
  {
    RunShape(blocks);
    assert Follows(Events(blocks)[i - 1], Events(blocks)[i]);
  }

  /** A non-null pop is immediately followed by the firing of that match. */
  lemma PopIsApplied(blocks: seq<PhaseBlock>, i: nat)
    requires Ordered(blocks)
    requires i < |Events(blocks)| && Events(blocks)[i].Pop? && Events(blocks)[i].popped.Some?
    ensures i + 1 < |Events(blocks)| && Events(blocks)[i + 1].Apply?
    ensures Events(blocks)[i + 1].applied == Events(blocks)[i].popped.value
  {
    RunShape(blocks);
  }

  /** A null pop ends its phase: the next call completes that phase. */
  lemma EmptyPopCompletesPhase(blocks: seq<PhaseBlock>, i: nat)
    requires Ordered(blocks)
    requires i < |Events(blocks)| && Events(blocks)[i].Pop? && Events(blocks)[i].popped.None?
    ensures i + 1 < |Events(blocks)| && Events(blocks)[i + 1] == PhaseCompleted(Events(blocks)[i].phase)
  {
    RunShape(blocks);
  }

  /** Phases are entered one after the other in declaration order: after a
      phase is completed, only the next phase is popped from. */
  lemma CompletionEntersNextPhase(blocks: seq<PhaseBlock>, i: nat)
    requires Ordered(blocks)
    requires i + 1 < |Events(blocks)| && Events(blocks)[i].PhaseCompleted?
    ensures Events(blocks)[i + 1].Pop?
    ensures Events(blocks)[i + 1].phase.ordinal == Events(blocks)[i].phase.ordinal + 1
  {
    RunShape(blocks);
  }

  /** Every call of a run that names a phase names a phase entered by then,
      and the phases named never go back. */
  lemma {:induction false} PhasesInOrder(blocks: seq<PhaseBlock>, i: nat, j: nat)
    requires Ordered(blocks)
    requires i <= j < |Events(blocks)|
    requires Events(blocks)[i].Pop? || Events(blocks)[i].PhaseCompleted?
    requires Events(blocks)[j].Pop? || Events(blocks)[j].PhaseCompleted?
    ensures Events(blocks)[i].phase.ordinal <= Events(blocks)[j].phase.ordinal < |blocks|
  {
    var init := blocks[..|blocks| - 1];
    EventsUnfold(blocks);
    var last := blocks[|blocks| - 1];
    var e, t := Events(init), BlockEvents(last);
    assert Events(blocks) == e + t;
    OrderedInit(blocks, init);
    if j < |e| {
      assert (e + t)[i] == e[i] && (e + t)[j] == e[j];
      PhasesInOrder(init, i, j);
    } else {
      BlockPhases(last);
      assert (e + t)[j] == t[j - |e|];
      if i < |e| {
        assert (e + t)[i] == e[i];
        PhasesInOrder(init, i, i);
      } else {
        assert (e + t)[i] == t[i - |e|];
      }
    }
  }

  /** A canonicalization stays inside its phase: it comes after the pop
      and the firing of a match, and the call after it, a pop or the
      completion, is of the phase of that pop. */
  lemma {:induction false} CanonizeStaysInPhase(blocks: seq<PhaseBlock>, i: nat)
    requires Ordered(blocks)
    requires i < |Events(blocks)| && Events(blocks)[i] == Canonize
    ensures 2 <= i && i + 1 < |Events(blocks)| && Events(blocks)[i - 2].Pop?
    ensures Events(blocks)[i + 1].Pop? || Events(blocks)[i + 1].PhaseCompleted?
    ensures Events(blocks)[i + 1].phase == Events(blocks)[i - 2].phase
  {
    var init := blocks[..|blocks| - 1];
    EventsUnfold(blocks);
    var last := blocks[|blocks| - 1];
    var e, t := Events(init), BlockEvents(last);
    assert Events(blocks) == e + t;
    OrderedInit(blocks, init);
    if i < |e| {
      assert (e + t)[i] == e[i];
      RunShape(init);
      CanonizeStaysInPhase(init, i);
      assert (e + t)[i - 2] == e[i - 2] && (e + t)[i + 1] == e[i + 1];
    } else {
      BlockCanonize(last, i - |e|);
      assert (e + t)[i] == t[i - |e|];
      assert (e + t)[i - 2] == t[i - |e| - 2] && (e + t)[i + 1] == t[i - |e| + 1];
    }
  }

  /** Within the events of one phase, a canonicalization comes two calls
      after a pop and is followed by a pop or the completion, all of that
      phase. */
  lemma BlockCanonize(b: PhaseBlock, j: nat)
    requires j < |BlockEvents(b)| && BlockEvents(b)[j] == Canonize
    ensures 2 <= j && j + 1 < |BlockEvents(b)| && BlockEvents(b)[j - 2].Pop?
    ensures BlockEvents(b)[j + 1].Pop? || BlockEvents(b)[j + 1].PhaseCompleted?
    ensures BlockEvents(b)[j + 1].phase == b.phase && BlockEvents(b)[j - 2].phase == b.phase
  {
    BlockShape(b);
    BlockPhases(b);
    var t := BlockEvents(b);
    assert Follows(t[j - 1], t[j]);
    assert Follows(t[j - 2], t[j - 1]);
    assert Follows(t[j], t[j + 1]);
  }

  /** Every pop and completion of a phase's events names that phase. */
  lemma BlockPhases(b: PhaseBlock)
    ensures forall k :: 0 <= k < |BlockEvents(b)| && (BlockEvents(b)[k].Pop? || BlockEvents(b)[k].PhaseCompleted?)
              ==> BlockEvents(b)[k].phase == b.phase
  {
    var s: seq<Event>, c: seq<Event> := Steps(b.phase, b.applied), Closing(b.phase, b.ending);
    StepsShape(b.phase, b.applied);
    forall k | 0 <= k < |s + c| && ((s + c)[k].Pop? || (s + c)[k].PhaseCompleted?)
      ensures (s + c)[k].phase == b.phase
    {
      if k < |s| {
        assert (s + c)[k] == s[k];
      } else {
        assert (s + c)[k] == c[k - |s|];
      }
    }
  }

  /** A phase is completed only straight after a pop that found nothing, or
      after the canonicalization that follows a firing that timed out. */
  lemma {:induction false} CompletionCause(blocks: seq<PhaseBlock>, i: nat)
    requires i < |Events(blocks)| && Events(blocks)[i].PhaseCompleted?
    ensures i >= 1
    ensures Events(blocks)[i - 1] == Pop(Events(blocks)[i].phase, None)
            || (i >= 2 && Events(blocks)[i - 1] == Canonize && IsTimeout(Events(blocks)[i - 2]))
  {
    var init := blocks[..|blocks| - 1];
    EventsUnfold(blocks);
    var last := blocks[|blocks| - 1];
    var e, t := Events(init), BlockEvents(last);
    assert Events(blocks) == e + t;
    if i < |e| {
      assert (e + t)[i] == e[i];
      CompletionCause(init, i);
      assert (e + t)[i - 1] == e[i - 1];
      if e[i - 1] == Canonize {
        assert (e + t)[i - 2] == e[i - 2];
      }
    } else {
      BlockCompletionCause(last, i - |e|);
      assert (e + t)[i] == t[i - |e|] && (e + t)[i - 1] == t[i - |e| - 1];
      if t[i - |e| - 1] == Canonize {
        assert (e + t)[i - 2] == t[i - |e| - 2];
      }
    }
  }

  /** Within the events of one phase, a completion is the last event, after
      the pop that found nothing or after a timeout and its canonicalization. */
  lemma BlockCompletionCause(b: PhaseBlock, j: nat)
    requires j < |BlockEvents(b)| && BlockEvents(b)[j].PhaseCompleted?
    ensures j >= 1 && BlockEvents(b)[j].phase == b.phase
    ensures BlockEvents(b)[j - 1] == Pop(b.phase, None)
            || (j >= 2 && BlockEvents(b)[j - 1] == Canonize && IsTimeout(BlockEvents(b)[j - 2]))
  {
    var s: seq<Event>, c: seq<Event> := Steps(b.phase, b.applied), Closing(b.phase, b.ending);
    StepsShape(b.phase, b.applied);
    forall k | 0 <= k < |s|
      ensures !(s + c)[k].PhaseCompleted?
    {
      assert (s + c)[k] == s[k];
    }
    assert (s + c)[j] == c[j - |s|];
    assert (s + c)[j - 1] == c[j - |s| - 1];
    if b.ending.TimedOut? {
      assert (s + c)[j - 2] == c[j - |s| - 2];
    }
  }

  lemma {:induction false} DrainedRunHasNoTimeout(blocks: seq<PhaseBlock>)
    requires forall k :: 0 <= k < |blocks| ==> blocks[k].ending == Drained
    ensures forall i :: 0 <= i < |Events(blocks)| ==> !IsTimeout(Events(blocks)[i])
  {
    if blocks != [] {
      var init := blocks[..|blocks| - 1];
      EventsUnfold(blocks);
      var last := blocks[|blocks| - 1];
      var e := Events(init);
      var s := Steps(last.phase, last.applied);
      DrainedRunHasNoTimeout(init);
      StepsShape(last.phase, last.applied);
      assert Events(blocks) == e + s + Closing(last.phase, last.ending);
      forall i | 0 <= i < |Events(blocks)|
        ensures !IsTimeout(Events(blocks)[i])
      {
        if i < |e| {
          assert Events(blocks)[i] == e[i];
        } else if i < |e| + |s| {
          assert Events(blocks)[i] == s[i - |e|];
        }
      }
    }
  }

  /** A timeout ends the run: it is followed by exactly one canonicalization
      and the completion of the current phase, and by nothing else. */
  lemma TimeoutEndsRun(blocks: seq<PhaseBlock>, i: nat)
    requires Ordered(blocks)
    requires i < |Events(blocks)| && IsTimeout(Events(blocks)[i])
    ensures blocks != [] && i == |Events(blocks)| - 3
    ensures Events(blocks)[i + 1] == Canonize
    ensures Events(blocks)[i + 2] == PhaseCompleted(blocks[|blocks| - 1].phase)
  {
    assert blocks != [];
    var init := blocks[..|blocks| - 1];
    EventsUnfold(blocks);
    var last := blocks[|blocks| - 1];
    var pre := Events(init) + Steps(last.phase, last.applied);
    var c := Closing(last.phase, last.ending);
    assert Events(blocks) == pre + c;
    NoTimeoutBeforeClosing(blocks, pre);
    assert IsTimeout((pre + c)[i]);
    assert i >= |pre| && IsTimeout(c[i - |pre|]);
    ClosingTimeout(last.phase, last.ending, i - |pre|);
    assert Events(blocks)[i + 1] == c[2] && Events(blocks)[i + 2] == c[3];
  }

  /** The only timeout in the closing of a phase is the firing of the match
      that timed out, two calls before the phase's end. */
  lemma ClosingTimeout(phase: Phase, ending: Ending, j: nat)
    requires j < |Closing(phase, ending)| && IsTimeout(Closing(phase, ending)[j])
    ensures ending.TimedOut? && j == 1 && |Closing(phase, ending)| == 4
    ensures Closing(phase, ending)[2] == Canonize && Closing(phase, ending)[3] == PhaseCompleted(phase)
  {
  }

  /** In a run whose phases are in order, only the closing of the last phase
      can hold a timeout. */
  lemma NoTimeoutBeforeClosing(blocks: seq<PhaseBlock>, pre: seq<Event>)
    requires Ordered(blocks) && blocks != []
    requires pre == Events(blocks[..|blocks| - 1]) + Steps(blocks[|blocks| - 1].phase, blocks[|blocks| - 1].applied)
    ensures forall k :: 0 <= k < |pre| ==> !IsTimeout(pre[k])
  {
    var init := blocks[..|blocks| - 1];
    EventsUnfold(blocks);
    var last := blocks[|blocks| - 1];
    var e := Events(init);
    var s := Steps(last.phase, last.applied);
    OrderedInit(blocks, init);
    DrainedRunHasNoTimeout(init);
    StepsShape(last.phase, last.applied);
    forall k | 0 <= k < |e + s|
      ensures !IsTimeout((e + s)[k])
    {
      if k < |e| {
        assert (e + s)[k] == e[k];
      } else {
        assert (e + s)[k] == s[k - |e|];
      }
    }
  }

  /** A run that did not enter every phase was ended by a timeout, three
      calls before its end. */
  lemma IncompleteRunTimedOut(blocks: seq<PhaseBlock>, phaseCount: nat)
    requires WellFormedRun(blocks, phaseCount)
    requires |blocks| < phaseCount
    ensures |Events(blocks)| >= 4 && IsTimeout(Events(blocks)[|Events(blocks)| - 3])
  {
    var init := blocks[..|blocks| - 1];
    EventsUnfold(blocks);
    var last := blocks[|blocks| - 1];
    var s := Steps(last.phase, last.applied);
    assert Events(blocks) == Events(init) + s + Closing(last.phase, last.ending);
  }

  lemma {:induction false} StepsHasNoCompletion(p: Phase, ms: seq<RuleMatch>, phase: Phase)
    ensures Collect(Steps(p, ms), CompletionOf(phase)) == []
  {
    if ms != [] {
      var m := ms[|ms| - 1];
      StepsUnfold(p, ms);
      StepsHasNoCompletion(p, ms[..|ms| - 1], phase);
      CollectConcat(Steps(p, ms[..|ms| - 1]), [Pop(p, Some(m)), Apply(m, Ok), Canonize], CompletionOf(phase));
      CollectStep(p, m, CompletionOf(phase));
    }
  }

  lemma BlockCompletions(b: PhaseBlock, phase: Phase)
    ensures Completions(BlockEvents(b), phase) == if b.phase == phase then 1 else 0
  {
    var f := CompletionOf(phase);
    CollectConcat(Steps(b.phase, b.applied), Closing(b.phase, b.ending), f);
    CollectClosing(b.phase, b.ending, f);
    StepsHasNoCompletion(b.phase, b.applied, phase);
  }

  /** Each entered phase is completed exactly once; no other phase is. */
  lemma {:induction false} PhaseCompletedOnce(blocks: seq<PhaseBlock>, phase: Phase)
    requires Ordered(blocks)
    ensures Completions(Events(blocks), phase) == if phase.ordinal < |blocks| then 1 else 0
  {
    if blocks != [] {
      var init := blocks[..|blocks| - 1];
      EventsUnfold(blocks);
      var last := blocks[|blocks| - 1];
      OrderedInit(blocks, init);
      PhaseCompletedOnce(init, phase);
      CollectConcat(Events(init), BlockEvents(last), CompletionOf(phase));
      BlockCompletions(last, phase);
    }
  }

  lemma {:induction false} StepsCollect(p: Phase, ms: seq<RuleMatch>)
    ensures Popped(Steps(p, ms)) == ms
    ensures Applications(Steps(p, ms)) == ms
    ensures Canonizations(Steps(p, ms)) == |ms|
  {
    if ms != [] {
      var init := ms[..|ms| - 1];
      var m := ms[|ms| - 1];
      StepsUnfold(p, ms);
      var tail := [Pop(p, Some(m)), Apply(m, Ok), Canonize];
      StepsCollect(p, init);
      CollectConcat(Steps(p, init), tail, PoppedOf);
      CollectConcat(Steps(p, init), tail, AppliedOf);
      CollectConcat(Steps(p, init), tail, CanonizeOf);
      CollectStep(p, m, PoppedOf);
      CollectStep(p, m, AppliedOf);
      CollectStep(p, m, CanonizeOf);
    }
  }

  lemma BlockCollect(b: PhaseBlock)
    ensures Applications(BlockEvents(b)) == Popped(BlockEvents(b))
    ensures Canonizations(BlockEvents(b)) == |Applications(BlockEvents(b))|
  {
    BlockPopsInTrace(b);
    BlockAppliedInTrace(b);
    BlockCanonizeInTrace(b);
  }

  lemma BlockAppliedInTrace(b: PhaseBlock)
    ensures Applications(BlockEvents(b)) == BlockPops(b)
  {
    StepsCollect(b.phase, b.applied);
    CollectConcat(Steps(b.phase, b.applied), Closing(b.phase, b.ending), AppliedOf);
    CollectClosing(b.phase, b.ending, AppliedOf);
  }

  /** Every match popped in an entered phase is fired in the run's calls. */
  lemma {:induction false} PopsFiredInRun(blocks: seq<PhaseBlock>, k: nat)
    requires k < |blocks|
    ensures multiset(BlockPops(blocks[k])) <= multiset(Applications(Events(blocks)))
  {
    var init := blocks[..|blocks| - 1];
    EventsUnfold(blocks);
    var last := blocks[|blocks| - 1];
    CollectConcat(Events(init), BlockEvents(last), AppliedOf);
    if k == |blocks| - 1 {
      BlockAppliedInTrace(last);
    } else {
      PopsFiredInRun(init, k);
      assert init[k] == blocks[k];
    }
  }

  lemma BlockCanonizeInTrace(b: PhaseBlock)
    ensures Canonizations(BlockEvents(b)) == |BlockPops(b)|
  {
    StepsCollect(b.phase, b.applied);
    CollectConcat(Steps(b.phase, b.applied), Closing(b.phase, b.ending), CanonizeOf);
    CollectClosing(b.phase, b.ending, CanonizeOf);
  }

  /** The matches popped in the phase of `b`, in pop order: those fired
      normally and, when the phase timed out, the one whose firing timed out. */
  function BlockPops(b: PhaseBlock): seq<RuleMatch>
  {
    b.applied + match b.ending case Drained => [] case TimedOut(m) => [m]
  }

  /** The entries that firing the matches of `ms` produces. */
  ghost function Produced(ms: seq<RuleMatch>, fire: RuleMatch -> Firing): set<Entry>
  {
    set m, e | m in ms && e in fire(m).produced :: e
  }

  /** A single firing produces its own entries. */
  lemma ProducedOne(m: RuleMatch, fire: RuleMatch -> Firing)
    ensures Produced([m], fire) == set e | e in fire(m).produced
  {
    forall e | e in Produced([m], fire)
      ensures e in fire(m).produced
    {
      var x :| x in [m] && e in fire(x).produced;
    }
  }

  /** One more firing produces its own entries on top of the others'. */
  lemma ProducedSnoc(ms: seq<RuleMatch>, m: RuleMatch, fire: RuleMatch -> Firing)
    ensures Produced(ms + [m], fire) == Produced(ms, fire) + (set e | e in fire(m).produced)
  {
    forall e | e in Produced(ms + [m], fire)
      ensures e in Produced(ms, fire) || e in fire(m).produced
    {
      var x :| x in ms + [m] && e in fire(x).produced;
      if x != m {
        assert x in ms;
      }
    }
  }

  /** The queue's record of entries after the first `n` phases of `blocks`,
      when it was `seen` before them: what the popped matches' firings
      produced is added. */
  ghost function SeenAfter(seen: set<Entry>, blocks: seq<PhaseBlock>, fire: RuleMatch -> Firing, n: nat): set<Entry>
    requires n <= |blocks|
  {
    if n == 0 then seen else SeenAfter(seen, blocks, fire, n - 1) + Produced(BlockPops(blocks[n - 1]), fire)
  }

  /** The record after the first phases does not depend on later ones. */
  lemma {:induction false} SeenAfterSnoc(seen: set<Entry>, blocks: seq<PhaseBlock>, b: PhaseBlock,
                                         fire: RuleMatch -> Firing, n: nat)
    requires n <= |blocks|
    ensures SeenAfter(seen, blocks + [b], fire, n) == SeenAfter(seen, blocks, fire, n)
    decreases n
  {
    if n > 0 {
      SeenAfterSnoc(seen, blocks, b, fire, n - 1);
      assert (blocks + [b])[n - 1] == blocks[n - 1];
    }
  }

  /** The record only grows from phase to phase. */
  lemma {:induction false} SeenAfterGrows(seen: set<Entry>, blocks: seq<PhaseBlock>, fire: RuleMatch -> Firing,
                                          m: nat, n: nat)
    requires m <= n <= |blocks|
    ensures seen <= SeenAfter(seen, blocks, fire, m) <= SeenAfter(seen, blocks, fire, n)
    decreases n
  {
    if m < n {
      SeenAfterGrows(seen, blocks, fire, m, n - 1);
    } else if n > 0 {
      SeenAfterGrows(seen, blocks, fire, n - 1, n - 1);
    }
  }

  /** The phase of `b` agrees with the firings: the matches it fired
      normally ended normally under `fire`, and the one that timed out timed
      out. */
  ghost predicate Witnessed(b: PhaseBlock, fire: RuleMatch -> Firing)
  {
    (forall j :: 0 <= j < |b.applied| ==> fire(b.applied[j]).outcome == Ok)
    && (b.ending.TimedOut? ==> fire(b.ending.last).outcome == Timeout)
  }

  /** Every match popped in the phase of `b` was queued for that phase. */
  ghost predicate Queued(b: PhaseBlock, seen: set<Entry>)
  {
    forall m :: m in BlockPops(b) ==> Entry(b.phase, m) in seen
  }

  /** A match fired next extends a witnessed phase: as one more normal
      firing, or as the firing that timed out. */
  lemma WitnessedNext(phase: Phase, applied: seq<RuleMatch>, m: RuleMatch, fire: RuleMatch -> Firing)
    requires Witnessed(PhaseBlock(phase, applied, Drained), fire)
    ensures fire(m).outcome == Ok ==> Witnessed(PhaseBlock(phase, applied + [m], Drained), fire)
    ensures fire(m).outcome == Timeout ==> Witnessed(PhaseBlock(phase, applied, TimedOut(m)), fire)
  {
    forall j | 0 <= j < |applied|
      ensures fire((applied + [m])[j]).outcome == Ok
    {
      assert (applied + [m])[j] == applied[j];
    }
  }

  /** Recording one more witnessed phase keeps every recorded phase
      witnessed. */
  lemma WitnessedSnoc(blocks: seq<PhaseBlock>, b: PhaseBlock, fire: RuleMatch -> Firing)
    requires forall k :: 0 <= k < |blocks| ==> Witnessed(blocks[k], fire)
    requires Witnessed(b, fire)
    ensures forall k :: 0 <= k < |blocks + [b]| ==> Witnessed((blocks + [b])[k], fire)
  {
    forall k | 0 <= k < |blocks + [b]|
      ensures Witnessed((blocks + [b])[k], fire)
    {
      if k < |blocks| {
        assert (blocks + [b])[k] == blocks[k];
      }
    }
  }

  /** No match occurs twice in `s`. */
  ghost predicate NoDuplicates(s: seq<RuleMatch>)
  {
    DistinctPrefix(s, |s|)
  }

  /** No match occurs twice among the first `n` matches of `s`: each of
      them differs from all those before it. */
  ghost predicate DistinctPrefix(s: seq<RuleMatch>, n: nat)
    requires n <= |s|
  {
    n == 0 || (DistinctPrefix(s, n - 1) && forall i :: 0 <= i < n - 1 ==> s[i] != s[n - 1])
  }

  lemma {:induction false} DistinctPrefixPairs(s: seq<RuleMatch>, n: nat)
    requires n <= |s|
    ensures DistinctPrefix(s, n) <==> forall i, j :: 0 <= i < j < n ==> s[i] != s[j]
    decreases n
  {
    if n > 0 {
      DistinctPrefixPairs(s, n - 1);
    }
  }

  /** `NoDuplicates` says that any two positions of `s` hold different
      matches. */
  lemma NoDuplicatesPairs(s: seq<RuleMatch>)
    ensures NoDuplicates(s) <==> forall i, j :: 0 <= i < j < |s| ==> s[i] != s[j]
  {
    DistinctPrefixPairs(s, |s|);
  }

  /** No match is popped twice within any phase of `blocks`. */
  ghost predicate PopsDistinct(blocks: seq<PhaseBlock>)
  {
    forall k :: 0 <= k < |blocks| ==> NoDuplicates(BlockPops(blocks[k]))
  }

  /** The non-null pops of a block's trace are exactly its popped matches. */
  lemma BlockPopsInTrace(b: PhaseBlock)
    ensures Popped(BlockEvents(b)) == BlockPops(b)
  {
    StepsCollect(b.phase, b.applied);
    CollectConcat(Steps(b.phase, b.applied), Closing(b.phase, b.ending), PoppedOf);
    CollectClosing(b.phase, b.ending, PoppedOf);
  }

  lemma CanonizeInSteps(p: Phase, ms: seq<RuleMatch>)
    ensures Canonize in Steps(p, ms) <==> ms != []
  {
    if ms != [] {
      var s := Steps(p, ms);
      assert s[|s| - 1] == Canonize;
    }
  }

  /** Whether a match was fired, normally or timing out, in the phase of
      `b`. */
  predicate Fires(b: PhaseBlock)
  {
    b.applied != [] || b.ending.TimedOut?
  }

  /** Whether some match was fired in `blocks`. */
  predicate AnyFired(blocks: seq<PhaseBlock>)
  {
    exists k :: 0 <= k < |blocks| && Fires(blocks[k])
  }

  lemma AnyFiredSnoc(blocks: seq<PhaseBlock>, b: PhaseBlock)
    ensures AnyFired(blocks + [b]) <==> AnyFired(blocks) || Fires(b)
  {
    var entered := blocks + [b];
    if AnyFired(blocks) {
      var k :| 0 <= k < |blocks| && Fires(blocks[k]);
      assert entered[k] == blocks[k];
    }
    if Fires(b) {
      assert entered[|blocks|] == b;
    }
    if AnyFired(entered) {
      var k :| 0 <= k < |entered| && Fires(entered[k]);
      if k < |blocks| {
        assert entered[k] == blocks[k];
      }
    }
  }

  /** A run canonicalizes the memo at least once exactly when it fires a
      match. */
  lemma {:induction false} AnyFiredCanonizes(blocks: seq<PhaseBlock>)
    ensures AnyFired(blocks) <==> Canonize in Events(blocks)
  {
    if blocks != [] {
      var init := blocks[..|blocks| - 1];
      EventsUnfold(blocks);
      var last := blocks[|blocks| - 1];
      AnyFiredCanonizes(init);
      CanonizeInEvents(init, last);
      AnyFiredSnoc(init, last);
      assert init + [last] == blocks;
    }
  }

  /** Entering one more phase adds a canonicalization to the trace exactly
      when a match was fired in it. */
  lemma CanonizeInEvents(blocks: seq<PhaseBlock>, b: PhaseBlock)
    ensures Canonize in Events(blocks + [b]) <==> Canonize in Events(blocks) || Fires(b)
  {
    EventsSnoc(blocks, b);
    CanonizeInSteps(b.phase, b.applied);
    assert BlockEvents(b) == Steps(b.phase, b.applied) + Closing(b.phase, b.ending);
  }

  /** Every non-null match popped is fired exactly once, in pop order, and
      every firing is paired with exactly one canonicalization. */
  lemma {:induction false} FiredInPopOrder(blocks: seq<PhaseBlock>)
    ensures Applications(Events(blocks)) == Popped(Events(blocks))
    ensures Canonizations(Events(blocks)) == |Applications(Events(blocks))|
  {
    if blocks != [] {
      var init := blocks[..|blocks| - 1];
      EventsUnfold(blocks);
      var b := blocks[|blocks| - 1];
      FiredInPopOrder(init);
      BlockCollect(b);
      CollectConcat(Events(init), BlockEvents(b), PoppedOf);
      CollectConcat(Events(init), BlockEvents(b), AppliedOf);
      CollectConcat(Events(init), BlockEvents(b), CanonizeOf);
    }
  }

  /** The trace of a run over `phaseCount` phases that entered the first
      phases in order, stopping early only after a timeout: consecutive
      calls follow the driver's control flow, matches are fired exactly as
      popped and each firing is canonicalized once, every entered phase is
      completed exactly once, the root is canonicalized iff some match
      fired, and a timeout is the third call from the end. */
  lemma RunFacts(blocks: seq<PhaseBlock>, phaseCount: nat)
    requires WellFormedRun(blocks, phaseCount)
    ensures Chained(Events(blocks))
    ensures Applications(Events(blocks)) == Popped(Events(blocks))
    ensures Canonizations(Events(blocks)) == |Applications(Events(blocks))|
    ensures forall phase :: Completions(Events(blocks), phase) == if phase.ordinal < |blocks| then 1 else 0
    ensures AnyFired(blocks) <==> Canonize in Events(blocks)
    ensures forall i :: 0 <= i < |Events(blocks)| && IsTimeout(Events(blocks)[i]) ==>
              i == |Events(blocks)| - 3 && Events(blocks)[i + 1] == Canonize
              && Events(blocks)[i + 2] == PhaseCompleted(Phase(|blocks| - 1))
    ensures |blocks| < phaseCount ==> |Events(blocks)| >= 4 && IsTimeout(Events(blocks)[|Events(blocks)| - 3])
  {
    RunShape(blocks);
    FiredInPopOrder(blocks);
    AnyFiredCanonizes(blocks);
    forall phase
      ensures Completions(Events(blocks), phase) == if phase.ordinal < |blocks| then 1 else 0
    {
      PhaseCompletedOnce(blocks, phase);
    }
    forall i | 0 <= i < |Events(blocks)| && IsTimeout(Events(blocks)[i])
      ensures i == |Events(blocks)| - 3 && Events(blocks)[i + 1] == Canonize
              && Events(blocks)[i + 2] == PhaseCompleted(Phase(|blocks| - 1))
    {
      TimeoutEndsRun(blocks, i);
    }
    if |blocks| < phaseCount {
      IncompleteRunTimedOut(blocks, phaseCount);
    }
  }
}
