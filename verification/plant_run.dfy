/**
  A finite stretch of the power plant's endless loop: iterations chained so
  that each one starts from the state the previous one left. A fault ends the
  run, since nothing in the loop catches it.
*/
module PlantRun {
  import opened Wrappers
  import opened SensorFrame
  import opened SafetyGate
  import opened PowerPlant

  /** The iterations that completed, and the fault that stopped the loop, if any. */
  datatype Trace<C> = Trace(outcomes: seq<StepOutcome<C>>, halted: Option<Fault>)

  /** The loop run over `inputs` from `start`. */
  function Run<C>(plant: Plant<C>, start: ControlState, inputs: seq<CycleInput>): (r: Trace<C>)
    ensures |r.outcomes| <= |inputs|
    ensures r.halted.None? <==> |r.outcomes| == |inputs|
    ensures r.halted.Some? ==>
              r.halted.value == SensorIndexOutOfRange(SensorCount) && |inputs[|r.outcomes|].first| > SensorCount
    // The run halts at the first reading that is too long: every recorded iteration had one that fit.
    ensures forall m | 0 <= m < |r.outcomes| :: |inputs[m].first| <= SensorCount
  {
    RunFrom(plant, start, inputs, 0)
  }

  /** The loop from iteration `i` on, entered with `state`. */
  function RunFrom<C>(plant: Plant<C>, state: ControlState, inputs: seq<CycleInput>, i: nat): (r: Trace<C>)
    requires i <= |inputs|
    ensures |r.outcomes| <= |inputs| - i
    ensures r.halted.None? <==> |r.outcomes| == |inputs| - i
    ensures r.halted.Some? ==>
              r.halted.value == SensorIndexOutOfRange(SensorCount) && |inputs[i + |r.outcomes|].first| > SensorCount
    ensures forall m | i <= m < i + |r.outcomes| :: |inputs[m].first| <= SensorCount
    decreases |inputs| - i
  {
    if i == |inputs| then Trace([], None)
    else
      match Step(plant, state, inputs[i])
      case Failure(e) => Trace([], Some(e))
      case Success(o) =>
        var rest := RunFrom(plant, o.next, inputs, i + 1);
        Trace([o] + rest.outcomes, rest.halted)
  }

  /** Every first reading up to and including iteration `k` fits the position table, so the run gets that far. */
  predicate FitsThrough(inputs: seq<CycleInput>, k: nat) {
    k < |inputs| && forall m | 0 <= m <= k :: |inputs[m].first| <= SensorCount
  }

  /** The state iteration `k` of a trace starts from. */
  function StateBefore<C>(start: ControlState, outcomes: seq<StepOutcome<C>>, k: nat): (s: ControlState)
    requires k <= |outcomes|
  {
    if k == 0 then start else outcomes[k - 1].next
  }

  /** Every recorded outcome is what one iteration produces from the state the previous one left. */
  lemma RunFollowsStep<C>(plant: Plant<C>, start: ControlState, inputs: seq<CycleInput>, k: nat)
    requires FitsThrough(inputs, k)
    ensures var r := Run(plant, start, inputs);
            Step(plant, StateBefore(start, r.outcomes, k), inputs[k]) == Success(r.outcomes[k])
  {
    RunFromFollowsStep(plant, start, inputs, 0, k);
    var r := RunFrom(plant, start, inputs, 0);
    assert Run(plant, start, inputs) == r;
    assert Step(plant, StateBefore(start, r.outcomes, k), inputs[k]) == Success(r.outcomes[k]);
  }

  /** The same chaining for the loop entered at iteration `i`: its `k`-th outcome is the step on input `i + k`. */
  lemma {:induction false} RunFromFollowsStep<C>(plant: Plant<C>, state: ControlState, inputs: seq<CycleInput>, i: nat, k: nat)
    requires i + k < |inputs|
    requires forall m | i <= m <= i + k :: |inputs[m].first| <= SensorCount
    ensures var r := RunFrom(plant, state, inputs, i);
            k < |r.outcomes| &&
            Step(plant, StateBefore(state, r.outcomes, k), inputs[i + k]) == Success(r.outcomes[k])
    decreases k
  {
    assert |inputs[i].first| <= SensorCount;
    var s := Step(plant, state, inputs[i]);
    var o := s.value;
    var rest := RunFrom(plant, o.next, inputs, i + 1);
    var r := RunFrom(plant, state, inputs, i);
    assert r.outcomes == [o] + rest.outcomes;
    if k > 0 {
      RunFromFollowsStep(plant, o.next, inputs, i + 1, k - 1);
      assert r.outcomes[k] == rest.outcomes[k - 1];
      assert StateBefore(state, r.outcomes, k) == StateBefore(o.next, rest.outcomes, k - 1);
    }
  }

  /** A move is issued in an iteration exactly when that iteration's clearances all pass the gate. */
  lemma MovesFollowGate<C>(plant: Plant<C>, start: ControlState, inputs: seq<CycleInput>, k: nat)
    requires FitsThrough(inputs, k)
    ensures Run(plant, start, inputs).outcomes[k].move.Issued? <==>
            forall i | 0 <= i < |inputs[k].clearances| :: inputs[k].clearances[i] > MinClearance
  {
    RunFollowsStep(plant, start, inputs, k);
  }

  /** Starting from a peak that is not negative, the peak never becomes negative. */
  lemma {:induction false} PeakNeverNegative<C>(plant: Plant<C>, start: ControlState, inputs: seq<CycleInput>, k: nat)
    requires start.peak >= 0.0
    requires FitsThrough(inputs, k)
    ensures Run(plant, start, inputs).outcomes[k].next.peak >= 0.0
    decreases k
  {
    var r := Run(plant, start, inputs);
    RunFollowsStep(plant, start, inputs, k);
    if k > 0 {
      PeakNeverNegative(plant, start, inputs, k - 1);
    }
    assert StateBefore(start, r.outcomes, k).peak >= 0.0;
  }

  /**
    Since the last rest, the peak is at least every first-reading total seen:
    if no iteration from `j` to `k` rested, the peak after `k`, and so the
    second total of `k`, dominates the first total of `j`.
  */
  lemma {:induction false} PeakDominatesSinceRest<C>(plant: Plant<C>, start: ControlState, inputs: seq<CycleInput>, j: nat, k: nat)
    requires j <= k && FitsThrough(inputs, k)
    ensures (forall m | j <= m <= k :: !Run(plant, start, inputs).outcomes[m].dwelt) ==>
              Run(plant, start, inputs).outcomes[k].next.peak >= Total(inputs[j].first) &&
              Total(inputs[k].second) >= Total(inputs[j].first)
    decreases k - j
  {
    var r := Run(plant, start, inputs);
    RunFollowsStep(plant, start, inputs, k);
    if j < k {
      PeakDominatesSinceRest(plant, start, inputs, j, k - 1);
      assert StateBefore(start, r.outcomes, k) == r.outcomes[k - 1].next;
    }
  }

  /**
    The peak is only ever a value the loop actually observed: zero after a
    rest, the starting peak, or the total of some first reading. The second
    reading is never written into it.
  */
  lemma {:induction false} PeakIsObserved<C>(plant: Plant<C>, start: ControlState, inputs: seq<CycleInput>, k: nat)
    requires FitsThrough(inputs, k)
    ensures var p := Run(plant, start, inputs).outcomes[k].next.peak;
            p == 0.0 || p == start.peak || exists m | 0 <= m <= k :: p == Total(inputs[m].first)
    decreases k
  {
    var r := Run(plant, start, inputs);
    RunFollowsStep(plant, start, inputs, k);
    var p := r.outcomes[k].next.peak;
    if p != 0.0 && p != Total(inputs[k].first) {
      assert p == StateBefore(start, r.outcomes, k).peak;
      if k > 0 {
        PeakIsObserved(plant, start, inputs, k - 1);
        var q := r.outcomes[k - 1].next.peak;
        assert p == q;
        if q != 0.0 && q != start.peak {
          var m :| 0 <= m <= k - 1 && q == Total(inputs[m].first);
          assert 0 <= m <= k && p == Total(inputs[m].first);
        }
      }
    }
  }
}
