/**
  One iteration of the power plant's supervisory loop: read the light, raise
  the peak, format the frame and ask the direction finder for a move, issue
  it only when every proximity beam is clear, read the light again, and rest
  (resetting the peak) when the light has dropped below the peak.
*/
module PowerPlant {
  import opened Wrappers
  import opened SensorFrame
  import opened SafetyGate

  /** A position table with one entry per light sensor. */
  type SensorTable = t: seq<Position> | |t| == SensorCount witness SensorPositions(0.0)

  /**
    What the plant sets up before its loop starts: the sensor position table
    and the direction finder, whose result is passed to the cart unchanged.
  */
  datatype Plant<C> = Plant(positions: SensorTable, find: Frame -> C)

  /** The plant as the program builds it, with `a` standing for the square root of two over two. */
  function Startup<C>(a: real, find: Frame -> C): (p: Plant<C>)
    // The table the loop formats every frame with keeps the layout's antipodal pairs.
    ensures forall i | 0 <= i < SensorCount / 2 :: p.positions[i + SensorCount / 2] == p.positions[i].Negate()
    // The finder the loop calls on every pass is the one built once before it.
    ensures forall frame: Frame :: p.find(frame) == find(frame)
  {
    Plant(SensorPositions(a), find)
  }

  /** The only thing the loop carries from one iteration to the next. */
  datatype ControlState = ControlState(peak: real)

  /** What the collaborators deliver during one iteration, in the order it is read. */
  datatype CycleInput = CycleInput(first: seq<real>, clearances: seq<real>, second: seq<real>)

  /** Whether the cart was told to move this iteration, and with what. */
  datatype Move<C> = Issued(command: C) | Withheld

  /** The effect of one completed iteration. */
  datatype StepOutcome<C> = StepOutcome(next: ControlState, move: Move<C>, dwelt: bool)

  /** The peak after the first reading: raised to the reading's total when that is larger. */
  function RaisePeak(peak: real, first: seq<real>): (p: real)
    ensures p >= peak && p >= Total(first)
    ensures p == peak || p == Total(first)
  {
    if peak < Total(first) then Total(first) else peak
  }

  /**
    One iteration of the loop. It fails only when the first reading is longer
    than the position table; what a completed iteration does is stated by
    the lemmas below.
  */
  function Step<C>(plant: Plant<C>, state: ControlState, input: CycleInput): (r: Result<StepOutcome<C>, Fault>)
    ensures r.Success? <==> |input.first| <= SensorCount
    ensures r.Failure? ==> r.error == SensorIndexOutOfRange(SensorCount)
  {
    var raised := RaisePeak(state.peak, input.first);
    match FormatFrame(input.first, plant.positions)
    case Failure(e) => Failure(e)
    case Success(frame) =>
      var move := if AllClear(input.clearances) then Issued(plant.find(frame)) else Withheld;
      var dwelt := Total(input.second) < raised;
      Success(StepOutcome(ControlState(if dwelt then 0.0 else raised), move, dwelt))
  }

  /** Safety gate: a move is issued exactly when every clearance is strictly beyond the minimum. */
  lemma StepGate<C>(plant: Plant<C>, state: ControlState, input: CycleInput)
    requires |input.first| <= SensorCount
    ensures Step(plant, state, input).value.move.Issued? <==>
            forall i | 0 <= i < |input.clearances| :: input.clearances[i] > MinClearance
  {
  }

  /** The issued command is the finder's answer for this iteration's frame, unmodified. */
  lemma StepCommand<C>(plant: Plant<C>, state: ControlState, input: CycleInput)
    requires |input.first| <= SensorCount
    ensures var frame := FormatFrame(input.first, plant.positions);
            var move := Step(plant, state, input).value.move;
            frame.Success? && (move.Issued? ==> move.command == plant.find(frame.value))
  {
  }

  /**
    Rest: the cart rests exactly when the second total is below the raised
    peak; then the peak is reset, otherwise it keeps the raised value, and
    the light did not drop within the iteration.
  */
  lemma StepDwell<C>(plant: Plant<C>, state: ControlState, input: CycleInput)
    requires |input.first| <= SensorCount
    ensures var o := Step(plant, state, input).value;
            (o.dwelt <==> Total(input.second) < RaisePeak(state.peak, input.first)) &&
            (o.dwelt ==> o.next.peak == 0.0) &&
            (!o.dwelt ==> o.next.peak == RaisePeak(state.peak, input.first)) &&
            (!o.dwelt ==> Total(input.second) >= o.next.peak >= Total(input.first) && o.next.peak >= state.peak)
  {
  }

  /**
    The proximity reading and the direction finder play no part in the peak
    or the rest decision: those depend only on the prior peak and the two
    light readings.
  */
  lemma GateDoesNotTouchPeak<C>(p1: Plant<C>, p2: Plant<C>, state: ControlState,
                                first: seq<real>, c1: seq<real>, c2: seq<real>, second: seq<real>)
    ensures var r1 := Step(p1, state, CycleInput(first, c1, second));
            var r2 := Step(p2, state, CycleInput(first, c2, second));
            r1.Success? == r2.Success? &&
            (r1.Success? ==> r1.value.next == r2.value.next && r1.value.dwelt == r2.value.dwelt)
  {
  }
}
