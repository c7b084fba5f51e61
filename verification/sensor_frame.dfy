/**
  The light-sensor side of one control cycle: the fixed table of sensor
  positions, the frame that pairs each raw amplitude with its sensor's
  position, and the total light of a reading.
*/
module SensorFrame {
  import opened Wrappers

  /** The number of light sensors wired to the A/D converter. */
  const SensorCount: nat := 8

  /** Radius of the circle the sensors sit on, in the table's own units. */
  const SensorRadius: real := 30.0

  /** A point in the cart's frame of reference. */
  datatype Position = Position(x: real, y: real) {
    /** The point reflected through the cart's centre. */
    function Negate(): (p: Position) {
      Position(-x, -y)
    }

    /** Squared distance from the cart's centre. */
    function NormSquared(): (n: real) {
      x * x + y * y
    }
  }

  /** One entry of a formatted frame: a raw amplitude and where its sensor sits. */
  datatype LightSample = LightSample(amp: real, location: Position)

  /** What the direction finder consumes. */
  type Frame = seq<LightSample>

  /** Why a control cycle could not complete. */
  datatype Fault =
    /** A reading had more samples than the position table has entries;
        `index` is the first position that was looked up and missing. */
    | SensorIndexOutOfRange(index: nat)

  /**
    The sensor position table, in wiring order, one entry every 45 degrees
    around the circle. `a` stands for the square root of two
    over two; the table's shape does not depend on its value.
  */
  function SensorPositions(a: real): (table: seq<Position>)
    ensures |table| == SensorCount
    // Antipodal pairs: the sensor four places on faces the opposite way.
    ensures forall i | 0 <= i < SensorCount / 2 :: table[i + SensorCount / 2] == table[i].Negate()
    // The four axis-aligned sensors sit exactly on the circle whatever `a` is.
    ensures forall i | 0 <= i < SensorCount && i % 2 == 0 :: table[i].NormSquared() == SensorRadius * SensorRadius
  {
    var d := SensorRadius * a;
    [ Position(0.0, SensorRadius),
      Position(d, d),
      Position(SensorRadius, 0.0),
      Position(d, -d),
      Position(0.0, -SensorRadius),
      Position(-d, -d),
      Position(-SensorRadius, 0.0),
      Position(-d, d) ]
  }

  /** When `a` really is the square root of two over two, every sensor is on the circle. */
  lemma SensorsOnCircle(a: real)
    requires 2.0 * a * a == 1.0
    ensures forall i | 0 <= i < SensorCount :: SensorPositions(a)[i].NormSquared() == SensorRadius * SensorRadius
  {
  }

  /**
    Pairs each amplitude with the position of the same index, appending one
    entry at a time in the order the samples arrive. A reading longer than
    the table runs off its end, which stops the cycle.
  */
  function FormatFrame(samples: seq<real>, table: seq<Position>): (r: Result<Frame, Fault>)
    ensures r.Success? <==> |samples| <= |table|
    ensures r.Failure? ==> r.error == SensorIndexOutOfRange(|table|)
    ensures r.Success? ==> |r.value| == |samples|
    ensures r.Success? ==> forall i | 0 <= i < |samples| ::
              r.value[i].amp == samples[i] && r.value[i].location == table[i]
    decreases |samples|
  {
    if |samples| == 0 then Success([])
    else
      var last := |samples| - 1;
      match FormatFrame(samples[..last], table)
      case Failure(e) => Failure(e)
      case Success(prefix) =>
        if last < |table| then Success(prefix + [LightSample(samples[last], table[last])])
        else Failure(SensorIndexOutOfRange(last))
  }

  /** The total light of a reading, summed from the first sample to the last. */
  function Total(samples: seq<real>): (t: real)
    ensures |samples| == 0 ==> t == 0.0
    ensures (forall i | 0 <= i < |samples| :: samples[i] >= 0.0) ==> t >= 0.0
    decreases |samples|
  {
    if |samples| == 0 then 0.0
    else Total(samples[..|samples| - 1]) + samples[|samples| - 1]
  }

  /** With no negative sample, the total is at least every single sample. */
  lemma {:induction false} TotalDominatesSamples(samples: seq<real>, i: nat)
    requires forall j | 0 <= j < |samples| :: samples[j] >= 0.0
    requires i < |samples|
    ensures Total(samples) >= samples[i]
    decreases |samples|
  {
    var last := |samples| - 1;
    var prefix := samples[..last];
    assert Total(prefix) >= 0.0 by {
      assert forall j | 0 <= j < |prefix| :: prefix[j] == samples[j];
    }
    if i < last {
      assert prefix[i] == samples[i];
      TotalDominatesSamples(prefix, i);
    }
  }
}
