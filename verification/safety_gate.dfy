/** The proximity check that decides whether this cycle's move may be issued. */
module SafetyGate {

  /** Every proximity beam must see strictly farther than this, in millimetres. */
  const MinClearance: real := 30.0

  /**
    Scans the clearances in order and stops at the first one that is not
    strictly beyond the minimum. Like a generator fed to `all`, an empty
    list of clearances lets the move through.
  */
  function AllClear(clearances: seq<real>): (ok: bool)
    ensures ok <==> forall i | 0 <= i < |clearances| :: clearances[i] > MinClearance
    decreases |clearances|
  {
    if |clearances| == 0 then true
    else if !(clearances[0] > MinClearance) then false
    else AllClear(clearances[1..])
  }

  /** With no proximity reading at all, nothing blocks the move. */
  lemma EmptyGateAllows()
    ensures AllClear([])
  {
  }

  /** One beam at exactly the minimum clearance blocks the move. */
  lemma GateBlocksAtMinimum(clearances: seq<real>, i: nat)
    requires i < |clearances| && clearances[i] == MinClearance
    ensures !AllClear(clearances)
  {
  }
}
