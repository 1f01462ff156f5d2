/** The three BAC severity bands every view colours the estimate with. */
module Severity {

  datatype Band = Safe | Caution | Danger

  /** Danger from 0.08 up, caution from 0.04 up to 0.08, safe below 0.04; lower bounds inclusive. */
  function BandOf(bac: real): (b: Band)
    ensures b == Danger <==> bac >= 0.08
    ensures b == Caution <==> 0.04 <= bac < 0.08
    ensures b == Safe <==> bac < 0.04
  {
    if bac >= 0.08 then Danger
    else if bac >= 0.04 then Caution
    else Safe
  }

  /** The Bootstrap text-colour class both the level helper and the page colouring use. */
  function TextClass(b: Band): string {
    match b
    case Safe => "text-success"
    case Caution => "text-warning"
    case Danger => "text-danger"
  }

  function Rank(b: Band): nat {
    match b
    case Safe => 0
    case Caution => 1
    case Danger => 2
  }

  /** A higher BAC is never shown in a milder band. */
  lemma BandMonotone(x: real, y: real)
    requires x <= y
    ensures Rank(BandOf(x)) <= Rank(BandOf(y))
  {
  }
}
