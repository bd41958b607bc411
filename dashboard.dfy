/** The dashboard's risk colouring: three bands split at 40 and 70, used by
    the text colour, the card background and the progress bar. */
module Dashboard {
  datatype Band = Success | Warning | Destructive

  const WarningFrom: real := 40.0
  const DestructiveFrom: real := 70.0

  /** The band of a risk value, ordered from low to high. */
  function BandOf(risk: real): (b: Band)
    ensures b == Success <==> risk < WarningFrom
    ensures b == Warning <==> WarningFrom <= risk < DestructiveFrom
    ensures b == Destructive <==> risk >= DestructiveFrom
  {
    if risk < WarningFrom then Success else if risk < DestructiveFrom then Warning else Destructive
  }

  function Rank(b: Band): nat {
    match b
    case Success => 0
    case Warning => 1
    case Destructive => 2
  }

  /** `getRiskColor`: the text colour of the risk's band. */
  function RiskColor(risk: real): (c: string)
    ensures c == ColorOf(BandOf(risk))
  {
    if risk < 40.0 then "text-success"
    else if risk < 70.0 then "text-warning"
    else "text-destructive"
  }

  /** `getRiskBg`: the card background of the risk's band. */
  function RiskBg(risk: real): (c: string)
    ensures c == BgOf(BandOf(risk))
  {
    if risk < 40.0 then "bg-success/10"
    else if risk < 70.0 then "bg-warning/10"
    else "bg-destructive/10"
  }

  /** The Progress bar's class expression: the bar colour of the risk's band. */
  function ProgressClass(risk: real): (c: string)
    ensures c == ProgressOf(BandOf(risk))
  {
    if risk < 40.0 then "[&>div]:bg-success"
    else if risk < 70.0 then "[&>div]:bg-warning"
    else "[&>div]:bg-destructive"
  }

  function ColorOf(b: Band): string {
    match b
    case Success => "text-success"
    case Warning => "text-warning"
    case Destructive => "text-destructive"
  }

  function BgOf(b: Band): string {
    match b
    case Success => "bg-success/10"
    case Warning => "bg-warning/10"
    case Destructive => "bg-destructive/10"
  }

  function ProgressOf(b: Band): string {
    match b
    case Success => "[&>div]:bg-success"
    case Warning => "[&>div]:bg-warning"
    case Destructive => "[&>div]:bg-destructive"
  }

  /** Two risk values get the same colour exactly when they get the same
      background and the same progress-bar class. */
  lemma SameClasses(a: real, b: real)
    ensures RiskColor(a) == RiskColor(b) <==> BandOf(a) == BandOf(b)
    ensures RiskBg(a) == RiskBg(b) <==> BandOf(a) == BandOf(b)
    ensures ProgressClass(a) == ProgressClass(b) <==> BandOf(a) == BandOf(b)
  {
  }

  /** A larger risk never falls into a lower band. */
  lemma BandMonotone(a: real, b: real)
    requires a <= b
    ensures Rank(BandOf(a)) <= Rank(BandOf(b))
  {
  }
}
