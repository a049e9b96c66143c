/** The score ring's colours (`ScoreDisplay`): green from 70, amber from 40, red below. */
module ScoreDisplay {

  datatype Band = Red | Amber | Green

  /** The band the three colour helpers agree on. */
  function BandOf(s: int): (b: Band)
    ensures b == Green <==> 70 <= s
    ensures b == Amber <==> 40 <= s < 70
    ensures b == Red <==> s < 40
  {
    if s >= 70 then Green else if s >= 40 then Amber else Red
  }

  function Rank(b: Band): nat
  {
    match b
    case Red => 0
    case Amber => 1
    case Green => 2
  }

  /** `getColor`: the class of the number in the middle. */
  function GetColor(s: int): (c: string)
    ensures c == "text-green-600" <==> 70 <= s
    ensures c == "text-amber-500" <==> 40 <= s < 70
    ensures c == "text-red-600" <==> s < 40
  {
    if s >= 70 then "text-green-600"
    else if s >= 40 then "text-amber-500"
    else "text-red-600"
  }

  /** `getTrackColor`: the faint ring behind the arc. */
  function GetTrackColor(s: int): (c: string)
    ensures c == "stroke-green-600/20" <==> 70 <= s
    ensures c == "stroke-amber-500/20" <==> 40 <= s < 70
    ensures c == "stroke-red-600/20" <==> s < 40
  {
    if s >= 70 then "stroke-green-600/20"
    else if s >= 40 then "stroke-amber-500/20"
    else "stroke-red-600/20"
  }

  /** `getStrokeColor`: the arc itself. */
  function GetStrokeColor(s: int): (c: string)
    ensures c == "stroke-green-600" <==> 70 <= s
    ensures c == "stroke-amber-500" <==> 40 <= s < 70
    ensures c == "stroke-red-600" <==> s < 40
  {
    if s >= 70 then "stroke-green-600"
    else if s >= 40 then "stroke-amber-500"
    else "stroke-red-600"
  }

  /** The hue a class name carries. */
  function ColorName(b: Band): string
  {
    match b
    case Red => "red-600"
    case Amber => "amber-500"
    case Green => "green-600"
  }

  /** The number, the track and the arc always share one hue, the one of the score's band. */
  lemma ColorsAgree(s: int)
    ensures GetColor(s) == "text-" + ColorName(BandOf(s))
    ensures GetStrokeColor(s) == "stroke-" + ColorName(BandOf(s))
    ensures GetTrackColor(s) == GetStrokeColor(s) + "/20"
  {
  }

  /** A higher score never shows a worse colour. */
  lemma BandIsMonotone(s: int, t: int)
    requires s <= t
    ensures Rank(BandOf(s)) <= Rank(BandOf(t))
  {
  }

  /** The thresholds belong to the upper band. */
  lemma Boundaries()
    ensures BandOf(70) == Green && BandOf(69) == Amber
    ensures BandOf(40) == Amber && BandOf(39) == Red
    ensures BandOf(100) == Green && BandOf(0) == Red
  {
  }
}
