/** src/components/analysis/ScoreMeter.tsx: the colour of the score ring and its label. The
    ring geometry (radius, circumference, dash offset) is floating point and not modelled;
    scores are integers. */
module ScoreMeter {
  import JsString

  /** The three colours of the score ring, from safest to most suspicious. */
  datatype Tone = Emerald | Amber | Rose

  function Rank(t: Tone): nat {
    match t
    case Emerald => 0
    case Amber => 1
    case Rose => 2
  }

  /** `let colorClass` refined by the two thresholds. */
  function ColorClass(score: int): (t: Tone)
    ensures t == Emerald <==> score <= 30
    ensures t == Amber <==> 30 < score <= 70
    ensures t == Rose <==> score > 70
  {
    var start := Emerald;
    var afterFirst := if score > 30 then Amber else start;
    if score > 70 then Rose else afterFirst
  }

  /** A higher score never gets a safer colour. */
  lemma ColorMonotone(a: int, b: int)
    requires a <= b
    ensures Rank(ColorClass(a)) <= Rank(ColorClass(b))
  {
  }

  /** `${score}%`. */
  function Label(score: int): (s: string)
    ensures |s| >= 2 && s[|s| - 1] == '%'
    ensures s[..|s| - 1] == JsString.IntToString(score)
  {
    JsString.IntToString(score) + "%"
  }

  /** For a non-negative score the label reads back as the score. */
  lemma LabelReadsBack(score: nat)
    ensures forall i | 0 <= i < |Label(score)| - 1 :: JsString.IsDigit(Label(score)[i])
    ensures JsString.DecimalValue(Label(score)[..|Label(score)| - 1]) == score
  {
    JsString.DecimalRoundTrip(score);
  }
}
