/**
  How the analysis dialog presents scores and suggestion categories: the
  colour and the label a score gets, and the badge style of a category.
*/
module MentorView {
  import opened Wrappers

  /** The three text colours (`text-green-600`, `text-yellow-600`, `text-red-600`). */
  datatype Color = Green | Yellow | Red

  datatype Label = Excellent | Good | Fair | NeedsWork

  /** The badge styles of the UI kit. */
  datatype Variant = Destructive | Default | Secondary | Outline

  /** `getScoreColor` in the dialog. */
  function ScoreColor(score: int): (r: Color)
    ensures r == Green <==> score >= 80
    ensures r == Yellow <==> 60 <= score < 80
    ensures r == Red <==> score < 60
  {
    if score >= 80 then Green
    else if score >= 60 then Yellow
    else Red
  }

  /** The score card's own copy of `getScoreColor`. */
  function CardScoreColor(score: int): (r: Color)
    ensures r == Red <==> score < 60
  {
    if score >= 80 then Green
    else if score >= 60 then Yellow
    else Red
  }

  /** The two copies colour every score alike. */
  lemma ColorCopiesAgree(score: int)
    ensures CardScoreColor(score) == ScoreColor(score)
  {
  }

  /** `getScoreLabel`. */
  function ScoreLabel(score: int): (r: Label)
    ensures r == Excellent <==> score >= 80
    ensures r == Good <==> 60 <= score < 80
    ensures r == Fair <==> 40 <= score < 60
    ensures r == NeedsWork <==> score < 40
  {
    if score >= 80 then Excellent
    else if score >= 60 then Good
    else if score >= 40 then Fair
    else NeedsWork
  }

  /** Colour and label agree: green is "Excellent", yellow is "Good", and both lower labels are red. */
  lemma ColorMatchesLabel(score: int)
    ensures ScoreColor(score) == Green <==> ScoreLabel(score) == Excellent
    ensures ScoreColor(score) == Yellow <==> ScoreLabel(score) == Good
    ensures ScoreColor(score) == Red <==> ScoreLabel(score) in {Fair, NeedsWork}
  {
  }

  function LabelRank(l: Label): nat {
    match l
    case NeedsWork => 0
    case Fair => 1
    case Good => 2
    case Excellent => 3
  }

  /** A higher score never gets a worse label. */
  lemma LabelMonotone(a: int, b: int)
    requires a <= b
    ensures LabelRank(ScoreLabel(a)) <= LabelRank(ScoreLabel(b))
  {
  }

  /** `getCategoryBadgeVariant`: three known categories, everything else outlined. */
  function BadgeVariant(category: string): (r: Variant)
    ensures r == Destructive <==> category == "critical"
    ensures r == Default <==> category == "important"
    ensures r == Secondary <==> category == "recommended"
    ensures r == Outline <==> category !in {"critical", "important", "recommended"}
  {
    match category
    case "critical" => Destructive
    case "important" => Default
    case "recommended" => Secondary
    case _ => Outline
  }
}
