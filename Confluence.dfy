/**
 * The five-factor confluence score: one point for each aligned factor, half
 * a point for a data release that was absorbed, and a position size chosen
 * by score thresholds.
 */
module Confluence {

  /** The leading mark of a factor line: a check, a lightning bolt or a cross. */
  datatype Mark = Check | Bolt | Cross

  /** The five factors, in the order the dashboard lists them. */
  datatype Topic = AsianSession | LondonSweep | DataReaction | OpeningDrive | LineCluster

  /** One line of the factor list: the factor it is about and its mark. */
  datatype Factor = Factor(topic: Topic, mark: Mark)

  /** The position-size tier of a score, with the recommendation, size and colour it shows. */
  datatype Sizing = FullSize | StandardSize | HalfSize | NoTrade
  {
    function Recommendation(): string
    {
      match this
      case FullSize => "FULL SIZE — High confidence setup"
      case StandardSize => "STANDARD SIZE — Solid setup"
      case HalfSize => "HALF SIZE — Mixed context"
      case NoTrade => "NO TRADE — Insufficient confluence"
    }

    function SizePct(): int
    {
      match this
      case FullSize => 100
      case StandardSize => 75
      case HalfSize => 50
      case NoTrade => 0
    }

    function Color(): string
    {
      match this
      case FullSize => "high"
      case StandardSize => "high"
      case HalfSize => "med"
      case NoTrade => "low"
    }
  }

  /** The result of the scoring routine: the score, the factor lines and the size tier. */
  datatype ConfluenceScore = ConfluenceScore(score: real, factors: seq<Factor>, sizing: Sizing)

  /** The wording of a factor line, fixed by its factor and its mark. */
  function Wording(f: Factor): string
  {
    match (f.topic, f.mark)
    case (AsianSession, Check) => "Asian Session Aligned"
    case (AsianSession, _) => "Asian Session Misaligned"
    case (LondonSweep, Check) => "London Sweep Confirmed"
    case (LondonSweep, _) => "No London Sweep"
    case (DataReaction, Check) => "Data Reaction Aligned"
    case (DataReaction, Bolt) => "Data Absorbed (Half Point)"
    case (DataReaction, Cross) => "Data Reaction Against"
    case (OpeningDrive, Check) => "Opening Drive Aligned"
    case (OpeningDrive, _) => "Opening Drive Against"
    case (LineCluster, Check) => "Line Cluster Confluence"
    case (LineCluster, _) => "No Line Cluster"
  }

  /** The factor line as displayed: its mark, a space, its wording. */
  function Display(f: Factor): string
  {
    (match f.mark case Check => "✅" case Bolt => "⚡" case Cross => "❌") + " " + Wording(f)
  }

  /** What a factor line is worth: a check one point, a bolt half a point, a cross nothing. */
  function MarkPoints(f: Factor): (points: real)
    ensures points == 0.0 || points == 0.5 || points == 1.0
  {
    match f.mark
    case Check => 1.0
    case Bolt => 0.5
    case Cross => 0.0
  }

  /** The score a list of factor lines shows: the sum of their marks. */
  function Tally(factors: seq<Factor>): real
  {
    if factors == [] then 0.0 else Tally(factors[..|factors| - 1]) + MarkPoints(factors[|factors| - 1])
  }

  /** The score is a whole number of half points. */
  predicate IsHalfStep(score: real)
  {
    (2.0 * score).Floor as real == 2.0 * score
  }

  /** The size tier of a score: 100% from 4, 75% from 3, 50% from 2, no trade below. */
  function SizingFor(score: real): (s: Sizing)
    ensures s.SizePct() == 100 <==> score >= 4.0
    ensures s.SizePct() == 75 <==> 3.0 <= score < 4.0
    ensures s.SizePct() == 50 <==> 2.0 <= score < 3.0
    ensures s.SizePct() == 0 <==> score < 2.0
  {
    if score >= 4.0 then FullSize
    else if score >= 3.0 then StandardSize
    else if score >= 2.0 then HalfSize
    else NoTrade
  }

  /** A higher score never gets a smaller position. */
  lemma SizingMonotone(score1: real, score2: real)
    requires score1 <= score2
    ensures SizingFor(score1).SizePct() <= SizingFor(score2).SizePct()
  {
  }

  /** A yes/no factor line: a check when the factor is aligned, a cross otherwise. */
  function YesNoFactor(topic: Topic, aligned: bool): Factor
  {
    Factor(topic, if aligned then Check else Cross)
  }

  /** The points a yes/no factor adds to the score. */
  function YesNoPoints(aligned: bool): real
  {
    if aligned then 1.0 else 0.0
  }

  /** How the market took the data release: with the trade, absorbed it, or against the trade. */
  datatype Reaction = Aligned | Absorbed | Against

  /** The reaction a data-reaction string names: "aligned", "absorbed", and anything else is against. */
  function ReactionOf(dataReaction: string): (r: Reaction)
    ensures r == Aligned <==> dataReaction == "aligned"
    ensures r == Absorbed <==> dataReaction == "absorbed"
  {
    if dataReaction == "aligned" then Aligned
    else if dataReaction == "absorbed" then Absorbed
    else Against
  }

  /** The data-release factor line. */
  function DataFactor(reaction: Reaction): Factor
  {
    match reaction
    case Aligned => Factor(DataReaction, Check)
    case Absorbed => Factor(DataReaction, Bolt)
    case Against => Factor(DataReaction, Cross)
  }

  /** The points the data-release factor adds to the score: 1, a half, or nothing. */
  function DataPoints(reaction: Reaction): real
  {
    match reaction
    case Aligned => 1.0
    case Absorbed => 0.5
    case Against => 0.0
  }

  /** The five factor lines, in the order the dashboard lists them. */
  function FactorLines(asianAligns: bool, londonSweep: bool, dataReaction: Reaction,
                       openingDrive: bool, lineCluster: bool): seq<Factor>
  {
    [ YesNoFactor(AsianSession, asianAligns),
      YesNoFactor(LondonSweep, londonSweep),
      DataFactor(dataReaction),
      YesNoFactor(OpeningDrive, openingDrive),
      YesNoFactor(LineCluster, lineCluster) ]
  }

  /**
   * The confluence read of five factors: one factor line per factor, in a
   * fixed order, each adding its points to the score, and the size tier of
   * the total.
   */
  function ConfluenceRead(asianAligns: bool, londonSweep: bool, dataReaction: string,
                               openingDrive: bool, lineCluster: bool): (c: ConfluenceScore)
    ensures |c.factors| == 5
    ensures c.factors[0].mark == (if asianAligns then Check else Cross)
    ensures c.factors[1].mark == (if londonSweep then Check else Cross)
    ensures c.factors[2].mark == (match ReactionOf(dataReaction) case Aligned => Check case Absorbed => Bolt case Against => Cross)
    ensures c.factors[3].mark == (if openingDrive then Check else Cross)
    ensures c.factors[4].mark == (if lineCluster then Check else Cross)
    ensures 0.0 <= c.score <= 5.0
    ensures c.score == 5.0 <==> asianAligns && londonSweep && ReactionOf(dataReaction) == Aligned && openingDrive && lineCluster
    ensures c.score == 0.0 <==> !asianAligns && !londonSweep && ReactionOf(dataReaction) == Against && !openingDrive && !lineCluster
    ensures c.sizing == SizingFor(c.score)
  {
    var reaction := ReactionOf(dataReaction);
    var score := YesNoPoints(asianAligns) + YesNoPoints(londonSweep) + DataPoints(reaction)
                 + YesNoPoints(openingDrive) + YesNoPoints(lineCluster);
    var factors := FactorLines(asianAligns, londonSweep, reaction, openingDrive, lineCluster);
    ConfluenceScore(score, factors, SizingFor(score))
  }

  /**
   * The scoring routine of the dashboard, step by step: each factor in turn
   * adds its points to the running score and its line to the factor list.
   */
  method CalculateConfluence(asianAligns: bool, londonSweep: bool, dataReaction: string,
                             openingDrive: bool, lineCluster: bool) returns (c: ConfluenceScore)
    ensures c == ConfluenceRead(asianAligns, londonSweep, dataReaction, openingDrive, lineCluster)
  {
    ghost var lines := FactorLines(asianAligns, londonSweep, ReactionOf(dataReaction), openingDrive, lineCluster);
    var score := 0.0;
    var factors: seq<Factor> := [];

    if asianAligns {
      score := score + 1.0;
      factors := factors + [Factor(AsianSession, Check)];
    } else {
      factors := factors + [Factor(AsianSession, Cross)];
    }
    assert factors == [lines[0]] && score == YesNoPoints(asianAligns);

    if londonSweep {
      score := score + 1.0;
      factors := factors + [Factor(LondonSweep, Check)];
    } else {
      factors := factors + [Factor(LondonSweep, Cross)];
    }
    assert factors == [lines[0], lines[1]];

    if dataReaction == "aligned" {
      score := score + 1.0;
      factors := factors + [Factor(DataReaction, Check)];
    } else if dataReaction == "absorbed" {
      score := score + 0.5;
      factors := factors + [Factor(DataReaction, Bolt)];
    } else {
      factors := factors + [Factor(DataReaction, Cross)];
    }
    assert factors == [lines[0], lines[1], lines[2]];

    if openingDrive {
      score := score + 1.0;
      factors := factors + [Factor(OpeningDrive, Check)];
    } else {
      factors := factors + [Factor(OpeningDrive, Cross)];
    }
    assert factors == [lines[0], lines[1], lines[2], lines[3]];

    if lineCluster {
      score := score + 1.0;
      factors := factors + [Factor(LineCluster, Check)];
    } else {
      factors := factors + [Factor(LineCluster, Cross)];
    }
    assert factors == lines;

    c := ConfluenceScore(score, factors, SizingFor(score));
  }

  /**
   * Any list of factor lines tallies to a whole number of half points between
   * zero and the number of lines.
   */
  lemma {:induction false} TallyBounds(factors: seq<Factor>)
    ensures 0.0 <= Tally(factors) <= |factors| as real
    ensures IsHalfStep(Tally(factors))
  {
    if factors != [] {
      var init := factors[..|factors| - 1];
      TallyBounds(init);
      var m := MarkPoints(factors[|factors| - 1]);
      var h := (2.0 * Tally(init)).Floor;
      assert 2.0 * Tally(factors) == (h + (2.0 * m).Floor) as real;
    }
  }

  /** The five-line tally is the plain sum of the five marks. */
  lemma TallyOfFive(factors: seq<Factor>)
    requires |factors| == 5
    ensures Tally(factors) == MarkPoints(factors[0]) + MarkPoints(factors[1]) + MarkPoints(factors[2])
                            + MarkPoints(factors[3]) + MarkPoints(factors[4])
  {
    var f := factors;
    assert f[..1][..0] == [];
    assert Tally(f[..1]) == MarkPoints(f[0]);
    assert f[..2][..1] == f[..1];
    assert Tally(f[..2]) == Tally(f[..1]) + MarkPoints(f[1]);
    assert f[..3][..2] == f[..2];
    assert Tally(f[..3]) == Tally(f[..2]) + MarkPoints(f[2]);
    assert f[..4][..3] == f[..3];
    assert Tally(f[..4]) == Tally(f[..3]) + MarkPoints(f[3]);
    assert f[..5] == f;
  }

  /**
   * The score of a confluence read is the tally of the factor lines it
   * shows, so a whole number of half points.
   */
  lemma ScoreIsTally(asianAligns: bool, londonSweep: bool, dataReaction: string,
                     openingDrive: bool, lineCluster: bool)
    ensures var c := ConfluenceRead(asianAligns, londonSweep, dataReaction, openingDrive, lineCluster);
      c.score == Tally(c.factors) && IsHalfStep(c.score)
  {
    var c := ConfluenceRead(asianAligns, londonSweep, dataReaction, openingDrive, lineCluster);
    TallyOfFive(c.factors);
    TallyBounds(c.factors);
  }

  /**
   * Aligning more factors never shrinks the recommended position: with every
   * yes/no factor at least as aligned and a data reaction worth at least as
   * much, the size tier is at least as large.
   */
  lemma AlignmentNeverShrinksPosition(
    asian1: bool, london1: bool, data1: string, drive1: bool, cluster1: bool,
    asian2: bool, london2: bool, data2: string, drive2: bool, cluster2: bool)
    requires asian1 ==> asian2
    requires london1 ==> london2
    requires DataPoints(ReactionOf(data1)) <= DataPoints(ReactionOf(data2))
    requires drive1 ==> drive2
    requires cluster1 ==> cluster2
    ensures ConfluenceRead(asian1, london1, data1, drive1, cluster1).sizing.SizePct()
         <= ConfluenceRead(asian2, london2, data2, drive2, cluster2).sizing.SizePct()
  {
    var c1 := ConfluenceRead(asian1, london1, data1, drive1, cluster1);
    var c2 := ConfluenceRead(asian2, london2, data2, drive2, cluster2);
    SizingMonotone(c1.score, c2.score);
  }
}
