/**
 * The level ranker: every bounce and the session's highest wick projected as
 * ascending lines, every rejection and the lowest wick as descending lines,
 * all read at 09:00 of the next day; the ascending lines ranked highest
 * first, the descending lines lowest first, and four key levels picked out.
 */
module Levels {
  import opened Wrappers
  import opened Calendar
  import opened Lines

  /** An observed extreme: its price and its time. */
  datatype Anchor = Anchor(price: real, time: int)

  /** Which kind of anchor a projected line was drawn from. */
  datatype LineKind = Bounce | HighestWick | Rejection | LowestWick

  /** A projected line and its value at the decision instant (the display label is not modelled). */
  datatype Level = Level(kind: LineKind, anchorPrice: real, anchorTime: int, valueAt9am: real)

  datatype NineAmLevels = NineAmLevels(
    ascending: seq<Level>,
    descending: seq<Level>,
    highestWickAscending: Level,
    highestBounceAscending: Option<Level>,
    lowestWickDescending: Level,
    lowestRejectionDescending: Option<Level>,
    nineAm: int)

  /** 09:00 on the calendar day of `nextDay`. */
  function NineAm(nextDay: int): (t: int)
    ensures t / MinutesPerDay == nextDay / MinutesPerDay
    ensures TimeOfDay(t) == DecisionTime
  {
    var t := (nextDay / MinutesPerDay) * MinutesPerDay + DecisionTime;
    DayAndTime(t, nextDay / MinutesPerDay, DecisionTime);
    t
  }

  /** Bounces and the highest wick give ascending lines; rejections and the lowest wick descending ones. */
  function DirectionOf(kind: LineKind): string
  {
    if kind == Bounce || kind == HighestWick then "ascending" else "descending"
  }

  /** The line drawn from `a` as a `kind` line, read at `nineAm`. */
  function Project(a: Anchor, kind: LineKind, nineAm: int, rate: real): Level
  {
    Level(kind, a.price, a.time, LineValue(rate, a.price, a.time, nineAm, DirectionOf(kind)))
  }

  /** Every anchor of a list projected as a `kind` line, in list order. */
  function ProjectAll(anchors: seq<Anchor>, kind: LineKind, nineAm: int, rate: real): seq<Level>
  {
    seq(|anchors|, i requires 0 <= i < |anchors| => Project(anchors[i], kind, nineAm, rate))
  }

  /** The ascending lines in the order they are built: the bounces, then the highest wick. */
  function AscendingEntries(bounces: seq<Anchor>, highestWick: Anchor, nineAm: int, rate: real): seq<Level>
  {
    ProjectAll(bounces, Bounce, nineAm, rate) + [Project(highestWick, HighestWick, nineAm, rate)]
  }

  /** The descending lines in the order they are built: the rejections, then the lowest wick. */
  function DescendingEntries(rejections: seq<Anchor>, lowestWick: Anchor, nineAm: int, rate: real): seq<Level>
  {
    ProjectAll(rejections, Rejection, nineAm, rate) + [Project(lowestWick, LowestWick, nineAm, rate)]
  }

  // ---------------------------------------------------------------------
  // Ranking: a stable sort on the 09:00 value
  // ---------------------------------------------------------------------

  /** `a` may come before `b`: higher or equal value when ranking highest first, lower or equal otherwise. */
  predicate Precedes(a: Level, b: Level, highestFirst: bool)
  {
    if highestFirst then a.valueAt9am >= b.valueAt9am else a.valueAt9am <= b.valueAt9am
  }

  predicate SortedBy(s: seq<Level>, highestFirst: bool)
  {
    forall i, j :: 0 <= i < j < |s| ==> Precedes(s[i], s[j], highestFirst)
  }

  /** The entries of `s` whose 09:00 value is `v`, in their order in `s`. */
  function WithValue(s: seq<Level>, v: real): seq<Level>
  {
    if s == [] then []
    else (if s[0].valueAt9am == v then [s[0]] else []) + WithValue(s[1..], v)
  }

  /** Places `x` after every entry of `s` that may precede it. */
  function Insert(x: Level, s: seq<Level>, highestFirst: bool): seq<Level>
  {
    if s == [] then [x]
    else if Precedes(s[0], x, highestFirst) then [s[0]] + Insert(x, s[1..], highestFirst)
    else [x] + s
  }

  /**
   * The list sort the ranker applies (keyed on the 09:00 value, stable, and
   * with reverse order for the ascending lines, which keeps stability).
   */
  function SortLevels(s: seq<Level>, highestFirst: bool): seq<Level>
  {
    if s == [] then []
    else Insert(s[|s| - 1], SortLevels(s[..|s| - 1], highestFirst), highestFirst)
  }

  lemma {:induction false} WithValueAppend(a: seq<Level>, b: seq<Level>, v: real)
    ensures WithValue(a + b, v) == WithValue(a, v) + WithValue(b, v)
  {
    if a == [] {
      assert a + b == b;
    } else {
      var head := if a[0].valueAt9am == v then [a[0]] else [];
      assert (a + b)[0] == a[0] && (a + b)[1..] == a[1..] + b;
      assert WithValue(a + b, v) == head + WithValue(a[1..] + b, v);
      WithValueAppend(a[1..], b, v);
      assert WithValue(a, v) == head + WithValue(a[1..], v);
    }
  }

  lemma WithValueCons(x: Level, t: seq<Level>, v: real)
    ensures WithValue([x] + t, v) == (if x.valueAt9am == v then [x] else []) + WithValue(t, v)
  {
    assert ([x] + t)[1..] == t;
  }

  lemma {:induction false} WithValueNone(s: seq<Level>, v: real)
    requires forall i :: 0 <= i < |s| ==> s[i].valueAt9am != v
    ensures WithValue(s, v) == []
  {
    if s != [] {
      WithValueNone(s[1..], v);
    }
  }

  lemma {:induction false} InsertPermutes(x: Level, s: seq<Level>, highestFirst: bool)
    ensures multiset(Insert(x, s, highestFirst)) == multiset(s) + multiset{x}
    ensures |Insert(x, s, highestFirst)| == |s| + 1
  {
    if s != [] && Precedes(s[0], x, highestFirst) {
      InsertPermutes(x, s[1..], highestFirst);
      assert s == [s[0]] + s[1..];
    }
  }

  lemma {:induction false} InsertSorted(x: Level, s: seq<Level>, highestFirst: bool)
    requires SortedBy(s, highestFirst)
    ensures SortedBy(Insert(x, s, highestFirst), highestFirst)
  {
    if s != [] {
      if Precedes(s[0], x, highestFirst) {
        var rest := Insert(x, s[1..], highestFirst);
        InsertSorted(x, s[1..], highestFirst);
        InsertPermutes(x, s[1..], highestFirst);
        forall k | 0 <= k < |rest|
          ensures Precedes(s[0], rest[k], highestFirst)
        {
          assert rest[k] in multiset(rest);
          if rest[k] != x {
            assert rest[k] in s[1..];
          }
        }
        assert Insert(x, s, highestFirst) == [s[0]] + rest;
      }
    }
  }

  lemma {:induction false} InsertStable(x: Level, s: seq<Level>, highestFirst: bool, v: real)
    requires SortedBy(s, highestFirst)
    ensures WithValue(Insert(x, s, highestFirst), v) == WithValue(s, v) + (if x.valueAt9am == v then [x] else [])
  {
    var here := if x.valueAt9am == v then [x] else [];
    if s == [] {
      assert Insert(x, s, highestFirst) == [x] + [];
      WithValueCons(x, [], v);
    } else if Precedes(s[0], x, highestFirst) {
      var head := if s[0].valueAt9am == v then [s[0]] else [];
      InsertStable(x, s[1..], highestFirst, v);
      WithValueCons(s[0], Insert(x, s[1..], highestFirst), v);
      assert WithValue(Insert(x, s, highestFirst), v) == head + (WithValue(s[1..], v) + here);
      WithValueCons(s[0], s[1..], v);
      assert s == [s[0]] + s[1..];
    } else {
      if x.valueAt9am == v {
        WithValueNone(s, v);
      }
      WithValueCons(x, s, v);
    }
  }

  /**
   * The sort returns its input ranked (highest first or lowest first), as a
   * permutation of it, and stably: the entries sharing any one value keep
   * their original relative order.
   */
  lemma {:induction false} SortLevelsCorrect(s: seq<Level>, highestFirst: bool)
    ensures |SortLevels(s, highestFirst)| == |s|
    ensures SortedBy(SortLevels(s, highestFirst), highestFirst)
    ensures multiset(SortLevels(s, highestFirst)) == multiset(s)
    ensures forall v :: WithValue(SortLevels(s, highestFirst), v) == WithValue(s, v)
  {
    if s != [] {
      var init, last := s[..|s| - 1], s[|s| - 1];
      assert s == init + [last];
      SortLevelsCorrect(init, highestFirst);
      var sortedInit := SortLevels(init, highestFirst);
      InsertPermutes(last, sortedInit, highestFirst);
      InsertSorted(last, sortedInit, highestFirst);
      forall v
        ensures WithValue(SortLevels(s, highestFirst), v) == WithValue(s, v)
      {
        InsertStable(last, sortedInit, highestFirst, v);
        WithValueAppend(init, [last], v);
        assert WithValue([last], v) == (if last.valueAt9am == v then [last] else []) by {
          assert [last][1..] == [];
        }
      }
    }
  }

  // ---------------------------------------------------------------------
  // Picking the key levels
  // ---------------------------------------------------------------------

  /** The first entry of kind `kind` in `s`, or None when there is none. */
  function FirstOfKind(s: seq<Level>, kind: LineKind): (r: Option<Level>)
    ensures r.None? <==> forall i :: 0 <= i < |s| ==> s[i].kind != kind
    ensures r.Some? ==> exists i :: 0 <= i < |s| && s[i] == r.value && r.value.kind == kind &&
                                    (forall j :: 0 <= j < i ==> s[j].kind != kind)
  {
    if s == [] then None
    else if s[0].kind == kind then Some(s[0])
    else FirstOfKind(s[1..], kind)
  }

  /** In a ranked list, the first entry of a kind ranks at or above every entry of that kind. */
  lemma FirstOfKindIsExtreme(s: seq<Level>, kind: LineKind, highestFirst: bool)
    requires SortedBy(s, highestFirst)
    requires FirstOfKind(s, kind).Some?
    ensures forall l :: l in s && l.kind == kind ==> Precedes(FirstOfKind(s, kind).value, l, highestFirst)
  {
    var first := FirstOfKind(s, kind).value;
    var i :| 0 <= i < |s| && s[i] == first && forall j :: 0 <= j < i ==> s[j].kind != kind;
    forall l | l in s && l.kind == kind
      ensures Precedes(first, l, highestFirst)
    {
      var j :| 0 <= j < |s| && s[j] == l;
    }
  }

  /** The entries of a sorted list are the entries of its input. */
  lemma SortLevelsMembers(s: seq<Level>, highestFirst: bool)
    ensures forall l :: l in SortLevels(s, highestFirst) <==> l in s
  {
    SortLevelsCorrect(s, highestFirst);
    forall l
      ensures l in SortLevels(s, highestFirst) <==> l in s
    {
      assert l in SortLevels(s, highestFirst) <==> l in multiset(SortLevels(s, highestFirst));
      assert l in s <==> l in multiset(s);
    }
  }

  /** The wick's line is the only entry of its kind, so it is the first one. */
  lemma WickKeyLevel(ranked: seq<Level>, projected: seq<Level>, w: Level, anchorKind: LineKind)
    requires forall l :: l in ranked <==> l in projected || l == w
    requires forall l :: l in projected ==> l.kind == anchorKind
    requires w.kind != anchorKind
    ensures FirstOfKind(ranked, w.kind) == Some(w)
  {
    assert w in ranked;
    var first := FirstOfKind(ranked, w.kind);
    assert first.value in ranked;
  }

  /**
   * The first anchor-kind entry of a ranked list is absent exactly when no
   * anchor was projected; otherwise it is one of the projected lines and
   * ranks at or above all of them.
   */
  lemma AnchorKeyLevel(ranked: seq<Level>, projected: seq<Level>, w: Level, anchorKind: LineKind, highestFirst: bool)
    requires SortedBy(ranked, highestFirst)
    requires forall l :: l in ranked <==> l in projected || l == w
    requires forall l :: l in projected ==> l.kind == anchorKind
    requires w.kind != anchorKind
    ensures FirstOfKind(ranked, anchorKind).None? <==> |projected| == 0
    ensures FirstOfKind(ranked, anchorKind).Some? ==>
      FirstOfKind(ranked, anchorKind).value in projected &&
      forall l :: l in projected ==> Precedes(FirstOfKind(ranked, anchorKind).value, l, highestFirst)
  {
    var first := FirstOfKind(ranked, anchorKind);
    if |projected| > 0 {
      assert projected[0] in ranked;
    }
    if first.Some? {
      assert first.value in ranked;
      FirstOfKindIsExtreme(ranked, anchorKind, highestFirst);
    }
  }

  lemma ProjectAllKind(anchors: seq<Anchor>, kind: LineKind, nineAm: int, rate: real)
    ensures forall l :: l in ProjectAll(anchors, kind, nineAm, rate) ==> l.kind == kind
  {
  }

  /**
   * `key` is the key level of the `kind` lines drawn from `anchors`: absent
   * exactly when there are no anchors, and otherwise the line of one of them
   * that ranks at or ahead of the line of every one of them.
   */
  predicate IsKeyLevel(key: Option<Level>, anchors: seq<Anchor>, kind: LineKind, nineAm: int, rate: real, highestFirst: bool)
  {
    && (key.None? <==> |anchors| == 0)
    && (key.Some? ==>
          (exists i :: 0 <= i < |anchors| && key.value == Project(anchors[i], kind, nineAm, rate))
          && forall i :: 0 <= i < |anchors| ==> Precedes(key.value, Project(anchors[i], kind, nineAm, rate), highestFirst))
  }

  /**
   * One side of the ranking: in the sorted list the first wick-kind entry is
   * the wick's own line; the first anchor-kind entry is absent exactly when
   * there are no anchors, and otherwise is the line of one of the anchors
   * and ranks at or above the line of every anchor.
   */
  lemma SideKeyLevels(anchors: seq<Anchor>, wick: Anchor, anchorKind: LineKind, wickKind: LineKind,
                      nineAm: int, rate: real, highestFirst: bool)
    requires anchorKind != wickKind
    ensures var ranked := SortLevels(ProjectAll(anchors, anchorKind, nineAm, rate) + [Project(wick, wickKind, nineAm, rate)], highestFirst);
      && FirstOfKind(ranked, wickKind) == Some(Project(wick, wickKind, nineAm, rate))
      && IsKeyLevel(FirstOfKind(ranked, anchorKind), anchors, anchorKind, nineAm, rate, highestFirst)
  {
    var projected := ProjectAll(anchors, anchorKind, nineAm, rate);
    var w := Project(wick, wickKind, nineAm, rate);
    var ranked := SortLevels(projected + [w], highestFirst);
    SortLevelsCorrect(projected + [w], highestFirst);
    SortLevelsMembers(projected + [w], highestFirst);
    ProjectAllKind(anchors, anchorKind, nineAm, rate);
    WickKeyLevel(ranked, projected, w, anchorKind);
    AnchorKeyLevel(ranked, projected, w, anchorKind, highestFirst);
    var first := FirstOfKind(ranked, anchorKind);
    if first.Some? {
      var k :| 0 <= k < |projected| && projected[k] == first.value;
      forall i | 0 <= i < |anchors|
        ensures Precedes(first.value, Project(anchors[i], anchorKind, nineAm, rate), highestFirst)
      {
        assert projected[i] in projected;
      }
    }
  }

  /** The projection loop over one list of anchors. */
  method ProjectAnchors(anchors: seq<Anchor>, kind: LineKind, nineAm: int, rate: real) returns (lines: seq<Level>)
    ensures lines == ProjectAll(anchors, kind, nineAm, rate)
  {
    lines := [];
    for i := 0 to |anchors|
      invariant lines == ProjectAll(anchors[..i], kind, nineAm, rate)
    {
      assert anchors[..i + 1] == anchors[..i] + [anchors[i]];
      lines := lines + [Project(anchors[i], kind, nineAm, rate)];
    }
    assert anchors[..|anchors|] == anchors;
  }

  /**
   * One side of the ranker: the anchors' lines and the wick's line are
   * built, ranked, and searched for the two key levels, the wick's with the
   * top of the ranking as its fallback.
   */
  method RankSide(anchors: seq<Anchor>, wick: Anchor, anchorKind: LineKind, wickKind: LineKind,
                  nineAm: int, rate: real, highestFirst: bool)
    returns (ranked: seq<Level>, wickLevel: Level, anchorLevel: Option<Level>)
    requires anchorKind != wickKind
    ensures ranked == SortLevels(ProjectAll(anchors, anchorKind, nineAm, rate) + [Project(wick, wickKind, nineAm, rate)], highestFirst)
    ensures wickLevel == Project(wick, wickKind, nineAm, rate)
    ensures anchorLevel == FirstOfKind(ranked, anchorKind)
    ensures IsKeyLevel(anchorLevel, anchors, anchorKind, nineAm, rate, highestFirst)
  {
    var built := ProjectAnchors(anchors, anchorKind, nineAm, rate);
    built := built + [Project(wick, wickKind, nineAm, rate)];
    SortLevelsCorrect(built, highestFirst);
    ranked := SortLevels(built, highestFirst);

    // The fallback argument is evaluated before the search, as in the source.
    var top := ranked[0];
    wickLevel := FirstOfKind(ranked, wickKind).GetOr(top);
    anchorLevel := FirstOfKind(ranked, anchorKind);
    SideKeyLevels(anchors, wick, anchorKind, wickKind, nineAm, rate, highestFirst);
  }

  /**
   * The ranker of the dashboard: both sides built, ranked and searched, the
   * ascending lines highest first and the descending lines lowest first.
   */
  method CalculateNineAmLevels(bounces: seq<Anchor>, rejections: seq<Anchor>,
                               highestWick: Anchor, lowestWick: Anchor,
                               nextDay: int, rate: real) returns (r: NineAmLevels)
    ensures r.nineAm == NineAm(nextDay)
    ensures r.ascending == SortLevels(AscendingEntries(bounces, highestWick, r.nineAm, rate), true)
    ensures r.descending == SortLevels(DescendingEntries(rejections, lowestWick, r.nineAm, rate), false)
    // ranked, permutations of what was built, and stable on ties
    ensures |r.ascending| == |bounces| + 1 && SortedBy(r.ascending, true)
    ensures multiset(r.ascending) == multiset(AscendingEntries(bounces, highestWick, r.nineAm, rate))
    ensures forall v :: WithValue(r.ascending, v) == WithValue(AscendingEntries(bounces, highestWick, r.nineAm, rate), v)
    ensures |r.descending| == |rejections| + 1 && SortedBy(r.descending, false)
    ensures multiset(r.descending) == multiset(DescendingEntries(rejections, lowestWick, r.nineAm, rate))
    ensures forall v :: WithValue(r.descending, v) == WithValue(DescendingEntries(rejections, lowestWick, r.nineAm, rate), v)
    // the four key levels: the wicks' own lines, the highest bounce and the lowest rejection
    ensures r.highestWickAscending == Project(highestWick, HighestWick, r.nineAm, rate)
    ensures r.lowestWickDescending == Project(lowestWick, LowestWick, r.nineAm, rate)
    // a tie goes to the line ranked first, which the stable ranking keeps in build order
    ensures r.highestBounceAscending == FirstOfKind(r.ascending, Bounce)
    ensures r.lowestRejectionDescending == FirstOfKind(r.descending, Rejection)
    ensures IsKeyLevel(r.highestBounceAscending, bounces, Bounce, r.nineAm, rate, true)
    ensures IsKeyLevel(r.lowestRejectionDescending, rejections, Rejection, r.nineAm, rate, false)
  {
    var nineAm := NineAm(nextDay);
    var ascending, highestWickAsc, highestBounceAsc := RankSide(bounces, highestWick, Bounce, HighestWick, nineAm, rate, true);
    var descending, lowestWickDesc, lowestRejectionDesc := RankSide(rejections, lowestWick, Rejection, LowestWick, nineAm, rate, false);
    SortLevelsCorrect(AscendingEntries(bounces, highestWick, nineAm, rate), true);
    SortLevelsCorrect(DescendingEntries(rejections, lowestWick, nineAm, rate), false);
    r := NineAmLevels(ascending, descending, highestWickAsc, highestBounceAsc,
                      lowestWickDesc, lowestRejectionDesc, nineAm);
  }
}
