/**
 * Theme.kt: the padding scale, the four list-row shapes with
 * `AppShape.calculateListShape`, and the colour-scheme choice of
 * `TemplateTheme`. Sizes are whole dp.
 */
module Theme {
  import BuildVersion

  const Hairline: nat := 1
  const ExtraSmall: nat := 2
  const Small: nat := 8
  const Medium: nat := 16
  const Large: nat := 24
  const ExtraLarge: nat := 36

  const LargeRadius: nat := Large
  const SmallRadius: nat := Small

  datatype Corners = Corners(topStart: nat, topEnd: nat, bottomStart: nat, bottomEnd: nat)

  datatype ListShape = ListFull | ListTop | ListMiddle | ListBottom

  /** The corner radii of each shape: a row is rounded large on the sides that end the list. */
  function CornersOf(shape: ListShape): (c: Corners)
    ensures c.topStart == c.topEnd && c.bottomStart == c.bottomEnd
    ensures c.topStart == (if shape.ListFull? || shape.ListTop? then LargeRadius else SmallRadius)
    ensures c.bottomStart == (if shape.ListFull? || shape.ListBottom? then LargeRadius else SmallRadius)
  {
    match shape
    case ListFull => Corners(LargeRadius, LargeRadius, LargeRadius, LargeRadius)
    case ListTop => Corners(LargeRadius, LargeRadius, SmallRadius, SmallRadius)
    case ListMiddle => Corners(SmallRadius, SmallRadius, SmallRadius, SmallRadius)
    case ListBottom => Corners(SmallRadius, SmallRadius, LargeRadius, LargeRadius)
  }

  /**
   * The shape of row `index` of `size`. A one-row list is fully rounded
   * whatever the index; otherwise the rows of a list together form one card:
   * only the first row has large top corners and only the last one large
   * bottom corners.
   */
  function CalculateListShape(index: int, size: int): (shape: ListShape)
    ensures size == 1 ==> shape == ListFull
    ensures 0 <= index < size ==>
      && (CornersOf(shape).topStart == LargeRadius <==> index == 0)
      && (CornersOf(shape).bottomStart == LargeRadius <==> index == size - 1)
  {
    if size == 1 then ListFull
    else if index == 0 then ListTop
    else if index == size - 1 then ListBottom
    else ListMiddle
  }

  /**
   * The shapes of the rows of an n-row list, in order: a single row is fully
   * rounded; a longer list is a top row, middle rows and a bottom row.
   */
  function ListShapes(n: nat): (shapes: seq<ListShape>)
    ensures |shapes| == n
    ensures n == 1 ==> shapes == [ListFull]
    ensures n >= 2 ==> shapes[0] == ListTop && shapes[n - 1] == ListBottom
    ensures forall i :: 0 < i < n - 1 ==> shapes[i] == ListMiddle
  {
    seq(n, i => CalculateListShape(i, n))
  }

  lemma {:induction false} MiddleRunCount(m: nat)
    ensures var run := seq(m, _ => ListMiddle);
      && multiset(run)[ListMiddle] == m
      && multiset(run)[ListTop] == 0 && multiset(run)[ListBottom] == 0 && multiset(run)[ListFull] == 0
  {
    if m > 0 {
      MiddleRunCount(m - 1);
      assert seq(m, _ => ListMiddle) == seq(m - 1, _ => ListMiddle) + [ListMiddle];
    }
  }

  /** A list of n >= 2 rows has exactly one top row, one bottom row and n - 2 middle rows. */
  lemma ListShapeCounts(n: nat)
    requires n >= 2
    ensures var m := multiset(ListShapes(n));
      && m[ListTop] == 1 && m[ListBottom] == 1 && m[ListMiddle] == n - 2 && m[ListFull] == 0
  {
    var run := seq(n - 2, _ => ListMiddle);
    assert ListShapes(n) == [ListTop] + run + [ListBottom];
    MiddleRunCount(n - 2);
    assert multiset(ListShapes(n)) == multiset{ListTop} + multiset(run) + multiset{ListBottom};
  }

  datatype ColorScheme = DynamicDark | DynamicLight | FixedDark | ExpressiveLight {
    predicate IsDark() { DynamicDark? || FixedDark? }
    predicate IsDynamic() { DynamicDark? || DynamicLight? }
  }

  /**
   * `TemplateTheme`'s scheme: wallpaper-derived colours from Android 12 on,
   * the fixed dark or the expressive light scheme before; dark exactly when
   * `darkTheme` asks for it. The two facts determine the scheme.
   */
  function TemplateTheme(sdkInt: int, darkTheme: bool): (scheme: ColorScheme)
    ensures scheme.IsDark() <==> darkTheme
    ensures scheme.IsDynamic() <==> sdkInt >= BuildVersion.S
  {
    if sdkInt >= BuildVersion.S then
      if darkTheme then DynamicDark else DynamicLight
    else if darkTheme then FixedDark
    else ExpressiveLight
  }
}
