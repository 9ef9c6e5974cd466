/** Where the launcher window may sit: pure geometry over integer rectangles, negative coordinates included. */
module WindowPlacement {

  datatype Rect = Rect(x: int, y: int, width: int, height: int)

  const MIN_VISIBLE_WIDTH := 120
  const MIN_VISIBLE_HEIGHT := 32

  function Min(a: int, b: int): int { if a < b then a else b }
  function Max(a: int, b: int): int { if a > b then a else b }

  /** `Math.round(n / 2)`: halves round up, also below zero. */
  function RoundHalf(n: int): (r: int)
    ensures 2 * r - 1 <= n <= 2 * r
  {
    (n + 1) / 2
  }

  function OverlapWidth(rect: Rect, area: Rect): nat {
    Max(0, Min(rect.x + rect.width, area.x + area.width) - Max(rect.x, area.x))
  }

  function OverlapHeight(rect: Rect, area: Rect): nat {
    Max(0, Min(rect.y + rect.height, area.y + area.height) - Max(rect.y, area.y))
  }

  function Score(rect: Rect, area: Rect): nat {
    OverlapWidth(rect, area) * OverlapHeight(rect, area)
  }

  predicate ReachableOn(rect: Rect, area: Rect) {
    OverlapWidth(rect, area) >= MIN_VISIBLE_WIDTH && OverlapHeight(rect, area) >= MIN_VISIBLE_HEIGHT
  }

  predicate IsReachable(rect: Rect, areas: seq<Rect>) {
    exists i :: 0 <= i < |areas| && ReachableOn(rect, areas[i])
  }

  /** The columns and rows that a rectangle shares with an area are as many as the overlap says, from the later of the two starts on. */
  lemma OverlapIsShared(rect: Rect, area: Rect, p: int)
    ensures (rect.x <= p < rect.x + rect.width && area.x <= p < area.x + area.width) <==>
              Max(rect.x, area.x) <= p < Max(rect.x, area.x) + OverlapWidth(rect, area)
    ensures (rect.y <= p < rect.y + rect.height && area.y <= p < area.y + area.height) <==>
              Max(rect.y, area.y) <= p < Max(rect.y, area.y) + OverlapHeight(rect, area)
  {
  }

  /** `i` is the first area with the largest overlap. */
  ghost predicate IsBestHost(rect: Rect, areas: seq<Rect>, i: int) {
    && 0 <= i < |areas|
    && (forall j | 0 <= j < |areas| :: Score(rect, areas[j]) <= Score(rect, areas[i]))
    && (forall j | 0 <= j < i :: Score(rect, areas[j]) < Score(rect, areas[i]))
  }

  method BestHost(rect: Rect, areas: seq<Rect>) returns (chosen: Rect)
    requires areas != []
    ensures exists i :: IsBestHost(rect, areas, i) && chosen == areas[i]
  {
    chosen := areas[0];
    var best: int := -1;
    ghost var index := 0;
    for i := 0 to |areas|
      invariant 0 <= index < |areas| && chosen == areas[index]
      invariant i == 0 ==> best == -1 && index == 0
      invariant i > 0 ==> index < i && best == Score(rect, areas[index])
      invariant forall j | 0 <= j < i :: Score(rect, areas[j]) <= best
      invariant forall j | 0 <= j < index :: Score(rect, areas[j]) < best
    {
      var score := Score(rect, areas[i]);
      if score > best {
        best, chosen, index := score, areas[i], i;
      }
    }
    assert IsBestHost(rect, areas, index);
  }

  /** The rectangle clamped onto one host, or centred on it when it has to shrink. */
  function Fit(rect: Rect, host: Rect): Rect {
    var width, height := Min(rect.width, host.width), Min(rect.height, host.height);
    if width != rect.width || height != rect.height then
      Rect(RoundHalf(2 * host.x + host.width - width), RoundHalf(2 * host.y + host.height - height), width, height)
    else
      Rect(Min(Max(rect.x, host.x), host.x + host.width - width),
           Min(Max(rect.y, host.y), host.y + host.height - height), width, height)
  }

  predicate Inside(rect: Rect, area: Rect) {
    && area.x <= rect.x && rect.x + rect.width <= area.x + area.width
    && area.y <= rect.y && rect.y + rect.height <= area.y + area.height
  }

  ghost predicate Placed(rect: Rect, areas: seq<Rect>, r: Rect) {
    if areas == [] || IsReachable(rect, areas) then r == rect
    else exists i :: IsBestHost(rect, areas, i) && r == Fit(rect, areas[i])
  }

  method PlaceInLayout(rect: Rect, areas: seq<Rect>) returns (r: Rect)
    ensures Placed(rect, areas, r)
  {
    if areas == [] { return rect; }
    if IsReachable(rect, areas) { return rect; }
    var host := BestHost(rect, areas);
    var width, height := Min(rect.width, host.width), Min(rect.height, host.height);
    var x := Min(Max(rect.x, host.x), host.x + host.width - width);
    var y := Min(Max(rect.y, host.y), host.y + host.height - height);
    if width != rect.width || height != rect.height {
      x := RoundHalf(2 * host.x + host.width - width);
      y := RoundHalf(2 * host.y + host.height - height);
    }
    r := Rect(x, y, width, height);
  }

  /** Whatever the sizes and signs, a moved window lies wholly inside its host and is never larger than before. */
  lemma FitIsInside(rect: Rect, host: Rect)
    ensures Inside(Fit(rect, host), host)
    ensures Fit(rect, host).width <= rect.width && Fit(rect, host).height <= rect.height
    ensures Fit(rect, host).width == Min(rect.width, host.width) && Fit(rect, host).height == Min(rect.height, host.height)
  {
  }

  /** Placement is unique: two answers for the same layout are equal. */
  lemma PlacementIsUnique(rect: Rect, areas: seq<Rect>, r: Rect, r': Rect)
    requires Placed(rect, areas, r) && Placed(rect, areas, r')
    ensures r == r'
  {
  }

  lemma OverlapBound(rect: Rect, area: Rect)
    ensures OverlapWidth(rect, area) <= Max(0, rect.width)
    ensures OverlapHeight(rect, area) <= Max(0, rect.height)
    ensures Inside(rect, area) ==> OverlapWidth(rect, area) == Max(0, rect.width) && OverlapHeight(rect, area) == Max(0, rect.height)
    ensures 0 < rect.width == OverlapWidth(rect, area) && 0 < rect.height == OverlapHeight(rect, area) ==> Inside(rect, area)
  {
  }

  lemma ProductBound(a: nat, b: nat, w: nat, h: nat)
    requires a <= w && b <= h
    ensures a * b <= w * h
    ensures w > 0 && h > 0 && a * b == w * h ==> a == w && b == h
  {
    assert a * b <= w * b <= w * h by { MulLeft(a, w, b); MulLeft(b, h, w); }
    if w > 0 && h > 0 && a * b == w * h {
      if a < w && b > 0 { MulStrict(a, w, b); }
      if b < h { MulStrict(b, h, w); }
    }
  }

  lemma MulLeft(a: nat, b: nat, c: nat)
    requires a <= b
    ensures a * c <= b * c && c * a <= c * b
  {
    assert (b - a) * c >= 0;
  }

  lemma MulStrict(a: nat, b: nat, c: nat)
    requires a < b && c > 0
    ensures a * c < b * c && c * a < c * b
  {
    assert b * c == a * c + (b - a) * c;
    assert (b - a) * c >= c by { MulLeft(1, b - a, c); }
  }

  lemma ScoreBound(rect: Rect, area: Rect)
    ensures Score(rect, area) <= Max(0, rect.width) * Max(0, rect.height)
    ensures Inside(rect, area) ==> Score(rect, area) == Max(0, rect.width) * Max(0, rect.height)
    ensures rect.width > 0 && rect.height > 0 && Score(rect, area) == rect.width * rect.height ==> Inside(rect, area)
    ensures rect.width <= 0 || rect.height <= 0 ==> Score(rect, area) == 0
  {
    OverlapBound(rect, area);
    ProductBound(OverlapWidth(rect, area), OverlapHeight(rect, area), Max(0, rect.width), Max(0, rect.height));
  }

  lemma FitKeepsInside(rect: Rect, host: Rect)
    requires Inside(rect, host)
    ensures Fit(rect, host) == rect
  {
  }

  /** A window inside some area stays where it is, even when it is too small to be reachable or areas overlap. */
  lemma InsideStays(rect: Rect, areas: seq<Rect>, i: int, r: Rect)
    requires 0 <= i < |areas| && Inside(rect, areas[i])
    requires rect.width > 0 && rect.height > 0
    requires Placed(rect, areas, r)
    ensures r == rect
  {
    if !IsReachable(rect, areas) {
      var j :| IsBestHost(rect, areas, j) && r == Fit(rect, areas[j]);
      assert Score(rect, areas[i]) <= Score(rect, areas[j]);
      ScoreBound(rect, areas[i]);
      ScoreBound(rect, areas[j]);
      FitKeepsInside(rect, areas[j]);
    }
  }

  /** A rectangle without extent overlaps nothing, so the first area is its host. */
  lemma FlatHost(rect: Rect, areas: seq<Rect>, i: int)
    requires rect.width <= 0 || rect.height <= 0
    requires IsBestHost(rect, areas, i)
    ensures i == 0
  {
    if i > 0 {
      ScoreBound(rect, areas[0]);
      ScoreBound(rect, areas[i]);
    }
  }

  /** Placing is idempotent in every layout whose work areas have positive size. */
  lemma PlacementIsIdempotent(rect: Rect, areas: seq<Rect>, r: Rect, r': Rect)
    requires forall i | 0 <= i < |areas| :: areas[i].width > 0 && areas[i].height > 0
    requires Placed(rect, areas, r) && Placed(r, areas, r')
    ensures r' == r
  {
    if areas != [] && !IsReachable(rect, areas) {
      var i :| IsBestHost(rect, areas, i) && r == Fit(rect, areas[i]);
      FitIsInside(rect, areas[i]);
      if r.width > 0 && r.height > 0 {
        InsideStays(r, areas, i, r');
      } else if !IsReachable(r, areas) {
        assert rect.width <= 0 || rect.height <= 0;
        FlatHost(rect, areas, i);
        var j :| IsBestHost(r, areas, j) && r' == Fit(r, areas[j]);
        FlatHost(r, areas, j);
        FitKeepsInside(r, areas[0]);
      }
    }
  }

  /** Placement makes a window reachable exactly when what is left of it on its host is large enough to grab. */
  lemma PlacedIsReachable(rect: Rect, areas: seq<Rect>, r: Rect, i: int)
    requires !IsReachable(rect, areas) && IsBestHost(rect, areas, i) && r == Fit(rect, areas[i])
    ensures IsReachable(r, areas) <==>
              Min(rect.width, areas[i].width) >= MIN_VISIBLE_WIDTH && Min(rect.height, areas[i].height) >= MIN_VISIBLE_HEIGHT
  {
  }

  function Distance(a: int, b: int): nat { if a < b then b - a else a - b }

  /** A window that fits is moved no further than it must be: no position inside the host is nearer. */
  lemma ClampIsNearest(rect: Rect, host: Rect, other: Rect)
    requires rect.width <= host.width && rect.height <= host.height
    requires Inside(other, host) && other.width == rect.width && other.height == rect.height
    ensures Distance(Fit(rect, host).x, rect.x) <= Distance(other.x, rect.x)
    ensures Distance(Fit(rect, host).y, rect.y) <= Distance(other.y, rect.y)
  {
  }

  /** A window that has to shrink is centred: its two margins differ by at most one. */
  lemma ShrinkCentres(rect: Rect, host: Rect)
    requires rect.width > host.width || rect.height > host.height
    ensures var r := Fit(rect, host);
            && 0 <= (r.x - host.x) - (host.x + host.width - r.x - r.width) <= 1
            && 0 <= (r.y - host.y) - (host.y + host.height - r.y - r.height) <= 1
  {
  }
}
