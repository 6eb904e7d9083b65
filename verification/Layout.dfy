/** The box layout of a chart: boxes such as axes, legends and titles are fitted around the chart
    area and then placed. */
module Layout {
  import opened Wrappers

  datatype Pos = Left | Right | Top | Bottom

  /** One number for each side. */
  datatype Sides = Sides(left: real, right: real, top: real, bottom: real) {
    function At(pos: Pos): real {
      match pos case Left => left case Right => right case Top => top case Bottom => bottom
    }

    function With(pos: Pos, x: real): Sides {
      match pos
      case Left => this.(left := x)
      case Right => this.(right := x)
      case Top => this.(top := x)
      case Bottom => this.(bottom := x)
    }

    function Max(other: Sides): Sides {
      Sides(Larger(left, other.left), Larger(right, other.right),
            Larger(top, other.top), Larger(bottom, other.bottom))
    }
  }

  function Larger(a: real, b: real): real {
    if a < b then b else a
  }

  /** A box together with the layout's note of the size already counted for it. */
  class Box {
    const pos: Pos
    const fullWidth: bool
    const padding: Option<Sides>
    var size: real
    var width: real
    var height: real
    var left: real
    var right: real
    var top: real
    var bottom: real

    constructor (pos: Pos, fullWidth: bool, padding: Option<Sides>)
      ensures this.pos == pos && this.fullWidth == fullWidth && this.padding == padding && size == 0.0
    {
      this.pos, this.fullWidth, this.padding, size := pos, fullWidth, padding, 0.0;
    }

    predicate Horizontal() {
      pos.Top? || pos.Bottom?
    }

    /** The extent that the box takes away from the chart area. */
    function Extent(): real reads this {
      if Horizontal() then height else width
    }

    function State(): Look reads this {
      Look(pos, fullWidth, size, width, height, Rect(left, right, top, bottom))
    }

    /** The box measures itself: any size that is not negative. */
    method Update()
      modifies `width, `height
      ensures width >= 0.0 && height >= 0.0
    {
      var w: real, h: real :| w >= 0.0 && h >= 0.0;
      width, height := w, h;
    }
  }

  datatype Rect = Rect(left: real, right: real, top: real, bottom: real)

  /** The state of a box as far as the layout goes: the size counted for it, its own dimensions
      and where it lies. */
  datatype Look = Look(pos: Pos, fullWidth: bool, size: real, width: real, height: real, bounds: Rect) {
    function Extent(): real {
      if pos.Top? || pos.Bottom? then height else width
    }
  }

  ghost function Looks(boxes: seq<Box>): (looks: seq<Look>)
    reads boxes
    ensures |looks| == |boxes| && forall i {:trigger looks[i]} | 0 <= i < |boxes| :: looks[i] == boxes[i].State()
  {
    seq(|boxes|, i requires 0 <= i < |boxes| reads boxes => boxes[i].State())
  }

  lemma LooksConcat(a: seq<Box>, b: seq<Box>)
    ensures Looks(a + b) == Looks(a) + Looks(b)
  {
  }

  datatype Params = Params(outerWidth: real, outerHeight: real, padding: Sides)

  class ChartArea {
    var sides: Sides
    var maxPadding: Sides
    var w: real
    var h: real
    var x: real
    var y: real

    constructor (params: Params)
      ensures sides == maxPadding == params.padding && x == sides.left && y == sides.top
      ensures Balanced(params)
    {
      var padding := params.padding;
      sides, maxPadding := padding, padding;
      w, h := params.outerWidth - (padding.left + padding.right), params.outerHeight - (padding.top + padding.bottom);
      x, y := padding.left, padding.top;
    }

    /** What is left of the outer size once both sides have their larger need. */
    ghost predicate Balanced(params: Params) reads this {
      var need := sides.Max(maxPadding);
      w == params.outerWidth - (need.left + need.right) && h == params.outerHeight - (need.top + need.bottom)
    }
  }

  // ----- Fitting

  ghost predicate Distinct(boxes: seq<Box>) {
    forall i, j | 0 <= i < j < |boxes| :: boxes[i] != boxes[j]
  }

  ghost predicate Disjoint(a: seq<Box>, b: seq<Box>) {
    forall i, j | 0 <= i < |a| && 0 <= j < |b| :: a[i] != b[j]
  }

  /** A box's side and the size counted for it. */
  datatype Item = Item(pos: Pos, size: real)

  /** The sizes counted at one side. */
  function SumAt(items: seq<Item>, pos: Pos): real {
    if items == [] then 0.0
    else
      var last := items[|items| - 1];
      SumAt(items[..|items| - 1], pos) + (if last.pos == pos then last.size else 0.0)
  }

  /** Each box has been measured and counted with its extent; the items say with what size. */
  ghost predicate Counted(looks: seq<Look>, items: seq<Item>) {
    |items| == |looks| &&
    forall i {:trigger looks[i]} | 0 <= i < |looks| ::
      looks[i].size == looks[i].Extent() >= 0.0 && items[i] == Item(looks[i].pos, looks[i].size)
  }

  /** `updateDims`.  It compares the new dimensions with the ones it has just assigned, so that
      it never reports a change. */
  method UpdateDims(area: ChartArea, params: Params, box: Box) returns (changed: bool)
    modifies area`sides, area`maxPadding, area`w, area`h, box`size
    ensures box.size == box.Extent()
    ensures area.sides == old(area.sides).With(box.pos, old(area.sides).At(box.pos) - old(box.size) + box.size)
    ensures area.maxPadding ==
      if box.padding.Some? then old(area.maxPadding).Max(box.padding.value) else old(area.maxPadding)
    ensures area.Balanced(params)
    ensures !changed
  {
    if box.size != 0.0 {
      area.sides := area.sides.With(box.pos, area.sides.At(box.pos) - box.size);
    }
    box.size := if box.Horizontal() then box.height else box.width;
    area.sides := area.sides.With(box.pos, area.sides.At(box.pos) + box.size);
    if box.padding.Some? {
      area.maxPadding := area.maxPadding.Max(box.padding.value);
    }
    var newWidth := params.outerWidth -
      (Larger(area.maxPadding.left, area.sides.left) + Larger(area.maxPadding.right, area.sides.right));
    var newHeight := params.outerHeight -
      (Larger(area.maxPadding.top, area.sides.top) + Larger(area.maxPadding.bottom, area.sides.bottom));
    changed := false;
    if newWidth != area.w || newHeight != area.h {
      area.w := newWidth;
      area.h := newHeight;
      changed := if box.Horizontal() then newWidth != area.w else newHeight != area.h;
    }
  }

  ghost predicate Unfitted(boxes: seq<Box>)
    reads boxes
  {
    forall i | 0 <= i < |boxes| :: boxes[i].size == 0.0
  }

  ghost predicate SidesGrow(before: Sides, after: Sides, items: seq<Item>) {
    && after.left == before.left + SumAt(items, Left) && after.right == before.right + SumAt(items, Right)
    && after.top == before.top + SumAt(items, Top) && after.bottom == before.bottom + SumAt(items, Bottom)
  }

  lemma SidesGrowBy(before: Sides, now: Sides, items: seq<Item>, item: Item)
    requires SidesGrow(before, now, items)
    ensures SidesGrow(before, now.With(item.pos, now.At(item.pos) - 0.0 + item.size), items + [item])
  {
    assert (items + [item])[..|items|] == items;
  }

  ghost predicate AtLeast(a: Sides, b: Sides) {
    a.left >= b.left && a.right >= b.right && a.top >= b.top && a.bottom >= b.bottom
  }

  /** The larger padding of the given one and all that boxes ask for. */
  function Widest(padding: Sides, boxes: seq<Box>): Sides {
    if boxes == [] then padding
    else
      var before, last := Widest(padding, boxes[..|boxes| - 1]), boxes[|boxes| - 1];
      if last.padding.Some? then before.Max(last.padding.value) else before
  }

  lemma {:induction false} WidestIsLeast(padding: Sides, boxes: seq<Box>, pos: Pos)
    ensures Widest(padding, boxes).At(pos) >= padding.At(pos)
    ensures forall box <- boxes | box.padding.Some? :: Widest(padding, boxes).At(pos) >= box.padding.value.At(pos)
    ensures Widest(padding, boxes).At(pos) == padding.At(pos)
         || exists box <- boxes :: box.padding.Some? && Widest(padding, boxes).At(pos) == box.padding.value.At(pos)
  {
    if boxes != [] {
      WidestIsLeast(padding, boxes[..|boxes| - 1], pos);
    }
  }

  lemma WidestAtLeast(padding: Sides, boxes: seq<Box>)
    ensures AtLeast(Widest(padding, boxes), padding)
  {
    forall pos: Pos ensures Widest(padding, boxes).At(pos) >= padding.At(pos) {
      WidestIsLeast(padding, boxes, pos);
    }
    assert forall s: Sides ::
        s.left == s.At(Left) && s.right == s.At(Right) && s.top == s.At(Top) && s.bottom == s.At(Bottom);
  }

  /** Lets one box measure itself and counts it. */
  method FitBox(area: ChartArea, params: Params, box: Box) returns (changed: bool)
    modifies box`width, box`height, box`size, area`sides, area`maxPadding, area`w, area`h
    ensures box.size == box.Extent() >= 0.0
    ensures area.sides == old(area.sides).With(box.pos, old(area.sides).At(box.pos) - old(box.size) + box.size)
    ensures area.maxPadding ==
      if box.padding.Some? then old(area.maxPadding).Max(box.padding.value) else old(area.maxPadding)
    ensures area.Balanced(params)
    ensures !changed
  {
    box.Update();
    changed := UpdateDims(area, params, box);
  }

  method FitBoxes(boxes: seq<Box>, area: ChartArea, params: Params) returns (changed: bool, ghost items: seq<Item>)
    requires Distinct(boxes) && Unfitted(boxes) && area.Balanced(params)
    modifies boxes, area`sides, area`maxPadding, area`w, area`h
    ensures Counted(Looks(boxes), items) && area.Balanced(params)
    ensures SidesGrow(old(area.sides), area.sides, items)
    ensures area.maxPadding == Widest(old(area.maxPadding), boxes)
    ensures !changed
  {
    changed := false;
    var refit, refitBoxes := false, [];
    items := [];
    ghost var before := area.sides;
    for i := 0 to |boxes|
      invariant |items| == i && forall j {:trigger boxes[j]} | 0 <= j < i ::
                  boxes[j].size == boxes[j].Extent() >= 0.0 && items[j] == Item(boxes[j].pos, boxes[j].size)
      invariant forall j {:trigger boxes[j]} | i <= j < |boxes| :: boxes[j].size == 0.0
      invariant area.Balanced(params) && SidesGrow(before, area.sides, items)
      invariant area.maxPadding == Widest(old(area.maxPadding), boxes[..i])
      invariant !changed && !refit
    {
      var box := boxes[i];
      ghost var now := area.sides;
      var c := FitBox(area, params, box);
      if c {
        changed := true;
        if |refitBoxes| > 0 { refit := true; }
      }
      if !box.fullWidth { refitBoxes := refitBoxes + [box]; }
      SidesGrowBy(before, now, items, Item(box.pos, box.size));
      items := items + [Item(box.pos, box.size)];
      assert boxes[..i + 1][..i] == boxes[..i];
    }
    assert boxes[..|boxes|] == boxes;
    CountedBoxes(boxes, items);
    if refit {
      assert false;  // the boxes that are not of full width would be fitted again
    }
  }

  /** `handleMaxPadding`: makes room for the padding that boxes ask for beyond the sides. */
  method HandleMaxPadding(area: ChartArea)
    modifies area`sides, area`x, area`y
    ensures area.sides == old(area.sides).Max(area.maxPadding)
    ensures area.x == old(area.x) + (area.sides.left - old(area.sides.left))
    ensures area.y == old(area.y) + (area.sides.top - old(area.sides.top))
  {
    var change := UpdatePos(area, Top);
    area.y := area.y + change;
    change := UpdatePos(area, Left);
    area.x := area.x + change;
    change := UpdatePos(area, Right);
    change := UpdatePos(area, Bottom);
  }

  method UpdatePos(area: ChartArea, pos: Pos) returns (change: real)
    modifies area`sides
    ensures change == area.sides.At(pos) - old(area.sides.At(pos))
    ensures area.sides == old(area.sides).With(pos, Larger(old(area.sides).At(pos), area.maxPadding.At(pos)))
  {
    change := Larger(area.maxPadding.At(pos) - area.sides.At(pos), 0.0);
    area.sides := area.sides.With(pos, area.sides.At(pos) + change);
  }

  // ----- Placing

  /** What placing needs to know of the chart area. */
  datatype Frame = Frame(sides: Sides, w: real, h: real)

  /** Where a box belongs that is placed with the pen at the given point. */
  function RectAt(pos: Pos, fullWidth: bool, size: real, frame: Frame, params: Params, pen: (real, real)): Rect {
    if pos.Top? || pos.Bottom? then
      Rect(if fullWidth then params.padding.left else frame.sides.left,
           if fullWidth then params.outerWidth - params.padding.right else frame.sides.left + frame.w,
           pen.1, pen.1 + size)
    else
      Rect(pen.0, pen.0 + size, frame.sides.top, frame.sides.top + frame.h)
  }

  /** How far boxes with these items have moved the pen. */
  function Across(items: seq<Item>): real {
    SumAt(items, Left) + SumAt(items, Right)
  }

  function Down(items: seq<Item>): real {
    SumAt(items, Top) + SumAt(items, Bottom)
  }

  /** Where the pen stands after boxes with these items. */
  function Pen(x: real, y: real, items: seq<Item>): (real, real) {
    (x + Across(items), y + Down(items))
  }

  /** How one box moves the pen. */
  function Move(pen: (real, real), item: Item): (real, real) {
    if item.pos.Left? || item.pos.Right? then (pen.0 + item.size, pen.1) else (pen.0, pen.1 + item.size)
  }

  ghost predicate Moves(pens: seq<(real, real)>, items: seq<Item>) {
    0 < |pens| <= |items| + 1 &&
    forall j {:trigger pens[j]} | 0 < j < |pens| :: pens[j] == Move(pens[j - 1], items[j - 1])
  }

  lemma {:induction false} PensFollow(pens: seq<(real, real)>, items: seq<Item>, j: nat)
    requires Moves(pens, items) && j < |pens|
    ensures pens[j] == Pen(pens[0].0, pens[0].1, items[..j])
  {
    if j > 0 {
      PensFollow(pens, items, j - 1);
      assert items[..j][..j - 1] == items[..j - 1];
    }
  }

  /** The box lies in the rectangle and has its dimensions. */
  ghost predicate LiesIn(look: Look, rect: Rect) {
    look.bounds == rect && look.width == rect.right - rect.left && look.height == rect.bottom - rect.top
  }

  /** The box lies where the pen stood. */
  ghost predicate PlacedAt(look: Look, frame: Frame, params: Params, pen: (real, real)) {
    LiesIn(look, RectAt(look.pos, look.fullWidth, look.size, frame, params, pen))
  }

  /** Where the i-th of several boxes belongs that are placed with the pen starting at (x, y). */
  ghost function Slot(items: seq<Item>, i: nat, fullWidth: bool, frame: Frame, params: Params, x: real, y: real): Rect
    requires i < |items|
  {
    RectAt(items[i].pos, fullWidth, items[i].size, frame, params, Pen(x, y, items[..i]))
  }

  /** What one call of `PlaceBoxes` leaves behind. */
  ghost predicate Placed(looks: seq<Look>, items: seq<Item>, frame: Frame, params: Params, x: real, y: real) {
    Counted(looks, items) &&
    forall i {:trigger looks[i]} | 0 <= i < |looks| ::
      LiesIn(looks[i], Slot(items, i, looks[i].fullWidth, frame, params, x, y))
  }

  lemma CountedBoxes(boxes: seq<Box>, items: seq<Item>)
    ensures Counted(Looks(boxes), items) <==>
      && |items| == |boxes|
      && forall j | 0 <= j < |boxes| ::
           boxes[j].size == boxes[j].Extent() >= 0.0 && items[j] == Item(boxes[j].pos, boxes[j].size)
  {
    if |items| == |boxes| && Counted(Looks(boxes), items) {
      forall j | 0 <= j < |boxes|
        ensures boxes[j].size == boxes[j].Extent() >= 0.0 && items[j] == Item(boxes[j].pos, boxes[j].size)
      {
        assert Looks(boxes)[j] == boxes[j].State();
      }
    }
  }

  method PlaceBoxes(boxes: seq<Box>, area: ChartArea, params: Params, ghost items: seq<Item>)
    requires Distinct(boxes) && Counted(Looks(boxes), items)
    modifies boxes, area`x, area`y
    ensures Placed(Looks(boxes), items, Frame(area.sides, area.w, area.h), params, old(area.x), old(area.y))
    ensures (area.x, area.y) == Pen(old(area.x), old(area.y), items)
  {
    var x, y := area.x, area.y;
    ghost var frame, pens := Frame(area.sides, area.w, area.h), [(x, y)];
    for i := 0 to |boxes|
      invariant area.x == old(area.x) && area.y == old(area.y)
      invariant |pens| == i + 1 && pens[0] == (area.x, area.y) && pens[i] == (x, y) && Moves(pens, items)
      invariant Counted(Looks(boxes), items) && PlacedUpTo(Looks(boxes), i, frame, params, pens)
    {
      ghost var before := Looks(boxes);
      assert before[i].size == before[i].Extent();
      x, y := PlaceNth(boxes, i, area, params, x, y);
      CountedStill(before, items, i, Looks(boxes)[i]);
      pens := pens + [(x, y)];
    }
    PlacedByPens(Looks(boxes), items, frame, params, pens);
    area.x, area.y := x, y;
  }

  ghost predicate PlacedUpTo(looks: seq<Look>, n: nat, frame: Frame, params: Params, pens: seq<(real, real)>) {
    n <= |looks| && n <= |pens| &&
    forall j {:trigger looks[j]} | 0 <= j < n :: PlacedAt(looks[j], frame, params, pens[j])
  }

  lemma CountedStill(looks: seq<Look>, items: seq<Item>, i: nat, look: Look)
    requires Counted(looks, items) && i < |looks|
    requires look.size == look.Extent() == looks[i].size && look.pos == looks[i].pos
    ensures Counted(looks[i := look], items) && items[i] == Item(look.pos, look.size)
  {
  }

  /** Places one box; the others stay as they are. */
  method PlaceNth(boxes: seq<Box>, i: nat, area: ChartArea, params: Params, x: real, y: real)
    returns (x': real, y': real)
    requires Distinct(boxes) && i < |boxes| && boxes[i].size == boxes[i].Extent()
    modifies boxes[i]
    ensures var look := Looks(boxes)[i];
      && Looks(boxes) == old(Looks(boxes))[i := look]
      && PlacedAt(look, Frame(area.sides, area.w, area.h), params, (x, y))
      && look.size == look.Extent() == old(Looks(boxes))[i].size && look.pos == old(Looks(boxes))[i].pos
      && (x', y') == Move((x, y), Item(look.pos, look.size))
  {
    x', y' := PlaceBox(boxes[i], area, params, x, y);
    assert forall j {:trigger boxes[j]} | 0 <= j < |boxes| && j != i :: boxes[j] != boxes[i];
  }

  lemma PlacedByPens(looks: seq<Look>, items: seq<Item>, frame: Frame, params: Params, pens: seq<(real, real)>)
    requires Counted(looks, items) && |pens| == |looks| + 1 && Moves(pens, items)
    requires PlacedUpTo(looks, |looks|, frame, params, pens)
    ensures Placed(looks, items, frame, params, pens[0].0, pens[0].1)
    ensures pens[|looks|] == Pen(pens[0].0, pens[0].1, items)
  {
    forall j | 0 <= j < |looks| ensures PlacedAt(looks[j], frame, params, Pen(pens[0].0, pens[0].1, items[..j])) {
      PensFollow(pens, items, j);
    }
    PensFollow(pens, items, |looks|);
    assert items[..|looks|] == items;
  }

  method PlaceBox(box: Box, area: ChartArea, params: Params, x: real, y: real) returns (x': real, y': real)
    requires box.size == box.Extent()
    modifies box
    ensures PlacedAt(box.State(), Frame(area.sides, area.w, area.h), params, (x, y))
    ensures box.size == old(box.size) == box.Extent()
    ensures x' == x + (if box.Horizontal() then 0.0 else box.size)
    ensures y' == y + (if box.Horizontal() then box.size else 0.0)
  {
    x', y' := x, y;
    if box.Horizontal() {
      box.left := if box.fullWidth then params.padding.left else area.sides.left;
      box.right := if box.fullWidth then params.outerWidth - params.padding.right else area.sides.left + area.w;
      box.top := y;
      box.bottom := y + box.height;
      box.width := box.right - box.left;
      y' := box.bottom;
    } else {
      box.left := x;
      box.right := x + box.width;
      box.top := area.sides.top;
      box.bottom := area.sides.top + area.h;
      box.height := box.bottom - box.top;
      x' := box.right;
    }
  }

  // ----- Sums

  lemma {:induction false} SumAtConcat(a: seq<Item>, b: seq<Item>, pos: Pos)
    ensures SumAt(a + b, pos) == SumAt(a, pos) + SumAt(b, pos)
  {
    if b == [] {
      assert a + b == a;
    } else {
      assert (a + b)[..|a + b| - 1] == a + b[..|b| - 1];
      SumAtConcat(a, b[..|b| - 1], pos);
    }
  }

  lemma SumAtElsewhere(items: seq<Item>, pos: Pos)
    requires forall i | 0 <= i < |items| :: items[i].pos != pos
    ensures SumAt(items, pos) == 0.0
  {
  }

  lemma {:induction false} SumAtGrows(items: seq<Item>, i: nat, j: nat, pos: Pos)
    requires i <= j <= |items| && forall k | 0 <= k < |items| :: items[k].size >= 0.0
    ensures SumAt(items[..i], pos) <= SumAt(items[..j], pos)
  {
    if i < j {
      SumAtGrows(items, i, j - 1, pos);
      assert items[..j][..j - 1] == items[..j - 1];
    }
  }

  // ----- Geometry

  predicate Apart(a: Rect, b: Rect) {
    a.right <= b.left || b.right <= a.left || a.bottom <= b.top || b.bottom <= a.top
  }

  predicate Within(a: Rect, b: Rect) {
    b.left <= a.left && a.right <= b.right && b.top <= a.top && a.bottom <= b.bottom
  }

  /** The chart area. */
  function AreaRect(frame: Frame): Rect {
    Rect(frame.sides.left, frame.sides.left + frame.w, frame.sides.top, frame.sides.top + frame.h)
  }

  /** Everything inside the padding that the user asked for. */
  function Allowed(params: Params): Rect {
    Rect(params.padding.left, params.outerWidth - params.padding.right,
              params.padding.top, params.outerHeight - params.padding.bottom)
  }

  /** The band of the chart that belongs to a side: vertical boxes stand beside the chart area,
      horizontal ones above or below it and all vertical boxes. */
  function Band(pos: Pos, frame: Frame, params: Params): Rect {
    var all, area := Allowed(params), AreaRect(frame);
    match pos
    case Left => area.(left := all.left, right := area.left)
    case Right => area.(left := area.right, right := all.right)
    case Top => all.(bottom := area.top)
    case Bottom => all.(top := area.bottom)
  }

  /** Boxes placed on two adjacent sides, starting with the pen at (x, y), stay in their bands
      and off each other. */
  ghost predicate Arranged(items: seq<Item>, frame: Frame, params: Params, x: real, y: real) {
    && (forall i, full {:trigger Slot(items, i, full, frame, params, x, y)} | 0 <= i < |items| ::
          Within(Slot(items, i, full, frame, params, x, y), Band(items[i].pos, frame, params)))
    && (forall i, j, f, g {:trigger Slot(items, i, f, frame, params, x, y), Slot(items, j, g, frame, params, x, y)}
          | 0 <= i < j < |items| && items[i].pos == items[j].pos ::
          Apart(Slot(items, i, f, frame, params, x, y), Slot(items, j, g, frame, params, x, y)))
  }

  /** The frame fills the outer size, and covers the user's padding. */
  ghost predicate Fills(frame: Frame, params: Params) {
    && frame.sides.left + frame.w + frame.sides.right == params.outerWidth
    && frame.sides.top + frame.h + frame.sides.bottom == params.outerHeight
    && AtLeast(frame.sides, params.padding)
  }

  lemma StackStays(items: seq<Item>, i: nat, j: nat, pos: Pos)
    requires i < j <= |items| && items[i].pos == pos && forall k | 0 <= k < |items| :: items[k].size >= 0.0
    ensures 0.0 <= SumAt(items[..i], pos)
    ensures SumAt(items[..i], pos) + items[i].size <= SumAt(items[..j], pos) <= SumAt(items, pos)
  {
    SumAtGrows(items, 0, i, pos);
    SumAtGrows(items, i + 1, j, pos);
    SumAtGrows(items, j, |items|, pos);
    assert items[..i + 1][..i] == items[..i];
    assert items[..|items|] == items;
  }

  /** On the left and top sides the pen starts at the (possibly widened) padding and ends at the
      chart area; on the right and bottom sides it starts at the chart area. */
  lemma SidesArranged(items: seq<Item>, frame: Frame, params: Params, x: real, y: real, vertical: Pos, horizontal: Pos)
    requires Fills(frame, params) && frame.w >= 0.0 && frame.h >= 0.0
    requires (vertical, horizontal) == (Left, Top) || (vertical, horizontal) == (Right, Bottom)
    requires forall i | 0 <= i < |items| ::
               items[i].size >= 0.0 && (items[i].pos == vertical || items[i].pos == horizontal)
    requires var v, h := Band(vertical, frame, params), Band(horizontal, frame, params);
      v.left <= x && x + SumAt(items, vertical) <= v.right && h.top <= y && y + SumAt(items, horizontal) <= h.bottom
    ensures Arranged(items, frame, params, x, y)
  {
    forall i, full | 0 <= i < |items|
      ensures Within(Slot(items, i, full, frame, params, x, y), Band(items[i].pos, frame, params))
    {
      PenOnSides(items, i, vertical, horizontal);
      StackStays(items, i, i + 1, items[i].pos);
    }
    forall i, j, f, g | 0 <= i < j < |items| && items[i].pos == items[j].pos
      ensures Apart(Slot(items, i, f, frame, params, x, y), Slot(items, j, g, frame, params, x, y))
    {
      PenOnSides(items, i, vertical, horizontal);
      PenOnSides(items, j, vertical, horizontal);
      StackStays(items, i, j, items[i].pos);
    }
  }

  lemma PenOnSides(items: seq<Item>, i: nat, vertical: Pos, horizontal: Pos)
    requires i <= |items|
    requires (vertical, horizontal) == (Left, Top) || (vertical, horizontal) == (Right, Bottom)
    requires forall k | 0 <= k < |items| :: items[k].pos == vertical || items[k].pos == horizontal
    ensures Across(items[..i]) == SumAt(items[..i], vertical) && Down(items[..i]) == SumAt(items[..i], horizontal)
  {
    SumAtElsewhere(items[..i], if vertical.Left? then Right else Left);
    SumAtElsewhere(items[..i], if vertical.Left? then Bottom else Top);
  }

  lemma BandsApart(a: Rect, b: Rect, p: Pos, q: Pos, frame: Frame, params: Params)
    requires Fills(frame, params) && frame.w >= 0.0 && frame.h >= 0.0
    requires Within(a, Band(p, frame, params)) && Within(b, Band(q, frame, params)) && p != q
    ensures Apart(a, b)
  {
  }

  lemma BandWithin(a: Rect, p: Pos, frame: Frame, params: Params)
    requires Fills(frame, params) && frame.w >= 0.0 && frame.h >= 0.0 && Within(a, Band(p, frame, params))
    ensures Within(a, Allowed(params)) && Apart(a, AreaRect(frame))
  {
  }

  // ----- The whole update

  ghost predicate AllAt(boxes: seq<Box>, pos: Pos) {
    forall i | 0 <= i < |boxes| :: boxes[i].pos == pos
  }

  /** All boxes lie inside the user's padding and clear of the chart area, and no two overlap. */
  ghost predicate LaidOut(looks: seq<Look>, frame: Frame, params: Params) {
    && (forall look <- looks ::
          && LiesIn(look, look.bounds)
          && Within(look.bounds, Allowed(params)) && Apart(look.bounds, AreaRect(frame)))
    && (forall i, j | 0 <= i < j < |looks| :: Apart(looks[i].bounds, looks[j].bounds))
  }

  lemma PlacedIsLaidOut(first: seq<Look>, second: seq<Look>, a: seq<Item>, b: seq<Item>, frame: Frame, params: Params,
                        x: real, y: real, x': real, y': real)
    requires Placed(first, a, frame, params, x, y) && Placed(second, b, frame, params, x', y')
    requires Arranged(a, frame, params, x, y) && Arranged(b, frame, params, x', y')
    requires forall i, j | 0 <= i < |a| && 0 <= j < |b| :: a[i].pos != b[j].pos
    requires Fills(frame, params) && frame.w >= 0.0 && frame.h >= 0.0
    ensures LaidOut(first + second, frame, params)
  {
    var looks := first + second;
    forall i | 0 <= i < |looks|
      ensures Within(looks[i].bounds, Band(looks[i].pos, frame, params))
      ensures Within(looks[i].bounds, Allowed(params)) && Apart(looks[i].bounds, AreaRect(frame))
      ensures looks[i].pos == if i < |first| then a[i].pos else b[i - |first|].pos
    {
      if i < |first| {
        assert looks[i] == first[i];
      } else {
        assert looks[i] == second[i - |first|];
      }
      BandWithin(looks[i].bounds, looks[i].pos, frame, params);
    }
    forall i, j | 0 <= i < j < |looks| ensures Apart(looks[i].bounds, looks[j].bounds) {
      if looks[i].pos != looks[j].pos {
        BandsApart(looks[i].bounds, looks[j].bounds, looks[i].pos, looks[j].pos, frame, params);
      } else if j < |first| {
        assert looks[i] == first[i] && looks[j] == first[j];
      } else if i >= |first| {
        assert looks[i] == second[i - |first|] && looks[j] == second[j - |first|];
      }
    }
  }

  /** Each side is as wide as the padding and the boxes there, or as the padding that some box
      asks for; nothing is lost or counted twice. */
  ghost predicate Tight(frame: Frame, maxPadding: Sides, params: Params, items: seq<Item>) {
    forall pos: Pos :: frame.sides.At(pos) == Larger(params.padding.At(pos) + SumAt(items, pos), maxPadding.At(pos))
  }

  lemma MixedDistinct(left: seq<Box>, right: seq<Box>, top: seq<Box>, bottom: seq<Box>)
    requires AllAt(left, Left) && AllAt(right, Right) && AllAt(top, Top) && AllAt(bottom, Bottom)
    requires Distinct(left + right) && Distinct(top + bottom)
    ensures Distinct(left + top) && Distinct(right + bottom)
    ensures Disjoint(left + top, right + bottom)
    ensures forall i | 0 <= i < |left + top| :: (left + top)[i] in left + right || (left + top)[i] in top + bottom
    ensures forall i | 0 <= i < |right + bottom| ::
              (right + bottom)[i] in left + right || (right + bottom)[i] in top + bottom
  {
    forall i, j | 0 <= i < j < |left + top| ensures (left + top)[i] != (left + top)[j] {
      if j < |left| {
        assert (left + right)[i] != (left + right)[j];
      } else if i >= |left| {
        assert (top + bottom)[i - |left|] != (top + bottom)[j - |left|];
      }
    }
    forall i, j | 0 <= i < j < |right + bottom| ensures (right + bottom)[i] != (right + bottom)[j] {
      if j < |right| {
        assert (left + right)[|left| + i] != (left + right)[|left| + j];
      } else if i >= |right| {
        assert (top + bottom)[|top| + i - |right|] != (top + bottom)[|top| + j - |right|];
      }
    }
  }

  /** The boxes are fitted by direction and placed by corner; the sums are the same. */
  lemma Regroup(v: seq<Item>, h: seq<Item>, l: nat, t: nat)
    requires l <= |v| && t <= |h|
    ensures forall pos: Pos :: SumAt(v[..l] + h[..t] + (v[l..] + h[t..]), pos) == SumAt(v, pos) + SumAt(h, pos)
  {
    forall pos: Pos
      ensures SumAt(v[..l] + h[..t] + (v[l..] + h[t..]), pos) == SumAt(v, pos) + SumAt(h, pos)
    {
      assert v == v[..l] + v[l..] && h == h[..t] + h[t..];
      SumAtConcat(v[..l], v[l..], pos);
      SumAtConcat(h[..t], h[t..], pos);
      SumAtConcat(v[..l], h[..t], pos);
      SumAtConcat(v[l..], h[t..], pos);
      SumAtConcat(v[..l] + h[..t], v[l..] + h[t..], pos);
    }
  }

  /** Fits the vertical boxes, then the horizontal ones. */
  method FitAll(left: seq<Box>, right: seq<Box>, top: seq<Box>, bottom: seq<Box>, area: ChartArea, params: Params)
    returns (ghost a: seq<Item>, ghost b: seq<Item>)
    requires AllAt(left, Left) && AllAt(right, Right) && AllAt(top, Top) && AllAt(bottom, Bottom)
    requires Distinct(left + right) && Distinct(top + bottom) && Unfitted(left + right) && Unfitted(top + bottom)
    requires area.Balanced(params)
    modifies left + right, top + bottom, area`sides, area`maxPadding, area`w, area`h
    ensures Counted(Looks(left + top), a) && Counted(Looks(right + bottom), b)
    ensures SidesGrow(old(area.sides), area.sides, a + b)
    ensures area.Balanced(params)
    ensures area.maxPadding == Widest(Widest(old(area.maxPadding), left + right), top + bottom)
  {
    ghost var v, h;
    var changed;
    assert Disjoint(left + right, top + bottom);
    changed, v := FitBoxes(left + right, area, params);
    changed, h := FitBoxes(top + bottom, area, params);
    if changed {
      assert false;  // the vertical boxes would be fitted again
    }
    a, b := v[..|left|] + h[..|top|], v[|left|..] + h[|top|..];
    Regroup(v, h, |left|, |top|);
    RegroupBoxes(left, right, top, bottom, v, h);
  }

  lemma RegroupBoxes(left: seq<Box>, right: seq<Box>, top: seq<Box>, bottom: seq<Box>, v: seq<Item>, h: seq<Item>)
    requires Counted(Looks(left + right), v) && Counted(Looks(top + bottom), h)
    ensures Counted(Looks(left + top), v[..|left|] + h[..|top|])
    ensures Counted(Looks(right + bottom), v[|left|..] + h[|top|..])
  {
    LooksConcat(left, right);
    LooksConcat(top, bottom);
    LooksConcat(left, top);
    LooksConcat(right, bottom);
    CountedSplit(Looks(left), Looks(right), v);
    CountedSplit(Looks(top), Looks(bottom), h);
    CountedConcat(Looks(left), Looks(top), v[..|left|], h[..|top|]);
    CountedConcat(Looks(right), Looks(bottom), v[|left|..], h[|top|..]);
  }

  lemma CountedSplit(first: seq<Look>, second: seq<Look>, items: seq<Item>)
    requires Counted(first + second, items)
    ensures Counted(first, items[..|first|]) && Counted(second, items[|first|..])
  {
    assert forall i | 0 <= i < |first| :: first[i] == (first + second)[i];
    assert forall i | 0 <= i < |second| :: second[i] == (first + second)[|first| + i];
  }

  lemma CountedConcat(first: seq<Look>, second: seq<Look>, a: seq<Item>, b: seq<Item>)
    requires Counted(first, a) && Counted(second, b)
    ensures Counted(first + second, a + b)
  {
  }

  ghost predicate AtSides(items: seq<Item>, p: Pos, q: Pos) {
    forall i | 0 <= i < |items| :: items[i].size >= 0.0 && (items[i].pos == p || items[i].pos == q)
  }

  /** The sums at the sides of one corner, in a list that also has the other corner's boxes. */
  lemma CornerSums(a: seq<Item>, b: seq<Item>)
    requires AtSides(a, Left, Top) && AtSides(b, Right, Bottom)
    ensures SumAt(a + b, Left) == SumAt(a, Left) && SumAt(a + b, Top) == SumAt(a, Top)
    ensures SumAt(a + b, Right) == SumAt(b, Right) && SumAt(a + b, Bottom) == SumAt(b, Bottom)
    ensures Pen(0.0, 0.0, a) == (SumAt(a, Left), SumAt(a, Top))
  {
    SumAtConcat(a, b, Left);
    SumAtConcat(a, b, Top);
    SumAtConcat(a, b, Right);
    SumAtConcat(a, b, Bottom);
    SumAtElsewhere(b, Left);
    SumAtElsewhere(b, Top);
    SumAtElsewhere(a, Right);
    SumAtElsewhere(a, Bottom);
  }

  lemma ItemsAtSides(items: seq<Item>, vertical: seq<Box>, horizontal: seq<Box>, p: Pos, q: Pos)
    requires AllAt(vertical, p) && AllAt(horizontal, q)
    requires Counted(Looks(vertical + horizontal), items)
    ensures AtSides(items, p, q)
  {
    var boxes := vertical + horizontal;
    forall i | 0 <= i < |items| ensures items[i].size >= 0.0 && (items[i].pos == p || items[i].pos == q) {
      assert Looks(boxes)[i].size >= 0.0;
      assert boxes[i] == if i < |vertical| then vertical[i] else horizontal[i - |vertical|];
    }
  }

  /** The frame after all sides have been widened to the padding asked for. */
  ghost predicate Widened(area0: Sides, maxPadding: Sides, frame: Frame, params: Params, items: seq<Item>) {
    && SidesGrow(params.padding, area0, items) && AtLeast(maxPadding, params.padding)
    && frame.sides == area0.Max(maxPadding)
    && frame.w == params.outerWidth - (frame.sides.left + frame.sides.right)
    && frame.h == params.outerHeight - (frame.sides.top + frame.sides.bottom)
  }

  lemma WidenedSides(area0: Sides, maxPadding: Sides, frame: Frame, params: Params, a: seq<Item>, b: seq<Item>)
    requires AtSides(a, Left, Top) && AtSides(b, Right, Bottom) && Widened(area0, maxPadding, frame, params, a + b)
    ensures Fills(frame, params) && Tight(frame, maxPadding, params, a + b)
    ensures Pen(params.padding.left + (frame.sides.left - area0.left),
                params.padding.top + (frame.sides.top - area0.top), a)
         == (frame.sides.left, frame.sides.top)
  {
    CornerSums(a, b);
  }

  lemma FirstArranged(area0: Sides, maxPadding: Sides, frame: Frame, params: Params, a: seq<Item>, b: seq<Item>)
    requires AtSides(a, Left, Top) && AtSides(b, Right, Bottom) && Widened(area0, maxPadding, frame, params, a + b)
    requires Fills(frame, params) && frame.w >= 0.0 && frame.h >= 0.0
    ensures Arranged(a, frame, params, params.padding.left + (frame.sides.left - area0.left),
                     params.padding.top + (frame.sides.top - area0.top))
  {
    CornerSums(a, b);
    SidesArranged(a, frame, params, params.padding.left + (frame.sides.left - area0.left),
                  params.padding.top + (frame.sides.top - area0.top), Left, Top);
  }

  lemma SecondArranged(area0: Sides, maxPadding: Sides, frame: Frame, params: Params, a: seq<Item>, b: seq<Item>)
    requires AtSides(a, Left, Top) && AtSides(b, Right, Bottom) && Widened(area0, maxPadding, frame, params, a + b)
    requires Fills(frame, params) && frame.w >= 0.0 && frame.h >= 0.0
    ensures Arranged(b, frame, params, frame.sides.left + frame.w, frame.sides.top + frame.h)
  {
    CornerSums(a, b);
    SidesArranged(b, frame, params, frame.sides.left + frame.w, frame.sides.top + frame.h, Right, Bottom);
  }

  lemma WidenedFrame(area0: Sides, maxPadding: Sides, frame: Frame, params: Params, a: seq<Item>, b: seq<Item>)
    requires AtSides(a, Left, Top) && AtSides(b, Right, Bottom) && Widened(area0, maxPadding, frame, params, a + b)
    ensures Ready(frame, maxPadding, params, a, b, params.padding.left + (frame.sides.left - area0.left),
                  params.padding.top + (frame.sides.top - area0.top))
  {
    WidenedSides(area0, maxPadding, frame, params, a, b);
    if frame.w >= 0.0 && frame.h >= 0.0 {
      FirstArranged(area0, maxPadding, frame, params, a, b);
      SecondArranged(area0, maxPadding, frame, params, a, b);
    }
  }

  lemma CornersDiffer(a: seq<Item>, b: seq<Item>)
    requires AtSides(a, Left, Top) && AtSides(b, Right, Bottom)
    ensures forall i, j | 0 <= i < |a| && 0 <= j < |b| :: a[i].pos != b[j].pos
  {
  }

  /** Places the boxes of both corners, moving to the opposite side of the chart in between. */
  method PlaceAll(first: seq<Box>, second: seq<Box>, area: ChartArea, params: Params,
                  ghost a: seq<Item>, ghost b: seq<Item>)
    requires Distinct(first) && Distinct(second) && Disjoint(first, second)
    requires Counted(Looks(first), a) && Counted(Looks(second), b)
    requires Pen(area.x, area.y, a) == (area.sides.left, area.sides.top)
    modifies first, second, area`x, area`y
    ensures var frame := Frame(area.sides, area.w, area.h);
      && Placed(Looks(first), a, frame, params, old(area.x), old(area.y))
      && Placed(Looks(second), b, frame, params, area.sides.left + area.w, area.sides.top + area.h)
  {
    PlaceBoxes(first, area, params, a);
    area.x := area.x + area.w;
    area.y := area.y + area.h;
    PlaceBoxes(second, area, params, b);
  }

  /** The boxes are fitted by direction, but placed by corner. */
  method PlaceCorners(left: seq<Box>, right: seq<Box>, top: seq<Box>, bottom: seq<Box>, area: ChartArea, params: Params,
                      ghost a: seq<Item>, ghost b: seq<Item>)
    requires AllAt(left, Left) && AllAt(right, Right) && AllAt(top, Top) && AllAt(bottom, Bottom)
    requires Distinct(left + right) && Distinct(top + bottom)
    requires Counted(Looks(left + top), a) && Counted(Looks(right + bottom), b)
    requires Pen(area.x, area.y, a) == (area.sides.left, area.sides.top)
    modifies left + right, top + bottom, area`x, area`y
    ensures var frame := Frame(area.sides, area.w, area.h);
      && Placed(Looks(left + top), a, frame, params, old(area.x), old(area.y))
      && Placed(Looks(right + bottom), b, frame, params, area.sides.left + area.w, area.sides.top + area.h)
  {
    MixedDistinct(left, right, top, bottom);
    PlaceAll(left + top, right + bottom, area, params, a, b);
  }

  /** All sides and the chart area after fitting: they fill the outer size, and the pen is where
      the boxes to be placed will not overlap, wherever the second corner's boxes start. */
  ghost predicate Ready(frame: Frame, maxPadding: Sides, params: Params, a: seq<Item>, b: seq<Item>, x: real, y: real) {
    && AtSides(a, Left, Top) && AtSides(b, Right, Bottom)
    && Fills(frame, params) && Tight(frame, maxPadding, params, a + b)
    && Pen(x, y, a) == (frame.sides.left, frame.sides.top)
    && (frame.w >= 0.0 && frame.h >= 0.0 ==>
          && Arranged(a, frame, params, x, y)
          && Arranged(b, frame, params, frame.sides.left + frame.w, frame.sides.top + frame.h))
  }

  lemma FittedIsReady(left: seq<Box>, right: seq<Box>, top: seq<Box>, bottom: seq<Box>, params: Params,
                      area0: Sides, frame: Frame, a: seq<Item>, b: seq<Item>)
    requires AllAt(left, Left) && AllAt(right, Right) && AllAt(top, Top) && AllAt(bottom, Bottom)
    requires Counted(Looks(left + top), a) && Counted(Looks(right + bottom), b)
    requires SidesGrow(params.padding, area0, a + b)
    requires frame.sides == area0.Max(Widest(Widest(params.padding, left + right), top + bottom))
    requires frame.w == params.outerWidth - (frame.sides.left + frame.sides.right)
    requires frame.h == params.outerHeight - (frame.sides.top + frame.sides.bottom)
    ensures Ready(frame, Widest(Widest(params.padding, left + right), top + bottom), params, a, b,
                  params.padding.left + (frame.sides.left - area0.left),
                  params.padding.top + (frame.sides.top - area0.top))
  {
    ItemsAtSides(a, left, top, Left, Top);
    ItemsAtSides(b, right, bottom, Right, Bottom);
    WidestAtLeast(params.padding, left + right);
    WidestAtLeast(Widest(params.padding, left + right), top + bottom);
    WidenedFrame(area0, Widest(Widest(params.padding, left + right), top + bottom), frame, params, a, b);
  }

  method FitAndWiden(left: seq<Box>, right: seq<Box>, top: seq<Box>, bottom: seq<Box>, params: Params)
    returns (area: ChartArea, ghost a: seq<Item>, ghost b: seq<Item>)
    requires AllAt(left, Left) && AllAt(right, Right) && AllAt(top, Top) && AllAt(bottom, Bottom)
    requires Distinct(left + right) && Distinct(top + bottom) && Unfitted(left + right) && Unfitted(top + bottom)
    modifies left + right, top + bottom
    ensures fresh(area) && Counted(Looks(left + top), a) && Counted(Looks(right + bottom), b)
    ensures Ready(Frame(area.sides, area.w, area.h), area.maxPadding, params, a, b, area.x, area.y)
    ensures area.maxPadding == Widest(Widest(params.padding, left + right), top + bottom)
  {
    area := new ChartArea(params);
    a, b := FitAll(left, right, top, bottom, area, params);
    ghost var area0 := area.sides;
    HandleMaxPadding(area);
    FittedIsReady(left, right, top, bottom, params, area0, Frame(area.sides, area.w, area.h), a, b);
  }

  /** Where a box lies.  Boxes of full width reach from padding to padding, other boxes above and below
      along the chart area, and boxes at the sides along its height; each is as thick as the size
      counted for it, and lies as far from the chart area as the boxes between need. */
  ghost predicate Stands(look: Look, frame: Frame, params: Params, between: real) {
    var bounds, area := look.bounds, AreaRect(frame);
    && bounds.right - bounds.left == look.width && bounds.bottom - bounds.top == look.height
    && match look.pos
       case Left => look.width == look.size && bounds.right + between == area.left && AlongHeight(bounds, area)
       case Right => look.width == look.size && area.right + between == bounds.left && AlongHeight(bounds, area)
       case Top => look.height == look.size && bounds.bottom + between == area.top && AlongWidth(look, area, params)
       case Bottom => look.height == look.size && area.bottom + between == bounds.top && AlongWidth(look, area, params)
  }

  predicate AlongHeight(bounds: Rect, area: Rect) {
    bounds.top == area.top && bounds.bottom == area.bottom
  }

  predicate AlongWidth(look: Look, area: Rect, params: Params) {
    if look.fullWidth then
      look.bounds.left == params.padding.left && look.bounds.right == params.outerWidth - params.padding.right
    else
      look.bounds.left == area.left && look.bounds.right == area.right
  }

  /** The boxes left and above are given from the outside in, those right and below from the inside
      out. */
  function Between(items: seq<Item>, i: nat): real
    requires i < |items|
  {
    var pos := items[i].pos;
    if pos.Left? || pos.Top? then SumAt(items, pos) - SumAt(items[..i + 1], pos) else SumAt(items[..i], pos)
  }

  ghost predicate AllStand(looks: seq<Look>, items: seq<Item>, frame: Frame, params: Params) {
    |looks| == |items| &&
    forall i {:trigger looks[i]} | 0 <= i < |looks| :: Stands(looks[i], frame, params, Between(items, i))
  }

  lemma FirstStand(looks: seq<Look>, items: seq<Item>, frame: Frame, params: Params, x: real, y: real)
    requires Placed(looks, items, frame, params, x, y) && AtSides(items, Left, Top)
    requires Pen(x, y, items) == (frame.sides.left, frame.sides.top)
    ensures AllStand(looks, items, frame, params)
  {
    PenOnSides(items, |items|, Left, Top);
    assert items[..|items|] == items;
    forall i | 0 <= i < |looks| ensures Stands(looks[i], frame, params, Between(items, i)) {
      PenOnSides(items, i, Left, Top);
      assert items[..i + 1][..i] == items[..i];
      assert looks[i].pos == items[i].pos;
    }
  }

  lemma SecondStand(looks: seq<Look>, items: seq<Item>, frame: Frame, params: Params)
    requires Placed(looks, items, frame, params, frame.sides.left + frame.w, frame.sides.top + frame.h)
    requires AtSides(items, Right, Bottom)
    ensures AllStand(looks, items, frame, params)
  {
    forall i | 0 <= i < |looks| ensures Stands(looks[i], frame, params, Between(items, i)) {
      PenOnSides(items, i, Right, Bottom);
      assert looks[i].pos == items[i].pos;
    }
  }

  lemma PlacedWhenReady(first: seq<Look>, second: seq<Look>, a: seq<Item>, b: seq<Item>, frame: Frame,
                        maxPadding: Sides, params: Params, x: real, y: real)
    requires Ready(frame, maxPadding, params, a, b, x, y)
    requires Placed(first, a, frame, params, x, y)
    requires Placed(second, b, frame, params, frame.sides.left + frame.w, frame.sides.top + frame.h)
    ensures Fills(frame, params) && Tight(frame, maxPadding, params, a + b)
    ensures AllStand(first, a, frame, params) && AllStand(second, b, frame, params)
    ensures frame.w >= 0.0 && frame.h >= 0.0 ==> LaidOut(first + second, frame, params)
  {
    FirstStand(first, a, frame, params, x, y);
    SecondStand(second, b, frame, params);
    if frame.w >= 0.0 && frame.h >= 0.0 {
      CornersDiffer(a, b);
      PlacedIsLaidOut(first, second, a, b, frame, params, x, y, frame.sides.left + frame.w, frame.sides.top + frame.h);
    }
  }

  /** `update`: fits all boxes and places them.  Whatever sizes the boxes ask for, the sides and
      the chart area fill the outer size exactly, and each box stands where its side, its size and
      the boxes next to it say; and if the chart area does not turn out negative, all boxes lie
      inside the user's padding, off the chart area and off each other. */
  method Update(left: seq<Box>, right: seq<Box>, top: seq<Box>, bottom: seq<Box>, params: Params)
    returns (area: ChartArea, ghost a: seq<Item>, ghost b: seq<Item>)
    requires AllAt(left, Left) && AllAt(right, Right) && AllAt(top, Top) && AllAt(bottom, Bottom)
    requires Distinct(left + right) && Distinct(top + bottom) && Unfitted(left + right) && Unfitted(top + bottom)
    modifies left + right, top + bottom
    ensures Counted(Looks(left + top), a) && Counted(Looks(right + bottom), b)
    ensures area.maxPadding == Widest(Widest(params.padding, left + right), top + bottom)
    ensures var frame := Frame(area.sides, area.w, area.h);
      && Fills(frame, params) && Tight(frame, area.maxPadding, params, a + b)
      && AllStand(Looks(left + top), a, frame, params) && AllStand(Looks(right + bottom), b, frame, params)
      && (area.w >= 0.0 && area.h >= 0.0 ==> LaidOut(Looks(left + top) + Looks(right + bottom), frame, params))
  {
    area, a, b := FitAndWiden(left, right, top, bottom, params);
    ghost var frame, x, y := Frame(area.sides, area.w, area.h), area.x, area.y;
    PlaceCorners(left, right, top, bottom, area, params, a, b);
    PlacedWhenReady(Looks(left + top), Looks(right + bottom), a, b, frame, area.maxPadding, params, x, y);
  }
}
