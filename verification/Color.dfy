/** Conversions between colour models, over the reals: `convert.rgb.*` and their inverses. */
module Color {
  /** Channels from 0 to 255. */
  datatype Rgb = Rgb(r: real, g: real, b: real)

  /** Hues in degrees, everything else in per cent. */
  datatype Hsl = Hsl(h: real, s: real, l: real)
  datatype Hsv = Hsv(h: real, s: real, v: real)
  datatype Hwb = Hwb(h: real, w: real, b: real)

  function Smaller(a: real, b: real): real { if a <= b then a else b }

  function Larger(a: real, b: real): real { if a >= b then a else b }

  predicate InRange(c: Rgb) {
    0.0 <= c.r <= 255.0 && 0.0 <= c.g <= 255.0 && 0.0 <= c.b <= 255.0
  }

  predicate Unit(c: Rgb) {
    0.0 <= c.r <= 1.0 && 0.0 <= c.g <= 1.0 && 0.0 <= c.b <= 1.0
  }

  function Over255(c: Rgb): Rgb { Rgb(c.r / 255.0, c.g / 255.0, c.b / 255.0) }

  function Times255(c: Rgb): Rgb { Rgb(c.r * 255.0, c.g * 255.0, c.b * 255.0) }

  function Low(c: Rgb): real { Smaller(Smaller(c.r, c.g), c.b) }

  function High(c: Rgb): real { Larger(Larger(c.r, c.g), c.b) }

  function Spread(c: Rgb): real { High(c) - Low(c) }

  // ----- The conversions

  function RgbToHsl(rgb: Rgb): Hsl
    requires InRange(rgb)
  {
    var c := Over255(rgb);
    var min, max, delta := Low(c), High(c), Spread(c);
    var sixth :=
      if max == min then 0.0
      else if c.r == max then (c.g - c.b) / delta
      else if c.g == max then 2.0 + (c.b - c.r) / delta
      else 4.0 + (c.r - c.g) / delta;
    var h := Smaller(sixth * 60.0, 360.0);
    var l := (min + max) / 2.0;
    var s :=
      if max == min then 0.0
      else if l <= 0.5 then delta / (max + min)
      else delta / (2.0 - max - min);
    Hsl(if h < 0.0 then h + 360.0 else h, s * 100.0, l * 100.0)
  }

  /** One channel, from its place on the colour wheel. */
  function Channel(t1: real, t2: real, place: real): real {
    var t := if place < 0.0 then place + 1.0 else place;
    var t3 := if t > 1.0 then t - 1.0 else t;
    if 6.0 * t3 < 1.0 then t1 + (t2 - t1) * 6.0 * t3
    else if 2.0 * t3 < 1.0 then t2
    else if 3.0 * t3 < 2.0 then t1 + (t2 - t1) * (2.0 / 3.0 - t3) * 6.0
    else t1
  }

  function Upper(s: real, l: real): real {
    if l < 0.5 then l * (1.0 + s) else l + s - l * s
  }

  function HslToRgb(hsl: Hsl): Rgb {
    var h, s, l := hsl.h / 360.0, hsl.s / 100.0, hsl.l / 100.0;
    if s == 0.0 then
      Rgb(l * 255.0, l * 255.0, l * 255.0)
    else
      var t2 := Upper(s, l);
      var t1 := 2.0 * l - t2;
      Times255(Rgb(Channel(t1, t2, h + 1.0 / 3.0), Channel(t1, t2, h), Channel(t1, t2, h - 1.0 / 3.0)))
  }

  /** The loop of `hsl.rgb` over the three channels. */
  method ConvertHslToRgb(hsl: Hsl) returns (rgb: seq<real>)
    ensures rgb == Channels(HslToRgb(hsl))
  {
    var h, s, l := hsl.h / 360.0, hsl.s / 100.0, hsl.l / 100.0;
    if s == 0.0 {
      var val := l * 255.0;
      return [val, val, val];
    }
    var t2 := Upper(s, l);
    var t1 := 2.0 * l - t2;
    rgb := [0.0, 0.0, 0.0];
    for i := 0 to 3
      invariant |rgb| == 3 && forall k | 0 <= k < i :: rgb[k] == Channel(t1, t2, PlaceOf(h, k)) * 255.0
    {
      var t3 := h + 1.0 / 3.0 * -(i as real - 1.0);
      assert t3 == PlaceOf(h, i);
      rgb := rgb[i := Channel(t1, t2, t3) * 255.0];
    }
  }

  function PlaceOf(h: real, k: int): real {
    if k == 0 then h + 1.0 / 3.0 else if k == 1 then h else h - 1.0 / 3.0
  }

  function Channels(c: Rgb): seq<real> {
    [c.r, c.g, c.b]
  }

  function DiffC(v: real, diff: real, c: real): real
    requires diff != 0.0
  {
    (v - c) / 6.0 / diff + 1.0 / 2.0
  }

  function RgbToHsv(rgb: Rgb): Hsv
    requires InRange(rgb)
  {
    var c := Over255(rgb);
    var v, diff := High(c), Spread(c);
    if diff == 0.0 then Hsv(0.0, 0.0, v * 100.0)
    else
      var rdif, gdif, bdif := DiffC(v, diff, c.r), DiffC(v, diff, c.g), DiffC(v, diff, c.b);
      var h :=
        if c.r == v then bdif - gdif
        else if c.g == v then 1.0 / 3.0 + rdif - bdif
        else 2.0 / 3.0 + gdif - rdif;
      var turn := if h < 0.0 then h + 1.0 else if h > 1.0 then h - 1.0 else h;
      Hsv(turn * 360.0, diff / v * 100.0, v * 100.0)
  }

  function HsvToRgb(hsv: Hsv): Rgb {
    FromHsv(hsv.h / 60.0, hsv.s / 100.0, hsv.v / 100.0)
  }

  function FromHsv(h: real, s: real, v: real): Rgb {
    var hi := h.Floor % 6;
    var f := h - h.Floor as real;
    var p := 255.0 * v * (1.0 - s);
    var q := 255.0 * v * (1.0 - s * f);
    var t := 255.0 * v * (1.0 - s * (1.0 - f));
    HsvSector(hi, v * 255.0, p, q, t)
  }

  function HsvSector(hi: int, w: real, p: real, q: real, t: real): Rgb {
    match hi
    case 0 => Rgb(w, t, p)
    case 1 => Rgb(q, w, p)
    case 2 => Rgb(p, w, t)
    case 3 => Rgb(p, q, w)
    case 4 => Rgb(t, p, w)
    case _ => Rgb(w, p, q)
  }

  function RgbToHwb(rgb: Rgb): Hwb
    requires InRange(rgb)
  {
    Hwb(RgbToHsl(rgb).h, 1.0 / 255.0 * Low(rgb) * 100.0, (1.0 - 1.0 / 255.0 * High(rgb)) * 100.0)
  }

  function HwbToRgb(hwb: Hwb): Rgb {
    var h, w, k := hwb.h / 360.0, hwb.w / 100.0, hwb.b / 100.0;
    var ratio := w + k;
    if ratio > 1.0 then FromHwb(h, w / ratio, k / ratio) else FromHwb(h, w, k)
  }

  function FromHwb(h: real, wh: real, bl: real): Rgb {
    var i := (6.0 * h).Floor;
    var v := 1.0 - bl;
    var part := 6.0 * h - i as real;
    var f := if i % 2 != 0 then 1.0 - part else part;
    var n := wh + f * (v - wh);
    Times255(HwbSector(i, v, n, wh))
  }

  function HwbSector(i: int, v: real, n: real, wh: real): Rgb {
    match i
    case 1 => Rgb(n, v, wh)
    case 2 => Rgb(wh, v, n)
    case 3 => Rgb(wh, n, v)
    case 4 => Rgb(n, wh, v)
    case 5 => Rgb(v, wh, n)
    case _ => Rgb(v, n, wh)
  }

  // ----- The colour wheel

  function Mix(lo: real, hi: real, f: real): real {
    lo + f * (hi - lo)
  }

  /** The colour with the given hue, in sixths of a turn, and the given smallest and largest
      channel: going round the wheel, one channel at a time moves from one end to the other. */
  function Wheel(h: real, lo: real, hi: real): Rgb {
    InSector(h.Floor, h - h.Floor as real, lo, hi)
  }

  function InSector(i: int, f: real, lo: real, hi: real): Rgb {
    match i
    case 0 => Rgb(hi, Mix(lo, hi, f), lo)
    case 1 => Rgb(Mix(lo, hi, 1.0 - f), hi, lo)
    case 2 => Rgb(lo, hi, Mix(lo, hi, f))
    case 3 => Rgb(lo, Mix(lo, hi, 1.0 - f), hi)
    case 4 => Rgb(Mix(lo, hi, f), lo, hi)
    case _ => Rgb(hi, lo, Mix(lo, hi, 1.0 - f))
  }

  /** The sectors join. */
  lemma WheelInSector(i: nat, f: real, lo: real, hi: real)
    requires 0.0 <= f <= 1.0 && i as real + f < 6.0
    ensures Wheel(i as real + f, lo, hi) == InSector(i, f, lo, hi)
  {
    if f < 1.0 {
      assert (i as real + f).Floor == i;
    } else {
      assert (i as real + f).Floor == i + 1;
    }
  }

  /** The hue of a colour that is not grey, in sixths of a turn. */
  function Hue(c: Rgb): real
    requires Spread(c) > 0.0
  {
    var max, delta := High(c), Spread(c);
    if c.r == max then
      if c.g >= c.b then (c.g - c.b) / delta else 6.0 - (c.b - c.g) / delta
    else if c.g == max then
      if c.b >= c.r then 2.0 + (c.b - c.r) / delta else 2.0 - (c.r - c.b) / delta
    else
      if c.r >= c.g then 4.0 + (c.r - c.g) / delta else 4.0 - (c.g - c.r) / delta
  }

  lemma Share(x: real, delta: real)
    requires 0.0 <= x <= delta && delta > 0.0
    ensures 0.0 <= x / delta <= 1.0 && x / delta * delta == x
    ensures x > 0.0 ==> x / delta > 0.0
  {
  }

  lemma MixShare(lo: real, hi: real, x: real)
    requires 0.0 <= x <= hi - lo && hi > lo
    ensures Mix(lo, hi, x / (hi - lo)) == lo + x
  {
    Share(x, hi - lo);
  }

  lemma RisingOnWheel(i: nat, lo: real, hi: real, x: real)
    requires i % 2 == 0 && i <= 4 && 0.0 <= x <= hi - lo && hi > lo
    ensures i as real <= i as real + x / (hi - lo) <= (i + 1) as real
    ensures Wheel(i as real + x / (hi - lo), lo, hi)
         == if i == 0 then Rgb(hi, lo + x, lo) else if i == 2 then Rgb(lo, hi, lo + x) else Rgb(lo + x, lo, hi)
  {
    Share(x, hi - lo);
    MixShare(lo, hi, x);
    WheelInSector(i, x / (hi - lo), lo, hi);
  }

  lemma FallingOnWheel(i: nat, lo: real, hi: real, x: real)
    requires i % 2 == 0 && 2 <= i <= 6 && 0.0 < x <= hi - lo
    ensures (i - 1) as real <= i as real - x / (hi - lo) < i as real
    ensures Wheel(i as real - x / (hi - lo), lo, hi)
         == if i == 2 then Rgb(lo + x, hi, lo) else if i == 4 then Rgb(lo, lo + x, hi) else Rgb(hi, lo, lo + x)
  {
    var f := x / (hi - lo);
    Share(x, hi - lo);
    MixShare(lo, hi, x);
    WheelInSector(i - 1, 1.0 - f, lo, hi);
    assert (i - 1) as real + (1.0 - f) == i as real - f;
    assert 1.0 - (1.0 - f) == f;
  }

  /** Every colour lies at its hue on the wheel. */
  lemma WheelAtHue(c: Rgb)
    requires Spread(c) > 0.0
    ensures 0.0 <= Hue(c) < 6.0 && Wheel(Hue(c), Low(c), High(c)) == c
  {
    var lo, hi := Low(c), High(c);
    if c.r == hi {
      if c.g >= c.b { RisingOnWheel(0, lo, hi, c.g - c.b); } else { FallingOnWheel(6, lo, hi, c.b - c.g); }
    } else if c.g == hi {
      if c.b >= c.r { RisingOnWheel(2, lo, hi, c.b - c.r); } else { FallingOnWheel(2, lo, hi, c.r - c.b); }
    } else {
      if c.r >= c.g { RisingOnWheel(4, lo, hi, c.r - c.g); } else { FallingOnWheel(4, lo, hi, c.g - c.r); }
    }
  }

  lemma BackToBytes(rgb: Rgb)
    ensures Times255(Over255(rgb)) == rgb
  {
  }

  // ----- HSL

  /** The three channels of `hsl.rgb` lie a third of a turn apart on the wheel. */
  lemma ChannelsMakeWheel(t1: real, t2: real, h: real)
    requires 0.0 <= h < 6.0
    ensures Rgb(Channel(t1, t2, h / 6.0 + 1.0 / 3.0), Channel(t1, t2, h / 6.0), Channel(t1, t2, h / 6.0 - 1.0 / 3.0))
         == Wheel(h, t1, t2)
  {
    ChannelOnWheel(t1, t2, h / 6.0 + 1.0 / 3.0);
    ChannelOnWheel(t1, t2, h / 6.0);
    ChannelOnWheel(t1, t2, h / 6.0 - 1.0 / 3.0);
  }

  function Ramp(u: real): real {
    if u < 1.0 then u else if u < 3.0 then 1.0 else if u < 4.0 then 4.0 - u else 0.0
  }

  lemma ChannelOnWheel(t1: real, t2: real, place: real)
    requires -1.0 / 3.0 <= place <= 4.0 / 3.0
    ensures var u := if place < 0.0 then place * 6.0 + 6.0 else if place > 1.0 then place * 6.0 - 6.0 else place * 6.0;
      Channel(t1, t2, place) == Mix(t1, t2, Ramp(u))
  {
  }

  lemma WheelOfGrey(h: real, l: real)
    ensures Wheel(h, l, l) == Rgb(l, l, l)
  {
  }

  /** Whatever the hue, saturation and lightness: `hsl.rgb` is a point of the wheel. */
  lemma HslIsWheel(hsl: Hsl)
    requires 0.0 <= hsl.h < 360.0
    ensures var s, l := hsl.s / 100.0, hsl.l / 100.0;
      HslToRgb(hsl) == Times255(Wheel(hsl.h / 60.0, 2.0 * l - Upper(s, l), Upper(s, l)))
  {
    var s, l := hsl.s / 100.0, hsl.l / 100.0;
    if s == 0.0 {
      WheelOfGrey(hsl.h / 60.0, l);
    } else {
      ChannelsMakeWheel(2.0 * l - Upper(s, l), Upper(s, l), hsl.h / 60.0);
    }
  }

  /** The hue as the conversions compute it, in sixths of a turn: negative in the last sector. */
  function Sixths(c: Rgb): real
    requires Spread(c) > 0.0
  {
    var max, delta := High(c), Spread(c);
    if c.r == max then (c.g - c.b) / delta
    else if c.g == max then 2.0 + (c.b - c.r) / delta
    else 4.0 + (c.r - c.g) / delta
  }

  lemma SignedShare(x: real, y: real, delta: real)
    requires delta > 0.0 && -delta <= x - y <= delta
    ensures (x - y) / delta == if x >= y then (x - y) / delta else -((y - x) / delta)
    ensures -1.0 <= (x - y) / delta <= 1.0 && ((x - y) / delta < 0.0 <==> x < y)
  {
    Share(if x >= y then x - y else y - x, delta);
  }

  lemma HueFromSixths(c: Rgb)
    requires Spread(c) > 0.0
    ensures -1.0 <= Sixths(c) <= 5.0
    ensures Hue(c) == if Sixths(c) < 0.0 then Sixths(c) + 6.0 else Sixths(c)
  {
    SignedShare(c.g, c.b, Spread(c));
    SignedShare(c.b, c.r, Spread(c));
    SignedShare(c.r, c.g, Spread(c));
  }

  lemma HslHue(rgb: Rgb)
    requires InRange(rgb)
    ensures Spread(Over255(rgb)) == 0.0 ==> RgbToHsl(rgb).h == 0.0
    ensures Spread(Over255(rgb)) > 0.0 ==> RgbToHsl(rgb).h == 60.0 * Hue(Over255(rgb))
  {
    if Spread(Over255(rgb)) > 0.0 { HueFromSixths(Over255(rgb)); }
  }

  lemma UpperIsHigh(min: real, max: real)
    requires 0.0 <= min < max <= 1.0
    ensures var l := (min + max) / 2.0;
      var s := if l <= 0.5 then (max - min) / (max + min) else (max - min) / (2.0 - max - min);
      s > 0.0 && Upper(s, l) == max
  {
    var l, delta := (min + max) / 2.0, max - min;
    if l <= 0.5 {
      Quotient(delta, max + min);
      assert l * (delta / (max + min)) == delta / 2.0;
    } else {
      Quotient(delta, 2.0 - max - min);
      assert (1.0 - l) * (delta / (2.0 - max - min)) == delta / 2.0;
    }
  }

  lemma Quotient(x: real, y: real)
    requires x > 0.0 && y > 0.0
    ensures x / y > 0.0 && y * (x / y) == x
  {
  }

  lemma ExtremesFromHsl(rgb: Rgb)
    requires InRange(rgb)
    ensures var hsl, c := RgbToHsl(rgb), Over255(rgb);
      && Upper(hsl.s / 100.0, hsl.l / 100.0) == High(c)
      && 2.0 * (hsl.l / 100.0) - High(c) == Low(c)
      && (hsl.s == 0.0 <==> Spread(c) == 0.0)
  {
    var c := Over255(rgb);
    if Spread(c) > 0.0 { UpperIsHigh(Low(c), High(c)); }
  }

  lemma HslRoundTrip(rgb: Rgb)
    requires InRange(rgb)
    ensures HslToRgb(RgbToHsl(rgb)) == rgb
  {
    var c := Over255(rgb);
    HslHue(rgb);
    ExtremesFromHsl(rgb);
    if Spread(c) > 0.0 {
      WheelAtHue(c);
      HslIsWheel(RgbToHsl(rgb));
    }
  }

  // ----- HSV

  lemma Shade(v: real, s: real, f: real)
    ensures 255.0 * v * (1.0 - s * f) == Mix(v * (1.0 - s), v, 1.0 - f) * 255.0
    ensures 255.0 * v * (1.0 - s * (1.0 - f)) == Mix(v * (1.0 - s), v, f) * 255.0
  {
    var vs := v * s;
    assert v * (1.0 - s) == v - vs;
    assert v * (s * f) == vs * f;
    assert v * (s * (1.0 - f)) == vs * (1.0 - f);
  }

  /** Whatever the hue, saturation and value, `hsv.rgb` is a point of the wheel. */
  lemma FromHsvIsWheel(h: real, s: real, v: real)
    requires 0.0 <= h < 6.0
    ensures FromHsv(h, s, v) == Times255(Wheel(h, v * (1.0 - s), v))
  {
    var f := h - h.Floor as real;
    Shade(v, s, f);
    HsvSectorIs(h.Floor, f, v * (1.0 - s), v, 255.0 * v * (1.0 - s * f), 255.0 * v * (1.0 - s * (1.0 - f)));
  }

  lemma HsvSectorIs(i: int, f: real, lo: real, v: real, q: real, t: real)
    requires 0 <= i < 6 && q == Mix(lo, v, 1.0 - f) * 255.0 && t == Mix(lo, v, f) * 255.0
    ensures HsvSector(i % 6, v * 255.0, 255.0 * lo, q, t) == Times255(InSector(i, f, lo, v))
  {
  }

  lemma DiffsSubtract(v: real, diff: real, x: real, y: real)
    requires diff > 0.0
    ensures DiffC(v, diff, x) - DiffC(v, diff, y) == (y - x) / diff / 6.0
  {
  }

  lemma HsvHue(rgb: Rgb)
    requires InRange(rgb)
    ensures Spread(Over255(rgb)) == 0.0 ==> RgbToHsv(rgb).h == 0.0
    ensures Spread(Over255(rgb)) > 0.0 ==> RgbToHsv(rgb).h == 60.0 * Hue(Over255(rgb))
  {
    var c := Over255(rgb);
    if Spread(c) > 0.0 {
      var v, diff := High(c), Spread(c);
      HueFromSixths(c);
      DiffsSubtract(v, diff, c.b, c.g);
      DiffsSubtract(v, diff, c.r, c.b);
      DiffsSubtract(v, diff, c.g, c.r);
    }
  }

  /** All three models speak of the same hue. */
  lemma HuesAgree(rgb: Rgb)
    requires InRange(rgb)
    ensures RgbToHsv(rgb).h == RgbToHsl(rgb).h == RgbToHwb(rgb).h
  {
    HsvHue(rgb);
    HslHue(rgb);
  }

  lemma LowFromHsv(v: real, diff: real)
    requires v > 0.0
    ensures v * (1.0 - diff / v) == v - diff
  {
  }

  lemma ExtremesFromHsv(rgb: Rgb)
    requires InRange(rgb)
    ensures var hsv, c := RgbToHsv(rgb), Over255(rgb);
      hsv.v / 100.0 == High(c) && hsv.v / 100.0 * (1.0 - hsv.s / 100.0) == Low(c)
  {
    var c := Over255(rgb);
    if Spread(c) > 0.0 {
      LowFromHsv(High(c), Spread(c));
      assert RgbToHsv(rgb).s / 100.0 == Spread(c) / High(c);
    }
  }

  /** The value and saturation give the extremes of the colour, and the hue its place on the wheel. */
  ghost predicate HsvShows(h: real, s: real, v: real, c: Rgb) {
    0.0 <= h < 6.0 && v == High(c) && v * (1.0 - s) == Low(c) && Wheel(h, Low(c), High(c)) == c
  }

  lemma HsvShown(h: real, s: real, v: real, c: Rgb)
    requires HsvShows(h, s, v, c)
    ensures FromHsv(h, s, v) == Times255(c)
  {
    FromHsvIsWheel(h, s, v);
  }

  lemma RgbToHsvShows(rgb: Rgb)
    requires InRange(rgb)
    ensures var hsv := RgbToHsv(rgb); HsvShows(hsv.h / 60.0, hsv.s / 100.0, hsv.v / 100.0, Over255(rgb))
  {
    var c := Over255(rgb);
    HsvHue(rgb);
    ExtremesFromHsv(rgb);
    if Spread(c) > 0.0 {
      WheelAtHue(c);
    } else {
      WheelOfGrey(0.0, Low(c));
    }
  }

  lemma HsvRoundTrip(rgb: Rgb)
    requires InRange(rgb)
    ensures HsvToRgb(RgbToHsv(rgb)) == rgb
  {
    RgbToHsvShows(rgb);
    var hsv := RgbToHsv(rgb);
    HsvShown(hsv.h / 60.0, hsv.s / 100.0, hsv.v / 100.0, Over255(rgb));
    BackToBytes(rgb);
  }

  // ----- HWB

  lemma HwbSectorIs(i: int, part: real, wh: real, v: real)
    requires 0 <= i < 6
    ensures var f := if i % 2 != 0 then 1.0 - part else part;
      HwbSector(i, v, wh + f * (v - wh), wh) == InSector(i, part, wh, v)
  {
  }

  lemma FromHwbIsWheel(h: real, wh: real, bl: real)
    requires 0.0 <= h < 1.0
    ensures FromHwb(h, wh, bl) == Times255(Wheel(6.0 * h, wh, 1.0 - bl))
  {
    HwbSectorIs((6.0 * h).Floor, 6.0 * h - (6.0 * h).Floor as real, wh, 1.0 - bl);
  }

  lemma HwbIsWheel(hwb: Hwb)
    requires 0.0 <= hwb.h < 360.0 && hwb.w + hwb.b <= 100.0
    ensures HwbToRgb(hwb) == Times255(Wheel(hwb.h / 60.0, hwb.w / 100.0, 1.0 - hwb.b / 100.0))
  {
    FromHwbIsWheel(hwb.h / 360.0, hwb.w / 100.0, hwb.b / 100.0);
    assert 6.0 * (hwb.h / 360.0) == hwb.h / 60.0;
  }

  lemma Parts(x: real, y: real)
    requires x + y > 0.0
    ensures x / (x + y) + y / (x + y) == 1.0
  {
  }

  /** More white and black than fits leaves a grey of their proportion. */
  lemma HwbOverfull(hwb: Hwb)
    requires hwb.w + hwb.b > 100.0
    ensures var grey := hwb.w / (hwb.w + hwb.b) * 255.0;
      HwbToRgb(hwb) == Rgb(grey, grey, grey)
  {
    var w, k := hwb.w / 100.0, hwb.b / 100.0;
    Parts(w, k);
    assert hwb.w / (hwb.w + hwb.b) == w / (w + k);
  }

  lemma ExtremesFromHwb(rgb: Rgb)
    requires InRange(rgb)
    ensures var hwb, c := RgbToHwb(rgb), Over255(rgb);
      hwb.w / 100.0 == Low(c) && 1.0 - hwb.b / 100.0 == High(c) && hwb.w + hwb.b <= 100.0
  {
  }

  lemma HwbRoundTrip(rgb: Rgb)
    requires InRange(rgb)
    ensures HwbToRgb(RgbToHwb(rgb)) == rgb
  {
    var c := Over255(rgb);
    HslHue(rgb);
    ExtremesFromHwb(rgb);
    if Spread(c) > 0.0 {
      WheelAtHue(c);
    } else {
      WheelOfGrey(0.0, Low(c));
    }
    HwbIsWheel(RgbToHwb(rgb));
    BackToBytes(rgb);
  }

  // ----- Known colours

  /** Red, green and blue are a third of the wheel apart, and as strong as colours can be. */
  lemma Primaries()
    ensures RgbToHsv(Rgb(255.0, 0.0, 0.0)) == Hsv(0.0, 100.0, 100.0)
    ensures RgbToHsv(Rgb(0.0, 255.0, 0.0)) == Hsv(120.0, 100.0, 100.0)
    ensures RgbToHsv(Rgb(0.0, 0.0, 255.0)) == Hsv(240.0, 100.0, 100.0)
  {
    assert Over255(Rgb(255.0, 0.0, 0.0)) == Rgb(1.0, 0.0, 0.0);
    assert Over255(Rgb(0.0, 255.0, 0.0)) == Rgb(0.0, 1.0, 0.0);
    assert Over255(Rgb(0.0, 0.0, 255.0)) == Rgb(0.0, 0.0, 1.0);
  }

  /** A grey has no saturation, and its share of white as lightness, value and whiteness. */
  lemma Greys(x: real)
    requires 0.0 <= x <= 255.0
    ensures var share := x / 255.0 * 100.0;
      && RgbToHsl(Rgb(x, x, x)) == Hsl(0.0, 0.0, share)
      && RgbToHsv(Rgb(x, x, x)) == Hsv(0.0, 0.0, share)
      && RgbToHwb(Rgb(x, x, x)) == Hwb(0.0, share, 100.0 - share)
  {
  }
}
