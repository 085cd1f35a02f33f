/** The integer colour blends of both trees' `math` modules: `darken_color`,
    `lighten_color` and `overlay_color` on four-byte RGBA colours, and the
    `Direction` enum of the newer tree. Both trees define the blends with
    the same bodies; they are modelled once. */
module Colors {
  import opened Common

  type Byte = x: int | 0 <= x < 256

  datatype Rgba = Rgba(r: Byte, g: Byte, b: Byte, a: Byte)

  /** `Style`: a base colour, an accent and the ratio of the gradient
      between them. */
  datatype Style = Style(color: Rgba, accent: Rgba, ratio: real)

  datatype Direction = Up | Down

  predicate IsDown(d: Direction) { d == Down }
  predicate IsUp(d: Direction) { d == Up }

  /** Every direction is exactly one of up and down. */
  lemma ExactlyOneDirection(d: Direction)
    ensures IsDown(d) != IsUp(d)
  {
  }

  function MinByte(x: Byte, y: Byte): Byte { if x <= y then x else y }
  function MaxByte(x: Byte, y: Byte): Byte { if x >= y then x else y }

  /** `darken_color`: per channel the darker of the two, and the more
      opaque alpha. */
  function Darken(x: Rgba, y: Rgba): (c: Rgba)
    ensures c.r <= x.r && c.r <= y.r && (c.r == x.r || c.r == y.r)
    ensures c.g <= x.g && c.g <= y.g && (c.g == x.g || c.g == y.g)
    ensures c.b <= x.b && c.b <= y.b && (c.b == x.b || c.b == y.b)
    ensures c.a >= x.a && c.a >= y.a && (c.a == x.a || c.a == y.a)
  {
    Rgba(MinByte(x.r, y.r), MinByte(x.g, y.g), MinByte(x.b, y.b), MaxByte(x.a, y.a))
  }

  /** `lighten_color`: per channel the lighter of the two, and the more
      opaque alpha. */
  function Lighten(x: Rgba, y: Rgba): (c: Rgba)
    ensures c.r >= x.r && c.r >= y.r && (c.r == x.r || c.r == y.r)
    ensures c.g >= x.g && c.g >= y.g && (c.g == x.g || c.g == y.g)
    ensures c.b >= x.b && c.b >= y.b && (c.b == x.b || c.b == y.b)
    ensures c.a >= x.a && c.a >= y.a && (c.a == x.a || c.a == y.a)
  {
    Rgba(MaxByte(x.r, y.r), MaxByte(x.g, y.g), MaxByte(x.b, y.b), MaxByte(x.a, y.a))
  }

  lemma DarkenCommutes(x: Rgba, y: Rgba)
    ensures Darken(x, y) == Darken(y, x)
  {
  }

  lemma LightenCommutes(x: Rgba, y: Rgba)
    ensures Lighten(x, y) == Lighten(y, x)
  {
  }

  lemma BlendsIdempotent(x: Rgba)
    ensures Darken(x, x) == x && Lighten(x, x) == x
  {
  }

  /** Darkening never gives a lighter channel than lightening, and both
      agree on alpha. */
  lemma DarkenBelowLighten(x: Rgba, y: Rgba)
    ensures var d, l := Darken(x, y), Lighten(x, y);
            d.r <= l.r && d.g <= l.g && d.b <= l.b && d.a == l.a
  {
  }

  // ---------------------------------------------------------------------
  // Overlay

  /** `u16` multiplication in a debug build: a product past `u16::MAX`
      panics. */
  function MulU16(x: nat, y: nat): (r: Checked<nat>)
    ensures r.Ok? <==> x * y < 65536
    ensures r.Ok? ==> r.value == x * y
  {
    if x * y < 65536 then Ok(x * y) else Panic
  }

  /** `as u8` on a `u16`: keeps the low byte. */
  function LowByte(x: nat): Byte { x % 256 }

  /** `overlay(a, b)` step by step as the source computes it: widen to
      `u16`, multiply, divide by 255, truncate to `u8`, and, on the upper
      branch, subtract from 255 in `u8` (which a byte cannot underflow). */
  function OverlayU16(a: Byte, b: Byte): Checked<Byte>
  {
    if a < 128 then
      match MulU16(2, a)
      case Panic => Panic
      case Ok(twoA) =>
        match MulU16(twoA, b)
        case Panic => Panic
        case Ok(p) => Ok(LowByte(p / 255))
    else
      match MulU16(2, 255 - a)
      case Panic => Panic
      case Ok(twoA) =>
        match MulU16(twoA, 255 - b)
        case Panic => Panic
        case Ok(p) =>
          Ok(255 - LowByte(p / 255))
  }

  /** The overlay blend on exact integers: multiply for dark bases, screen
      for light ones. */
  function Overlay(a: Byte, b: Byte): (r: int)
  {
    if a < 128 then (2 * a * b) / 255 else 255 - (2 * (255 - a) * (255 - b)) / 255
  }

  lemma MulMono(x: nat, y: nat, hx: nat, hy: nat)
    requires x <= hx && y <= hy
    ensures x * y <= hx * hy
  {
    assert x * y <= hx * y;
    assert hx * y <= hx * hy;
  }

  /** The `u16` arithmetic never overflows, the quotient fits a byte so the
      cast loses nothing, and the final subtraction never underflows: the
      step-by-step computation always succeeds and equals the exact blend,
      which lies in `[0, 255]`. */
  lemma OverlayExact(a: Byte, b: Byte)
    ensures OverlayU16(a, b).Ok?
    ensures OverlayU16(a, b).value == Overlay(a, b)
    ensures 0 <= Overlay(a, b) <= 255
  {
    if a < 128 {
      MulMono(2 * a, b, 254, 255);
      assert 2 * a * b <= 64770;
      assert (2 * a * b) / 255 <= 254;
    } else {
      var x, y := 255 - a, 255 - b;
      MulMono(2 * x, y, 254, 255);
      assert 2 * x * y <= 64770;
      assert (2 * x * y) / 255 <= 254;
    }
  }

  /** Black overlays to black and white to white, whatever the top
      layer. */
  lemma OverlayFixesExtremes(b: Byte)
    ensures Overlay(0, b) == 0 && Overlay(255, b) == 255
  {
  }

  /** Overlay commutes with inverting both layers: the screen half is the
      multiply half seen through the negative. */
  lemma OverlayInverts(a: Byte, b: Byte)
    ensures Overlay(255 - a, 255 - b) == 255 - Overlay(a, b)
  {
  }

  /** A lighter top layer never darkens the result. */
  lemma OverlayMonotone(a: Byte, b: Byte, b': Byte)
    requires b <= b'
    ensures Overlay(a, b) <= Overlay(a, b')
  {
    if a < 128 {
      MulMono(2 * a, b, 2 * a, b');
      Div255Mono(2 * a * b, 2 * a * b');
    } else {
      MulMono(2 * (255 - a), 255 - b', 2 * (255 - a), 255 - b);
      Div255Mono(2 * (255 - a) * (255 - b'), 2 * (255 - a) * (255 - b));
    }
  }

  lemma Div255Mono(x: nat, y: nat)
    requires x <= y
    ensures x / 255 <= y / 255
  {
  }

  /** `overlay_color`: overlay per colour channel, the more opaque alpha. */
  function OverlayColor(x: Rgba, y: Rgba): (c: Rgba)
    ensures Checked.Ok(c.r) == OverlayU16(x.r, y.r) && Checked.Ok(c.g) == OverlayU16(x.g, y.g)
    ensures Checked.Ok(c.b) == OverlayU16(x.b, y.b)
    ensures c.a >= x.a && c.a >= y.a && (c.a == x.a || c.a == y.a)
  {
    OverlayExact(x.r, y.r);
    OverlayExact(x.g, y.g);
    OverlayExact(x.b, y.b);
    Rgba(Overlay(x.r, y.r), Overlay(x.g, y.g), Overlay(x.b, y.b), MaxByte(x.a, y.a))
  }
}
