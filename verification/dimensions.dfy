/** The per-script dimension constants and the plate sizing heuristic
    (`calculate_text_width` and `calculate_plate_width`). The text width is a
    per-character estimate, not a measured text extent. */
module Dimensions {

  /** The fields the scripts set in `__init__`, in millimetres except the
      font size (points); `charFactor` is the per-point character width of
      `calculate_text_width`. */
  datatype Dims = Dims(
    baseHeight: real,
    baseThickness: real,
    textHeight: real,
    fontSize: nat,
    charFactor: real,
    minWidth: nat,
    margin: nat)

  /** generate_bambu_3mf.py: base and text as parts of a component object. */
  const ComponentDims := Dims(11.0, 1.25, 0.6, 5, 0.75, 30, 5)

  /** generate_nameplates.py: one merged mesh painted by height. */
  const PaintedDims := Dims(13.5, 2.0, 1.2, 9, 0.7, 40, 7)

  /** generate_all_nameplates.py: base and text as two separate objects. */
  const SeparateDims := Dims(22.0, 2.5, 1.2, 10, 0.6, 60, 8)

  /** The shape every script's constants have: a minimum width on the 5 mm
      grid that already holds both margins, and a non-negative character
      width. */
  predicate Sensible(d: Dims)
  {
    d.minWidth % 5 == 0 && 2 * d.margin <= d.minWidth && d.charFactor >= 0.0
  }

  /** Python's `round` on a float: to the nearest integer, ties to even. */
  function RoundHalfEven(x: real): (r: int)
    ensures -0.5 <= r as real - x <= 0.5
    ensures r as real - x == 0.5 || r as real - x == -0.5 ==> r % 2 == 0
  {
    var f := x.Floor;
    var d := x - f as real;
    if d < 0.5 then f
    else if d > 0.5 then f + 1
    else if f % 2 == 0 then f
    else f + 1
  }

  function CharWidth(d: Dims): real
  {
    d.fontSize as real * d.charFactor
  }

  /** `calculate_text_width(name, self.font_size)`. */
  function TextWidth(d: Dims, text: string): real
  {
    |text| as real * CharWidth(d)
  }

  /** The width before rounding: text width plus both margins, clamped from
      below by the minimum width. */
  function ClampedWidth(d: Dims, name: string): real
  {
    var raw := TextWidth(d, name) + 2.0 * d.margin as real;
    if raw < d.minWidth as real then d.minWidth as real else raw
  }

  /** `calculate_plate_width(name)`: clamp, then `round(w / 5) * 5`. */
  function PlateWidth(d: Dims, name: string): int
  {
    RoundHalfEven(ClampedWidth(d, name) / 5.0) * 5
  }

  /** Rounding an integer gives it back. */
  lemma RoundIntegral(n: int)
    ensures RoundHalfEven(n as real) == n
  {
    assert (n as real).Floor == n;
  }

  /** Rounding is monotone. */
  lemma {:induction false} RoundMonotone(x: real, y: real)
    requires x <= y
    ensures RoundHalfEven(x) <= RoundHalfEven(y)
  {
    var fx, fy := x.Floor, y.Floor;
    if fx < fy {
      assert RoundHalfEven(x) <= fx + 1 <= fy <= RoundHalfEven(y);
    } else {
      assert fx == fy;
    }
  }

  lemma NonNegativeProduct(a: real, b: real)
    requires a >= 0.0 && b >= 0.0
    ensures a * b >= 0.0
  {
  }

  /** The plate width is a multiple of 5, never below the minimum, and within
      2.5 mm of the clamped estimate. */
  lemma PlateWidthBounds(d: Dims, name: string)
    requires Sensible(d)
    ensures PlateWidth(d, name) % 5 == 0
    ensures PlateWidth(d, name) >= d.minWidth
    ensures -2.5 <= PlateWidth(d, name) as real - ClampedWidth(d, name) <= 2.5
  {
    var c := ClampedWidth(d, name);
    var q := d.minWidth / 5;
    assert (q as real) <= c / 5.0;
    RoundMonotone(q as real, c / 5.0);
    RoundIntegral(q);
  }

  /** An empty name gets exactly the minimum width. */
  lemma PlateWidthEmpty(d: Dims)
    requires Sensible(d)
    ensures PlateWidth(d, "") == d.minWidth
  {
    var q := d.minWidth / 5;
    assert ClampedWidth(d, "") / 5.0 == q as real;
    RoundIntegral(q);
  }

  /** A longer name never gets a narrower plate. */
  lemma PlateWidthMonotone(d: Dims, shorter: string, longer: string)
    requires d.charFactor >= 0.0
    requires |shorter| <= |longer|
    ensures PlateWidth(d, shorter) <= PlateWidth(d, longer)
  {
    var gap := |longer| as real - |shorter| as real;
    assert CharWidth(d) >= 0.0 by {
      NonNegativeProduct(d.fontSize as real, d.charFactor);
    }
    assert TextWidth(d, longer) - TextWidth(d, shorter) == gap * CharWidth(d);
    NonNegativeProduct(gap, CharWidth(d));
    RoundMonotone(ClampedWidth(d, shorter) / 5.0, ClampedWidth(d, longer) / 5.0);
  }

  /** The three scripts' constants are all sensible. */
  lemma ScriptsSensible()
    ensures Sensible(ComponentDims) && Sensible(PaintedDims) && Sensible(SeparateDims)
  {
  }

  /** generate_bambu_3mf.py: a multiple of 5, at least 30, and within 2.5 of
      max(len(name) * 5 * 0.75 + 2 * 5, 30). */
  lemma ComponentPlateWidth(name: string)
    ensures PlateWidth(ComponentDims, name) % 5 == 0 && PlateWidth(ComponentDims, name) >= 30
    ensures var est := |name| as real * 3.75 + 10.0;
      var clamped := if est < 30.0 then 30.0 else est;
      -2.5 <= PlateWidth(ComponentDims, name) as real - clamped <= 2.5
  {
    PlateWidthBounds(ComponentDims, name);
  }

  /** generate_bambu_3mf.py, a tie: six characters give 32.5 mm, 32.5 / 5 =
      6.5 rounds to the even 6, so the plate is 30 mm, where rounding half
      up would give 35 mm. */
  lemma ComponentPlateWidthTie(name: string)
    requires |name| == 6
    ensures ClampedWidth(ComponentDims, name) == 32.5
    ensures PlateWidth(ComponentDims, name) == 30
    ensures (ClampedWidth(ComponentDims, name) / 5.0 + 0.5).Floor * 5 == 35
  {
    assert ClampedWidth(ComponentDims, name) / 5.0 == 6.5;
    assert (6.5).Floor == 6;
    assert (7.0).Floor == 7;
  }

  /** generate_nameplates.py: a multiple of 5, at least 40, and within 2.5 of
      max(len(name) * 9 * 0.7 + 2 * 7, 40). */
  lemma PaintedPlateWidth(name: string)
    ensures PlateWidth(PaintedDims, name) % 5 == 0 && PlateWidth(PaintedDims, name) >= 40
    ensures var est := |name| as real * 6.3 + 14.0;
      var clamped := if est < 40.0 then 40.0 else est;
      -2.5 <= PlateWidth(PaintedDims, name) as real - clamped <= 2.5
  {
    PlateWidthBounds(PaintedDims, name);
  }

  /** generate_all_nameplates.py: a multiple of 5, at least 60, and within
      2.5 of max(len(name) * 10 * 0.6 + 2 * 8, 60). */
  lemma SeparatePlateWidth(name: string)
    ensures PlateWidth(SeparateDims, name) % 5 == 0 && PlateWidth(SeparateDims, name) >= 60
    ensures var est := |name| as real * 6.0 + 16.0;
      var clamped := if est < 60.0 then 60.0 else est;
      -2.5 <= PlateWidth(SeparateDims, name) as real - clamped <= 2.5
  {
    PlateWidthBounds(SeparateDims, name);
  }
}
