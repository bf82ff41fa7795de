/**
 * KML colours as the map scripts write them: eight lower-case hex digits giving
 * alpha, blue, green and red in that order, and the green-to-red gradient the
 * cylinder colours are taken from.
 */
module KmlColor {
  import opened Wrappers
  import opened Text
  import opened PyMath

  /** One KML colour, channel by channel. */
  datatype Abgr = Abgr(a: nat, b: nat, g: nat, r: nat)

  predicate Valid(c: Abgr) {
    c.a < 256 && c.b < 256 && c.g < 256 && c.r < 256
  }

  /** The `aabbggrr` text of a colour. */
  function Encode(c: Abgr): (s: string)
    requires Valid(c)
    ensures |s| == 8
  {
    Hex2(c.a) + Hex2(c.b) + Hex2(c.g) + Hex2(c.r)
  }

  /** Reads `aabbggrr` text back; `None` unless it is eight hex digits. */
  function Decode(s: string): Option<Abgr> {
    if |s| != 8 then None
    else match (ParseHex2(s[0..2]), ParseHex2(s[2..4]), ParseHex2(s[4..6]), ParseHex2(s[6..8]))
      case (Some(a), Some(b), Some(g), Some(r)) => Some(Abgr(a, b, g, r))
      case _ => None
  }

  /** Encoding loses nothing. */
  lemma DecodeEncode(c: Abgr)
    requires Valid(c)
    ensures Decode(Encode(c)) == Some(c)
  {
    var s := Encode(c);
    assert s[0..2] == Hex2(c.a) && s[2..4] == Hex2(c.b) && s[4..6] == Hex2(c.g) && s[6..8] == Hex2(c.r);
    Hex2RoundTrip(c.a);
    Hex2RoundTrip(c.b);
    Hex2RoundTrip(c.g);
    Hex2RoundTrip(c.r);
  }

  /**
   * Red channel at normalised position `norm` of the gradient: it climbs from 0
   * while `norm < 0.5` and is saturated from the midpoint on.
   */
  function GradientRed(norm: real): (r: nat)
    requires 0.0 <= norm <= 1.0
    ensures r <= 255
    ensures norm >= 0.5 <==> r == 255
  {
    if norm < 0.5 then Trunc(255.0 * norm * 2.0) else 255
  }

  /** Green channel of the gradient: saturated below the midpoint, then falling to 0. */
  function GradientGreen(norm: real): (g: nat)
    requires 0.0 <= norm <= 1.0
    ensures g <= 255
    ensures norm < 0.5 ==> g == 255
    ensures norm >= 0.5 ==> g as real <= 255.0 * (2.0 - norm * 2.0) < g as real + 1.0
  {
    if norm < 0.5 then 255 else Trunc(255.0 * (2.0 - norm * 2.0))
  }

  /** Along the gradient red never falls and green never rises: green, then yellow, then red. */
  lemma GradientMonotone(n1: real, n2: real)
    requires 0.0 <= n1 <= n2 <= 1.0
    ensures GradientRed(n1) <= GradientRed(n2)
    ensures GradientGreen(n1) >= GradientGreen(n2)
  {
    if n2 < 0.5 {
      TruncMonotone(255.0 * n1 * 2.0, 255.0 * n2 * 2.0);
    } else if n1 >= 0.5 {
      TruncMonotone(255.0 * (2.0 - n2 * 2.0), 255.0 * (2.0 - n1 * 2.0));
    }
  }

  /** The ends of the gradient are pure green and pure red. */
  lemma GradientEnds()
    ensures GradientRed(0.0) == 0 && GradientGreen(0.0) == 255
    ensures GradientRed(1.0) == 255 && GradientGreen(1.0) == 0
  {
  }

  /**
   * The opaque version of a colour: alpha `ff`, every other channel kept. This is
   * what the outline colour is meant to be.
   */
  function Opaque(s: string): (o: string)
    requires |s| == 8
    ensures |o| == 8 && o[2..] == s[2..]
    ensures Decode(s).Some? ==> Decode(o) == Some(Decode(s).value.(a := 255))
  {
    var o := "ff" + s[2..];
    assert o[0..2] == "ff" && o[2..4] == s[2..4] && o[4..6] == s[4..6] && o[6..8] == s[6..8];
    assert ParseHex2("ff") == Some(255);
    o
  }

  /** The outline colour as the scripts derive it: `color.replace('bb', 'ff')`. */
  function OutlineAsWritten(s: string): string {
    ReplaceAll(s, "bb", "ff")
  }
}
