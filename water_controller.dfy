/**
 * The water styling of the map (WaterController.ts): the `#RRGGBB` brightness and desaturation helpers,
 * the flow-animation offset, and the clamped paint values that `updateWater` computes. The map itself
 * is not modelled: whether it is loaded and which layers exist are inputs, and the paint values are
 * returned instead of being written to the map. Arithmetic is exact.
 */
module WaterControl {
  import opened Wrappers
  import opened Seqs

  // Hex digits

  predicate IsHexDigit(c: char)
  {
    '0' <= c <= '9' || 'a' <= c <= 'f' || 'A' <= c <= 'F'
  }

  predicate IsLowerHexDigit(c: char)
  {
    '0' <= c <= '9' || 'a' <= c <= 'f'
  }

  function DigitValue(c: char): (v: nat)
    requires IsHexDigit(c)
    ensures v < 16
  {
    if '0' <= c <= '9' then (c - '0') as nat
    else if 'a' <= c <= 'f' then (c - 'a') as nat + 10
    else (c - 'A') as nat + 10
  }

  /** The lowercase digit `toString(16)` writes for a value below 16. */
  function Digit(v: nat): (c: char)
    requires v < 16
    ensures IsLowerHexDigit(c) && DigitValue(c) == v
  {
    "0123456789abcdef"[v]
  }

  /** The length of the longest prefix made of hex digits. */
  function HexPrefixLen(s: string): (n: nat)
    ensures n <= |s| && forall i :: 0 <= i < n ==> IsHexDigit(s[i])
    ensures n < |s| ==> !IsHexDigit(s[n])
  {
    if s == [] || !IsHexDigit(s[0]) then 0 else 1 + HexPrefixLen(s[1..])
  }

  /** The value of a string of hex digits, most significant first. */
  function HexValue(ds: string): nat
    requires forall i :: 0 <= i < |ds| ==> IsHexDigit(ds[i])
  {
    if ds == [] then 0 else HexValue(ds[..|ds| - 1]) * 16 + DigitValue(ds[|ds| - 1])
  }

  /**
   * `parseInt(s, 16)` for strings without leading whitespace, sign or `0x`: the value of the longest
   * hex-digit prefix, or `None` (NaN) when there is none.
   */
  function ParseHex(s: string): (r: Option<int>)
    ensures r.None? <==> s == [] || !IsHexDigit(s[0])
  {
    var n := HexPrefixLen(s);
    if n == 0 then None else Some(HexValue(s[..n]))
  }

  /** The lowercase hex digits of a natural number, without leading zeros. */
  function HexDigits(n: nat): (s: string)
    ensures |s| >= 1 && forall i :: 0 <= i < |s| ==> IsLowerHexDigit(s[i])
  {
    if n < 16 then [Digit(n)] else HexDigits(n / 16) + [Digit(n % 16)]
  }

  /** `n.toString(16)`: a minus sign before the digits of a negative number. */
  function JsHex(n: int): string
  {
    if n < 0 then "-" + HexDigits(-n) else HexDigits(n)
  }

  /** `padStart(2, '0')`. */
  function PadStart2(s: string): (r: string)
    ensures |s| >= 2 ==> r == s
    ensures |s| < 2 ==> |r| == 2 && r[2 - |s|..] == s && forall i :: 0 <= i < 2 - |s| ==> r[i] == '0'
  {
    if |s| >= 2 then s else Repeat('0', 2 - |s|) + s
  }

  /** One output channel: the padded hex of an integer, or "NaN" for a channel that did not parse. */
  function ChannelText(v: Option<int>): string
  {
    match v
    case None => "NaN"
    case Some(n) => PadStart2(JsHex(n))
  }

  // Colour strings

  /** `#` followed by six hex digits. */
  predicate IsHexColor(s: string)
  {
    |s| == 7 && s[0] == '#' && forall i :: 1 <= i < 7 ==> IsHexDigit(s[i])
  }

  /** `#` followed by six lowercase hex digits, the form both helpers emit. */
  predicate IsLowerHexColor(s: string)
  {
    |s| == 7 && s[0] == '#' && forall i :: 1 <= i < 7 ==> IsLowerHexDigit(s[i])
  }

  /** `color.replace('#', '')`: the first `#` removed. */
  function StripHash(s: string): (r: string)
    ensures '#' !in s ==> r == s
    ensures |s| > 0 && s[0] == '#' ==> r == s[1..]
  {
    if '#' in s then var i := FirstIndex(s, '#'); s[..i] + s[i + 1..] else s
  }

  /** `s.substring(a, b)` for 0 <= a <= b: indices past the end are clamped to the length. */
  function Substring(s: string, a: nat, b: nat): string
    requires a <= b
  {
    s[(if a < |s| then a else |s|)..(if b < |s| then b else |s|)]
  }

  /** The three channels that both helpers parse: the digit pairs at 0-2, 2-4 and 4-6 after removing `#`. */
  function Channels(color: string): (Option<int>, Option<int>, Option<int>)
  {
    var hex := StripHash(color);
    (ParseHex(Substring(hex, 0, 2)), ParseHex(Substring(hex, 2, 4)), ParseHex(Substring(hex, 4, 6)))
  }

  /** The value of two hex digits. */
  function PairValue(a: char, b: char): (v: int)
    requires IsHexDigit(a) && IsHexDigit(b)
    ensures 0 <= v <= 255
  {
    DigitValue(a) * 16 + DigitValue(b)
  }

  /** Two hex digits parse to their value. */
  lemma ParsePair(a: char, b: char)
    requires IsHexDigit(a) && IsHexDigit(b)
    ensures ParseHex([a, b]) == Some(PairValue(a, b))
  {
    var t := [a, b];
    assert t[1..] == [b];
    assert [b][1..] == [];
    assert HexPrefixLen([b]) == 1;
    assert HexPrefixLen(t) == 2;
    assert t[..2] == t;
    assert t[..1] == [a];
    assert [a][..0] == [];
    assert HexValue([a]) == DigitValue(a);
    assert HexValue(t) == DigitValue(a) * 16 + DigitValue(b);
  }

  /** A byte is written as two lowercase digits that parse back to it. */
  lemma ByteRoundTrip(v: int)
    requires 0 <= v <= 255
    ensures var t := ChannelText(Some(v));
      |t| == 2 && IsLowerHexDigit(t[0]) && IsLowerHexDigit(t[1]) && PairValue(t[0], t[1]) == v && ParseHex(t) == Some(v)
  {
    var t := ChannelText(Some(v));
    if v < 16 {
      assert t == ['0', Digit(v)];
    } else {
      assert v / 16 < 16;
      assert HexDigits(v / 16) == [Digit(v / 16)];
      assert t == [Digit(v / 16), Digit(v % 16)];
    }
    ParsePair(t[0], t[1]);
    assert [t[0], t[1]] == t;
  }

  /** A well-formed colour parses to the values of its three digit pairs, each a byte. */
  lemma ChannelsOfHexColor(s: string)
    requires IsHexColor(s)
    ensures Channels(s) == (Some(PairValue(s[1], s[2])), Some(PairValue(s[3], s[4])), Some(PairValue(s[5], s[6])))
  {
    var hex := StripHash(s);
    assert hex == s[1..];
    assert Substring(hex, 0, 2) == [s[1], s[2]];
    assert Substring(hex, 2, 4) == [s[3], s[4]];
    assert Substring(hex, 4, 6) == [s[5], s[6]];
    ParsePair(s[1], s[2]);
    ParsePair(s[3], s[4]);
    ParsePair(s[5], s[6]);
  }

  /** `#` and three pairs of lowercase digits form a lowercase colour whose channels are the pairs' values. */
  lemma PairsColor(tr: string, tg: string, tb: string)
    requires |tr| == 2 && IsLowerHexDigit(tr[0]) && IsLowerHexDigit(tr[1])
    requires |tg| == 2 && IsLowerHexDigit(tg[0]) && IsLowerHexDigit(tg[1])
    requires |tb| == 2 && IsLowerHexDigit(tb[0]) && IsLowerHexDigit(tb[1])
    ensures var s := "#" + tr + tg + tb;
      IsLowerHexColor(s) && Channels(s) == (ParseHex(tr), ParseHex(tg), ParseHex(tb))
  {
    var s := "#" + tr + tg + tb;
    assert s[1..3] == tr && s[3..5] == tg && s[5..7] == tb;
    assert IsLowerHexColor(s);
    var hex := StripHash(s);
    assert hex == s[1..];
    assert Substring(hex, 0, 2) == tr;
    assert Substring(hex, 2, 4) == tg;
    assert Substring(hex, 4, 6) == tb;
  }

  /** Three bytes written one after another after `#` form a lowercase colour that parses back to them. */
  lemma FormatRoundTrip(r: int, g: int, b: int)
    requires 0 <= r <= 255 && 0 <= g <= 255 && 0 <= b <= 255
    ensures var s := "#" + ChannelText(Some(r)) + ChannelText(Some(g)) + ChannelText(Some(b));
      IsLowerHexColor(s) && Channels(s) == (Some(r), Some(g), Some(b))
  {
    ByteRoundTrip(r);
    ByteRoundTrip(g);
    ByteRoundTrip(b);
    PairsColor(ChannelText(Some(r)), ChannelText(Some(g)), ChannelText(Some(b)));
  }

  // The two helpers

  /** `Math.round`: the nearest integer, halves rounded up. */
  function Round(x: real): (n: int)
    ensures n as real - 0.5 <= x < n as real + 0.5
  {
    (x + 0.5).Floor
  }

  /** One brightness-adjusted channel: round(c · (0.2 + factor)) clamped to [0, 255]; NaN stays NaN. */
  function Brighten(c: Option<int>, factor: real): (r: Option<int>)
    ensures r.None? <==> c.None?
    ensures r.Some? ==> 0 <= r.value <= 255
    ensures r.Some? && 0 <= Round(c.value as real * (0.2 + factor)) <= 255 ==> r.value == Round(c.value as real * (0.2 + factor))
    ensures c.Some? && Round(c.value as real * (0.2 + factor)) > 255 ==> r == Some(255)
    ensures c.Some? && Round(c.value as real * (0.2 + factor)) < 0 ==> r == Some(0)
  {
    match c
    case None => None
    case Some(v) =>
      var x := Round(v as real * (0.2 + factor));
      Some(if 255 < (if 0 < x then x else 0) then 255 else if 0 < x then x else 0)
  }

  /** adjustColorBrightness: each channel brightened and clamped, written as `#` and three padded hex pairs. */
  function AdjustColorBrightness(color: string, factor: real): (r: string)
    ensures IsHexColor(color) ==>
      var (cr, cg, cb) := Channels(color);
      IsLowerHexColor(r) && Channels(r) == (Brighten(cr, factor), Brighten(cg, factor), Brighten(cb, factor))
  {
    var (cr, cg, cb) := Channels(color);
    var r := "#" + ChannelText(Brighten(cr, factor)) + ChannelText(Brighten(cg, factor)) + ChannelText(Brighten(cb, factor));
    if IsHexColor(color) then
      ChannelsOfHexColor(color);
      FormatRoundTrip(Brighten(cr, factor).value, Brighten(cg, factor).value, Brighten(cb, factor).value);
      r
    else r
  }

  /** The grey level of a colour: round((r + g + b) / 3); NaN if any channel is. */
  function Average(cr: Option<int>, cg: Option<int>, cb: Option<int>): Option<int>
  {
    if cr.Some? && cg.Some? && cb.Some? then Some(Round((cr.value + cg.value + cb.value) as real / 3.0)) else None
  }

  /** One desaturated channel: round(c · (1 − factor) + avg · factor), not clamped. */
  function Blend(c: Option<int>, avg: Option<int>, factor: real): Option<int>
  {
    if c.Some? && avg.Some? then Some(Round(c.value as real * (1.0 - factor) + avg.value as real * factor)) else None
  }

  /** For a factor in [0, 1] a blend of two bytes is a byte. */
  lemma BlendInRange(c: int, avg: int, factor: real)
    requires 0 <= c <= 255 && 0 <= avg <= 255 && 0.0 <= factor <= 1.0
    ensures 0 <= Blend(Some(c), Some(avg), factor).value <= 255
  {
    var u := 1.0 - factor;
    var x := c as real * u + avg as real * factor;
    MulNonnegative(c as real, u);
    MulNonnegative(avg as real, factor);
    MulNonnegative(255.0 - c as real, u);
    MulNonnegative(255.0 - avg as real, factor);
    assert 255.0 - x == (255.0 - c as real) * u + (255.0 - avg as real) * factor;
  }

  lemma MulNonnegative(x: real, y: real)
    requires 0.0 <= x && 0.0 <= y
    ensures 0.0 <= x * y
  {
  }

  /**
   * desaturateColor: each channel moved towards the grey level by `factor`. For a well-formed colour
   * and a factor in [0, 1] the result is a well-formed lowercase colour holding exactly those channels.
   */
  function DesaturateColor(color: string, factor: real): (r: string)
    ensures IsHexColor(color) && 0.0 <= factor <= 1.0 ==>
      var (cr, cg, cb) := Channels(color);
      var avg := Average(cr, cg, cb);
      IsLowerHexColor(r) && Channels(r) == (Blend(cr, avg, factor), Blend(cg, avg, factor), Blend(cb, avg, factor))
  {
    var (cr, cg, cb) := Channels(color);
    var avg := Average(cr, cg, cb);
    var r := "#" + ChannelText(Blend(cr, avg, factor)) + ChannelText(Blend(cg, avg, factor)) + ChannelText(Blend(cb, avg, factor));
    if IsHexColor(color) && 0.0 <= factor <= 1.0 then
      ChannelsOfHexColor(color);
      assert 0 <= avg.value <= 255;
      BlendInRange(cr.value, avg.value, factor);
      BlendInRange(cg.value, avg.value, factor);
      BlendInRange(cb.value, avg.value, factor);
      FormatRoundTrip(Blend(cr, avg, factor).value, Blend(cg, avg, factor).value, Blend(cb, avg, factor).value);
      r
    else r
  }

  /** A zero factor keeps a channel; a factor of one replaces it by the grey level. */
  lemma BlendExtremes(c: int, avg: int)
    ensures Blend(Some(c), Some(avg), 0.0) == Some(c)
    ensures Blend(Some(c), Some(avg), 1.0) == Some(avg)
  {
    assert c as real * (1.0 - 0.0) + avg as real * 0.0 == c as real;
    assert c as real * (1.0 - 1.0) + avg as real * 1.0 == avg as real;
  }

  /** A zero factor keeps every channel. */
  lemma DesaturateByZero(color: string)
    requires IsHexColor(color)
    ensures Channels(DesaturateColor(color, 0.0)) == Channels(color)
  {
    ChannelsOfHexColor(color);
    var (cr, cg, cb) := Channels(color);
    var avg := Average(cr, cg, cb);
    BlendExtremes(cr.value, avg.value);
    BlendExtremes(cg.value, avg.value);
    BlendExtremes(cb.value, avg.value);
  }

  /** A factor of one makes all three channels the grey level. */
  lemma DesaturateByOne(color: string)
    requires IsHexColor(color)
    ensures var (r, g, b) := Channels(DesaturateColor(color, 1.0));
      r == g == b == Average(Channels(color).0, Channels(color).1, Channels(color).2)
  {
    ChannelsOfHexColor(color);
    var (cr, cg, cb) := Channels(color);
    var avg := Average(cr, cg, cb);
    BlendExtremes(cr.value, avg.value);
    BlendExtremes(cg.value, avg.value);
    BlendExtremes(cb.value, avg.value);
  }

  // The animated water

  /** `x % 512` on numbers: the remainder of truncated division, with the sign of `x`. */
  function Rem512(x: real): (r: real)
    ensures x >= 0.0 ==> 0.0 <= r < 512.0
    ensures 0.0 <= x < 512.0 ==> r == x
  {
    var q := x / 512.0;
    var k := if q >= 0.0 then q.Floor else -((-q).Floor);
    x - (k as real) * 512.0
  }

  /** The base water colour. */
  const BaseWaterColor: string := "#0F5E9C"

  /** The water conditions `updateWater` reads; `None` is an absent field. */
  datatype WaterConditions = WaterConditions(turbidity: Option<real>, flowRate: Option<real>, waveHeight: Option<real>)

  /** `x || d` for a number: an absent field or 0 falls back to the default. */
  function OrDefault(x: Option<real>, d: real): (r: real)
    ensures x.Some? && x.value != 0.0 ==> r == x.value
    ensures x.None? || x.value == 0.0 ==> r == d
  {
    if x.None? || x.value == 0.0 then d else x.value
  }

  /** `Math.max(lo, Math.min(hi, x))`. */
  function Clamp(lo: real, hi: real, x: real): (r: real)
    requires lo <= hi
    ensures lo <= r <= hi
    ensures lo <= x <= hi ==> r == x
    ensures x < lo ==> r == lo
    ensures x > hi ==> r == hi
  {
    if x < lo then lo else if x > hi then hi else x
  }

  /** Every lowercase colour is a colour. */
  lemma LowerIsHexColor(s: string)
    requires IsLowerHexColor(s)
    ensures IsHexColor(s)
  {
  }

  /** The fill colour: the brightened base colour by day (intensity above 0.3), the brightened half-desaturated one by night. */
  function WaterColor(base: string, intensity: real): (c: string)
    ensures IsHexColor(base) ==> IsLowerHexColor(c)
    ensures IsHexColor(base) && intensity > 0.3 ==>
      var (br, bg, bb) := Channels(base);
      Channels(c) == (Brighten(br, intensity), Brighten(bg, intensity), Brighten(bb, intensity))
    ensures IsHexColor(base) && intensity <= 0.3 ==>
      var (br, bg, bb) := Channels(base);
      var avg := Average(br, bg, bb);
      Channels(c) == (Brighten(Blend(br, avg, 0.5), intensity), Brighten(Blend(bg, avg, 0.5), intensity),
                      Brighten(Blend(bb, avg, 0.5), intensity))
  {
    if intensity > 0.3 then AdjustColorBrightness(base, intensity)
    else
      var grey := DesaturateColor(base, 0.5);
      if IsHexColor(base) then
        LowerIsHexColor(grey);
        AdjustColorBrightness(grey, intensity)
      else AdjustColorBrightness(grey, intensity)
  }

  /** The base colour is a well-formed colour. */
  lemma BaseIsHexColor()
    ensures IsHexColor(BaseWaterColor)
  {
  }

  /** `Math.min(0.15, 0.08 + (1 − (turbidity || 0.3)) · 0.07)`. */
  function ReflectionOpacity(turbidity: Option<real>): (o: real)
    ensures o <= 0.15
    ensures turbidity.None? ==> o == 0.129
    ensures turbidity.Some? && turbidity.value == 0.0 ==> o == 0.129
    ensures turbidity.Some? && turbidity.value > 0.0 ==> o == 0.08 + (1.0 - turbidity.value) * 0.07
    ensures turbidity.Some? && turbidity.value < 0.0 ==> o == 0.15
  {
    var r := 0.08 + (1.0 - OrDefault(turbidity, 0.3)) * 0.07;
    if r < 0.15 then r else 0.15
  }

  /** `Math.max(0.05, Math.min(0.3, flowRate || 0.1))`. */
  function FlowSpeed(flowRate: Option<real>): (v: real)
    ensures 0.05 <= v <= 0.3
    ensures flowRate.None? || flowRate.value == 0.0 ==> v == 0.1
    ensures flowRate.Some? && 0.05 <= flowRate.value <= 0.3 ==> v == flowRate.value
    ensures flowRate.Some? && flowRate.value > 0.3 ==> v == 0.3
    ensures flowRate.Some? && flowRate.value != 0.0 && flowRate.value < 0.05 ==> v == 0.05
  {
    Clamp(0.05, 0.3, OrDefault(flowRate, 0.1))
  }

  /** `Math.max(0.2, Math.min(1.0, waveHeight || 0.3))`. */
  function WaveHeight(waveHeight: Option<real>): (h: real)
    ensures 0.2 <= h <= 1.0
    ensures waveHeight.None? || waveHeight.value == 0.0 ==> h == 0.3
    ensures waveHeight.Some? && 0.2 <= waveHeight.value <= 1.0 ==> h == waveHeight.value
    ensures waveHeight.Some? && waveHeight.value > 1.0 ==> h == 1.0
    ensures waveHeight.Some? && waveHeight.value != 0.0 && waveHeight.value < 0.2 ==> h == 0.2
  {
    Clamp(0.2, 1.0, OrDefault(waveHeight, 0.3))
  }

  /** The paint values `updateWater` sets; the wave values only when the waves layer exists. */
  datatype WaterPaint = WaterPaint(fillColor: string, reflectionOpacity: real, waveWidth: Option<real>, waveOpacity: Option<real>)

  /** The paint of a loaded map: colour, reflection and, with a waves layer, the wave line width and opacity. */
  function PaintFor(conditions: WaterConditions, intensity: real, hasWavesLayer: bool): (p: WaterPaint)
    ensures IsLowerHexColor(p.fillColor)
    ensures p.reflectionOpacity <= 0.15
    ensures hasWavesLayer ==> p.waveWidth.Some? && p.waveOpacity.Some?
    ensures hasWavesLayer ==> 0.3 <= p.waveWidth.value <= 1.5 && 0.08 <= p.waveOpacity.value <= 0.4
    ensures !hasWavesLayer ==> p.waveWidth == None && p.waveOpacity == None
  {
    BaseIsHexColor();
    var h := WaveHeight(conditions.waveHeight);
    WaterPaint(WaterColor(BaseWaterColor, intensity), ReflectionOpacity(conditions.turbidity),
               if hasWavesLayer then Some(h * 1.5) else None,
               if hasWavesLayer then Some(h * 0.4) else None)
  }

  /** The water layer state: the dash offset of the flow animation and its pending frame handle. */
  class WaterController {
    var waterAnimOffset: real
    var animationFrame: Option<nat>

    /** The flow offset stays within one dash period. */
    predicate Valid()
      reads this
    {
      0.0 <= waterAnimOffset < 512.0
    }

    constructor ()
      ensures waterAnimOffset == 0.0 && animationFrame == None && Valid()
    {
      waterAnimOffset := 0.0;
      animationFrame := None;
    }

    /** One frame of the flow animation: the offset advances by 0.1 modulo 512 and the next frame is requested. */
    method Animate(frame: nat)
      requires Valid()
      modifies this
      ensures Valid()
      ensures waterAnimOffset == Rem512(old(waterAnimOffset) + 0.1)
      ensures old(waterAnimOffset) + 0.1 < 512.0 ==> waterAnimOffset == old(waterAnimOffset) + 0.1
      ensures animationFrame == Some(frame)
    {
      waterAnimOffset := Rem512(waterAnimOffset + 0.1);
      animationFrame := Some(frame);
    }

    /**
     * updateWater: nothing when the map is not loaded. Otherwise the paint of the conditions, and with a
     * flow layer the offset advances by the clamped flow speed, staying within one dash period.
     */
    method UpdateWater(loaded: bool, conditions: WaterConditions, intensity: real, hasFlowLayer: bool,
                       hasWavesLayer: bool) returns (paint: Option<WaterPaint>)
      requires Valid()
      modifies this
      ensures Valid() && animationFrame == old(animationFrame)
      ensures !loaded ==> paint == None
      ensures loaded ==> paint == Some(PaintFor(conditions, intensity, hasWavesLayer))
      ensures loaded && hasFlowLayer ==> waterAnimOffset == Rem512(old(waterAnimOffset) + FlowSpeed(conditions.flowRate))
      ensures !loaded || !hasFlowLayer ==> waterAnimOffset == old(waterAnimOffset)
    {
      if !loaded {
        return None;
      }
      if hasFlowLayer {
        var flowSpeed := FlowSpeed(conditions.flowRate);
        waterAnimOffset := Rem512(waterAnimOffset + flowSpeed);
      }
      paint := Some(PaintFor(conditions, intensity, hasWavesLayer));
    }
  }
}
