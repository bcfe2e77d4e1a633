/** The arithmetic of `TextureFactory`: the colour helpers behind the metal
    texture (`#rrggbb` parsing, lightening and darkening with clamps, the
    `rgb(r, g, b)` text), the stripe positions of the corrugated texture,
    the clamped noise pass over the concrete texture's pixel bytes, and the
    options, defaults and repeat settings of the four builders. Canvas
    drawing is reduced to the list of line positions it strokes. */
module TextureFactory {
  import opened Common

  // ---------------------------------------------------------------------
  // Hex parsing

  /** The value of a hexadecimal digit, either case. */
  function HexDigit(c: char): (d: Option<nat>)
    ensures d.Some? ==> d.value < 16
  {
    if '0' <= c <= '9' then Some(c as nat - '0' as nat)
    else if 'a' <= c <= 'f' then Some(c as nat - 'a' as nat + 10)
    else if 'A' <= c <= 'F' then Some(c as nat - 'A' as nat + 10)
    else None
  }

  /** The digits of the longest hexadecimal prefix of s. */
  function LeadingHex(s: string): (ds: seq<nat>)
    ensures |ds| <= |s|
    ensures forall i :: 0 <= i < |ds| ==> ds[i] < 16 && HexDigit(s[i]) == Some(ds[i])
    ensures |ds| < |s| ==> HexDigit(s[|ds|]).None?
  {
    if |s| == 0 || HexDigit(s[0]).None? then []
    else [HexDigit(s[0]).value] + LeadingHex(s[1..])
  }

  /** The number a digit sequence spells in base 16. */
  function HexValue(ds: seq<nat>): nat
  {
    if |ds| == 0 then 0 else HexValue(ds[..|ds| - 1]) * 16 + ds[|ds| - 1]
  }

  /** `parseInt(s, 16)`, None standing for NaN (no leading digit). */
  function ParseHex(s: string): Option<nat>
  {
    var ds := LeadingHex(s);
    if |ds| == 0 then None else Some(HexValue(ds))
  }

  /** `s.substr(start, len)` for start, len >= 0. */
  function Substr(s: string, start: nat, len: nat): (t: string)
    ensures |t| <= len
    ensures start + len <= |s| ==> t == s[start..start + len]
  {
    if start >= |s| then "" else s[start..MinInt(start + len, |s|)]
  }

  /** `s.replace('#', '')`: only the first '#' goes. */
  function RemoveFirstHash(s: string): (t: string)
    ensures '#' !in s ==> t == s
    ensures |s| > 0 && s[0] == '#' ==> t == s[1..]
  {
    if |s| == 0 then ""
    else if s[0] == '#' then s[1..]
    else [s[0]] + RemoveFirstHash(s[1..])
  }

  /** Wherever the first '#' is, exactly that character is removed. */
  lemma {:induction false} RemoveFirstHashAt(s: string, k: nat)
    requires k < |s| && s[k] == '#' && '#' !in s[..k]
    ensures RemoveFirstHash(s) == s[..k] + s[k + 1..]
    decreases k
  {
    if k > 0 {
      assert s[0] in s[..k];
      assert s[1..][..k - 1] == s[..k][1..];
      RemoveFirstHashAt(s[1..], k - 1);
      assert s[..k] == [s[0]] + s[1..][..k - 1];
      assert s[k + 1..] == s[1..][k..];
    }
  }

  /** A colour channel: a number or NaN. */
  type Channel = Option<int>

  datatype Channels = Channels(r: Channel, g: Channel, b: Channel)

  /** The three `parseInt(hex.substr(k, 2), 16)` of both colour helpers. */
  function ParseChannels(color: string): Channels {
    var hex := RemoveFirstHash(color);
    Channels(ParseHex(Substr(hex, 0, 2)), ParseHex(Substr(hex, 2, 2)), ParseHex(Substr(hex, 4, 2)))
  }

  // ---------------------------------------------------------------------
  // Hex formatting, the partner of parsing

  const HexChars: string := "0123456789abcdef"

  /** The two lower-case hex digits of a byte. */
  function HexPair(v: nat): (s: string)
    requires v < 256
    ensures |s| == 2
  {
    [HexChars[v / 16], HexChars[v % 16]]
  }

  /** `#rrggbb` for three bytes. */
  function HexColor(r: nat, g: nat, b: nat): (s: string)
    requires r < 256 && g < 256 && b < 256
    ensures |s| == 7 && s[0] == '#'
  {
    "#" + HexPair(r) + HexPair(g) + HexPair(b)
  }

  lemma HexCharsDigits(d: nat)
    requires d < 16
    ensures HexDigit(HexChars[d]) == Some(d)
  {
  }

  lemma ParseHexPair(v: nat)
    requires v < 256
    ensures ParseHex(HexPair(v)) == Some(v)
  {
    HexCharsDigits(v / 16);
    HexCharsDigits(v % 16);
    var s := HexPair(v);
    assert LeadingHex(s) == [v / 16, v % 16] by {
      assert LeadingHex(s[1..]) == [v % 16] by {
        assert s[1..][1..] == [];
      }
    }
    assert [v / 16, v % 16][..1] == [v / 16];
    assert HexValue([v / 16]) == v / 16 by {
      assert [v / 16][..0] == [];
    }
    assert HexValue([v / 16, v % 16]) == v;
  }

  /** Parsing recovers every channel of any `#rrggbb` colour. */
  lemma ParseHexColor(r: nat, g: nat, b: nat)
    requires r < 256 && g < 256 && b < 256
    ensures ParseChannels(HexColor(r, g, b)) == Channels(Some(r), Some(g), Some(b))
  {
    var c := HexColor(r, g, b);
    var hex := RemoveFirstHash(c);
    assert hex == HexPair(r) + HexPair(g) + HexPair(b);
    assert Substr(hex, 0, 2) == HexPair(r);
    assert Substr(hex, 2, 2) == HexPair(g);
    assert Substr(hex, 4, 2) == HexPair(b);
    ParseHexPair(r);
    ParseHexPair(g);
    ParseHexPair(b);
  }

  // ---------------------------------------------------------------------
  // Lighten and darken

  /** `Math.floor(amount * 255)`. */
  function Step(amount: real): int {
    (amount * 255.0).Floor
  }

  /** `Math.min(255, v + step)`; NaN stays NaN. */
  function Lighten(c: Channel, amount: real): (l: Channel)
    ensures l.Some? <==> c.Some?
    ensures l.Some? ==> l.value == MinInt(255, c.value + Step(amount))
  {
    match c
    case None => None
    case Some(v) => Some(MinInt(255, v + Step(amount)))
  }

  /** `Math.max(0, v - step)`; NaN stays NaN. */
  function Darken(c: Channel, amount: real): (d: Channel)
    ensures d.Some? <==> c.Some?
    ensures d.Some? ==> d.value == MaxInt(0, c.value - Step(amount))
  {
    match c
    case None => None
    case Some(v) => Some(MaxInt(0, v - Step(amount)))
  }

  /** For a byte and a non-negative amount: darken <= value <= lighten,
      all within [0, 255]. */
  lemma ChannelOrder(v: nat, amount: real)
    requires v < 256 && amount >= 0.0
    ensures var l := Lighten(Some(v), amount).value;
            var d := Darken(Some(v), amount).value;
            0 <= d <= v <= l <= 255
  {
    assert Step(amount) >= 0;
  }

  /** For a valid colour and a non-negative amount, every channel of the
      lightened and darkened colour is a byte and they bracket the original. */
  lemma ColorOrder(r: nat, g: nat, b: nat, amount: real)
    requires r < 256 && g < 256 && b < 256 && amount >= 0.0
    ensures var c := ParseChannels(HexColor(r, g, b));
      && c == Channels(Some(r), Some(g), Some(b))
      && Darken(c.r, amount).value <= r <= Lighten(c.r, amount).value <= 255
      && Darken(c.g, amount).value <= g <= Lighten(c.g, amount).value <= 255
      && Darken(c.b, amount).value <= b <= Lighten(c.b, amount).value <= 255
      && 0 <= Darken(c.r, amount).value && 0 <= Darken(c.g, amount).value && 0 <= Darken(c.b, amount).value
  {
    var c := ParseChannels(HexColor(r, g, b));
    ParseHexColor(r, g, b);
    assert c.r == Some(r) && c.g == Some(g) && c.b == Some(b);
    ChannelOrder(r, amount);
    ChannelOrder(g, amount);
    ChannelOrder(b, amount);
  }

  // ---------------------------------------------------------------------
  // Decimal text

  function DigitChar(d: nat): char
    requires d < 10
  {
    "0123456789"[d]
  }

  /** The decimal digits of n, most significant first, as template literals print them. */
  function NatToString(n: nat): (s: string)
    ensures |s| >= 1
    ensures forall i :: 0 <= i < |s| ==> '0' <= s[i] <= '9'
  {
    if n < 10 then [DigitChar(n)] else NatToString(n / 10) + [DigitChar(n % 10)]
  }

  /** The number a string of decimal digits spells. */
  function DecimalValue(s: string): nat
    requires forall i :: 0 <= i < |s| ==> '0' <= s[i] <= '9'
  {
    if |s| == 0 then 0 else DecimalValue(s[..|s| - 1]) * 10 + (s[|s| - 1] as nat - '0' as nat)
  }

  /** Printing a number and reading the digits back gives the number. */
  lemma {:induction false} DecimalRoundTrip(n: nat)
    ensures DecimalValue(NatToString(n)) == n
    decreases n
  {
    var s := NatToString(n);
    if n >= 10 {
      DecimalRoundTrip(n / 10);
      assert s[..|s| - 1] == NatToString(n / 10);
    }
  }

  predicate IsDigits(s: string) {
    forall i :: 0 <= i < |s| ==> '0' <= s[i] <= '9'
  }

  /** The number an optionally signed string of decimal digits spells. */
  function SignedDecimalValue(s: string): int
    requires |s| > 0 && (if s[0] == '-' then IsDigits(s[1..]) else IsDigits(s))
  {
    if s[0] == '-' then -(DecimalValue(s[1..]) as int) else DecimalValue(s)
  }

  /** A number as `${n}` prints it: a minus sign exactly for a negative
      number, then the digits of its magnitude. */
  function IntToString(n: int): (s: string)
    ensures |s| >= 1 && (s[0] == '-' <==> n < 0)
    ensures n >= 0 ==> s == NatToString(n)
    ensures n < 0 ==> s[1..] == NatToString(-n)
  {
    if n >= 0 then NatToString(n)
    else
      var t := "-" + NatToString(-n);
      assert t[1..] == NatToString(-n);
      t
  }

  /** Reading the printed text back, sign included, gives the number. */
  lemma IntRoundTrip(n: int)
    ensures var s := IntToString(n);
      && (if s[0] == '-' then IsDigits(s[1..]) else IsDigits(s))
      && SignedDecimalValue(s) == n
  {
    if n >= 0 {
      DecimalRoundTrip(n);
    } else {
      DecimalRoundTrip(-n);
    }
  }

  function ChannelText(c: Channel): string {
    match c
    case None => "NaN"
    case Some(v) => IntToString(v)
  }

  /** The `rgb(${r}, ${g}, ${b})` template. */
  function FormatRgb(c: Channels): string {
    "rgb(" + ChannelText(c.r) + ", " + ChannelText(c.g) + ", " + ChannelText(c.b) + ")"
  }

  /** lightenColor: whatever the input, an `rgb(...)` text. */
  function LightenColor(color: string, amount: real): (s: string)
    ensures |s| > 4 && s[..4] == "rgb(" && s[|s| - 1] == ')'
  {
    var c := ParseChannels(color);
    FormatRgb(Channels(Lighten(c.r, amount), Lighten(c.g, amount), Lighten(c.b, amount)))
  }

  /** darkenColor: whatever the input, an `rgb(...)` text. */
  function DarkenColor(color: string, amount: real): (s: string)
    ensures |s| > 4 && s[..4] == "rgb(" && s[|s| - 1] == ')'
  {
    var c := ParseChannels(color);
    FormatRgb(Channels(Darken(c.r, amount), Darken(c.g, amount), Darken(c.b, amount)))
  }

  /** Three non-negative channels print as plain digits. */
  lemma ByteText(r: nat, g: nat, b: nat)
    ensures FormatRgb(Channels(Some(r), Some(g), Some(b)))
            == "rgb(" + NatToString(r) + ", " + NatToString(g) + ", " + NatToString(b) + ")"
  {
  }

  /** For every `#rrggbb` colour and amount >= 0, lightenColor prints
      three bytes without sign or NaN, each at least the parsed channel. */
  lemma LightenValidColor(r: nat, g: nat, b: nat, amount: real)
    requires r < 256 && g < 256 && b < 256 && amount >= 0.0
    ensures var lr, lg, lb := MinInt(255, r + Step(amount)), MinInt(255, g + Step(amount)), MinInt(255, b + Step(amount));
      && r <= lr <= 255 && g <= lg <= 255 && b <= lb <= 255
      && LightenColor(HexColor(r, g, b), amount)
         == "rgb(" + NatToString(lr) + ", " + NatToString(lg) + ", " + NatToString(lb) + ")"
  {
    ParseHexColor(r, g, b);
    LightenParsed(HexColor(r, g, b), r, g, b, amount);
  }

  lemma LightenParsed(color: string, r: nat, g: nat, b: nat, amount: real)
    requires ParseChannels(color) == Channels(Some(r), Some(g), Some(b)) && amount >= 0.0
    requires r < 256 && g < 256 && b < 256
    ensures var lr, lg, lb := MinInt(255, r + Step(amount)), MinInt(255, g + Step(amount)), MinInt(255, b + Step(amount));
      && r <= lr <= 255 && g <= lg <= 255 && b <= lb <= 255
      && LightenColor(color, amount)
         == "rgb(" + NatToString(lr) + ", " + NatToString(lg) + ", " + NatToString(lb) + ")"
  {
    LightenByte(r, amount); LightenByte(g, amount); LightenByte(b, amount);
    var lr, lg, lb := MinInt(255, r + Step(amount)), MinInt(255, g + Step(amount)), MinInt(255, b + Step(amount));
    LightenColorOf(color, r, g, b, amount);
    ByteText(lr, lg, lb);
  }

  lemma LightenColorOf(color: string, r: nat, g: nat, b: nat, amount: real)
    requires ParseChannels(color) == Channels(Some(r), Some(g), Some(b)) && amount >= 0.0
    ensures LightenColor(color, amount)
            == FormatRgb(Channels(Some(MinInt(255, r + Step(amount))), Some(MinInt(255, g + Step(amount))), Some(MinInt(255, b + Step(amount)))))
  {
    LightenByte(r, amount); LightenByte(g, amount); LightenByte(b, amount);
    var shaded := Channels(Lighten(Some(r), amount), Lighten(Some(g), amount), Lighten(Some(b), amount));
    assert shaded == Channels(Some(MinInt(255, r + Step(amount))), Some(MinInt(255, g + Step(amount))), Some(MinInt(255, b + Step(amount))));
  }

  lemma LightenByte(v: nat, amount: real)
    requires amount >= 0.0
    ensures 0 <= MinInt(255, v + Step(amount)) <= 255 && Lighten(Some(v), amount) == Some(MinInt(255, v + Step(amount)))
    ensures v < 256 ==> v <= MinInt(255, v + Step(amount))
  {
  }

  /** For every `#rrggbb` colour and amount >= 0, darkenColor prints
      three bytes without sign or NaN, each at most the parsed channel. */
  lemma DarkenValidColor(r: nat, g: nat, b: nat, amount: real)
    requires r < 256 && g < 256 && b < 256 && amount >= 0.0
    ensures var dr, dg, db := MaxInt(0, r - Step(amount)), MaxInt(0, g - Step(amount)), MaxInt(0, b - Step(amount));
      && 0 <= dr <= r && 0 <= dg <= g && 0 <= db <= b
      && DarkenColor(HexColor(r, g, b), amount)
         == "rgb(" + NatToString(dr) + ", " + NatToString(dg) + ", " + NatToString(db) + ")"
  {
    ParseHexColor(r, g, b);
    DarkenParsed(HexColor(r, g, b), r, g, b, amount);
  }

  lemma DarkenParsed(color: string, r: nat, g: nat, b: nat, amount: real)
    requires ParseChannels(color) == Channels(Some(r), Some(g), Some(b)) && amount >= 0.0
    ensures var dr, dg, db := MaxInt(0, r - Step(amount)), MaxInt(0, g - Step(amount)), MaxInt(0, b - Step(amount));
      && 0 <= dr <= r && 0 <= dg <= g && 0 <= db <= b
      && DarkenColor(color, amount)
         == "rgb(" + NatToString(dr) + ", " + NatToString(dg) + ", " + NatToString(db) + ")"
  {
    DarkenByte(r, amount); DarkenByte(g, amount); DarkenByte(b, amount);
    var dr, dg, db := MaxInt(0, r - Step(amount)), MaxInt(0, g - Step(amount)), MaxInt(0, b - Step(amount));
    DarkenColorOf(color, r, g, b, amount);
    ByteText(dr, dg, db);
  }

  lemma DarkenColorOf(color: string, r: nat, g: nat, b: nat, amount: real)
    requires ParseChannels(color) == Channels(Some(r), Some(g), Some(b)) && amount >= 0.0
    ensures DarkenColor(color, amount)
            == FormatRgb(Channels(Some(MaxInt(0, r - Step(amount))), Some(MaxInt(0, g - Step(amount))), Some(MaxInt(0, b - Step(amount)))))
  {
    DarkenByte(r, amount); DarkenByte(g, amount); DarkenByte(b, amount);
    var shaded := Channels(Darken(Some(r), amount), Darken(Some(g), amount), Darken(Some(b), amount));
    assert shaded == Channels(Some(MaxInt(0, r - Step(amount))), Some(MaxInt(0, g - Step(amount))), Some(MaxInt(0, b - Step(amount))));
  }

  lemma DarkenByte(v: nat, amount: real)
    requires amount >= 0.0
    ensures 0 <= MaxInt(0, v - Step(amount)) <= v && Darken(Some(v), amount) == Some(MaxInt(0, v - Step(amount)))
  {
  }

  /** The metal texture's default colour with the default shininess 0.3:
      floor(0.3 * 255) = 76, so 0x88 = 136 becomes 212 and 60. */
  lemma DefaultMetalColors()
    ensures LightenColor("#888888", 0.3) == "rgb(212, 212, 212)"
    ensures DarkenColor("#888888", 0.3) == "rgb(60, 60, 60)"
  {
    DefaultMetalParses();
    assert Step(0.3) == 76;
    assert Lighten(Some(136), 0.3) == Some(212);
    assert Darken(Some(136), 0.3) == Some(60);
    LightMetalText();
    DarkMetalText();
  }

  lemma DefaultMetalParses()
    ensures ParseChannels("#888888") == Channels(Some(136), Some(136), Some(136))
  {
    assert "#888888" == HexColor(136, 136, 136);
    ParseHexColor(136, 136, 136);
  }

  lemma LightMetalText()
    ensures FormatRgb(Channels(Some(212), Some(212), Some(212))) == "rgb(212, 212, 212)"
  {
    assert NatToString(212) == "212" by {
      assert NatToString(21) == "21" by {
        assert NatToString(2) == "2";
      }
    }
  }

  lemma DarkMetalText()
    ensures FormatRgb(Channels(Some(60), Some(60), Some(60))) == "rgb(60, 60, 60)"
  {
    assert NatToString(60) == "60" by {
      assert NatToString(6) == "6";
    }
  }

  // ---------------------------------------------------------------------
  // Stripe positions

  /** The k-th position of a stripe loop. */
  function StripeAt(start: real, step: real, k: nat): real {
    start + (k as real) * step
  }

  /** The positions `for (y = start; y < limit; y += step)` visits. */
  function Stripes(start: real, step: real, limit: real): (ys: seq<real>)
    requires step > 0.0
    ensures forall i :: 0 <= i < |ys| ==> ys[i] == StripeAt(start, step, i) && ys[i] < limit
    ensures StripeAt(start, step, |ys|) >= limit
  {
    var n := LoopCount((limit - start) / step);
    StripesBound(start, step, limit, n);
    seq(n, i requires 0 <= i < n => StripeAt(start, step, i))
  }

  lemma StripesBound(start: real, step: real, limit: real, n: nat)
    requires step > 0.0 && n == LoopCount((limit - start) / step)
    ensures forall i :: 0 <= i < n ==> StripeAt(start, step, i) < limit
    ensures StripeAt(start, step, n) >= limit
  {
    var q := (limit - start) / step;
    assert q * step == limit - start;
    forall i | 0 <= i < n
      ensures StripeAt(start, step, i) < limit
    {
      assert (i as real) <= (n - 1) as real < q;
      MulLess(i as real, q, step);
    }
    MulAtLeastReal(n as real, q, step);
  }

  lemma MulLess(a: real, b: real, c: real)
    requires a < b && c > 0.0
    ensures a * c < b * c
  {
  }

  lemma MulAtLeastReal(a: real, b: real, c: real)
    requires a >= b && c > 0.0
    ensures a * c >= b * c
  {
  }

  /** The loop itself: collect each y it draws a line at. */
  method StrokePositions(start: real, step: real, limit: real) returns (ys: seq<real>)
    requires step > 0.0
    ensures ys == Stripes(start, step, limit)
  {
    ys := [];
    var y := start;
    ghost var n := LoopCount((limit - start) / step);
    StripesBound(start, step, limit, n);
    while y < limit
      invariant |ys| <= n
      invariant y == StripeAt(start, step, |ys|)
      invariant |ys| < n ==> y < limit
      invariant forall i :: 0 <= i < |ys| ==> ys[i] == StripeAt(start, step, i)
      decreases n - |ys|
    {
      ys := ys + [y];
      y := y + step;
    }
  }

  datatype CorrugatedOptions = CorrugatedOptions(
    width: Option<real>, height: Option<real>, repeatX: Option<real>, repeatY: Option<real>,
    corrugationSpacing: Option<real>, reinforcementSpacing: Option<real>, plateSpacing: Option<real>)

  /** The three sets of lines of createCorrugatedTexture. */
  datatype CorrugatedLines = CorrugatedLines(corrugations: seq<real>, reinforcements: seq<real>, seams: seq<real>)

  datatype Wrapping = RepeatWrapping | ClampToEdgeWrapping

  /** The texture fields every builder sets. */
  datatype TextureSettings = TextureSettings(wrapS: Wrapping, wrapT: Wrapping, repeatX: real, repeatY: real)

  function Repeating(repeatX: real, repeatY: real): TextureSettings
  {
    TextureSettings(RepeatWrapping, RepeatWrapping, repeatX, repeatY)
  }

  /** createCorrugatedTexture with the defaults 256 by 512, repeat 8 by 4,
      spacings 6, 42 and 32: horizontal lines from 0, reinforcements from
      the first spacing, seams from 0, and repeat wrapping. */
  method CreateCorrugatedTexture(o: CorrugatedOptions) returns (lines: CorrugatedLines, t: TextureSettings)
    requires o.corrugationSpacing.GetOr(6.0) > 0.0
    requires o.reinforcementSpacing.GetOr(42.0) > 0.0
    requires o.plateSpacing.GetOr(32.0) > 0.0
    ensures lines.corrugations == Stripes(0.0, o.corrugationSpacing.GetOr(6.0), o.height.GetOr(512.0))
    ensures lines.reinforcements == Stripes(o.reinforcementSpacing.GetOr(42.0), o.reinforcementSpacing.GetOr(42.0),
                                            o.height.GetOr(512.0))
    ensures lines.seams == Stripes(0.0, o.plateSpacing.GetOr(32.0), o.width.GetOr(256.0))
    ensures t == Repeating(o.repeatX.GetOr(8.0), o.repeatY.GetOr(4.0))
  {
    var width := o.width.GetOr(256.0);
    var height := o.height.GetOr(512.0);
    var corrugations := StrokePositions(0.0, o.corrugationSpacing.GetOr(6.0), height);
    var reinforcement := o.reinforcementSpacing.GetOr(42.0);
    var reinforcements := StrokePositions(reinforcement, reinforcement, height);
    var seams := StrokePositions(0.0, o.plateSpacing.GetOr(32.0), width);
    lines := CorrugatedLines(corrugations, reinforcements, seams);
    t := Repeating(o.repeatX.GetOr(8.0), o.repeatY.GetOr(4.0));
  }

  /** Reinforcement lines never start at the top edge, and with the
      default 512 rows there are 86 corrugations, 12 reinforcements and 8 seams. */
  lemma CorrugatedDefaults(spacing: real, height: real)
    requires spacing > 0.0
    ensures forall y :: y in Stripes(spacing, spacing, height) ==> y >= spacing
    ensures |Stripes(0.0, 6.0, 512.0)| == 86
    ensures |Stripes(42.0, 42.0, 512.0)| == 12
    ensures |Stripes(0.0, 32.0, 256.0)| == 8
  {
    var ys := Stripes(spacing, spacing, height);
    forall y | y in ys ensures y >= spacing {
      var i :| 0 <= i < |ys| && ys[i] == y;
      assert StripeAt(spacing, spacing, i) == spacing + (i as real) * spacing;
      assert (i as real) * spacing >= 0.0;
    }
    assert 512.0 / 6.0 > 85.0;
    assert (512.0 - 42.0) / 42.0 > 11.0;
  }

  /** createSimpleCorrugatedTexture's and the other builders' repeat settings. */
  function SimpleCorrugatedSettings(repeatX: Option<real>, repeatY: Option<real>): TextureSettings
  {
    Repeating(repeatX.GetOr(8.0), repeatY.GetOr(1.0))
  }

  /** The colour-stop offsets of createSimpleCorrugatedTexture's gradient,
      `for (i = 0; i < corrugationCount; i++) pos = i / corrugationCount`:
      one per iteration, rising, all within [0, 1). */
  method GradientStopOffsets(count: real) returns (ps: seq<real>)
    ensures |ps| == LoopCount(count)
    ensures forall i :: 0 <= i < |ps| ==> ps[i] == (i as real) / count
    ensures forall i :: 0 <= i < |ps| ==> 0.0 <= ps[i] < 1.0
    ensures forall i, j :: 0 <= i < j < |ps| ==> ps[i] < ps[j]
  {
    ps := [];
    var i := 0;
    while (i as real) < count
      invariant i == |ps| <= LoopCount(count)
      invariant forall k :: 0 <= k < i ==> ps[k] == (k as real) / count && 0.0 <= ps[k] < 1.0
      invariant forall k, j :: 0 <= k < j < i ==> ps[k] < ps[j]
      decreases LoopCount(count) - i
    {
      var pos := (i as real) / count;
      OffsetBelowOne(i as real, count);
      forall k | 0 <= k < i ensures ps[k] < pos {
        OffsetRises(k as real, i as real, count);
      }
      ps := ps + [pos];
      i := i + 1;
    }
  }

  lemma OffsetBelowOne(i: real, count: real)
    requires 0.0 <= i < count
    ensures 0.0 <= i / count < 1.0
  {
  }

  lemma OffsetRises(a: real, b: real, count: real)
    requires a < b && count > 0.0
    ensures a / count < b / count
  {
  }

  /** The three stops of createMetalTexture's radial gradient: the
      lightened colour at the centre, the colour itself half-way, the
      darkened colour at the rim. */
  function MetalGradient(color: string, shininess: real): (stops: seq<(real, string)>)
    ensures |stops| == 3 && stops[0].0 == 0.0 && stops[2].0 == 1.0
    ensures forall i, j :: 0 <= i < j < 3 ==> stops[i].0 < stops[j].0
    ensures stops[1].1 == color
  {
    [(0.0, LightenColor(color, shininess)), (0.5, color), (1.0, DarkenColor(color, shininess))]
  }

  /** For a valid colour and shininess >= 0 the gradient runs from a
      lighter colour at the centre, through the colour, to a darker one at
      the rim, channel by channel. */
  lemma MetalGradientShades(r: nat, g: nat, b: nat, shininess: real)
    requires r < 256 && g < 256 && b < 256 && shininess >= 0.0
    ensures var stops := MetalGradient(HexColor(r, g, b), shininess);
      var s := Step(shininess);
      && stops[0].1 == "rgb(" + NatToString(MinInt(255, r + s)) + ", " + NatToString(MinInt(255, g + s))
                       + ", " + NatToString(MinInt(255, b + s)) + ")"
      && stops[1].1 == HexColor(r, g, b)
      && stops[2].1 == "rgb(" + NatToString(MaxInt(0, r - s)) + ", " + NatToString(MaxInt(0, g - s))
                       + ", " + NatToString(MaxInt(0, b - s)) + ")"
      && MaxInt(0, r - s) <= r <= MinInt(255, r + s)
      && MaxInt(0, g - s) <= g <= MinInt(255, g + s)
      && MaxInt(0, b - s) <= b <= MinInt(255, b + s)
  {
    LightenValidColor(r, g, b, shininess);
    DarkenValidColor(r, g, b, shininess);
  }

  function ConcreteSettings(repeatX: Option<real>, repeatY: Option<real>): TextureSettings
  {
    Repeating(repeatX.GetOr(4.0), repeatY.GetOr(4.0))
  }

  function MetalSettings(repeatX: Option<real>, repeatY: Option<real>): TextureSettings
  {
    Repeating(repeatX.GetOr(2.0), repeatY.GetOr(2.0))
  }

  /** Every builder tiles its texture: repeat wrapping on both axes, a
      given repeat count kept as it is, and the builder's own default
      (8 by 1, 4 by 4, 2 by 2) for a missing one. */
  lemma BuilderRepeats(repeatX: Option<real>, repeatY: Option<real>)
    ensures var all := [SimpleCorrugatedSettings(repeatX, repeatY), ConcreteSettings(repeatX, repeatY),
                        MetalSettings(repeatX, repeatY)];
      && (forall i :: 0 <= i < 3 ==> all[i].wrapS == RepeatWrapping && all[i].wrapT == RepeatWrapping)
      && (repeatX.Some? ==> forall i :: 0 <= i < 3 ==> all[i].repeatX == repeatX.value)
      && (repeatY.Some? ==> forall i :: 0 <= i < 3 ==> all[i].repeatY == repeatY.value)
      && (repeatX.None? ==> all[0].repeatX == 8.0 && all[1].repeatX == 4.0 && all[2].repeatX == 2.0)
      && (repeatY.None? ==> all[0].repeatY == 1.0 && all[1].repeatY == 4.0 && all[2].repeatY == 2.0)
  {
  }

  // ---------------------------------------------------------------------
  // Concrete noise

  /** Round to nearest, ties to even. */
  function RoundHalfEven(x: real): (n: int)
    ensures (n as real) - 0.5 <= x <= (n as real) + 0.5
  {
    var f := x.Floor;
    var d := x - (f as real);
    if d < 0.5 then f else if d > 0.5 then f + 1 else if f % 2 == 0 then f else f + 1
  }

  /** `Math.max(0, Math.min(255, x))` stored into a Uint8ClampedArray,
      which rounds to the nearest integer, ties to even. */
  function ClampedByte(x: real): (b: int)
    ensures 0 <= b <= 255
    ensures 0.0 <= x <= 255.0 ==> (b as real) - 0.5 <= x <= (b as real) + 0.5
    ensures x <= 0.0 ==> b == 0
    ensures x >= 255.0 ==> b == 255
  {
    var y := Clamp(0.0, 255.0, x);
    var r := RoundHalfEven(y);
    if r < 0 then 0 else if r > 255 then 255 else r
  }

  /** The byte at i after the pass: R, G, B get the pixel's noise, A is kept. */
  function Noised(before: seq<int>, noise: seq<real>, i: nat): int
    requires i < |before| && i / 4 < |noise|
  {
    if i % 4 == 3 then before[i] else ClampedByte(before[i] as real + noise[i / 4])
  }

  /** The noise loop of createConcreteTexture: `for (i = 0; i < length;
      i += 4)`, one noise value per pixel. */
  method ApplyNoise(data: array<int>, noise: seq<real>)
    requires data.Length % 4 == 0 && |noise| == data.Length / 4
    modifies data
    ensures forall i :: 0 <= i < data.Length ==> data[i] == Noised(old(data[..]), noise, i)
  {
    ghost var before := data[..];
    var i := 0;
    while i < data.Length
      invariant 0 <= i <= data.Length && i % 4 == 0
      invariant forall j :: 0 <= j < i ==> data[j] == Noised(before, noise, j)
      invariant forall j :: i <= j < data.Length ==> data[j] == before[j]
    {
      PixelNoised(before, noise, i);
      NoisePixel(data, i, noise[i / 4]);
      forall j | 0 <= j < i + 4
        ensures data[j] == Noised(before, noise, j)
      {
        if j >= i {
          assert j == i || j == i + 1 || j == i + 2 || j == i + 3;
        }
      }
      i := i + 4;
    }
  }

  /** One iteration: the R, G and B bytes of the pixel at i get the noise
      n; every other byte is kept. */
  method NoisePixel(data: array<int>, i: nat, n: real)
    requires i % 4 == 0 && i + 3 < data.Length
    modifies data
    ensures data[i] == ClampedByte(old(data[i]) as real + n)
    ensures data[i + 1] == ClampedByte(old(data[i + 1]) as real + n)
    ensures data[i + 2] == ClampedByte(old(data[i + 2]) as real + n)
    ensures forall j :: 0 <= j < data.Length && (j < i || j > i + 2) ==> data[j] == old(data[j])
  {
    data[i], data[i + 1], data[i + 2] :=
      ClampedByte(data[i] as real + n), ClampedByte(data[i + 1] as real + n), ClampedByte(data[i + 2] as real + n);
  }

  /** The four bytes of the pixel starting at i after the pass. */
  lemma PixelNoised(before: seq<int>, noise: seq<real>, i: nat)
    requires i % 4 == 0 && i + 3 < |before| && i / 4 < |noise|
    ensures var n := noise[i / 4];
      && Noised(before, noise, i) == ClampedByte(before[i] as real + n)
      && Noised(before, noise, i + 1) == ClampedByte(before[i + 1] as real + n)
      && Noised(before, noise, i + 2) == ClampedByte(before[i + 2] as real + n)
      && Noised(before, noise, i + 3) == before[i + 3]
  {
    PixelOffsets(i);
  }

  /** The four bytes from a pixel boundary belong to that pixel, in the
      order R, G, B, A. */
  lemma PixelOffsets(i: nat)
    requires i % 4 == 0
    ensures (i + 1) / 4 == i / 4 && (i + 2) / 4 == i / 4 && (i + 3) / 4 == i / 4
    ensures (i + 1) % 4 == 1 && (i + 2) % 4 == 2 && (i + 3) % 4 == 3
  {
  }

  /** After the pass every colour byte is in [0, 255] and every alpha byte
      is what it was. */
  lemma NoiseBounds(before: seq<int>, noise: seq<real>, i: nat)
    requires i < |before| && i / 4 < |noise|
    ensures i % 4 != 3 ==> 0 <= Noised(before, noise, i) <= 255
    ensures i % 4 == 3 ==> Noised(before, noise, i) == before[i]
  {
  }
}
