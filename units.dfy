/** The CSS value types of `src/styles.rs`: units, predefined lengths,
    alpha levels and colours, each with the text it serialises to. */
module Units {
  import opened Wrappers
  import opened Text

  /** Rust's `u8` and `u16`. */
  type U8 = n: nat | n < 0x100
  type U16 = n: nat | n < 0x1_0000

  // ---------------------------------------------------------------------
  // PuppetUnit

  datatype PuppetUnit = Pixels(pixels: U16) | Percentage(percent: U8)

  function Magnitude(u: PuppetUnit): nat
  {
    match u
    case Pixels(n) => n
    case Percentage(n) => n
  }

  /** The suffixes of `src/global.rs`. */
  const PixelsSymbol: string := "px"
  const PercentageSymbol: string := "%"

  function Suffix(u: PuppetUnit): string
  {
    if u.Pixels? then PixelsSymbol else PercentageSymbol
  }

  /** `PuppetUnit::to_html_units`: a zero magnitude is the sentinel "auto",
      any other magnitude its decimal digits followed by "px" or "%". */
  function UnitToHtml(u: PuppetUnit): string
  {
    match u
    case Pixels(n) => if n == 0 then "auto" else NatToString(n) + PixelsSymbol
    case Percentage(n) => if n == 0 then "auto" else NatToString(n) + PercentageSymbol
  }

  /** `Display for PuppetUnit`: the magnitude and suffix, with no sentinel. */
  function UnitDisplay(u: PuppetUnit): (r: string)
  {
    NatToString(Magnitude(u)) + Suffix(u)
  }

  /** `Debug for PuppetUnit`. */
  function UnitDebug(u: PuppetUnit): (r: string)
  {
    match u
    case Pixels(n) => "PuppetUnit::Pixels(" + NatToString(n) + ")"
    case Percentage(n) => "PuppetUnit::Percentage(" + NatToString(n) + ")"
  }

  /** The Debug text determines the unit: the variant and the magnitude. */
  lemma UnitDebugInjective(u: PuppetUnit, v: PuppetUnit)
    ensures UnitDebug(u) == UnitDebug(v) ==> u == v
  {
    var ud, vd := UnitDebug(u), UnitDebug(v);
    if ud == vd {
      assert u.Pixels? == v.Pixels? by {
        assert ud[13] == vd[13];
      }
      var p := if u.Pixels? then 19 else 23;
      assert ud[p..|ud| - 1] == NatToString(Magnitude(u));
      assert vd[p..|vd| - 1] == NatToString(Magnitude(v));
      NatToStringInjective(Magnitude(u), Magnitude(v));
    }
  }

  /** Reads a CSS unit back: digits followed by "px" or "%", within the
      range of the magnitude's type; "auto" and everything else is None. */
  function UnitFromHtml(s: string): Option<PuppetUnit>
  {
    if |s| >= 2 && s[|s| - 2..] == PixelsSymbol && IsDigits(s[..|s| - 2])
       && DigitsValue(s[..|s| - 2]) < 0x1_0000
    then Some(Pixels(DigitsValue(s[..|s| - 2])))
    else if |s| >= 1 && s[|s| - 1..] == PercentageSymbol && IsDigits(s[..|s| - 1])
       && DigitsValue(s[..|s| - 1]) < 0x100
    then Some(Percentage(DigitsValue(s[..|s| - 1])))
    else None
  }

  /** A non-zero unit is recovered from its CSS text; a zero unit becomes
      "auto", which no longer says whether it was pixels or a percentage. */
  lemma UnitRoundTrip(u: PuppetUnit)
    ensures Magnitude(u) != 0 ==> UnitFromHtml(UnitToHtml(u)) == Some(u)
    ensures Magnitude(u) == 0 ==> UnitFromHtml(UnitToHtml(u)) == None
  {
    var r := UnitToHtml(u);
    if Magnitude(u) != 0 {
      var digits := NatToString(Magnitude(u));
      DigitsRoundTrip(Magnitude(u));
      if u.Pixels? {
        assert r[..|r| - 2] == digits && r[|r| - 2..] == PixelsSymbol;
      } else {
        assert r[..|r| - 1] == digits && r[|r| - 1..] == PercentageSymbol;
        assert r[|r| - 2..] != PixelsSymbol by {
          assert r[|r| - 1] == '%';
        }
      }
    } else {
      assert r == "auto";
    }
  }

  /** `to_html_units` and Display agree except on a zero magnitude, which
      Display prints as "0px" or "0%" and `to_html_units` as "auto". */
  lemma UnitHtmlIsDisplayUnlessZero(u: PuppetUnit)
    ensures UnitToHtml(u) == if Magnitude(u) == 0 then "auto" else UnitDisplay(u)
    ensures Magnitude(u) == 0 ==> UnitDisplay(u) == "0" + Suffix(u)
  {
  }

  // ---------------------------------------------------------------------
  // PuppetLength

  datatype PuppetLength =
    | ViewPortWidth | ViewPortHeight | Full | ThreeQuarter | Half | Quarter | Eighth
    | Normal  // fills the width depending on the width of the elements

  /** `PuppetLength::to_html_units`: a fixed table. */
  function LengthToHtml(l: PuppetLength): (r: string)
  {
    match l
    case ViewPortWidth => "100vw"
    case ViewPortHeight => "100vh"
    case Full => "100%"
    case ThreeQuarter => "75%"
    case Half => "50%"
    case Quarter => "25%"
    case Eighth => "12.5%"
    case Normal => "auto"
  }

  /** The inverse of the length table. */
  function LengthFromHtml(s: string): Option<PuppetLength>
  {
    if s == "100vw" then Some(ViewPortWidth)
    else if s == "100vh" then Some(ViewPortHeight)
    else if s == "100%" then Some(PuppetLength.Full)
    else if s == "75%" then Some(ThreeQuarter)
    else if s == "50%" then Some(Half)
    else if s == "25%" then Some(Quarter)
    else if s == "12.5%" then Some(Eighth)
    else if s == "auto" then Some(Normal)
    else None
  }

  /** Every length is read back from its CSS text, so no two lengths share
      a text. */
  lemma LengthRoundTrip(l: PuppetLength)
    ensures LengthFromHtml(LengthToHtml(l)) == Some(l)
  {
  }

  lemma LengthToHtmlInjective(a: PuppetLength, b: PuppetLength)
    ensures LengthToHtml(a) == LengthToHtml(b) ==> a == b
  {
    LengthRoundTrip(a);
    LengthRoundTrip(b);
  }

  /** The Display table of `PuppetLength` (printed with `{}`, no quotes). */
  function LengthDisplay(l: PuppetLength): string
  {
    match l
    case ViewPortWidth => "ViewPortWidth"
    case ViewPortHeight => "ViewPortHeight"
    case Full => "Full"
    case ThreeQuarter => "ThreeQuarter"
    case Half => "Half"
    case Quarter => "Quarter"
    case Eighth => "Eighth"
    case Normal => "Normal"
  }

  /** The Debug table of `PuppetLength`, printed with `{:?}`, so quoted. */
  function LengthDebug(l: PuppetLength): string
  {
    Quoted(LengthQualifiedName(l))
  }

  function LengthQualifiedName(l: PuppetLength): string
  {
    match l
    case ViewPortWidth => "PuppetLength::ViewPortWidth"
    case ViewPortHeight => "PuppetLength::ViewPortHeight"
    case Full => "PuppetLength::Full"
    case ThreeQuarter => "PuppetLength::ThreeQuarter"
    case Half => "PuppetLength::Half"
    case Quarter => "PuppetLength::Quarter"
    case Eighth => "PuppetLength::Eighth"
    case Normal => "PuppetLength::Normal"
  }

  /** Debug is the quoted, qualified Display name. */
  lemma LengthDebugIsQualifiedDisplay(l: PuppetLength)
    ensures LengthDebug(l) == Quoted("PuppetLength::" + LengthDisplay(l))
  {
    LengthQualifiedNames(l);
  }

  lemma LengthQualifiedNames(l: PuppetLength)
    ensures LengthQualifiedName(l) == "PuppetLength::" + LengthDisplay(l)
  {
    if l == PuppetLength.ViewPortWidth {
      assert "PuppetLength::ViewPortWidth" == "PuppetLength::" + "ViewPortWidth";
    } else if l == PuppetLength.ViewPortHeight {
      assert "PuppetLength::ViewPortHeight" == "PuppetLength::" + "ViewPortHeight";
    } else if l == PuppetLength.Full {
      assert "PuppetLength::Full" == "PuppetLength::" + "Full";
    } else if l == PuppetLength.ThreeQuarter {
      assert "PuppetLength::ThreeQuarter" == "PuppetLength::" + "ThreeQuarter";
    } else if l == PuppetLength.Half {
      assert "PuppetLength::Half" == "PuppetLength::" + "Half";
    } else if l == PuppetLength.Quarter {
      assert "PuppetLength::Quarter" == "PuppetLength::" + "Quarter";
    } else if l == PuppetLength.Eighth {
      assert "PuppetLength::Eighth" == "PuppetLength::" + "Eighth";
    } else {
      assert "PuppetLength::Normal" == "PuppetLength::" + "Normal";
    }
  }

  // ---------------------------------------------------------------------
  // Transparency

  datatype Transparency =
    | Full  // zero on the alpha channel
    | Ten | Twenty | Thirty | Forty | Fifty | Sixty | Seventy | Eighty | Ninety
    | Opaque  // the colour is opaque

  function DefaultTransparency(): Transparency { Opaque }

  /** `Transparency::to_html_alpha`: the alpha value as a decimal string. */
  function AlphaToHtml(t: Transparency): (r: string)
  {
    match t
    case Full => "0"
    case Ten => "0.1"
    case Twenty => "0.2"
    case Thirty => "0.3"
    case Forty => "0.4"
    case Fifty => "0.5"
    case Sixty => "0.6"
    case Seventy => "0.7"
    case Eighty => "0.8"
    case Ninety => "0.9"
    case Opaque => "1"
  }

  /** The alpha level in tenths, in declaration order. */
  function Tenths(t: Transparency): (n: nat)
    ensures n <= 10
  {
    match t
    case Full => 0
    case Ten => 1
    case Twenty => 2
    case Thirty => 3
    case Forty => 4
    case Fifty => 5
    case Sixty => 6
    case Seventy => 7
    case Eighty => 8
    case Ninety => 9
    case Opaque => 10
  }

  /** The alpha text is the decimal notation of `Tenths(t) / 10`: "0" for
      none, "1" for opaque, "0.d" in between; hence distinct levels have
      distinct texts. */
  lemma AlphaIsTenths(t: Transparency)
    ensures AlphaToHtml(t) ==
      if Tenths(t) == 0 then "0"
      else if Tenths(t) == 10 then "1"
      else "0." + NatToString(Tenths(t))
  {
  }

  lemma AlphaToHtmlInjective(a: Transparency, b: Transparency)
    ensures AlphaToHtml(a) == AlphaToHtml(b) ==> a == b
  {
    AlphaIsTenths(a);
    AlphaIsTenths(b);
    if AlphaToHtml(a) == AlphaToHtml(b) {
      if 0 < Tenths(a) < 10 && 0 < Tenths(b) < 10 {
        assert NatToString(Tenths(a)) == AlphaToHtml(a)[2..];
        NatToStringInjective(Tenths(a), Tenths(b));
      }
    }
  }

  /** The default alpha is opaque, printed "1". */
  lemma TransparencyDefault()
    ensures DefaultTransparency() == Opaque && AlphaToHtml(DefaultTransparency()) == "1"
  {
  }

  /** The Display table of `Transparency`, printed with `{:?}`, so quoted. */
  function TransparencyDisplay(t: Transparency): string
  {
    Quoted(TransparencyName(t))
  }

  function TransparencyName(t: Transparency): string
  {
    match t
    case Full => "Full"
    case Ten => "Ten"
    case Twenty => "Twenty"
    case Thirty => "Thirty"
    case Forty => "Forty"
    case Fifty => "Fifty"
    case Sixty => "Sixty"
    case Seventy => "Seventy"
    case Eighty => "Eighty"
    case Ninety => "Ninety"
    case Opaque => "Opaque"
  }

  /** The Debug table of `Transparency`, printed with `{:?}`, so quoted. */
  function TransparencyDebug(t: Transparency): string
  {
    Quoted(TransparencyQualifiedName(t))
  }

  function TransparencyQualifiedName(t: Transparency): string
  {
    match t
    case Full => "Transparency::Full"
    case Ten => "Transparency::Ten"
    case Twenty => "Transparency::Twenty"
    case Thirty => "Transparency::Thirty"
    case Forty => "Transparency::Forty"
    case Fifty => "Transparency::Fifty"
    case Sixty => "Transparency::Sixty"
    case Seventy => "Transparency::Seventy"
    case Eighty => "Transparency::Eighty"
    case Ninety => "Transparency::Ninety"
    case Opaque => "Transparency::Opaque"
  }

  lemma TransparencyDebugIsQualifiedDisplay(t: Transparency)
    ensures TransparencyDebug(t) == Quoted("Transparency::" + TransparencyName(t))
  {
    TransparencyQualifiedNames(t);
  }

  lemma TransparencyQualifiedNames(t: Transparency)
    ensures TransparencyQualifiedName(t) == "Transparency::" + TransparencyName(t)
  {
    if t == Transparency.Full {
      assert "Transparency::Full" == "Transparency::" + "Full";
    } else if t == Transparency.Ten {
      assert "Transparency::Ten" == "Transparency::" + "Ten";
    } else if t == Transparency.Twenty {
      assert "Transparency::Twenty" == "Transparency::" + "Twenty";
    } else if t == Transparency.Thirty {
      assert "Transparency::Thirty" == "Transparency::" + "Thirty";
    } else if t == Transparency.Forty {
      assert "Transparency::Forty" == "Transparency::" + "Forty";
    } else if t == Transparency.Fifty {
      assert "Transparency::Fifty" == "Transparency::" + "Fifty";
    } else if t == Transparency.Sixty {
      assert "Transparency::Sixty" == "Transparency::" + "Sixty";
    } else if t == Transparency.Seventy {
      assert "Transparency::Seventy" == "Transparency::" + "Seventy";
    } else if t == Transparency.Eighty {
      assert "Transparency::Eighty" == "Transparency::" + "Eighty";
    } else if t == Transparency.Ninety {
      assert "Transparency::Ninety" == "Transparency::" + "Ninety";
    } else {
      assert "Transparency::Opaque" == "Transparency::" + "Opaque";
    }
  }

  // ---------------------------------------------------------------------
  // PuppetColor

  datatype PuppetColor =
    | Hex(hex: string)
    | Rgb(r: U8, g: U8, b: U8)
    | Rgba(r: U8, g: U8, b: U8, a: Transparency)

  function DefaultColor(): PuppetColor { Hex("FFFFFF") }

  /** What `hex_color_constraints` accepts: exactly six characters, none
      above 'f'. (Rust's `len` counts bytes; it equals the character count
      whenever no character is above 'f', so the answer is the same.) */
  predicate HexAccepted(s: string)
  {
    |s| == 6 && forall i :: 0 <= i < |s| ==> s[i] <= 'f'
  }

  /** `PuppetColor::hex_color_constraints`: the length test, then a pass
      over every character that clears `check` on any character above 'f'.
      The trace logging is not modelled. */
  method HexColorConstraints(s: string) returns (check: bool)
    ensures check <==> HexAccepted(s)
  {
    if |s| != 6 {
      return false;
    }
    check := true;
    for i := 0 to |s|
      invariant check <==> forall j :: 0 <= j < i ==> s[j] <= 'f'
    {
      if s[i] > 'f' {
        check := false;
      }
    }
  }

  /** `PuppetColor::to_html_color`. A hex colour is checked in lower case
      but printed as given, after "#"; a rejected one is the sentinel
      "INVALID_COLOR". Rgba prints the function name "rgb(", not "rgba(". */
  function ColorToHtml(c: PuppetColor): (r: string)
  {
    match c
    case Hex(s) => if HexAccepted(ToLower(s)) then "#" + s else "INVALID_COLOR"
    case Rgb(r, g, b) =>
      "rgb(" + NatToString(r) + "," + NatToString(g) + "," + NatToString(b) + ")"
    case Rgba(r, g, b, a) =>
      "rgb(" + NatToString(r) + "," + NatToString(g) + "," + NatToString(b) + ","
      + AlphaToHtml(a) + ")"
  }

  /** The three shapes a colour serialises to: an accepted hex colour is
      its text behind '#', a rejected one the sentinel, and an rgb colour
      an "rgb(...)" call. */
  lemma ColorToHtmlCases(c: PuppetColor)
    ensures c.Hex? && HexAccepted(ToLower(c.hex)) ==> ColorToHtml(c) == "#" + c.hex
    ensures c.Hex? && !HexAccepted(ToLower(c.hex)) ==> ColorToHtml(c) == "INVALID_COLOR"
    ensures !c.Hex? ==> var r := ColorToHtml(c);
      |r| > 4 && r[..4] == "rgb(" && r[|r| - 1] == ')'
  {
  }

  /** The characters a hex colour may hold: anything up to 'f' except the
      upper-case letters 'G' to 'Z' (lower-casing moves those above 'f').
      Upper-case 'A' to 'F' and punctuation such as '[' or '`' pass. */
  predicate HexCharAccepted(c: char)
  {
    c <= 'f' && !('G' <= c <= 'Z')
  }

  lemma HexAcceptedExactly(s: string)
    ensures HexAccepted(ToLower(s)) <==>
      |s| == 6 && forall i :: 0 <= i < |s| ==> HexCharAccepted(s[i])
  {
    var t := ToLower(s);
    if HexAccepted(t) {
      forall i | 0 <= i < |s| ensures HexCharAccepted(s[i]) {
        assert t[i] == LowerChar(s[i]) && t[i] <= 'f';
      }
    }
    if |s| == 6 && forall i :: 0 <= i < |s| ==> HexCharAccepted(s[i]) {
      forall i | 0 <= i < |t| ensures t[i] <= 'f' {
        assert HexCharAccepted(s[i]);
      }
    }
  }

  /** The sentinel comes only from a rejected hex colour: accepted hex
      colours start with '#', rgb colours with "rgb(". */
  lemma InvalidColorOnlyFromRejectedHex(c: PuppetColor)
    ensures ColorToHtml(c) == "INVALID_COLOR" <==> c.Hex? && !HexAccepted(ToLower(c.hex))
  {
    var r := ColorToHtml(c);
    if !c.Hex? {
      assert r[0] == 'r' && "INVALID_COLOR"[0] == 'I';
    } else if HexAccepted(ToLower(c.hex)) {
      assert r[0] == '#';
    }
  }

  /** The Rgba text is the Rgb text with its closing parenthesis replaced
      by a comma, the alpha text and a closing parenthesis. */
  lemma RgbaExtendsRgb(r: U8, g: U8, b: U8, a: Transparency)
    ensures var rgb := ColorToHtml(Rgb(r, g, b));
      ColorToHtml(Rgba(r, g, b, a)) == rgb[..|rgb| - 1] + "," + AlphaToHtml(a) + ")"
  {
    var rgb := ColorToHtml(Rgb(r, g, b));
    var body := "rgb(" + NatToString(r) + "," + NatToString(g) + "," + NatToString(b);
    assert rgb == body + ")";
    assert rgb[..|rgb| - 1] == body;
  }

  /** A six-fold repetition of an accepted character is printed verbatim. */
  lemma HexRepeatedAccepted(c: char)
    requires HexCharAccepted(c)
    ensures ColorToHtml(Hex([c, c, c, c, c, c])) == "#" + [c, c, c, c, c, c]
  {
    HexAcceptedExactly([c, c, c, c, c, c]);
  }

  /** The default background: "FFFFFF" passes the check and keeps its case. */
  lemma HexWhiteAccepted()
    ensures ColorToHtml(Hex("FFFFFF")) == "#FFFFFF"
  {
    HexRepeatedAccepted('F');
  }

  /** Lower-case digits pass the check too. */
  lemma HexLowerAccepted()
    ensures ColorToHtml(Hex("ffffff")) == "#ffffff"
  {
    HexRepeatedAccepted('f');
  }

  /** Punctuation below 'f' passes the check although it is no hex digit. */
  lemma HexPunctuationAccepted()
    ensures ColorToHtml(Hex("[[[[[[")) == "#[[[[[["
  {
    HexRepeatedAccepted('[');
  }

  /** The default colour is white hex, which passes the check and is
      printed "#FFFFFF". */
  lemma ColorDefault()
    ensures DefaultColor() == Hex("FFFFFF") && ColorToHtml(DefaultColor()) == "#FFFFFF"
  {
    HexWhiteAccepted();
  }

  /** Too short, or letters that lower-case above 'f': the sentinel. */
  lemma HexRejectedExamples()
    ensures ColorToHtml(Hex("12345")) == "INVALID_COLOR"
    ensures ColorToHtml(Hex("zzzzzz")) == "INVALID_COLOR"
    ensures ColorToHtml(Hex("GGGGGG")) == "INVALID_COLOR"
  {
    assert ToLower("zzzzzz")[0] == 'z';
    assert ToLower("GGGGGG")[0] == 'g';
  }

  lemma TwoDigits(n: nat)
    requires 10 <= n < 100
    ensures NatToString(n) == [Digit(n / 10), Digit(n % 10)]
  {
  }

  /** Worked cases of the rgb serialiser. */
  lemma RgbExamples()
    ensures ColorToHtml(Rgb(10, 20, 30)) == "rgb(10,20,30)"
    ensures ColorToHtml(Rgba(0, 0, 0, Transparency.Full)) == "rgb(0,0,0,0)"
  {
    TwoDigits(10);
    TwoDigits(20);
    TwoDigits(30);
  }
}
