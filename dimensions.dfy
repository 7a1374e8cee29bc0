/**
 * The drawing size resolver of the preview (`parse_svg_dimensions`): from a drawing's
 * optional per-axis overrides, the root element's `width`/`height` attributes and its
 * `viewBox`, find the drawing's size in millimetres, or none at all.
 */
module Dimensions {
  import opened Wrappers

  /** The units a length can carry (`svgtypes::LengthUnit`); `NoUnit` is a bare number. */
  datatype LengthUnit = NoUnit | Em | Ex | Px | In | Cm | Mm | Pt | Pc | Percent

  /** A parsed length: a number and its unit. */
  datatype Length = Length(number: real, unit: LengthUnit)

  /** A size in millimetres. */
  datatype Size = Size(width: real, height: real)

  /**
   * The drawing's root element, reduced to the three attributes the resolver reads;
   * each is the attribute's raw text, or None when the attribute is absent.
   */
  datatype RootElement = RootElement(width: Option<string>, height: Option<string>, viewBox: Option<string>)

  /** The user's per-axis size overrides (`[Option<Length>; 2]`). */
  datatype Overrides = Overrides(width: Option<Length>, height: Option<Length>)

  /** The units with a fixed size in millimetres (pixels at 96 per inch). */
  predicate IsAbsolute(u: LengthUnit) {
    u == Mm || u == Cm || u == In || u == Px || u == Pt || u == Pc
  }

  /** Pixels at the reference density of 96 per inch, in millimetres. */
  function PxToMm(x: real): real {
    x * 25.4 / 96.0
  }

  /**
   * The override table: an absolute unit converts, every other unit (including a bare
   * number) gives no value for that axis.
   */
  function OverrideToMm(l: Length): (mm: Option<real>)
    ensures mm.Some? <==> IsAbsolute(l.unit)
    ensures l.unit == Px ==> mm == Some(PxToMm(l.number))
  {
    match l.unit
    case Mm => Some(l.number)
    case Cm => Some(l.number * 10.0)
    case In => Some(l.number * 25.4)
    case Px => Some(l.number * 25.4 / 96.0)
    case Pt => Some(l.number * 25.4 / 72.0)
    case Pc => Some(l.number * 25.4 / 6.0)
    case _ => None
  }

  /**
   * The attribute table: the same factors for the absolute units, and every other unit
   * (a bare number, em, ex, percent) is read as pixels.
   */
  function AttributeToMm(l: Length): (mm: real)
    ensures IsAbsolute(l.unit) ==> OverrideToMm(l) == Some(mm)
    ensures !IsAbsolute(l.unit) ==> mm == PxToMm(l.number)
  {
    match l.unit
    case Mm => l.number
    case Cm => l.number * 10.0
    case In => l.number * 25.4
    case Px => l.number * 25.4 / 96.0
    case NoUnit => l.number * 25.4 / 96.0
    case Pt => l.number * 25.4 / 72.0
    case Pc => l.number * 25.4 / 6.0
    case _ => l.number * 25.4 / 96.0
  }

  /** One axis of the override stage: no override, or one in a non-absolute unit, gives None. */
  function OverrideAxisMm(o: Option<Length>): Option<real> {
    match o
    case Some(l) => OverrideToMm(l)
    case None => None
  }

  /** Both overrides convert, so the override stage decides the size. */
  predicate OverridesDecide(o: Overrides) {
    OverrideAxisMm(o.width).Some? && OverrideAxisMm(o.height).Some?
  }

  /**
   * One axis of the attribute stage: the attribute parsed as a length, or, when it is
   * absent or does not parse, that axis's raw override (whatever its unit).
   */
  function AttributeAxis(attribute: Option<string>, fallback: Option<Length>,
                         parseLength: string -> Option<Length>): (l: Option<Length>)
    ensures attribute.Some? && parseLength(attribute.value).Some? ==> l == parseLength(attribute.value)
    ensures (attribute.None? || parseLength(attribute.value).None?) ==> l == fallback
  {
    (match attribute
     case Some(text) => parseLength(text)
     case None => None).Or(fallback)
  }

  /** Rust's `char::is_whitespace`: the characters with the Unicode White_Space property. */
  predicate IsWhitespace(c: char) {
    ('\t' <= c <= '\r') || c == ' ' || c == '\U{85}' || c == '\U{A0}' || c == '\U{1680}'
    || ('\U{2000}' <= c <= '\U{200A}') || c == '\U{2028}' || c == '\U{2029}'
    || c == '\U{202F}' || c == '\U{205F}' || c == '\U{3000}'
  }

  /** A token of `split_whitespace`: non-empty, with no whitespace in it. */
  predicate IsWord(w: string) {
    |w| > 0 && forall k :: 0 <= k < |w| ==> !IsWhitespace(w[k])
  }

  /** `s` without its leading whitespace. */
  function SkipWhitespace(s: string): (t: string)
    ensures |t| <= |s|
    ensures t == [] || !IsWhitespace(t[0])
  {
    if s != [] && IsWhitespace(s[0]) then SkipWhitespace(s[1..]) else s
  }

  /** The length of the longest whitespace-free prefix of `s`. */
  function WordLength(s: string): (n: nat)
    ensures n <= |s|
    ensures forall k :: 0 <= k < n ==> !IsWhitespace(s[k])
    ensures n < |s| ==> IsWhitespace(s[n])
    ensures s != [] && !IsWhitespace(s[0]) ==> n > 0
  {
    if s == [] || IsWhitespace(s[0]) then 0 else 1 + WordLength(s[1..])
  }

  /** Rust's `str::split_whitespace`: the maximal whitespace-free runs of `s`, in order. */
  function SplitWhitespace(s: string): (words: seq<string>)
    ensures forall i :: 0 <= i < |words| ==> IsWord(words[i])
    decreases |s|
  {
    var t := SkipWhitespace(s);
    if t == [] then []
    else
      var n := WordLength(t);
      var word := t[..n];
      assert IsWord(word);
      [word] + SplitWhitespace(t[n..])
  }

  /** Nothing but whitespace (possibly nothing at all). */
  predicate AllWhitespace(s: string) {
    forall k :: 0 <= k < |s| ==> IsWhitespace(s[k])
  }

  /**
   * The words with `seps[k]` before word `k` and the last separator after them all:
   * `seps[0] + words[0] + seps[1] + ... + words[n-1] + seps[n]`.
   */
  function Joined(words: seq<string>, seps: seq<string>): string
    requires |seps| == |words| + 1
  {
    if words == [] then seps[0] else seps[0] + words[0] + Joined(words[1..], seps[1..])
  }

  /**
   * Separators that `split_whitespace` accepts: every one is whitespace only, those between
   * two words are not empty, and the leading and trailing ones may be.
   */
  predicate Separators(words: seq<string>, seps: seq<string>) {
    |seps| == |words| + 1
    && (forall k :: 0 <= k < |seps| ==> AllWhitespace(seps[k]))
    && (forall k :: 0 < k < |words| ==> seps[k] != [])
  }

  lemma {:induction false} SkipLeadingWhitespace(sep: string, t: string)
    requires AllWhitespace(sep)
    ensures SkipWhitespace(sep + t) == SkipWhitespace(t)
  {
    if sep != [] {
      assert (sep + t)[0] == sep[0];
      assert (sep + t)[1..] == sep[1..] + t;
      SkipLeadingWhitespace(sep[1..], t);
    } else {
      assert sep + t == t;
    }
  }

  lemma {:induction false} WordLengthOfWord(w: string, tail: string)
    requires forall k :: 0 <= k < |w| ==> !IsWhitespace(w[k])
    requires tail == [] || IsWhitespace(tail[0])
    ensures WordLength(w + tail) == |w|
  {
    if w != [] {
      assert (w + tail)[1..] == w[1..] + tail;
      WordLengthOfWord(w[1..], tail);
    }
  }

  /**
   * Splitting gives back exactly the words, in order, however they are separated: by any
   * runs of whitespace between them, with any whitespace before and after.
   */
  lemma {:induction false} SplitJoined(words: seq<string>, seps: seq<string>)
    requires forall i :: 0 <= i < |words| ==> IsWord(words[i])
    requires Separators(words, seps)
    ensures SplitWhitespace(Joined(words, seps)) == words
  {
    if words == [] {
      SkipLeadingWhitespace(seps[0], []);
      assert seps[0] + [] == seps[0];
    } else {
      var w, rest := words[0], Joined(words[1..], seps[1..]);
      var t := w + rest;
      assert Joined(words, seps) == seps[0] + t;
      SkipLeadingWhitespace(seps[0], t);
      assert SkipWhitespace(t) == t;
      if |words| > 1 {
        assert rest == seps[1] + (words[1] + Joined(words[2..], seps[2..]));
        assert rest[0] == seps[1][0];
      } else {
        assert rest == seps[1];
      }
      WordLengthOfWord(w, rest);
      assert t[..|w|] == w && t[|w|..] == rest;
      assert Separators(words[1..], seps[1..]) by {
        forall k | 0 < k < |words[1..]| ensures seps[1..][k] != [] {
          assert seps[1..][k] == seps[k + 1];
        }
      }
      SplitJoined(words[1..], seps[1..]);
    }
  }

  /** A `viewBox` of exactly four tokens, each of which parses as a number. */
  predicate WellFormedViewBox(parts: seq<string>, parseNumber: string -> Option<real>) {
    |parts| == 4 && forall k :: 0 <= k < 4 ==> parseNumber(parts[k]).Some?
  }

  /**
   * The `viewBox` stage: with four numeric tokens, the third and fourth (width and
   * height) are pixels; min-x and min-y are parsed but take no part in the size.
   */
  function ParseViewBox(viewBox: Option<string>, parseNumber: string -> Option<real>): (r: Option<Size>)
    ensures r.Some? <==> viewBox.Some? && WellFormedViewBox(SplitWhitespace(viewBox.value), parseNumber)
    ensures r.Some? ==>
      var parts := SplitWhitespace(viewBox.value);
      r.value == Size(PxToMm(parseNumber(parts[2]).value), PxToMm(parseNumber(parts[3]).value))
  {
    match viewBox
    case None => None
    case Some(text) =>
      var parts := SplitWhitespace(text);
      if |parts| == 4 then
        match (parseNumber(parts[0]), parseNumber(parts[1]), parseNumber(parts[2]), parseNumber(parts[3]))
        case (Some(_), Some(_), Some(w), Some(h)) => Some(Size(w * 25.4 / 96.0, h * 25.4 / 96.0))
        case _ => None
      else None
  }

  /**
   * `parse_svg_dimensions`. `doc` is the parsed drawing (None when the markup does not
   * parse); `parseLength` and `parseNumber` stand for `Length::from_str` and `f64`'s parser.
   */
  function ParseSvgDimensions(doc: Option<RootElement>, overrides: Overrides,
                              parseLength: string -> Option<Length>,
                              parseNumber: string -> Option<real>): (r: Option<Size>)
    // markup that does not parse has no size, whatever the overrides say
    ensures doc.None? ==> r.None?
    // both overrides convert: they are the size, and the attributes are not read
    ensures doc.Some? && OverridesDecide(overrides) ==>
      r == Some(Size(OverrideAxisMm(overrides.width).value, OverrideAxisMm(overrides.height).value))
    // otherwise, both axes resolved from attribute-or-override: converted by the attribute table
    ensures doc.Some? && !OverridesDecide(overrides) ==>
      var w := AttributeAxis(doc.value.width, overrides.width, parseLength);
      var h := AttributeAxis(doc.value.height, overrides.height, parseLength);
      (w.Some? && h.Some? ==> r == Some(Size(AttributeToMm(w.value), AttributeToMm(h.value)))) &&
      // otherwise: the viewBox decides
      (w.None? || h.None? ==> r == ParseViewBox(doc.value.viewBox, parseNumber))
  {
    match doc
    case None => None
    case Some(root) =>
      var widthMm := OverrideAxisMm(overrides.width);
      var heightMm := OverrideAxisMm(overrides.height);
      if widthMm.Some? && heightMm.Some? then
        Some(Size(widthMm.value, heightMm.value))
      else
        var width := AttributeAxis(root.width, overrides.width, parseLength);
        var height := AttributeAxis(root.height, overrides.height, parseLength);
        if width.Some? && height.Some? then
          Some(Size(AttributeToMm(width.value), AttributeToMm(height.value)))
        else
          ParseViewBox(root.viewBox, parseNumber)
  }

  /** The factors of the override table, exactly. */
  lemma OverrideFactors(x: real)
    ensures OverrideToMm(Length(x, Mm)) == Some(x)
    ensures OverrideToMm(Length(x, Cm)) == Some(x * 10.0)
    ensures OverrideToMm(Length(x, In)) == Some(x * 25.4)
    ensures OverrideToMm(Length(x, Px)) == Some(x * 25.4 / 96.0)
    ensures OverrideToMm(Length(x, Pt)) == Some(x * 25.4 / 72.0)
    ensures OverrideToMm(Length(x, Pc)) == Some(x * 25.4 / 6.0)
    ensures OverrideToMm(Length(x, NoUnit)).None? && OverrideToMm(Length(x, Em)).None?
    ensures OverrideToMm(Length(x, Ex)).None? && OverrideToMm(Length(x, Percent)).None?
  {
  }

  /** The absolute units tell one physical inch the same way: 1 in = 2.54 cm = 72 pt = 6 pc = 96 px. */
  lemma OneInchInEveryUnit()
    ensures AttributeToMm(Length(1.0, In)) == 25.4
    ensures AttributeToMm(Length(2.54, Cm)) == 25.4
    ensures AttributeToMm(Length(25.4, Mm)) == 25.4
    ensures AttributeToMm(Length(72.0, Pt)) == 25.4
    ensures AttributeToMm(Length(6.0, Pc)) == 25.4
    ensures AttributeToMm(Length(96.0, Px)) == 25.4
  {
  }

  /** Overrides that both convert make the attributes and the viewBox irrelevant. */
  lemma OverridesIgnoreAttributes(a: RootElement, b: RootElement, overrides: Overrides,
                                  parseLength: string -> Option<Length>,
                                  parseNumber: string -> Option<real>)
    requires OverridesDecide(overrides)
    ensures ParseSvgDimensions(Some(a), overrides, parseLength, parseNumber)
         == ParseSvgDimensions(Some(b), overrides, parseLength, parseNumber)
  {
  }

  /**
   * A single usable override does not short-circuit; on its own axis a parsable attribute
   * then beats it.
   */
  lemma AttributeBeatsSingleOverride(root: RootElement, w: Length, h: Length, overrides: Overrides,
                                     parseLength: string -> Option<Length>,
                                     parseNumber: string -> Option<real>)
    requires overrides.height.None?
    requires root.width.Some? && parseLength(root.width.value) == Some(w)
    requires root.height.Some? && parseLength(root.height.value) == Some(h)
    ensures ParseSvgDimensions(Some(root), overrides, parseLength, parseNumber)
         == Some(Size(AttributeToMm(w), AttributeToMm(h)))
  {
  }

  /**
   * An override in a unit the override table refuses is not lost: with no usable attribute
   * it comes back in the attribute stage, read as pixels.
   */
  lemma RefusedOverridesReadAsPixels(root: RootElement, x: real, y: real, u: LengthUnit,
                                     parseLength: string -> Option<Length>,
                                     parseNumber: string -> Option<real>)
    requires !IsAbsolute(u)
    requires root.width.None? && root.height.None?
    ensures ParseSvgDimensions(Some(root), Overrides(Some(Length(x, u)), Some(Length(y, u))), parseLength, parseNumber)
         == Some(Size(PxToMm(x), PxToMm(y)))
  {
  }

  /** With no size on either axis, only a four-number viewBox gives one. */
  lemma ViewBoxOnlyWhenNoAxisResolves(root: RootElement, parseLength: string -> Option<Length>,
                                      parseNumber: string -> Option<real>)
    requires root.width.None? && root.height.None?
    ensures ParseSvgDimensions(Some(root), Overrides(None, None), parseLength, parseNumber)
         == ParseViewBox(root.viewBox, parseNumber)
  {
  }

  /**
   * The viewBox `0 0 200 100`, laid out with any whitespace (`"0 0 200 100"`, tabs, doubled
   * spaces, line breaks), is 200 by 100 pixels: 635/12 by 635/24 millimetres.
   */
  lemma ViewBoxExample(seps: seq<string>, parseLength: string -> Option<Length>,
                       parseNumber: string -> Option<real>)
    requires Separators(["0", "0", "200", "100"], seps)
    requires parseNumber("0") == Some(0.0)
    requires parseNumber("200") == Some(200.0) && parseNumber("100") == Some(100.0)
    ensures var text := Joined(["0", "0", "200", "100"], seps);
      ParseSvgDimensions(Some(RootElement(None, None, Some(text))), Overrides(None, None), parseLength, parseNumber)
      == Some(Size(635.0 / 12.0, 635.0 / 24.0))
  {
    var words := ["0", "0", "200", "100"];
    forall i | 0 <= i < |words| ensures IsWord(words[i]) {
    }
    SplitJoined(words, seps);
    var text := Joined(words, seps);
    var box := ParseViewBox(Some(text), parseNumber);
    assert box == Some(Size(PxToMm(200.0), PxToMm(100.0)));
  }

  /** The single-spaced layout is one such layout. */
  lemma SingleSpacedViewBox()
    ensures Separators(["0", "0", "200", "100"], ["", " ", " ", " ", ""])
    ensures Joined(["0", "0", "200", "100"], ["", " ", " ", " ", ""]) == "0 0 200 100"
  {
    var words, seps := ["0", "0", "200", "100"], ["", " ", " ", " ", ""];
    assert Joined(words[4..], seps[4..]) == "";
    assert Joined(words[3..], seps[3..]) == " 100";
    assert Joined(words[2..], seps[2..]) == " 200 100";
    assert Joined(words[1..], seps[1..]) == " 0 200 100";
  }
}
