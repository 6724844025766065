/**
 * Colours as the turtle sees them (src/color_names.rs): either resolved RGB
 * channels or the `CurrentColor` sentinel, and the conversions that produce
 * them from `#rrggbb` strings, colour names, numeric triples and RGBA arrays.
 * Channels are `f32` in the source; here they are reals.
 */
module Colors {
  import opened Wrappers

  type Byte = v: int | 0 <= v < 256

  datatype TurtleColor = CurrentColor | Color(r: real, g: real, b: real)

  /** One row of the colour-name table: a name and its 8-bit channels. */
  datatype ColorName = ColorName(name: string, r: Byte, g: Byte, b: Byte)

  /** The ways a conversion panics in the source. */
  datatype ColorError =
    | HexSliceOutOfRange(text: string)   // `#` followed by fewer than six bytes
    | HexNotParsable(text: string)       // bytes 1 to 6 are not a hexadecimal number
    | CurrentColorHasNoRgba              // the `todo!()` of the array conversion

  /** An `[f32; 4]` RGBA array. */
  type Rgba = s: seq<real> | |s| == 4 witness [0.0, 0.0, 0.0, 0.0]

  predicate InUnitRange(v: real)
  {
    0.0 <= v <= 1.0
  }

  predicate IsUnitColor(c: TurtleColor)
  {
    c.Color? && InUnitRange(c.r) && InUnitRange(c.g) && InUnitRange(c.b)
  }

  /** An 8-bit channel scaled to [0, 1] by dividing by 255. */
  function Channel(v: Byte): (x: real)
    ensures InUnitRange(x)
    ensures x * 255.0 == v as real
  {
    v as real / 255.0
  }

  /** `From<(u8, u8, u8)>`: always a colour, each channel the byte over 255. */
  function FromBytes(r: Byte, g: Byte, b: Byte): (c: TurtleColor)
    ensures IsUnitColor(c)
    ensures c.r * 255.0 == r as real && c.g * 255.0 == g as real && c.b * 255.0 == b as real
  {
    Color(Channel(r), Channel(g), Channel(b))
  }

  /** The default colour is black: the same colour as the byte triple (0, 0, 0). */
  function Default(): (c: TurtleColor)
    ensures c == FromBytes(0, 0, 0)
  {
    Color(0.0, 0.0, 0.0)
  }

  /**
   * `From<(f64, f64, f64)>` and `From<(f32, f32, f32)>`: the triple itself when
   * every channel lies in [0, 1] (both ends included), `CurrentColor` otherwise.
   */
  function FromFloatTriple(r: real, g: real, b: real): (c: TurtleColor)
    ensures c.Color? <==> InUnitRange(r) && InUnitRange(g) && InUnitRange(b)
    ensures c.Color? ==> c == Color(r, g, b) && IsUnitColor(c)
  {
    if InUnitRange(r) && InUnitRange(g) && InUnitRange(b) then Color(r, g, b) else CurrentColor
  }

  /** `From<[f32; 4]>`: the first three entries; alpha is dropped. */
  function FromArray(a: Rgba): (c: TurtleColor)
    ensures c.Color? && [c.r, c.g, c.b] == a[..3]
  {
    Color(a[0], a[1], a[2])
  }

  /** `From<TurtleColor> for [f32; 4]`: opaque RGBA; `CurrentColor` panics. */
  function ToArray(c: TurtleColor): (a: Result<Rgba, ColorError>)
    ensures a.Success? <==> c.Color?
    ensures a.Success? ==> a.value[3] == 1.0 && FromArray(a.value) == c
  {
    match c
    case CurrentColor => Failure(CurrentColorHasNoRgba)
    case Color(r, g, b) => Success([r, g, b, 1.0])
  }

  /** An array read as a colour and written back keeps its channels and becomes opaque. */
  lemma ArrayRoundTrip(a: Rgba)
    ensures ToArray(FromArray(a)) == Success(a[..3] + [1.0])
  {
    var b: Rgba := [a[0], a[1], a[2], 1.0];
    assert b == a[..3] + [1.0];
  }

  /** The value of one hexadecimal digit, either case. */
  function HexDigitValue(ch: char): (d: Option<nat>)
    ensures d.Some? ==> d.value < 16
  {
    if '0' <= ch <= '9' then Some(ch as int - '0' as int)
    else if 'a' <= ch <= 'f' then Some(ch as int - 'a' as int + 10)
    else if 'A' <= ch <= 'F' then Some(ch as int - 'A' as int + 10)
    else None
  }

  function Pow16(n: nat): (p: nat)
    ensures p >= 1
  {
    if n == 0 then 1 else 16 * Pow16(n - 1)
  }

  /** The value of a string of hexadecimal digits, most significant first. */
  function HexDigits(s: string): (v: Option<nat>)
    ensures v.Some? <==> forall i :: 0 <= i < |s| ==> HexDigitValue(s[i]).Some?
    ensures v.Some? ==> v.value < Pow16(|s|)
  {
    if |s| == 0 then Some(0)
    else
      var init, last := HexDigits(s[..|s| - 1]), HexDigitValue(s[|s| - 1]);
      if init.Some? && last.Some? then Some(16 * init.value + last.value) else None
  }

  /**
   * `u32::from_str_radix(s, 16)`: an optional leading `+` (a `-` is not a
   * digit of an unsigned number), then one or more hexadecimal digits whose
   * value fits in 32 bits.
   */
  function FromStrRadix16(s: string): (v: Option<nat>)
    ensures v.Some? ==> v.value < 0x1_0000_0000
  {
    if |s| == 0 then None
    else if (s[0] == '+' || s[0] == '-') && |s| == 1 then None
    else
      var digits := HexDigits(if s[0] == '+' then s[1..] else s);
      if digits.Some? && digits.value < 0x1_0000_0000 then digits else None
  }

  /**
   * The first entry of the table whose name equals `name` exactly (case
   * matters), as an index.
   */
  function FirstMatch(table: seq<ColorName>, name: string): (i: Option<nat>)
    ensures i.Some? ==> i.value < |table| && table[i.value].name == name
    ensures i.Some? ==> forall j :: 0 <= j < i.value ==> table[j].name != name
    ensures i.None? ==> forall j :: 0 <= j < |table| ==> table[j].name != name
  {
    if |table| == 0 then None
    else if table[0].name == name then Some(0)
    else
      var rest := FirstMatch(table[1..], name);
      if rest.Some? then Some(rest.value + 1) else None
  }

  /**
   * `From<&str>`: a string starting with `#` is read from its bytes 1 to 6 as a
   * hexadecimal number holding red, green and blue in bits 16-23, 8-15 and 0-7;
   * any other string is looked up in the name table; an unknown name gives
   * `CurrentColor`. Only the hexadecimal branch can fail.
   */
  function FromName(table: seq<ColorName>, name: string): (c: Result<TurtleColor, ColorError>)
    ensures c.Failure? ==> |name| > 0 && name[0] == '#'
    ensures c.Success? && c.value.Color? ==> IsUnitColor(c.value)
  {
    if |name| > 0 && name[0] == '#' then
      if |name| < 7 then Failure(HexSliceOutOfRange(name))
      else
        var value := FromStrRadix16(name[1..7]);
        if value.None? then Failure(HexNotParsable(name))
        else
          var v := value.value;
          Success(FromBytes(v / 0x1_0000 % 0x100, v / 0x100 % 0x100, v % 0x100))
    else
      var i := FirstMatch(table, name);
      if i.Some? then Success(FromBytes(table[i.value].r, table[i.value].g, table[i.value].b))
      else Success(CurrentColor)
  }

  /** The byte written as the two hexadecimal digits `hi` and `lo`. */
  function HexByte(hi: char, lo: char): Byte
    requires HexDigitValue(hi).Some? && HexDigitValue(lo).Some?
  {
    16 * HexDigitValue(hi).value + HexDigitValue(lo).value
  }

  /** The last digit of a hexadecimal string is its least significant one. */
  lemma HexDigitsLast(s: string)
    requires |s| > 0 && HexDigits(s).Some?
    ensures HexDigits(s[..|s| - 1]).Some?
    ensures HexDigits(s).value == 16 * HexDigits(s[..|s| - 1]).value + HexDigitValue(s[|s| - 1]).value
  {
  }

  /** Shifting and masking a 24-bit value recovers its three bytes. */
  lemma SplitBytes(hi: Byte, mid: Byte, lo: Byte)
    ensures (hi as int * 0x1_0000 + mid as int * 0x100 + lo as int) / 0x1_0000 % 0x100 == hi
    ensures (hi as int * 0x1_0000 + mid as int * 0x100 + lo as int) / 0x100 % 0x100 == mid
    ensures (hi as int * 0x1_0000 + mid as int * 0x100 + lo as int) % 0x100 == lo
  {
    var v := hi as int * 0x1_0000 + mid as int * 0x100 + lo as int;
    assert v == (hi as int * 0x100 + mid as int) * 0x100 + lo as int;
    assert v / 0x100 == hi as int * 0x100 + mid as int;
    assert v / 0x1_0000 == hi;
  }

  /** Six hexadecimal digits are three bytes, most significant first. */
  lemma SixDigits(s: string)
    requires |s| == 6 && HexDigits(s).Some?
    ensures HexDigits(s).value
         == HexByte(s[0], s[1]) as int * 0x1_0000 + HexByte(s[2], s[3]) as int * 0x100 + HexByte(s[4], s[5]) as int
  {
    assert s[..5][..4] == s[..4] && s[..4][..3] == s[..3] && s[..3][..2] == s[..2] && s[..2][..1] == s[..1];
    assert s[..1][..0] == [];
    HexDigitsLast(s);
    HexDigitsLast(s[..5]);
    HexDigitsLast(s[..4]);
    HexDigitsLast(s[..3]);
    HexDigitsLast(s[..2]);
    HexDigitsLast(s[..1]);
    var v1, v2, v3 := HexDigits(s[..1]).value, HexDigits(s[..2]).value, HexDigits(s[..3]).value;
    var v4, v5, v6 := HexDigits(s[..4]).value, HexDigits(s[..5]).value, HexDigits(s).value;
    assert v1 == HexDigitValue(s[0]).value;
    assert v2 == HexByte(s[0], s[1]);
    assert v4 == HexByte(s[0], s[1]) as int * 0x100 + HexByte(s[2], s[3]) as int;
  }

  /**
   * `#rrggbb`: red, green and blue are the first, second and third pair of
   * hexadecimal digits after the `#`, each scaled by 1/255.
   */
  lemma HexChannels(table: seq<ColorName>, name: string)
    requires |name| >= 7 && name[0] == '#'
    requires forall i :: 1 <= i < 7 ==> HexDigitValue(name[i]).Some?
    ensures FromName(table, name)
         == Success(FromBytes(HexByte(name[1], name[2]), HexByte(name[3], name[4]), HexByte(name[5], name[6])))
  {
    var s := name[1..7];
    assert forall i :: 0 <= i < 6 ==> HexDigitValue(s[i]).Some?;
    SixDigits(s);
    var hi, mid, lo := HexByte(name[1], name[2]), HexByte(name[3], name[4]), HexByte(name[5], name[6]);
    assert FromStrRadix16(s) == HexDigits(s);
    SplitBytes(hi, mid, lo);
  }

  /** One lower-case hexadecimal digit. */
  function HexChar(d: nat): (ch: char)
    requires d < 16
    ensures HexDigitValue(ch) == Some(d)
  {
    if d < 10 then ('0' as int + d) as char else ('a' as int + d - 10) as char
  }

  /** The `#rrggbb` spelling of a byte triple, in lower case. */
  function HexString(r: Byte, g: Byte, b: Byte): (s: string)
    ensures |s| == 7 && s[0] == '#'
  {
    ['#', HexChar(r / 16), HexChar(r % 16), HexChar(g / 16), HexChar(g % 16), HexChar(b / 16), HexChar(b % 16)]
  }

  /** Reading back the `#rrggbb` spelling of a byte triple gives that triple's colour. */
  lemma HexRoundTrip(table: seq<ColorName>, r: Byte, g: Byte, b: Byte)
    ensures FromName(table, HexString(r, g, b)) == Success(FromBytes(r, g, b))
  {
    var s := HexString(r, g, b);
    HexChannels(table, s);
    assert HexByte(s[1], s[2]) == r && HexByte(s[3], s[4]) == g && HexByte(s[5], s[6]) == b;
  }

  /**
   * The six bytes after `#` form an acceptable hexadecimal field: all digits,
   * except that the first may be a `+` sign.
   */
  predicate HexField(s: string)
    requires |s| == 6
  {
    forall i :: 0 <= i < 6 ==> HexDigitValue(s[i]).Some? || (i == 0 && s[i] == '+')
  }

  /** A `#` string panics exactly when it is shorter than seven bytes or its field is malformed. */
  lemma HexFailure(table: seq<ColorName>, name: string)
    requires |name| > 0 && name[0] == '#'
    ensures FromName(table, name).Failure? <==> |name| < 7 || !HexField(name[1..7])
  {
    if |name| >= 7 {
      var s := name[1..7];
      if s[0] == '+' {
        var t := s[1..];
        assert forall i :: 0 <= i < 5 ==> t[i] == s[i + 1];
        assert HexDigits(t).Some? ==> HexDigits(t).value < 0x10_0000 by {
          assert Pow16(5) == 0x10_0000;
        }
      } else {
        assert HexDigits(s).Some? ==> HexDigits(s).value < 0x100_0000 by {
          assert Pow16(6) == 0x100_0000;
        }
      }
    }
  }

  /** Anything after the sixth hexadecimal digit is ignored. */
  lemma HexIgnoresTail(table: seq<ColorName>, name: string, tail: string)
    requires |name| >= 7 && name[0] == '#'
    ensures FromName(table, name + tail).Success? <==> FromName(table, name).Success?
    ensures FromName(table, name).Success? ==> FromName(table, name + tail) == FromName(table, name)
  {
    assert (name + tail)[1..7] == name[1..7];
  }

  /** A name (not starting with `#`) that is in the table gives the colour of its first entry. */
  lemma NameLookup(table: seq<ColorName>, name: string, k: nat)
    requires !(|name| > 0 && name[0] == '#')
    requires k < |table| && table[k].name == name
    requires forall j :: 0 <= j < k ==> table[j].name != name
    ensures FromName(table, name) == Success(FromBytes(table[k].r, table[k].g, table[k].b))
  {
  }

  /** A name that no entry carries resolves to `CurrentColor`; it is never an error. */
  lemma UnknownNameIsCurrentColor(table: seq<ColorName>, name: string)
    requires !(|name| > 0 && name[0] == '#')
    requires forall j :: 0 <= j < |table| ==> table[j].name != name
    ensures FromName(table, name) == Success(CurrentColor)
  {
  }

  /** A few rows of the table, in the order they appear in it. */
  function SampleTable(): seq<ColorName>
  {
    [ ColorName("alice blue", 240, 248, 255),
      ColorName("AliceBlue", 240, 248, 255),
      ColorName("black", 0, 0, 0),
      ColorName("blue", 0, 0, 255),
      ColorName("green", 0, 128, 0),
      ColorName("red", 255, 0, 0),
      ColorName("white", 255, 255, 255) ]
  }

  /** `#ff0000` is pure red. */
  lemma SpotCheckHex()
    ensures FromName(SampleTable(), "#ff0000") == Success(Color(1.0, 0.0, 0.0))
    ensures FromName(SampleTable(), "#ff00").Failure?
  {
    HexChannels(SampleTable(), "#ff0000");
  }

  /** `black` is the default colour; both spellings of alice blue are listed. */
  lemma SpotCheckNames()
    ensures FromName(SampleTable(), "black") == Success(Default())
    ensures FromName(SampleTable(), "AliceBlue") == FromName(SampleTable(), "alice blue")
  {
    var table := SampleTable();
    NameLookup(table, "black", 2);
    NameLookup(table, "AliceBlue", 1);
    NameLookup(table, "alice blue", 0);
  }

  /** Names are compared exactly, case and spaces included: anything else is the current colour. */
  lemma SpotCheckUnknownNames()
    ensures FromName(SampleTable(), "aliceblue") == Success(CurrentColor)
    ensures FromName(SampleTable(), "not-a-color") == Success(CurrentColor)
  {
    UnknownNameIsCurrentColor(SampleTable(), "aliceblue");
    UnknownNameIsCurrentColor(SampleTable(), "not-a-color");
  }
}
