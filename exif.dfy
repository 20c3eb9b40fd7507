/** get_exif_data: the five photo settings shown under the swatches, looked
    up by tag name in the decoded EXIF block with "Unknown" for a missing
    tag. Decoding the block and naming its numeric tags are inputs: the
    block arrives as an optional map from tag name to value. Values are kept
    as the source keeps them; they become text only when a line is drawn,
    through Show, which mirrors Python's str. */
module Exif {

  datatype Option<T> = None | Some(value: T)

  /** A decoded tag value: a string, an integer, a (numerator, denominator)
      pair of integers, or any other non-tuple object, carried with the text
      str() gives it. Tuples of other lengths or element types are not
      represented. */
  datatype Value = Str(s: string) | Num(n: int) | Ratio(num: int, den: int) | Other(shown: string)

  /** A record is the ordered dict get_exif_data returns. */
  type Record = seq<(string, Value)>

  /** The placeholder for a tag the photo does not carry. */
  const Unknown: string := "Unknown"

  /** The record's keys, in the order the record lists (and draws) them. */
  const Keys: seq<string> := ["Aperture", "ISO", "Shutter Speed", "Camera", "Lens"]

  predicate IsDigit(c: char)
  {
    '0' <= c <= '9'
  }

  function DigitChar(d: nat): (c: char)
    requires d < 10
    ensures IsDigit(c) && c as int - '0' as int == d
  {
    ('0' as int + d) as char
  }

  /** Decimal digits of n, most significant first, with no leading zero. */
  function NatToString(n: nat): (s: string)
    ensures |s| > 0
    ensures forall k :: 0 <= k < |s| ==> IsDigit(s[k])
  {
    if n < 10 then [DigitChar(n)] else NatToString(n / 10) + [DigitChar(n % 10)]
  }

  /** Python's str of an int: a minus sign, then the digits of the magnitude. */
  function IntToString(i: int): (s: string)
    ensures |s| > 0 && (s[0] == '-' <==> i < 0)
    ensures forall k :: 0 <= k < |s| ==> IsDigit(s[k]) || s[k] == '-'
  {
    if i < 0 then "-" + NatToString(-i) else NatToString(i)
  }

  /** Python's str of a value; a tuple prints as "(a, b)". */
  function Show(v: Value): string
  {
    match v
    case Str(s) => s
    case Num(n) => IntToString(n)
    case Ratio(a, b) => "(" + IntToString(a) + ", " + IntToString(b) + ")"
    case Other(shown) => shown
  }

  /** dict.get(name, "Unknown"). */
  function Lookup(tags: map<string, Value>, name: string): (v: Value)
    ensures name in tags ==> v == tags[name]
    ensures name !in tags ==> v == Str(Unknown)
  {
    if name in tags then tags[name] else Str(Unknown)
  }

  /** The aperture shown as "f/<value>"; only the string "Unknown" (the
      default, or a tag that literally holds it) is left as it is. */
  function FormatAperture(v: Value): (r: Value)
    ensures r == Str(Unknown) <==> v == Str(Unknown)
    ensures v != Str(Unknown) ==> r == Str("f/" + Show(v))
  {
    if v != Str(Unknown) then
      assert ("f/" + Show(v))[0] != Unknown[0];
      Str("f/" + Show(v))
    else Str(Unknown)
  }

  /** The exposure time: a tuple (n, d) is shown as "n/d sec"; any other
      value is passed on unchanged. */
  function FormatShutter(v: Value): (r: Value)
    ensures v.Ratio? ==> r == Str(IntToString(v.num) + "/" + IntToString(v.den) + " sec")
    ensures !v.Ratio? ==> r == v
  {
    match v
    case Ratio(n, d) => Str(IntToString(n) + "/" + IntToString(d) + " sec")
    case _ => v
  }

  /** The record for a photo's EXIF block: nothing when the block is absent
      or empty, otherwise the five keys in order, each holding its tag's
      value (formatted for aperture and shutter speed) or "Unknown". */
  function GetExifData(exif: Option<map<string, Value>>): (r: Option<Record>)
    ensures r.None? <==> exif.None? || exif.value == map[]
    ensures r.Some? ==> |r.value| == |Keys| &&
                        forall i :: 0 <= i < |Keys| ==> r.value[i].0 == Keys[i]
  {
    match exif
    case None => None
    case Some(tags) =>
      if tags == map[] then None
      else
        var aperture := Lookup(tags, "FNumber");
        var iso := Lookup(tags, "ISOSpeedRatings");
        var shutter := Lookup(tags, "ExposureTime");
        var camera := Lookup(tags, "Model");
        var lens := Lookup(tags, "LensModel");
        Some([("Aperture", FormatAperture(aperture)),
              ("ISO", iso),
              ("Shutter Speed", FormatShutter(shutter)),
              ("Camera", camera),
              ("Lens", lens)])
  }

  /** A field whose tag the block lacks reads "Unknown". */
  lemma MissingTagsDefault(tags: map<string, Value>)
    requires tags != map[]
    ensures var r := GetExifData(Some(tags)).value;
            ("FNumber" !in tags ==> r[0].1 == Str(Unknown)) &&
            ("ISOSpeedRatings" !in tags ==> r[1].1 == Str(Unknown)) &&
            ("ExposureTime" !in tags ==> r[2].1 == Str(Unknown)) &&
            ("Model" !in tags ==> r[3].1 == Str(Unknown)) &&
            ("LensModel" !in tags ==> r[4].1 == Str(Unknown))
  {
  }

  /** ISO, camera and lens are the tag values themselves, unformatted. */
  lemma PresentTagsPassThrough(tags: map<string, Value>)
    requires tags != map[]
    ensures var r := GetExifData(Some(tags)).value;
            ("ISOSpeedRatings" in tags ==> r[1].1 == tags["ISOSpeedRatings"]) &&
            ("Model" in tags ==> r[3].1 == tags["Model"]) &&
            ("LensModel" in tags ==> r[4].1 == tags["LensModel"])
  {
  }

  /** An ExposureTime tag reaches the record through FormatShutter: a
      (n, d) tuple becomes "n/d sec", which reads back as (n, d), and any
      other value is the tag value itself. */
  lemma ShutterEntryFormatted(tags: map<string, Value>)
    requires tags != map[] && "ExposureTime" in tags
    ensures var r := GetExifData(Some(tags)).value;
            var v := tags["ExposureTime"];
            r[2].1 == FormatShutter(v) &&
            (v.Ratio? ==> r[2].1.Str? && ParseShutter(r[2].1.s) == Some((v.num, v.den))) &&
            (!v.Ratio? ==> r[2].1 == v)
  {
    var v := tags["ExposureTime"];
    if v.Ratio? {
      ShutterRoundTrip(v.num, v.den);
    }
  }

  /** The aperture reads "Unknown" exactly when the tag is missing or holds
      that very string; otherwise it is "f/" followed by the tag's text. */
  lemma ApertureUnknownIff(tags: map<string, Value>)
    requires tags != map[]
    ensures var r := GetExifData(Some(tags)).value;
            (r[0].1 == Str(Unknown) <==> "FNumber" !in tags || tags["FNumber"] == Str(Unknown)) &&
            ("FNumber" in tags && tags["FNumber"] != Str(Unknown) ==>
               r[0].1 == Str("f/" + Show(tags["FNumber"])))
  {
  }

  // Reading a formatted shutter speed back: the partner of FormatShutter.

  /** The value of a non-empty run of decimal digits; None for anything else. */
  function ParseNat(s: string): (r: Option<nat>)
    ensures r.Some? ==> |s| > 0
  {
    if s == [] || !IsDigit(s[|s| - 1]) then None
    else
      var d := s[|s| - 1] as int - '0' as int;
      if |s| == 1 then Some(d)
      else match ParseNat(s[..|s| - 1])
        case None => None
        case Some(p) => Some(10 * p + d)
  }

  /** An optional minus sign followed by decimal digits. */
  function ParseInt(s: string): Option<int>
  {
    if |s| > 0 && s[0] == '-' then
      match ParseNat(s[1..])
      case None => None
      case Some(p) => Some(-(p as int))
    else
      match ParseNat(s)
      case None => None
      case Some(p) => Some(p)
  }

  /** Position of the first occurrence of c in s. */
  function IndexOf(s: string, c: char): (r: Option<nat>)
    ensures r.Some? ==> r.value < |s| && s[r.value] == c &&
                        forall j :: 0 <= j < r.value ==> s[j] != c
    ensures r.None? ==> forall j :: 0 <= j < |s| ==> s[j] != c
  {
    if s == [] then None
    else if s[0] == c then Some(0)
    else match IndexOf(s[1..], c)
      case None => None
      case Some(k) => Some(k + 1)
  }

  /** Reads "n/d sec" back into (n, d), splitting at the first '/'. */
  function ParseShutter(s: string): Option<(int, int)>
  {
    if |s| < 4 || s[|s| - 4..] != " sec" then None
    else
      var body := s[..|s| - 4];
      match IndexOf(body, '/')
      case None => None
      case Some(k) =>
        match (ParseInt(body[..k]), ParseInt(body[k + 1..]))
        case (Some(n), Some(d)) => Some((n, d))
        case _ => None
  }

  lemma {:induction false} ParseNatToString(n: nat)
    ensures ParseNat(NatToString(n)) == Some(n)
  {
    if n >= 10 {
      var s := NatToString(n);
      assert s[..|s| - 1] == NatToString(n / 10);
      ParseNatToString(n / 10);
    }
  }

  lemma ParseIntToString(i: int)
    ensures ParseInt(IntToString(i)) == Some(i)
  {
    if i < 0 {
      assert IntToString(i)[1..] == NatToString(-i);
      ParseNatToString(-i);
    } else {
      ParseNatToString(i);
    }
  }

  /** A formatted shutter speed determines its tuple: reading the text back
      gives the numerator and denominator it was made from, so "n/d sec"
      loses nothing even for negative parts. */
  lemma ShutterRoundTrip(n: int, d: int)
    ensures FormatShutter(Ratio(n, d)).Str?
    ensures ParseShutter(FormatShutter(Ratio(n, d)).s) == Some((n, d))
  {
    var a, b := IntToString(n), IntToString(d);
    var s := FormatShutter(Ratio(n, d)).s;
    var body := a + "/" + b;
    assert s == body + " sec";
    assert s[|s| - 4..] == " sec";
    assert s[..|s| - 4] == body;
    assert body[|a|] == '/';
    assert forall j :: 0 <= j < |a| ==> body[j] == a[j] && body[j] != '/';
    assert IndexOf(body, '/') == Some(|a|);
    assert body[..|a|] == a;
    assert body[|a| + 1..] == b;
    ParseIntToString(n);
    ParseIntToString(d);
  }
}
