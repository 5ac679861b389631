/** Small helpers of src/utils/helpers.py: auto-titles and the JSON encoder's fallback. */
module Helpers {
  import opened Text
  import opened Wrappers

  const UntitledPrefix: string := "Untitled Recipe "

  /** `get_next_recipe_number`: the number after the caller's current recipe count; the user id plays no part. */
  function GetNextRecipeNumber(userId: string, existingCount: int): (r: int)
    ensures r == existingCount + 1
  {
    existingCount + 1
  }

  /** `generate_recipe_title`: "Untitled Recipe " followed by the number in decimal. */
  function GenerateRecipeTitle(recipeNumber: int): (r: string)
    ensures StartsWith(r, UntitledPrefix) && |r| > |UntitledPrefix|
    ensures 0 <= recipeNumber ==> forall i :: |UntitledPrefix| <= i < |r| ==> IsAsciiDigit(r[i])
  {
    UntitledPrefix + IntToDecimal(recipeNumber)
  }

  /** The number of an auto-title can be read back from the title. */
  lemma GenerateRecipeTitleRoundTrip(n: nat)
    ensures DecimalValue(GenerateRecipeTitle(n)[|UntitledPrefix|..]) == n
  {
    assert GenerateRecipeTitle(n)[|UntitledPrefix|..] == NatToDecimal(n);
    DecimalRoundTrip(n);
  }

  /** Distinct recipe numbers give distinct titles. */
  lemma GenerateRecipeTitleInjective(a: int, b: int)
    requires GenerateRecipeTitle(a) == GenerateRecipeTitle(b)
    ensures a == b
  {
    assert IntToDecimal(a) == GenerateRecipeTitle(a)[|UntitledPrefix|..];
    assert IntToDecimal(b) == GenerateRecipeTitle(b)[|UntitledPrefix|..];
    IntToDecimalInjective(a, b);
  }

  // ---------------------------------------------------------------- CustomJSONEncoder

  /**
   * The objects `json.dumps` cannot serialise on its own and hands to `default`:
   * a UUID (its 32 lower-case hex digits), a naive datetime, or anything else (its type name).
   */
  datatype Unserialisable =
    | Uuid(hex: string)
    | DateTime(year: int, month: int, day: int, hour: int, minute: int, second: int, microsecond: int)
    | Other(typeName: string)

  /** What Python's `uuid.UUID` and `datetime` guarantee about their fields. */
  predicate WellFormed(o: Unserialisable) {
    match o
    case Uuid(hex) => |hex| == 32 && forall i :: 0 <= i < 32 ==> IsHexDigit(hex[i])
    case DateTime(y, mo, d, h, mi, s, us) =>
      1 <= y <= 9999 && 1 <= mo <= 12 && 1 <= d <= 31 && 0 <= h < 24 && 0 <= mi < 60
      && 0 <= s < 60 && 0 <= us < 1000000
    case Other(_) => true
  }

  /** `n` in decimal, left-padded with zeros to `width` characters. */
  function ZeroPad(n: nat, width: nat): (r: string)
    ensures |r| >= width && (forall i :: 0 <= i < |r| ==> IsAsciiDigit(r[i]))
    ensures 1 <= width && n < Pow10(width) ==> |r| == width
    ensures DecimalValue(r) == n
  {
    var digits := NatToDecimal(n);
    DecimalRoundTrip(n);
    DecimalLength(n, width);
    if |digits| < width then
      LeadingZeros(width - |digits|, digits);
      seq(width - |digits|, _ => '0') + digits
    else digits
  }

  function Pow10(k: nat): (r: nat)
    ensures r >= 1
  {
    if k == 0 then 1 else 10 * Pow10(k - 1)
  }

  /** A number below 10^w has at most w digits. */
  lemma {:induction false} DecimalLength(n: nat, w: nat)
    ensures 1 <= w && n < Pow10(w) ==> |NatToDecimal(n)| <= w
  {
    if n >= 10 && w > 1 && n < Pow10(w) {
      assert n / 10 < Pow10(w - 1);
      DecimalLength(n / 10, w - 1);
    }
  }

  /** Leading zeros do not change the value of a decimal numeral. */
  lemma {:induction false} LeadingZeros(k: nat, digits: string)
    requires forall i :: 0 <= i < |digits| ==> IsAsciiDigit(digits[i])
    ensures DecimalValue(seq(k, _ => '0') + digits) == DecimalValue(digits)
    decreases |digits|
  {
    var z: string := seq(k, _ => '0');
    if digits == [] {
      assert z + digits == z;
      AllZeros(k);
    } else {
      var init := digits[..|digits| - 1];
      LeadingZeros(k, init);
      assert (z + digits)[..|z + digits| - 1] == z + init;
    }
  }

  lemma {:induction false} AllZeros(k: nat)
    ensures DecimalValue(seq(k, _ => '0')) == 0
  {
    if k > 0 {
      var z: string := seq(k, _ => '0');
      assert z[..k - 1] == seq(k - 1, _ => '0');
      AllZeros(k - 1);
    }
  }

  /** `datetime.isoformat()` of a naive datetime: the fraction is printed only when microseconds are non-zero. */
  function IsoFormat(y: int, mo: int, d: int, h: int, mi: int, s: int, us: int): (r: string)
    requires WellFormed(DateTime(y, mo, d, h, mi, s, us))
    ensures |r| == (if us == 0 then 19 else 26)
    ensures r[4] == '-' && r[7] == '-' && r[10] == 'T' && r[13] == ':' && r[16] == ':'
    ensures r[..4] == ZeroPad(y, 4) && r[5..7] == ZeroPad(mo, 2) && r[8..10] == ZeroPad(d, 2)
    ensures r[11..13] == ZeroPad(h, 2) && r[14..16] == ZeroPad(mi, 2) && r[17..19] == ZeroPad(s, 2)
    ensures us != 0 ==> r[19] == '.' && r[20..] == ZeroPad(us, 6)
  {
    var yy, mm, dd, hh, nn, ss := ZeroPad(y, 4), ZeroPad(mo, 2), ZeroPad(d, 2), ZeroPad(h, 2), ZeroPad(mi, 2), ZeroPad(s, 2);
    IsoFieldWidths(y, mo, d, h, mi, s, us);
    var frac := if us == 0 then "" else "." + ZeroPad(us, 6);
    assert us != 0 ==> frac[0] == '.' && frac[1..] == ZeroPad(us, 6);
    IsoLayout(yy, mm, dd, hh, nn, ss, frac);
    yy + "-" + mm + "-" + dd + "T" + hh + ":" + nn + ":" + ss + frac
  }

  /** Each field of a well-formed datetime fills exactly the width `isoformat` gives it. */
  lemma IsoFieldWidths(y: int, mo: int, d: int, h: int, mi: int, s: int, us: int)
    requires WellFormed(DateTime(y, mo, d, h, mi, s, us))
    ensures |ZeroPad(y, 4)| == 4 && |ZeroPad(mo, 2)| == 2 && |ZeroPad(d, 2)| == 2
    ensures |ZeroPad(h, 2)| == 2 && |ZeroPad(mi, 2)| == 2 && |ZeroPad(s, 2)| == 2 && |ZeroPad(us, 6)| == 6
  {
    assert Pow10(2) == 100 && Pow10(4) == 10000 && Pow10(6) == 1000000;
  }

  /** Fields of the widths `isoformat` prints sit at fixed places, with the fraction after them. */
  lemma IsoLayout(yy: string, mm: string, dd: string, hh: string, nn: string, ss: string, frac: string)
    requires |yy| == 4 && |mm| == 2 && |dd| == 2 && |hh| == 2 && |nn| == 2 && |ss| == 2
    ensures var r := yy + "-" + mm + "-" + dd + "T" + hh + ":" + nn + ":" + ss + frac;
      && |r| == 19 + |frac|
      && r[4] == '-' && r[7] == '-' && r[10] == 'T' && r[13] == ':' && r[16] == ':'
      && r[..4] == yy && r[5..7] == mm && r[8..10] == dd
      && r[11..13] == hh && r[14..16] == nn && r[17..19] == ss
      && r[19..] == frac
      && (|frac| > 0 ==> r[19] == frac[0] && r[20..] == frac[1..])
  {
    var r := yy + "-" + mm + "-" + dd + "T" + hh + ":" + nn + ":" + ss + frac;
    forall i | 0 <= i < 4 ensures r[..4][i] == yy[i] { }
    forall i | 0 <= i < 2
      ensures r[5..7][i] == mm[i] && r[8..10][i] == dd[i] && r[11..13][i] == hh[i]
      ensures r[14..16][i] == nn[i] && r[17..19][i] == ss[i]
    { }
    forall i | 0 <= i < |frac| ensures r[19..][i] == frac[i] { }
    if |frac| > 0 {
      assert r[20..] == r[19..][1..];
    }
  }

  /** `str(uuid)`: the hex digits grouped 8-4-4-4-12 with dashes. */
  function UuidString(hex: string): (r: string)
    requires |hex| == 32
    ensures |r| == 36 && r[8] == '-' && r[13] == '-' && r[18] == '-' && r[23] == '-'
    ensures r[..8] + r[9..13] + r[14..18] + r[19..23] + r[24..] == hex
  {
    var r := hex[..8] + "-" + hex[8..12] + "-" + hex[12..16] + "-" + hex[16..20] + "-" + hex[20..];
    assert r[..8] == hex[..8] && r[9..13] == hex[8..12] && r[14..18] == hex[12..16];
    assert r[19..23] == hex[16..20] && r[24..] == hex[20..];
    assert hex[..8] + hex[8..12] + hex[12..16] + hex[16..20] + hex[20..] == hex;
    r
  }

  /**
   * `CustomJSONEncoder.default`: UUIDs become their canonical string, datetimes their ISO-8601 text,
   * and anything else is refused with the base encoder's TypeError.
   */
  function EncodeDefault(o: Unserialisable): (r: Result<string, string>)
    requires WellFormed(o)
    ensures o.Uuid? ==> r.Ok? && |r.value| == 36 && r.value[8] == r.value[13] == r.value[18] == r.value[23] == '-'
    ensures o.Uuid? ==> r.Ok? && r.value[..8] + r.value[9..13] + r.value[14..18] + r.value[19..23] + r.value[24..] == o.hex
    ensures o.DateTime? ==> r.Ok? && |r.value| == (if o.microsecond == 0 then 19 else 26)
    ensures o.DateTime? ==> r.Ok? && |r.value| >= 19 && r.value[10] == 'T' && r.value[..4] == ZeroPad(o.year, 4)
    ensures o.Other? ==> r == Err("Object of type " + o.typeName + " is not JSON serializable")
  {
    match o
    case Uuid(hex) => Ok(UuidString(hex))
    case DateTime(y, mo, d, h, mi, s, us) => Ok(IsoFormat(y, mo, d, h, mi, s, us))
    case Other(t) => Err("Object of type " + t + " is not JSON serializable")
  }
}
