// Market enumerations of the fetch crate and the exchange-prefix normaliser.
module FetchLib {
  import opened Num

  /** Stock exchange: Shenzhen or Shanghai. */
  datatype Market = SZ | SH

  function MarketValue(m: Market): (v: int)
    ensures v == 0 <==> m == SZ
    ensures v == 1 <==> m == SH
  {
    match m
    case SZ => 0
    case SH => 1
  }

  /** Traded instrument kind; `Default` is Stock. */
  datatype MarketType = Bond | Fund | Stock

  const DefaultMarketType: MarketType := Stock

  function MarketTypeValue(t: MarketType): (v: int)
    ensures 0 <= v <= 2
  {
    match t
    case Bond => 0
    case Fund => 1
    case Stock => 2
  }

  /** `From<i32>`: 0..=2 map back to their variant, any other value to Stock. */
  function MarketTypeFromI32(v: Int32): (t: MarketType)
    ensures 0 <= v <= 2 ==> MarketTypeValue(t) == v
    ensures !(0 <= v <= 2) ==> t == Stock
  {
    match v
    case 0 => Bond
    case 1 => Fund
    case _ => Stock
  }

  lemma MarketTypeRoundTrip(t: MarketType)
    ensures MarketTypeFromI32(MarketTypeValue(t)) == t
  {
  }

  /** Price adjustment; `Default` is HFQ (back-adjusted). */
  datatype AdjustFactor = NFQ | QFQ | HFQ

  const DefaultAdjustFactor: AdjustFactor := HFQ

  function AdjustFactorValue(a: AdjustFactor): (v: int)
    ensures 0 <= v <= 2
    ensures a == HFQ <==> v == 2
  {
    match a
    case NFQ => 0
    case QFQ => 1
    case HFQ => 2
  }

  /** The default instrument and adjustment. */
  lemma Defaults()
    ensures MarketTypeValue(DefaultMarketType) == 2
    ensures AdjustFactorValue(DefaultAdjustFactor) == 2
  {
  }

  /** The number of bytes UTF-8 uses for a character. */
  function Utf8Width(c: char): (n: nat)
    ensures 1 <= n <= 4
    ensures n == 1 <==> (c as int) < 0x80
  {
    if (c as int) < 0x80 then 1
    else if (c as int) < 0x800 then 2
    else if (c as int) < 0x1_0000 then 3
    else 4
  }

  /** `str::len`: the length of a string's UTF-8 encoding in bytes. */
  function Utf8Len(s: string): (n: nat)
    ensures |s| <= n <= 4 * |s|
  {
    if |s| == 0 then 0 else Utf8Width(s[0]) + Utf8Len(s[1..])
  }

  /** The byte length of a concatenation is the sum of the byte lengths. */
  lemma {:induction false} Utf8LenAppend(a: string, b: string)
    ensures Utf8Len(a + b) == Utf8Len(a) + Utf8Len(b)
    decreases |a|
  {
    if |a| > 0 {
      assert (a + b)[1..] == a[1..] + b;
      Utf8LenAppend(a[1..], b);
    } else {
      assert a + b == b;
    }
  }

  /** On ASCII text the byte length is the character count. */
  lemma {:induction false} AsciiUtf8Len(s: string)
    requires forall i :: 0 <= i < |s| ==> (s[i] as int) < 0x80
    ensures Utf8Len(s) == |s|
    decreases |s|
  {
    if |s| > 0 {
      AsciiUtf8Len(s[1..]);
    }
  }

  /** `str::starts_with`. */
  predicate StartsWith(s: string, p: string)
  {
    |p| <= |s| && s[..|p|] == p
  }

  /**
   * `to_std_code`: a code of six bytes gets the "sh"/"sz" exchange prefix
   * for its instrument kind; anything else is returned unchanged.
   */
  function ToStdCode(t: MarketType, code: string): (r: string)
    ensures Utf8Len(code) != 6 ==> r == code
    ensures Utf8Len(code) == 6 ==> Utf8Len(r) == 8 && |r| == |code| + 2 && r[2..] == code && (r[..2] == "sh" || r[..2] == "sz")
    ensures Utf8Len(code) == 6 && t == Bond ==> (r[..2] == "sz" <==> StartsWith(code, "12"))
    ensures Utf8Len(code) == 6 && t == Fund ==> (r[..2] == "sz" <==> StartsWith(code, "15"))
    ensures Utf8Len(code) == 6 && t == Stock ==> (r[..2] == "sh" <==> StartsWith(code, "6"))
  {
    if Utf8Len(code) != 6 then code
    else
      var prefix :=
        match t
        case Bond => if StartsWith(code, "12") then "sz" else "sh"
        case Fund => if StartsWith(code, "15") then "sz" else "sh"
        case Stock => if StartsWith(code, "6") then "sh" else "sz";
      Utf8LenAppend(prefix, code);
      prefix + code
  }

  /** Normalising twice is normalising once: a prefixed code is eight bytes long. */
  lemma ToStdCodeIdempotent(t: MarketType, code: string)
    ensures ToStdCode(t, ToStdCode(t, code)) == ToStdCode(t, code)
  {
  }

  /**
   * The length test counts bytes, not characters: six characters with a
   * full-width digit among them are eight bytes, so the code is returned
   * unchanged, and an ASCII code of six characters is prefixed.
   */
  lemma ByteLengthDecides()
    ensures ToStdCode(Stock, "\U{FF16}00000") == "\U{FF16}00000"
    ensures ToStdCode(Stock, "600000") == "sh600000"
  {
    assert Utf8Len("\U{FF16}00000") == 8 by {
      assert "\U{FF16}00000"[1..] == "00000";
      AsciiUtf8Len("00000");
    }
    AsciiUtf8Len("600000");
  }
}
