/**
 * The machine integers the store uses (`u8`, `u32`, `i32`) and a model of
 * Rust's `str::parse::<i32>()`, which the summary applies to its year filter.
 */
module RustInts {
  import opened Wrappers

  const U8_MAX: int := 0xff
  const U32_MAX: int := 0xffff_ffff
  const I32_MIN: int := -0x8000_0000
  const I32_MAX: int := 0x7fff_ffff

  type u8 = x: int | 0 <= x <= U8_MAX
  type u32 = x: int | 0 <= x <= U32_MAX

  predicate IsDigit(c: char) {
    '0' <= c <= '9'
  }

  predicate AllDigits(s: string) {
    forall i | 0 <= i < |s| :: IsDigit(s[i])
  }

  /** Decimal value of a digit string, most significant digit first; `None` if
      any character is not an ASCII digit. */
  function ParseDigits(s: string): (r: Option<nat>)
    ensures r.Some? <==> AllDigits(s)
  {
    if s == [] then Some(0)
    else if !IsDigit(s[|s| - 1]) then None
    else match ParseDigits(s[..|s| - 1])
      case None => None
      case Some(v) => Some(10 * v + (s[|s| - 1] as int - '0' as int))
  }

  /** `s.parse::<i32>()`: an optional `+` or `-`, then at least one ASCII digit,
      and the value within the `i32` range. No whitespace is skipped. */
  function ParseI32(s: string): (r: Option<int>)
    ensures r.Some? ==> I32_MIN <= r.value <= I32_MAX
    ensures r.Some? ==> s != [] && s != "+" && s != "-"
    ensures r.Some? ==> AllDigits(Unsigned(s))
  {
    if s == [] || s == "+" || s == "-" then None
    else
      match ParseDigits(Unsigned(s))
      case None => None
      case Some(v) =>
        var n: int := if s[0] == '-' then -(v as int) else v;
        if I32_MIN <= n <= I32_MAX then Some(n) else None
  }

  /** The digits of a number literal, without its leading sign. */
  function Unsigned(s: string): string {
    if s != [] && (s[0] == '+' || s[0] == '-') then s[1..] else s
  }

  /** Decimal text of a natural number, without leading zeros. */
  function ShowNat(n: nat): (s: string)
    ensures s != [] && AllDigits(s)
    ensures s[0] == '0' ==> n == 0
  {
    var d := ['0' + (n % 10) as char];
    if n < 10 then d else ShowNat(n / 10) + d
  }

  /** `n.to_string()` for a signed integer. */
  function ShowInt(n: int): (s: string) {
    if n < 0 then "-" + ShowNat(-n) else ShowNat(n)
  }

  lemma {:induction false} ParseShowNat(n: nat)
    ensures ParseDigits(ShowNat(n)) == Some(n)
  {
    var s := ShowNat(n);
    if n >= 10 {
      ParseShowNat(n / 10);
      assert s[..|s| - 1] == ShowNat(n / 10);
    } else {
      assert s[..|s| - 1] == [];
    }
  }

  /** Every `i32` survives printing and parsing back. */
  lemma ParseShowRoundTrip(n: int)
    requires I32_MIN <= n <= I32_MAX
    ensures ParseI32(ShowInt(n)) == Some(n)
  {
    ParseShowNat(if n < 0 then -n else n);
    if n < 0 {
      assert Unsigned(ShowInt(n)) == ShowNat(-n);
    }
  }

  /** A leading `+` is accepted: `+` followed by the decimal text of an
      `i32` that is not negative parses to that number. */
  lemma ParsePlusShowNat(n: nat)
    requires n <= I32_MAX
    ensures ParseI32("+" + ShowNat(n)) == Some(n)
  {
    ParseShowNat(n);
    assert Unsigned("+" + ShowNat(n)) == ShowNat(n);
  }

  /** A leading `-` negates: "-0" parses to 0 and "-2147483648" to `I32_MIN`. */
  lemma ParseMinusShowNat(n: nat)
    requires n <= -I32_MIN
    ensures ParseI32("-" + ShowNat(n)) == Some(-(n as int))
  {
    ParseShowNat(n);
    assert Unsigned("-" + ShowNat(n)) == ShowNat(n);
  }

  /** Text whose value lies outside the `i32` range fails to parse (Rust's
      overflow error), with or without a sign. */
  lemma ParseOverflow(n: nat)
    ensures n > I32_MAX ==> ParseI32(ShowNat(n)) == None && ParseI32("+" + ShowNat(n)) == None
    ensures n > -I32_MIN ==> ParseI32("-" + ShowNat(n)) == None
  {
    var d := ShowNat(n);
    ParseShowNat(n);
    assert Unsigned(d) == d by {
      assert IsDigit(d[0]);
    }
    assert Unsigned("+" + d) == d && Unsigned("-" + d) == d;
    assert ("-" + d)[0] == '-' && ("+" + d)[0] != '-';
  }

  /** Leading zeros do not change the value of a digit string. */
  lemma {:induction false} ParseDigitsLeadingZero(d: string)
    requires AllDigits(d)
    ensures ParseDigits("0" + d) == ParseDigits(d)
  {
    if d == [] {
      assert "0" + d == "0" && "0"[..0] == [];
    } else {
      var p := d[..|d| - 1];
      ParseDigitsLeadingZero(p);
      assert ("0" + d)[..|"0" + d| - 1] == "0" + p;
      assert ("0" + d)[|"0" + d| - 1] == d[|d| - 1];
    }
  }

  /** The parse depends only on whether the text is negative and on the value
      of its digits. */
  lemma ParseI32Congruent(s: string, t: string)
    requires s != [] && s != "+" && s != "-" && t != [] && t != "+" && t != "-"
    requires (s[0] == '-') == (t[0] == '-')
    requires ParseDigits(Unsigned(s)) == ParseDigits(Unsigned(t))
    ensures ParseI32(s) == ParseI32(t)
  {
  }

  /** Zero padding after the sign (or at the start) is accepted by the i32
      parser and does not change the value: "02025", "+02025" and "-0" parse. */
  lemma ParseI32ZeroPadded(sign: string, d: string)
    requires sign == "" || sign == "+" || sign == "-"
    requires d != [] && AllDigits(d)
    ensures ParseI32(sign + "0" + d) == ParseI32(sign + d)
  {
    ParseDigitsLeadingZero(d);
    var padded, plain := sign + "0" + d, sign + d;
    if sign != "" {
      assert padded[0] == plain[0] == sign[0];
      assert padded[1..] == "0" + d && plain[1..] == d;
      assert |padded| > 1 && |plain| > 1;
    } else {
      assert padded == "0" + d && plain == d;
      assert padded[0] == '0';
    }
    ParseI32Congruent(padded, plain);
  }

  /** Text the parser accepts is never padded: a character other than a digit
      or a leading sign makes the parse fail. */
  lemma ParseRejectsNonDigit(s: string, i: nat)
    requires i < |s| && !IsDigit(s[i])
    requires i > 0 || (s[0] != '+' && s[0] != '-')
    ensures ParseI32(s) == None
  {
  }
}
