/**
 * String and integer helpers shared by the modules below: the Rust integer
 * widths, ASCII lower-casing, decimal rendering and `u64` parsing, `join`,
 * `repeat` and UTF-8 byte length.
 */
module Text {
  import opened Wrappers

  /** Rust `u64` and `u16`. */
  const U64_BOUND: nat := 0x1_0000_0000_0000_0000
  type U64 = n: nat | n < U64_BOUND
  type U16 = n: nat | n < 0x1_0000

  // ---------------------------------------------------------------------
  // Lower-casing
  // ---------------------------------------------------------------------

  predicate IsUpper(c: char) {
    'A' <= c <= 'Z'
  }

  /** `char::to_lowercase` restricted to ASCII letters. */
  function LowerChar(c: char): (r: char)
    ensures IsUpper(c) ==> r as int == c as int + 32
    ensures !IsUpper(c) ==> r == c
    ensures !IsUpper(r)
  {
    if IsUpper(c) then (c as int - 'A' as int + 'a' as int) as char else c
  }

  /** `str::to_lowercase`: every character lower-cased in place. */
  function ToLower(s: string): (r: string)
    ensures |r| == |s|
    ensures forall i :: 0 <= i < |s| ==> r[i] == LowerChar(s[i])
  {
    seq(|s|, i requires 0 <= i < |s| => LowerChar(s[i]))
  }

  lemma ToLowerIdempotent(s: string)
    ensures ToLower(ToLower(s)) == ToLower(s)
  {
    assert forall i :: 0 <= i < |s| ==> ToLower(ToLower(s))[i] == ToLower(s)[i];
  }

  function LowerAll(xs: seq<string>): (r: seq<string>)
    ensures |r| == |xs|
    ensures forall i :: 0 <= i < |xs| ==> r[i] == ToLower(xs[i])
  {
    seq(|xs|, i requires 0 <= i < |xs| => ToLower(xs[i]))
  }

  // ---------------------------------------------------------------------
  // Decimal rendering (`u64::to_string`) and parsing (`str::parse::<u64>`)
  // ---------------------------------------------------------------------

  predicate IsDigit(c: char) {
    '0' <= c <= '9'
  }

  predicate AllDigits(s: string) {
    forall i :: 0 <= i < |s| ==> IsDigit(s[i])
  }

  function DigitChar(d: nat): (c: char)
    requires d < 10
    ensures IsDigit(c) && c as int - '0' as int == d
  {
    ('0' as int + d) as char
  }

  /** The shortest decimal rendering of `n`, as `to_string` writes it. */
  function Decimal(n: nat): (s: string)
    decreases n
  {
    if n < 10 then [DigitChar(n)] else Decimal(n / 10) + [DigitChar(n % 10)]
  }

  /** The number a string of decimal digits denotes. */
  function DigitsValue(s: string): nat
    requires AllDigits(s)
  {
    if |s| == 0 then 0 else DigitsValue(s[..|s| - 1]) * 10 + (s[|s| - 1] as int - '0' as int)
  }

  /**
   * `str::parse::<u64>`: an optional leading `+`, then one or more decimal
   * digits whose value fits in 64 bits; anything else is an error.
   */
  function ParseU64(s: string): (r: Option<U64>)
    ensures r.Some? ==> |s| > 0
  {
    var body := if |s| > 0 && s[0] == '+' then s[1..] else s;
    if |body| == 0 || !AllDigits(body) then None
    else
      var v := DigitsValue(body);
      if v < U64_BOUND then Some(v) else None
  }

  lemma {:induction false} DecimalIsDigits(n: nat)
    ensures |Decimal(n)| > 0 && AllDigits(Decimal(n))
    ensures DigitsValue(Decimal(n)) == n
    decreases n
  {
    if n >= 10 {
      DecimalIsDigits(n / 10);
      var s := Decimal(n);
      assert s == Decimal(n / 10) + [DigitChar(n % 10)];
      assert s[..|s| - 1] == Decimal(n / 10);
    }
  }

  /** Rendering a `u64` and parsing it back gives the same number. */
  lemma ParseDecimal(n: U64)
    ensures ParseU64(Decimal(n)) == Some(n)
  {
    DecimalIsDigits(n);
    assert Decimal(n)[0] != '+';
  }

  /** Two numbers with the same rendering are equal. */
  lemma DecimalInjective(m: nat, n: nat)
    requires Decimal(m) == Decimal(n)
    ensures m == n
  {
    DecimalIsDigits(m);
    DecimalIsDigits(n);
  }

  // ---------------------------------------------------------------------
  // Joining, repeating, searching
  // ---------------------------------------------------------------------

  /** Concatenation regrouped to the left. */
  lemma ConcatAssoc<T>(x: seq<T>, y: seq<T>, z: seq<T>)
    ensures x + (y + z) == x + y + z
  {
  }

  /** `[String]::join(sep)`. */
  function Join(sep: string, xs: seq<string>): string
    decreases |xs|
  {
    if |xs| == 0 then "" else if |xs| == 1 then xs[0] else xs[0] + sep + Join(sep, xs[1..])
  }

  lemma {:induction false} JoinSnoc(sep: string, xs: seq<string>, x: string)
    requires |xs| > 0
    ensures Join(sep, xs + [x]) == Join(sep, xs) + sep + x
    decreases |xs|
  {
    if |xs| == 1 {
      assert xs + [x] == [xs[0], x];
      assert (xs + [x])[1..] == [x];
    } else {
      assert (xs + [x])[1..] == xs[1..] + [x];
      JoinSnoc(sep, xs[1..], x);
    }
  }

  /** `JoinSnoc` behind a fixed prefix. */
  lemma PrefixJoinSnoc(p: string, sep: string, xs: seq<string>, x: string)
    requires |xs| > 0
    ensures p + Join(sep, xs + [x]) == p + Join(sep, xs) + sep + x
  {
    JoinSnoc(sep, xs, x);
  }

  /** `str::repeat`: `n` copies of `c`. */
  function Repeat(c: char, n: nat): (r: string)
    ensures |r| == n
    ensures forall i :: 0 <= i < n ==> r[i] == c
  {
    seq(n, _ => c)
  }

  /** `t` occurs in `s` starting at index `i`. */
  predicate OccursAt(s: string, t: string, i: nat) {
    i + |t| <= |s| && s[i..i + |t|] == t
  }

  /** `str::contains`. */
  ghost predicate Contains(s: string, t: string) {
    exists i: nat {:trigger OccursAt(s, t, i)} :: OccursAt(s, t, i)
  }

  /** A string contains each part it is concatenated from. */
  lemma ContainsMiddle(a: string, t: string, b: string)
    ensures Contains(a + t + b, t)
  {
    var s := a + t + b;
    assert s[|a|..|a| + |t|] == t;
    assert OccursAt(s, t, |a|);
  }

  /** `Contains` respects equality of the searched-for text. */
  lemma ContainsEqual(s: string, t: string, u: string)
    requires Contains(s, t) && t == u
    ensures Contains(s, u)
  {
  }

  /** A text that contains `t + u` contains `t`. */
  lemma ContainsPrefix(s: string, t: string, u: string)
    requires Contains(s, t + u)
    ensures Contains(s, t)
  {
    var i: nat :| OccursAt(s, t + u, i);
    assert s[i..i + |t|] == (t + u)[..|t|];
    assert OccursAt(s, t, i);
  }

  // ---------------------------------------------------------------------
  // UTF-8 length (`String::len` counts bytes)
  // ---------------------------------------------------------------------

  function Utf8Width(c: char): (w: nat)
    ensures 1 <= w <= 4
    ensures c as int < 0x80 <==> w == 1
  {
    if c as int < 0x80 then 1
    else if c as int < 0x800 then 2
    else if c as int < 0x1_0000 then 3
    else 4
  }

  function Utf8Len(s: string): (n: nat)
    ensures n >= |s|
  {
    if |s| == 0 then 0 else Utf8Len(s[..|s| - 1]) + Utf8Width(s[|s| - 1])
  }

  predicate IsAscii(s: string) {
    forall i :: 0 <= i < |s| ==> s[i] as int < 0x80
  }

  /** For ASCII text the byte length is the character count. */
  lemma {:induction false} AsciiUtf8Len(s: string)
    requires IsAscii(s)
    ensures Utf8Len(s) == |s|
  {
    if |s| > 0 {
      AsciiUtf8Len(s[..|s| - 1]);
    }
  }
}
