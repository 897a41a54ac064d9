/** Decimal text and Rust's `str::parse::<usize>`. */
module Decimal {
  import opened Wrappers
  import opened Usize

  predicate IsDigit(c: char) { '0' <= c <= '9' }

  predicate AllDigits(s: string) { forall i :: 0 <= i < |s| ==> IsDigit(s[i]) }

  /** The value of a run of decimal digits, most significant digit first. */
  function Value(ds: string): nat
    requires AllDigits(ds)
  {
    if ds == [] then 0 else 10 * Value(ds[..|ds| - 1]) + (ds[|ds| - 1] as int - '0' as int)
  }

  /**
   * `s.parse::<usize>()`: an optional leading '+' followed by at least one
   * ASCII digit, whose value fits in a `usize`. Everything else fails: the
   * empty string, a lone sign, a '-', a space, a trailing newline, a value
   * above `USIZE_MAX`.
   */
  function ParseUsize(s: string): (r: Option<USize>)
    ensures r.Some? ==> |s| > 0 && IsDigit(s[|s| - 1])
    ensures r.Some? ==> s[0] == '+' || IsDigit(s[0])
    ensures r.Some? ==> forall i :: 0 < i < |s| ==> IsDigit(s[i])
    ensures r.Some? && IsDigit(s[0]) ==> AllDigits(s) && r.value == Value(s)
    ensures r.Some? && s[0] == '+' ==> AllDigits(s[1..]) && r.value == Value(s[1..])
  {
    var digits := if |s| > 0 && s[0] == '+' then s[1..] else s;
    if digits != [] && AllDigits(digits) && Value(digits) <= USIZE_MAX then Some(Value(digits)) else None
  }

  function DigitChar(d: nat): (c: char)
    requires d < 10
    ensures IsDigit(c) && c as int - '0' as int == d
  {
    ('0' as int + d) as char
  }

  /** The decimal rendering of `n`, as `format!("{}", n)` prints it. */
  function Show(n: nat): (s: string)
    ensures |s| > 0 && AllDigits(s)
  {
    if n < 10 then [DigitChar(n)] else Show(n / 10) + [DigitChar(n % 10)]
  }

  lemma {:induction false} ValueOfShow(n: nat)
    ensures Value(Show(n)) == n
  {
    if n >= 10 {
      var s := Show(n);
      assert s[..|s| - 1] == Show(n / 10);
      ValueOfShow(n / 10);
    }
  }

  /** Every run of digits whose value fits parses to that value, with or without a leading '+'. */
  lemma ParseDigits(ds: string)
    requires ds != [] && AllDigits(ds) && Value(ds) <= USIZE_MAX
    ensures ParseUsize(ds) == Some(Value(ds))
    ensures ParseUsize("+" + ds) == Some(Value(ds))
  {
    assert ds[0] != '+';
    assert ("+" + ds)[1..] == ds;
  }

  /** Parsing the printed form of any `usize` gives it back. */
  lemma ParseShow(n: USize)
    ensures ParseUsize(Show(n)) == Some(n)
  {
    ValueOfShow(n);
  }
}
