/**
 * Rust's `usize` on a 64-bit target. The editor's cursor is a `usize` and the
 * buffer length is read as one, so `len - 1`, `current_line - 1` and
 * `current_line += 1` can overflow. Whether an overflow panics or wraps is a
 * property of the build: overflow checks are on in debug builds and off in
 * release builds, so the model carries the build `Profile` explicitly.
 */
module Usize {
  import opened Wrappers

  const USIZE_MAX: nat := 0xFFFF_FFFF_FFFF_FFFF
  /** The largest byte length of a Rust `String`, which bounds its length in characters too. */
  const ISIZE_MAX: nat := 0x7FFF_FFFF_FFFF_FFFF

  type USize = x: nat | x <= USIZE_MAX

  /** `Checked`: an overflowing operation panics (debug build). `Wrapping`: it wraps modulo 2^64 (release build). */
  datatype Profile = Checked | Wrapping

  /** `a + b` on `usize`: `None` is the overflow panic. */
  function AddUsize(p: Profile, a: USize, b: USize): (r: Option<USize>)
    ensures r.None? <==> p == Checked && a + b > USIZE_MAX
    ensures r.Some? ==> (r.value - (a + b)) % (USIZE_MAX + 1) == 0
  {
    if a + b <= USIZE_MAX then Some(a + b)
    else if p == Checked then None
    else Some(a + b - (USIZE_MAX + 1))
  }

  /**
   * `a - b` on `usize`: `None` is the overflow panic. The minuend is a `nat`
   * because it is also used for the length of the buffer.
   */
  function SubUsize(p: Profile, a: nat, b: USize): (r: Option<nat>)
    ensures r.None? <==> p == Checked && a < b
    ensures r.Some? && a >= b ==> r.value == a - b
    ensures r.Some? ==> (r.value - (a - b)) % (USIZE_MAX + 1) == 0
    ensures r.Some? && a <= USIZE_MAX ==> r.value <= USIZE_MAX
  {
    if a >= b then Some(a - b)
    else if p == Checked then None
    else Some(a + (USIZE_MAX + 1) - b)
  }

  /** `a - b` where the caller has ruled out the overflow check firing: exact when `a >= b`, wrapped otherwise. */
  function WrappingSubUsize(a: USize, b: USize): (r: USize)
    ensures a >= b ==> r == a - b
    ensures (r - (a - b)) % (USIZE_MAX + 1) == 0
  {
    if a >= b then a - b else a + (USIZE_MAX + 1) - b
  }

  /** `a.saturating_sub(b)`: the difference, or 0 where it would be negative. */
  function SaturatingSubUsize(a: nat, b: nat): (r: nat)
    ensures r <= a
    ensures a >= b ==> r + b == a
    ensures a < b ==> r == 0
  {
    if a >= b then a - b else 0
  }
}
