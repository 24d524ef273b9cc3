/** Shared vocabulary: optional values, results, the error kinds the
    application can fail with, and the fixed-width integers of the source. */
module Prelude {

  /** Rust's `u32`. */
  type u32 = x: int | 0 <= x < 0x1_0000_0000

  /** Rust's `i64` (what `DateTime::timestamp` returns). */
  type i64 = x: int | -0x8000_0000_0000_0000 <= x < 0x8000_0000_0000_0000

  datatype Option<+T> = None | Some(value: T) {
    /** Rust's `Option::or`: this value if present, otherwise `other`. */
    function Or(other: Option<T>): Option<T> {
      if Some? then this else other
    }
  }

  /** Every way a call can fail.  The source propagates all of them with `?`
      into one `anyhow::Error`, or aborts through `unwrap`; either way the
      caller gets no value. */
  datatype Error =
    | Transport(reason: string)   // connection error, or a body that is not a page
    | BadDate(text: string)       // `added` is not RFC 2822 (an `unwrap` panic)
    | Missing(what: string)       // `unwrap` of an absent option
    | Io(reason: string)          // configuration file could not be written

  datatype Result<+T> = Ok(value: T) | Err(error: Error)

  /** Four pieces appended one after another, regrouped from the right. */
  lemma Regroup<T>(a: seq<T>, b: seq<T>, c: seq<T>, d: seq<T>)
    ensures a + b + c + d == a + (b + (c + d))
  {
  }

  /** `s` begins with `p`. */
  predicate StartsWith(s: string, p: string) {
    |p| <= |s| && s[..|p|] == p
  }

  /** The text of `s` before the first `sep` (all of it when there is none). */
  function Before(s: string, sep: char): (f: string)
    ensures |f| <= |s| && f == s[..|f|]
    ensures forall i :: 0 <= i < |f| ==> f[i] != sep
    ensures |f| < |s| ==> s[|f|] == sep
  {
    if s == [] || s[0] == sep then [] else [s[0]] + Before(s[1..], sep)
  }

  /** Splitting `a + b` at the first `sep` gives back `a` when `a` holds no
      `sep` and `b` starts with one. */
  lemma {:induction false} BeforeOfJoin(a: string, b: string, sep: char)
    requires forall i :: 0 <= i < |a| ==> a[i] != sep
    requires |b| > 0 && b[0] == sep
    ensures Before(a + b, sep) == a
    decreases |a|
  {
    if a != [] {
      assert (a + b)[1..] == a[1..] + b;
      BeforeOfJoin(a[1..], b, sep);
    } else {
      assert a + b == b;
    }
  }
}
