/**
  The few pieces of the JavaScript runtime that the application's logic relies on:
  an Option/Result pair for null and thrown errors, the whitespace set and
  `String.prototype.trim`, and the number parsers, which are supplied from
  outside rather than re-specified.
 */
module JsRuntime {

  /** `None` stands for JavaScript's `null`/`undefined`, and for `NaN` where a number is expected. */
  datatype Option<+T> = None | Some(value: T)

  /** The settlement of a promise or a call that may throw: a value or an error message. */
  datatype Result<+T> = Success(value: T) | Failure(error: string)

  /** The characters ECMAScript's `trim` removes: WhiteSpace and LineTerminator code points. */
  predicate IsWhitespace(c: char) {
    || c == '\t' || c == '\n' || c == '\U{B}' || c == '\U{C}' || c == '\r' || c == ' '
    || c == '\U{A0}' || c == '\U{1680}' || ('\U{2000}' <= c <= '\U{200A}')
    || c == '\U{2028}' || c == '\U{2029}' || c == '\U{202F}' || c == '\U{205F}'
    || c == '\U{3000}' || c == '\U{FEFF}'
  }

  predicate AllWhitespace(s: string) {
    forall i :: 0 <= i < |s| ==> IsWhitespace(s[i])
  }

  /** `trimStart`: drops the leading whitespace. */
  function TrimStart(s: string): string {
    if s != [] && IsWhitespace(s[0]) then TrimStart(s[1..]) else s
  }

  /** `trimEnd`: drops the trailing whitespace. */
  function TrimEnd(s: string): string {
    if s != [] && IsWhitespace(s[|s| - 1]) then TrimEnd(s[..|s| - 1]) else s
  }

  /** `s.trim()`: the slice of `s` between its leading and its trailing whitespace. */
  function Trim(s: string): string {
    TrimEnd(TrimStart(s))
  }

  /** What `TrimStart` leaves is a suffix of the input that starts with a non-blank, and what
      it drops is all whitespace. */
  lemma {:induction false} TrimStartSuffix(s: string)
    ensures var r := TrimStart(s);
      && |r| <= |s| && r == s[|s| - |r|..]
      && AllWhitespace(s[..|s| - |r|])
      && (r != [] ==> !IsWhitespace(r[0]))
  {
    if s != [] && IsWhitespace(s[0]) {
      TrimStartSuffix(s[1..]);
      var r := TrimStart(s[1..]);
      assert s[1..][..|s| - 1 - |r|] == s[1..|s| - |r|];
      assert s[..|s| - |r|] == [s[0]] + s[1..|s| - |r|];
    }
  }

  /** What `TrimEnd` leaves is a prefix of the input that ends with a non-blank, and what it
      drops is all whitespace. */
  lemma {:induction false} TrimEndPrefix(s: string)
    ensures var r := TrimEnd(s);
      && |r| <= |s| && r == s[..|r|]
      && AllWhitespace(s[|r|..])
      && (r != [] ==> !IsWhitespace(r[|r| - 1]))
  {
    if s != [] && IsWhitespace(s[|s| - 1]) {
      TrimEndPrefix(s[..|s| - 1]);
      var r := TrimEnd(s[..|s| - 1]);
      assert s[..|s| - 1][|r|..] + [s[|s| - 1]] == s[|r|..];
    }
  }

  /** The trimmed string is empty exactly when every character of the input is whitespace;
      otherwise it starts and ends with a non-blank. */
  lemma TrimEmptyIff(s: string)
    ensures Trim(s) == [] <==> AllWhitespace(s)
    ensures Trim(s) != [] ==> !IsWhitespace(Trim(s)[0]) && !IsWhitespace(Trim(s)[|Trim(s)| - 1])
  {
    TrimStartSuffix(s);
    var a := TrimStart(s);
    TrimEndPrefix(a);
    var k := |s| - |a|;
    if Trim(s) == [] {
      assert AllWhitespace(a[0..]);
      assert a == [];
      forall i | 0 <= i < |s| ensures IsWhitespace(s[i]) {
        assert s[i] == s[..k][i];
      }
    } else {
      assert Trim(s)[0] == a[0];
    }
  }

  /** `Number.isInteger(x)`: false for `NaN`, true for a finite value with no fractional part. */
  predicate IsInteger(x: Option<real>) {
    x.Some? && x.value.Floor as real == x.value
  }

  /** `Math.trunc`: the integer part, rounding towards zero. It is what `parseInt` reads back
      from a printed number such as "-0.5" (whose `-0` compares like `0`). */
  function Truncate(x: real): (n: int)
    ensures x >= 0.0 ==> n as real <= x < n as real + 1.0
    ensures x < 0.0 ==> n as real - 1.0 < x <= n as real
  {
    if x >= 0.0 then x.Floor else -((-x).Floor)
  }

  /** Truncation gives a non-negative integer exactly for the numbers above -1. */
  lemma TruncateNonNegative(x: real)
    ensures Truncate(x) >= 0 <==> x > -1.0
  {
  }

  /**
    The number conversions of the JavaScript runtime, supplied as given functions:
    `Number.parseFloat`, `Number.parseInt` with the default radix, `parseInt(_, 10)`
    and `Number.prototype.toString`. A parser answers `None` for `NaN`.
   */
  datatype JsNumbers = JsNumbers(
    parseFloat: string -> Option<real>,
    parseInt: string -> Option<int>,
    parseInt10: string -> Option<int>,
    toString: real -> string)
}
