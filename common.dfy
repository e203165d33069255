/** JavaScript values and string operations shared by every module of the model. */
module Common {

  datatype Option<T> = None | Some(value: T)

  /** The outcome of an operation that may throw: `Err` carries the thrown message. */
  datatype Result<T> = Ok(value: T) | Err(error: string)

  /** A JavaScript value that may be missing (`undefined`) or `null`. */
  datatype Js<T> = Undefined | Null | Val(v: T)

  /** Truthiness of a string-valued JavaScript value: `undefined`, `null` and "" are falsy. */
  predicate Truthy(x: Js<string>) {
    x.Val? && x.v != ""
  }

  /** `x || fallback` for a string-valued JavaScript value. */
  function Or(x: Js<string>, fallback: string): (r: string)
    ensures Truthy(x) ==> r == x.v
    ensures !Truthy(x) ==> r == fallback
  {
    if Truthy(x) then x.v else fallback
  }

  /** `${x}` in a template literal. */
  function Render(x: Js<string>): string {
    match x
    case Undefined => "undefined"
    case Null => "null"
    case Val(s) => s
  }

  /** `Array.prototype.join(sep)` over strings. */
  function Join(parts: seq<string>, sep: string): string {
    if |parts| == 0 then ""
    else if |parts| == 1 then parts[0]
    else parts[0] + sep + Join(parts[1..], sep)
  }

  /** `${n}` for a non-negative integer: its decimal digits. */
  function Decimal(n: nat): string
    decreases n
  {
    var digit := "0123456789"[n % 10];
    if n < 10 then [digit] else Decimal(n / 10) + [digit]
  }

  /** `s.includes(t)`: `t` occurs somewhere in `s` (the empty string occurs everywhere). */
  predicate Contains(s: string, t: string)
    decreases |s|
  {
    t <= s || (|s| > 0 && Contains(s[1..], t))
  }

  /** An occurrence of `t` between two pieces of text is found by `includes`. */
  lemma {:induction false} ContainsInfix(a: string, t: string, b: string)
    ensures Contains(a + t + b, t)
  {
    if a == [] {
      assert a + t + b == t + b;
    } else {
      assert (a + t + b)[1..] == a[1..] + t + b;
      ContainsInfix(a[1..], t, b);
    }
  }

  /** Every occurrence of a non-empty `t` starts with `t[0]`. */
  lemma {:induction false} ContainsHead(s: string, t: string)
    requires |t| > 0 && Contains(s, t)
    ensures t[0] in s
  {
    if t <= s {
      assert s[0] == t[0];
    } else {
      ContainsHead(s[1..], t);
      assert s[1..] <= s[1..];
    }
  }

  /** A string whose first character occurs only at position 0 of `s` occurs in `s`
      only if it is a prefix of `s`. */
  lemma NotContainsByHead(s: string, t: string)
    requires |t| > 0 && |s| > 0 && t[0] !in s[1..] && !(t <= s)
    ensures !Contains(s, t)
  {
    if Contains(s[1..], t) {
      ContainsHead(s[1..], t);
    }
  }

  /** Prefixing text that lacks the first character of `t` cannot create an occurrence of `t`. */
  lemma {:induction false} NotContainsAfterPrefix(p: string, r: string, t: string)
    requires |t| > 0 && t[0] !in p && !Contains(r, t)
    ensures !Contains(p + r, t)
  {
    if p == [] {
      assert p + r == r;
    } else {
      assert (p + r)[1..] == p[1..] + r;
      assert (p + r)[0] == p[0];
      NotContainsAfterPrefix(p[1..], r, t);
    }
  }
}
