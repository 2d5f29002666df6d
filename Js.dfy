/** The JavaScript values and built-ins the budgeting model relies on, stated once. */
module Js {

  datatype Option<+T> = None | Some(value: T) {
    /** `x ?? default` on a possibly missing value */
    function GetOr(default: T): T {
      if Some? then value else default
    }
  }

  /** A promise outcome: a value, or the message of the error it was rejected with. */
  datatype Result<+T> = Success(value: T) | Failure(error: string)

  /** `parseFloat` applied to a text. It is not modelled: every operation that parses takes it
      as a parameter. `None` is NaN, the "not a number" result. */
  type ParseFloat = string -> Option<real>

  /** A field that holds either the text an input produced or a number read back from storage. */
  datatype Value = Text(s: string) | Number(x: real)

  /** JavaScript truthiness of a value: the empty text and the number 0 are falsy. */
  predicate Truthy(v: Value) {
    match v
    case Text(s) => s != ""
    case Number(x) => x != 0.0
  }

  /** `parseFloat(v)`: a number converts to itself, a text goes through `parse`. */
  function ParseValue(parse: ParseFloat, v: Value): Option<real> {
    match v
    case Text(s) => parse(s)
    case Number(x) => Some(x)
  }

  /** `n || 0` for a number `n`: NaN and 0 are both falsy and give 0. */
  function NumberOrZero(n: Option<real>): (r: real)
    ensures n.Some? ==> r == n.value
    ensures n.None? ==> r == 0.0
  {
    if n.Some? then n.value else 0.0
  }

  /** `n || null` for a number `n`: NaN and 0 give null. */
  function NumberOrNull(n: Option<real>): (r: Option<real>)
    ensures r.Some? <==> n.Some? && n.value != 0.0
    ensures r.Some? ==> r == n
  {
    if n.Some? && n.value != 0.0 then n else None
  }

  /** The characters `String.prototype.trim` removes: ECMAScript WhiteSpace and LineTerminator. */
  predicate IsWhitespace(c: char) {
    c == '\t' || c == '\n' || c == '\U{000B}' || c == '\U{000C}' || c == '\r' || c == ' '
    || c == '\U{00A0}' || c == '\U{1680}' || ('\U{2000}' <= c <= '\U{200A}')
    || c == '\U{2028}' || c == '\U{2029}' || c == '\U{202F}' || c == '\U{205F}'
    || c == '\U{3000}' || c == '\U{FEFF}'
  }

  ghost predicate AllWhitespace(s: string) {
    forall i :: 0 <= i < |s| ==> IsWhitespace(s[i])
  }

  function TrimStart(s: string): (r: string)
    ensures r == "" <==> AllWhitespace(s)
    ensures r != "" ==> !IsWhitespace(r[0])
  {
    if s != "" && IsWhitespace(s[0]) then TrimStart(s[1..]) else s
  }

  function TrimEnd(s: string): (r: string)
    ensures r == "" <==> AllWhitespace(s)
    ensures r != "" ==> r[0] == s[0]
  {
    if s != "" && IsWhitespace(s[|s| - 1]) then TrimEnd(s[..|s| - 1]) else s
  }

  /** `s.trim()` */
  function Trim(s: string): string {
    TrimEnd(TrimStart(s))
  }

  /** A text trims to the empty text exactly when it consists of whitespace only. */
  lemma TrimEmptyIff(s: string)
    ensures Trim(s) == "" <==> AllWhitespace(s)
  {
    var t := TrimStart(s);
    if t != "" {
      assert !IsWhitespace(t[0]);
      assert !AllWhitespace(t);
    }
  }

  /** One character of `toLowerCase` on the ASCII letters; every other character is kept. */
  function LowerChar(c: char): (r: char)
    ensures 'A' <= c <= 'Z' ==> 'a' <= r <= 'z' && r as int == c as int + 32
    ensures !('A' <= c <= 'Z') ==> r == c
  {
    if 'A' <= c <= 'Z' then (c - 'A' + 'a') as char else c
  }

  /** `toLowerCase`, character by character. */
  function AsciiLower(s: string): (r: string)
    ensures |r| == |s|
    ensures forall i :: 0 <= i < |s| ==> r[i] == LowerChar(s[i])
  {
    seq(|s|, i requires 0 <= i < |s| => LowerChar(s[i]))
  }

  /** `s.includes(sub)` */
  predicate Contains(s: string, sub: string) {
    (|sub| <= |s| && s[..|sub|] == sub) || (s != "" && Contains(s[1..], sub))
  }

  /** `s.endsWith(suffix)` */
  predicate EndsWith(s: string, suffix: string) {
    |suffix| <= |s| && s[|s| - |suffix|..] == suffix
  }

  /** A positive multiple of `n` is at least `n`. */
  lemma {:induction false} MulAtLeast(x: int, n: int)
    requires x >= 1 && n > 0
    ensures x * n >= n
    decreases x
  {
    if x > 1 {
      MulAtLeast(x - 1, n);
      assert x * n == (x - 1) * n + n;
    }
  }

  /** A multiple of `n` leaves no remainder. */
  lemma ModMultiple(k: int, n: int)
    requires n > 0
    ensures (k * n) % n == 0
  {
    var m := k * n;
    var q, r := m / n, m % n;
    assert m == q * n + r;
    var d := k - q;
    assert d * n == k * n - q * n;
    assert d * n == r;
    if d >= 1 { MulAtLeast(d, n); }
    else if d <= -1 { MulAtLeast(-d, n); }
  }

  /** The truncated remainder of a negative dividend differs from it by a multiple of `n`,
      and is 0 exactly when the Euclidean one is. */
  lemma NegRem(a: int, n: int)
    requires a < 0 && n > 0
    ensures (a + (-a) % n) % n == 0
    ensures (-a) % n == 0 <==> a % n == 0
  {
    var m := -a;
    var q := m / n;
    assert m == n * q + m % n;
    assert a + m % n == (-q) * n;
    ModMultiple(-q, n);
    if m % n == 0 {
      assert a == (-q) * n;
      ModMultiple(-q, n);
    }
    if a % n == 0 {
      var p := a / n;
      assert a == n * p;
      assert m == (-p) * n;
      ModMultiple(-p, n);
    }
  }

  /** JavaScript's `%` on integers: the remainder takes the sign of the dividend. */
  function Rem(a: int, n: int): (r: int)
    requires n > 0
    ensures -n < r < n
    ensures a >= 0 ==> r == a % n
    ensures a <= 0 ==> r <= 0
    ensures (a - r) % n == 0
    ensures r == 0 <==> a % n == 0
  {
    if a >= 0 then
      assert a - a % n == (a / n) * n;
      ModMultiple(a / n, n);
      a % n
    else
      NegRem(a, n);
      -((-a) % n)
  }

  /** `xs.filter((_, i) => i !== index)`: every element except the one at `index`. */
  function WithoutIndex<T>(xs: seq<T>, index: int): (r: seq<T>)
    ensures 0 <= index < |xs| ==> r == xs[..index] + xs[index + 1..]
    ensures !(0 <= index < |xs|) ==> r == xs
  {
    if xs == [] then []
    else
      var n := |xs| - 1;
      WithoutIndex(xs[..n], index) + (if n != index then [xs[n]] else [])
  }

  /** `xs.slice(-n)` for `n > 0`: the last `n` elements, or all of them when there are fewer. */
  function LastN<T>(xs: seq<T>, n: nat): (r: seq<T>)
    requires n > 0
    ensures |r| == if |xs| <= n then |xs| else n
    ensures forall i :: 0 <= i < |r| ==> r[i] == xs[|xs| - |r| + i]
  {
    if |xs| <= n then xs else xs[|xs| - n..]
  }

  /** `xs.reverse()` on a copy. */
  function Reverse<T>(xs: seq<T>): (r: seq<T>)
    ensures |r| == |xs|
    ensures forall i :: 0 <= i < |xs| ==> r[i] == xs[|xs| - 1 - i]
  {
    if xs == [] then [] else [xs[|xs| - 1]] + Reverse(xs[..|xs| - 1])
  }

  /** `xs.map(f).filter(y => y !== null)`: the results of `f` that are not null, in order. */
  function Somes<A, B(!new)>(xs: seq<A>, f: A -> Option<B>): (r: seq<B>)
    ensures |r| <= |xs|
    ensures forall y :: y in r ==> exists i :: 0 <= i < |xs| && f(xs[i]) == Some(y)
    ensures forall i :: 0 <= i < |xs| && f(xs[i]).Some? ==> f(xs[i]).value in r
  {
    if xs == [] then []
    else
      var init := xs[..|xs| - 1];
      assert forall i :: 0 <= i < |init| ==> init[i] == xs[i];
      var y := f(xs[|xs| - 1]);
      Somes(init, f) + (if y.Some? then [y.value] else [])
  }

  /** Mapping and filtering commutes with concatenation, so the results keep their order. */
  lemma {:induction false} SomesConcat<A, B(!new)>(a: seq<A>, b: seq<A>, f: A -> Option<B>)
    ensures Somes(a + b, f) == Somes(a, f) + Somes(b, f)
  {
    if b == [] {
      assert a + b == a;
    } else {
      var b' := b[..|b| - 1];
      assert (a + b)[..|a + b| - 1] == a + b';
      assert (a + b)[|a + b| - 1] == b[|b| - 1];
      SomesConcat(a, b', f);
    }
  }

  /** Nothing is kept exactly when `f` gives null for every element. */
  lemma {:induction false} SomesEmptyIff<A, B(!new)>(xs: seq<A>, f: A -> Option<B>)
    ensures Somes(xs, f) == [] <==> forall i :: 0 <= i < |xs| ==> f(xs[i]).None?
  {
    if xs != [] {
      var init := xs[..|xs| - 1];
      SomesEmptyIff(init, f);
      assert forall i :: 0 <= i < |init| ==> init[i] == xs[i];
    }
  }
}
