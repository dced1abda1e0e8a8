/** The JavaScript built-ins the frontend relies on: thrown values,
    String.prototype.trim, String.prototype.repeat, Number.prototype.toString
    on integers and parseInt on decimal text. */
module JsBuiltins {
  import opened Wrappers

  /** A value a `throw` can carry: an Error object with its `message`;
      undefined or null, whose properties cannot be read; or any other value
      (a string, a plain object, ...), with the text of its own `message`
      property when it has one. */
  datatype Thrown =
    | ErrorObject(message: string)
    | Nullish
    | NonErrorValue(messageProperty: Option<string>)

  /** The RangeError String.prototype.repeat throws for a negative count. */
  datatype RangeError = InvalidCount(count: int)

  /** A JavaScript number with no fractional part. */
  predicate IsIntegral(n: real) {
    n == n.Floor as real
  }

  // ---------------------------------------------------------------------
  // trim

  /** WhiteSpace and LineTerminator code points of ECMAScript: the characters
      String.prototype.trim removes. */
  predicate IsWhitespace(c: char) {
    c == '\t' || c == '\n' || c == '\U{000B}' || c == '\U{000C}' || c == '\r' ||
    c == ' ' || c == '\U{00A0}' || c == '\U{1680}' ||
    ('\U{2000}' <= c <= '\U{200A}') ||
    c == '\U{2028}' || c == '\U{2029}' || c == '\U{202F}' || c == '\U{205F}' ||
    c == '\U{3000}' || c == '\U{FEFF}'
  }

  /** Every character of `s` from index `lo` up to `hi` is whitespace. */
  predicate WhiteBetween(s: string, lo: int, hi: int)
    requires 0 <= lo <= hi <= |s|
  {
    forall k :: lo <= k < hi ==> IsWhitespace(s[k])
  }

  /** Neither end of `s` is a whitespace character. */
  predicate NoOuterWhitespace(s: string) {
    s == [] || (!IsWhitespace(s[0]) && !IsWhitespace(s[|s| - 1]))
  }

  /** Cutting `s` at `i` and `j` leaves whitespace outside and a middle with
      no whitespace at either end. */
  predicate IsTrimCut(s: string, i: int, j: int) {
    0 <= i <= j <= |s| && WhiteBetween(s, 0, i) && WhiteBetween(s, j, |s|) &&
    NoOuterWhitespace(s[i..j])
  }

  /** `t` is `s` with its leading and trailing whitespace cut off: the
      declarative meaning of trim, independent of how Trim computes it. */
  predicate IsTrimOf(t: string, s: string) {
    exists i, j :: 0 <= i <= j <= |s| && IsTrimCut(s, i, j) && t == s[i..j]
  }

  function TrimStart(s: string): (r: string)
    ensures |r| <= |s|
  {
    if |s| > 0 && IsWhitespace(s[0]) then TrimStart(s[1..]) else s
  }

  function TrimEnd(s: string): (r: string)
    ensures |r| <= |s|
  {
    if |s| > 0 && IsWhitespace(s[|s| - 1]) then TrimEnd(s[..|s| - 1]) else s
  }

  /** String.prototype.trim. */
  function Trim(s: string): string {
    TrimEnd(TrimStart(s))
  }

  /** TrimStart drops a whitespace prefix and stops at a non-white character. */
  lemma {:induction false} TrimStartCuts(s: string)
    ensures var r := TrimStart(s);
      r == s[|s| - |r|..] && WhiteBetween(s, 0, |s| - |r|) && (r == [] || !IsWhitespace(r[0]))
  {
    if |s| > 0 && IsWhitespace(s[0]) {
      TrimStartCuts(s[1..]);
    }
  }

  /** TrimEnd drops a whitespace suffix and stops at a non-white character. */
  lemma {:induction false} TrimEndCuts(s: string)
    ensures var r := TrimEnd(s);
      r == s[..|r|] && WhiteBetween(s, |r|, |s|) && (r == [] || !IsWhitespace(r[|r| - 1]))
  {
    if |s| > 0 && IsWhitespace(s[|s| - 1]) {
      TrimEndCuts(s[..|s| - 1]);
    }
  }

  /** Whitespace found in a suffix of `s` is whitespace of `s`, shifted. */
  lemma WhiteInSuffix(s: string, i: nat, lo: nat, hi: nat)
    requires i <= |s| && lo <= hi <= |s| - i
    requires WhiteBetween(s[i..], lo, hi)
    ensures WhiteBetween(s, i + lo, i + hi)
  {
    forall k | i + lo <= k < i + hi
      ensures IsWhitespace(s[k])
    {
      assert s[k] == s[i..][k - i];
    }
  }

  /** Trim removes exactly the outer whitespace and nothing else. */
  lemma TrimMeaning(s: string)
    ensures IsTrimOf(Trim(s), s)
    ensures NoOuterWhitespace(Trim(s))
  {
    var a := TrimStart(s);
    TrimStartCuts(s);
    var t := TrimEnd(a);
    TrimEndCuts(a);
    var i := |s| - |a|;
    var j := i + |t|;
    assert t == a[..|t|];
    assert a == s[i..];
    assert t == s[i..j];
    WhiteInSuffix(s, i, |t|, |a|);
    assert t == [] || t[0] == a[0];
    assert NoOuterWhitespace(t);
    assert IsTrimCut(s, i, j);
  }

  /** Skipping a run of whitespace that ends at a non-white character (or at
      the end) is what TrimStart does. */
  lemma {:induction false} TrimStartSkips(s: string, i: nat)
    requires i <= |s| && WhiteBetween(s, 0, i)
    requires i == |s| || !IsWhitespace(s[i])
    ensures TrimStart(s) == s[i..]
  {
    if i > 0 {
      assert IsWhitespace(s[0]);
      assert forall k :: 0 <= k < i - 1 ==> s[1..][k] == s[k + 1];
      TrimStartSkips(s[1..], i - 1);
      assert s[1..][i - 1..] == s[i..];
    }
  }

  /** Trailing whitespace after a non-white last character is what TrimEnd cuts. */
  lemma {:induction false} TrimEndSkips(t: string, w: string)
    requires WhiteBetween(w, 0, |w|)
    requires t == [] || !IsWhitespace(t[|t| - 1])
    ensures TrimEnd(t + w) == t
  {
    if w == [] {
      assert t + w == t;
    } else {
      var w' := w[..|w| - 1];
      assert (t + w)[..|t + w| - 1] == t + w';
      assert (t + w)[|t + w| - 1] == w[|w| - 1];
      assert forall k :: 0 <= k < |w'| ==> w'[k] == w[k];
      TrimEndSkips(t, w');
    }
  }

  /** Any cut of `s` into outer whitespace and a middle with no outer
      whitespace is the one Trim makes: IsTrimOf pins Trim down. */
  lemma TrimUnique(s: string, i: nat, j: nat)
    requires IsTrimCut(s, i, j)
    ensures Trim(s) == s[i..j]
  {
    var t := s[i..j];
    if t == [] {
      assert WhiteBetween(s, 0, |s|);
      TrimStartSkips(s, |s|);
      assert s[|s|..] == [];
    } else {
      assert t[0] == s[i];
      TrimStartSkips(s, i);
      assert s[i..] == t + s[j..];
      assert forall k :: 0 <= k < |s| - j ==> s[j..][k] == s[j + k];
      TrimEndSkips(t, s[j..]);
    }
  }

  /** Trimming twice is trimming once. */
  lemma TrimIdempotent(s: string)
    ensures Trim(Trim(s)) == Trim(s)
  {
    var t := Trim(s);
    TrimMeaning(s);
    assert t == t[0..|t|];
    TrimUnique(t, 0, |t|);
  }

  // ---------------------------------------------------------------------
  // repeat

  function Replicate(s: string, n: nat): string {
    if n == 0 then "" else s + Replicate(s, n - 1)
  }

  /** String.prototype.repeat on an integer count: a negative count throws,
      otherwise the result is `count` copies of `s` end to end. */
  function Repeat(s: string, count: int): (r: Result<string, RangeError>)
    ensures r.Err? <==> count < 0
    ensures r.Err? ==> r.error == InvalidCount(count)
    ensures r.Ok? ==> |r.value| == count * |s|
    ensures r.Ok? ==> forall k :: 0 <= k < |r.value| ==> r.value[k] == s[k % |s|]
  {
    if count < 0 then Err(InvalidCount(count))
    else
      ReplicateShape(s, count);
      Ok(Replicate(s, count))
  }

  lemma {:induction false} MulAtLeast(d: int, m: int)
    requires d >= 1 && m > 0
    ensures d * m >= m
  {
    if d > 1 {
      MulAtLeast(d - 1, m);
      assert d * m == (d - 1) * m + m;
    }
  }

  /** A nonzero multiple of `m` is at least `m` away from zero. */
  lemma MulApart(d: int, m: int)
    requires m > 0
    ensures d == 0 || d * m >= m || d * m <= -m
  {
    if d >= 1 {
      MulAtLeast(d, m);
    } else if d <= -1 {
      MulAtLeast(-d, m);
      assert (-d) * m == -(d * m);
    }
  }

  /** The remainder is the unique `r` in 0..m-1 with k == q * m + r. */
  lemma ModUnique(k: int, m: int, q: int, r: int)
    requires m > 0 && 0 <= r < m && k == q * m + r
    ensures k % m == r
  {
    var q' := k / m;
    assert k == q' * m + k % m;
    MulApart(q' - q, m);
    assert (q' - q) * m == q' * m - q * m;
  }

  /** `n` copies of `s`: character k is character k mod |s| of `s`. */
  lemma {:induction false} ReplicateShape(s: string, n: nat)
    ensures |Replicate(s, n)| == n * |s|
    ensures forall k :: 0 <= k < |Replicate(s, n)| ==> Replicate(s, n)[k] == s[k % |s|]
  {
    if n > 0 {
      ReplicateShape(s, n - 1);
      var m := |s|;
      var rest := Replicate(s, n - 1);
      var r := Replicate(s, n);
      assert r == s + rest;
      assert n * m == m + (n - 1) * m;
      forall k | 0 <= k < |r| ensures r[k] == s[k % m] {
        if k >= m {
          var j := k - m;
          assert r[k] == rest[j];
          ModUnique(k, m, j / m + 1, j % m);
        } else {
          ModUnique(k, m, 0, k);
        }
      }
    }
  }

  /** Repeating a one-character string `n` times gives `n` copies of it. */
  lemma {:induction false} ReplicateChar(c: char, n: nat)
    ensures |Replicate([c], n)| == n
    ensures forall k :: 0 <= k < n ==> Replicate([c], n)[k] == c
    ensures multiset(Replicate([c], n))[c] == n
    ensures forall d :: d != c ==> multiset(Replicate([c], n))[d] == 0
  {
    if n > 0 {
      ReplicateChar(c, n - 1);
      assert Replicate([c], n) == [c] + Replicate([c], n - 1);
      assert multiset(Replicate([c], n)) == multiset{c} + multiset(Replicate([c], n - 1));
    }
  }

  // ---------------------------------------------------------------------
  // integers as decimal text

  function DigitChar(d: int): char
    requires 0 <= d < 10
  {
    "0123456789"[d]
  }

  predicate IsDigit(c: char) { '0' <= c <= '9' }

  function DigitValue(c: char): int
    requires IsDigit(c)
  {
    c as int - '0' as int
  }

  /** The decimal digits of `n`, most significant first, without leading zeros. */
  function Digits(n: nat): (r: string)
    ensures |r| > 0 && forall k :: 0 <= k < |r| ==> IsDigit(r[k])
  {
    if n < 10 then [DigitChar(n)] else Digits(n / 10) + [DigitChar(n % 10)]
  }

  /** Number.prototype.toString (radix 10) for an integral number. */
  function NumberToString(n: int): string {
    if n < 0 then "-" + Digits(-n) else Digits(n)
  }

  function DigitsValue(s: string): nat
    requires forall k :: 0 <= k < |s| ==> IsDigit(s[k])
  {
    if s == [] then 0 else DigitsValue(s[..|s| - 1]) * 10 + DigitValue(s[|s| - 1])
  }

  /** parseInt on text that is an optional minus sign followed by decimal
      digits; None stands for NaN. */
  function ParseInt(s: string): Option<int> {
    if |s| > 0 && s[0] == '-' then
      (if |s| > 1 && forall k :: 1 <= k < |s| ==> IsDigit(s[k])
       then Some(-(DigitsValue(s[1..]) as int)) else None)
    else if |s| > 0 && forall k :: 0 <= k < |s| ==> IsDigit(s[k]) then
      Some(DigitsValue(s))
    else None
  }

  lemma {:induction false} DigitsRoundTrip(n: nat)
    ensures DigitsValue(Digits(n)) == n
  {
    var d := Digits(n);
    if n >= 10 {
      DigitsRoundTrip(n / 10);
      assert d[..|d| - 1] == Digits(n / 10);
    } else {
      assert d[..|d| - 1] == [];
    }
  }

  /** parseInt reads back what toString wrote. */
  lemma NumberToStringRoundTrip(n: int)
    ensures ParseInt(NumberToString(n)) == Some(n)
  {
    if n < 0 {
      var d := Digits(-n);
      DigitsRoundTrip(-n);
      var text := "-" + d;
      assert NumberToString(n) == text;
      assert text[1..] == d;
      assert forall k :: 1 <= k < |text| ==> text[k] == d[k - 1];
    } else {
      DigitsRoundTrip(n);
    }
  }
}
