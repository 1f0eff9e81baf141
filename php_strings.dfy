/**
 * The PHP string functions the gallery code relies on. A PHP string is a byte
 * string; here each `char` of a `string` holds one byte.
 */
module PhpStrings {

  /** `strcmp`: the sign of the byte-wise lexicographic comparison of `a` and `b`. */
  function StrCmp(a: string, b: string): (c: int)
    ensures -1 <= c <= 1
    ensures c == 0 <==> a == b
  {
    if a == [] then (if b == [] then 0 else -1)
    else if b == [] then 1
    else if a[0] < b[0] then -1
    else if a[0] > b[0] then 1
    else
      var c := StrCmp(a[1..], b[1..]);
      assert a == [a[0]] + a[1..] && b == [b[0]] + b[1..];
      c
  }

  /** `a` sorts at or before `b` under `strcmp`. */
  predicate StrLe(a: string, b: string)
  {
    StrCmp(a, b) <= 0
  }

  /** Swapping the arguments of `strcmp` flips the sign of its result. */
  lemma {:induction false} StrCmpFlip(a: string, b: string)
    ensures StrCmp(b, a) == -StrCmp(a, b)
  {
    if a != [] && b != [] && a[0] == b[0] {
      StrCmpFlip(a[1..], b[1..]);
    }
  }

  /** Any two strings are comparable. */
  lemma StrLeTotal(a: string, b: string)
    ensures StrLe(a, b) || StrLe(b, a)
  {
    StrCmpFlip(a, b);
  }

  /** The `strcmp` order is transitive. */
  lemma {:induction false} StrLeTransitive(a: string, b: string, c: string)
    requires StrLe(a, b) && StrLe(b, c)
    ensures StrLe(a, c)
  {
    if a != [] && b != [] && c != [] && a[0] == b[0] == c[0] {
      StrLeTransitive(a[1..], b[1..], c[1..]);
    }
  }

  // ---- decimal numerals (the year keys that PHP turns into integers) ----

  predicate IsDigits(s: string)
  {
    forall i :: 0 <= i < |s| ==> '0' <= s[i] <= '9'
  }

  function Pow10(n: nat): (p: nat)
    ensures p >= 1
  {
    if n == 0 then 1 else 10 * Pow10(n - 1)
  }

  /** The integer a numeral denotes, as PHP reads an integer-like array key. */
  function DecimalValue(s: string): (v: nat)
    requires IsDigits(s)
    ensures v < Pow10(|s|)
  {
    if s == [] then 0
    else
      var d := (s[0] as int) - ('0' as int);
      var rest := DecimalValue(s[1..]);
      LeadingDigitDecides(d, 10, Pow10(|s| - 1), rest, 0);
      d * Pow10(|s| - 1) + rest
  }

  /**
   * On numerals of equal length, `strcmp` orders exactly as the numbers they
   * denote: this is why a string-descending order of four-digit year keys is
   * the integer-descending order PHP's `krsort` applies to them.
   */
  lemma {:induction false} DigitOrderIsNumeric(a: string, b: string)
    requires IsDigits(a) && IsDigits(b) && |a| == |b|
    ensures StrCmp(a, b) < 0 <==> DecimalValue(a) < DecimalValue(b)
    ensures StrCmp(a, b) == 0 <==> DecimalValue(a) == DecimalValue(b)
  {
    if a != [] {
      var p := Pow10(|a| - 1);
      var da, db := (a[0] as int) - ('0' as int), (b[0] as int) - ('0' as int);
      assert DecimalValue(a) == da * p + DecimalValue(a[1..]);
      assert DecimalValue(b) == db * p + DecimalValue(b[1..]);
      if a[0] < b[0] {
        LeadingDigitDecides(da, db, p, DecimalValue(a[1..]), DecimalValue(b[1..]));
      } else if a[0] > b[0] {
        LeadingDigitDecides(db, da, p, DecimalValue(b[1..]), DecimalValue(a[1..]));
      } else {
        DigitOrderIsNumeric(a[1..], b[1..]);
      }
    }
  }

  /** A smaller leading digit gives a smaller number, whatever the digits after it. */
  lemma LeadingDigitDecides(dx: int, dy: int, p: nat, rx: nat, ry: nat)
    requires 0 <= dx < dy && rx < p
    ensures dx * p + rx < dy * p + ry
  {
    assert (dx + 1) * p <= dy * p;
  }

  // ---- substr, trim, explode, implode ----

  /** `substr(s, start, len)` for non-negative `start` and `len` (PHP 8: "" past the end). */
  function Substr(s: string, start: nat, len: nat): (r: string)
    ensures |r| <= len
    ensures start + len <= |s| ==> r == s[start..start + len]
    ensures start + len > |s| ==> r == if start < |s| then s[start..] else []
  {
    if start >= |s| then []
    else if start + len <= |s| then s[start..start + len]
    else s[start..]
  }

  /** `substr(s, start)` for a non-negative `start`. */
  function SubstrFrom(s: string, start: nat): (r: string)
    ensures |r| == if start <= |s| then |s| - start else 0
  {
    if start >= |s| then [] else s[start..]
  }

  /** Splitting at `n` loses nothing: `substr(s, 0, n) . substr(s, n) == s`. */
  lemma SubstrSplit(s: string, n: nat)
    ensures Substr(s, 0, n) + SubstrFrom(s, n) == s
  {
    if n >= |s| {
      assert Substr(s, 0, n) == s[0..];
    } else {
      assert s[..n] + s[n..] == s;
    }
  }

  /** `n` copies of the byte `c`. */
  function Repeat(c: char, n: nat): (r: string)
    ensures |r| == n
  {
    if n == 0 then [] else [c] + Repeat(c, n - 1)
  }

  /** Every byte of `Repeat(c, n)` is `c`. */
  lemma {:induction false} RepeatIsAllC(c: char, n: nat)
    ensures forall i :: 0 <= i < n ==> Repeat(c, n)[i] == c
  {
    if n > 0 {
      RepeatIsAllC(c, n - 1);
      assert forall i :: 1 <= i < n ==> Repeat(c, n)[i] == Repeat(c, n - 1)[i - 1];
    }
  }

  /** One more `c` may be added at either end of a run of `c`s. */
  lemma {:induction false} RepeatSnoc(c: char, n: nat)
    ensures Repeat(c, n) + [c] == Repeat(c, n + 1)
  {
    if n > 0 {
      RepeatSnoc(c, n - 1);
      assert Repeat(c, n) + [c] == [c] + (Repeat(c, n - 1) + [c]);
    }
  }

  /** `ltrim(s, c)`: drops the leading run of `c`. */
  function TrimLeft(c: char, s: string): (t: string)
    ensures |t| <= |s| && s == Repeat(c, |s| - |t|) + t
    ensures t == [] || t[0] != c
  {
    if |s| > 0 && s[0] == c then
      var t := TrimLeft(c, s[1..]);
      assert s == [c] + s[1..];
      t
    else s
  }

  /** `rtrim(s, c)`: drops the trailing run of `c`. */
  function TrimRight(c: char, s: string): (t: string)
    ensures |t| <= |s| && s == t + Repeat(c, |s| - |t|)
    ensures t == [] || t[|t| - 1] != c
  {
    if |s| > 0 && s[|s| - 1] == c then
      var t := TrimRight(c, s[..|s| - 1]);
      RepeatSnoc(c, |s| - 1 - |t|);
      assert s == s[..|s| - 1] + [c];
      t
    else s
  }

  /**
   * `trim(s, c)`: what is left of `s` after removing every `c` from both ends;
   * only runs of `c` are removed.
   */
  function Trim(c: char, s: string): (t: string)
    ensures |t| <= |TrimLeft(c, s)| <= |s|
    ensures t == [] || (t[0] != c && t[|t| - 1] != c)
    ensures s == Repeat(c, |s| - |TrimLeft(c, s)|) + t + Repeat(c, |TrimLeft(c, s)| - |t|)
  {
    TrimRight(c, TrimLeft(c, s))
  }

  /** `explode(d, s)`: the pieces of `s` between occurrences of `d`, never an empty list. */
  function Explode(d: char, s: string): (parts: seq<string>)
    ensures |parts| >= 1
    ensures forall i :: 0 <= i < |parts| ==> d !in parts[i]
  {
    if s == [] then [[]]
    else
      var rest := Explode(d, s[1..]);
      if s[0] == d then [[]] + rest
      else [[s[0]] + rest[0]] + rest[1..]
  }

  /** `implode(d, parts)`: the parts joined by `d`; the empty list gives "". */
  function Implode(d: char, parts: seq<string>): (s: string)
  {
    if parts == [] then []
    else if |parts| == 1 then parts[0]
    else parts[0] + [d] + Implode(d, parts[1..])
  }

  /** `implode` undoes `explode`. */
  lemma {:induction false} ImplodeExplode(d: char, s: string)
    ensures Implode(d, Explode(d, s)) == s
  {
    if s != [] {
      var rest := Explode(d, s[1..]);
      ImplodeExplode(d, s[1..]);
      var parts := Explode(d, s);
      if s[0] == d {
        assert parts[1..] == rest;
      } else if |rest| == 1 {
        assert parts == [[s[0]] + rest[0]];
      } else {
        assert parts[1..] == rest[1..];
        assert Implode(d, rest) == rest[0] + [d] + Implode(d, rest[1..]);
      }
      assert s == [s[0]] + s[1..];
    }
  }

  /** A leading segment free of `d` is split off as the first part. */
  lemma {:induction false} ExplodeLeadingSegment(d: char, a: string, b: string)
    requires d !in a
    ensures Explode(d, a + [d] + b) == [a] + Explode(d, b)
  {
    var s := a + [d] + b;
    if a == [] {
      assert s[1..] == b;
    } else {
      assert s[1..] == a[1..] + [d] + b;
      ExplodeLeadingSegment(d, a[1..], b);
      assert [a[0]] + a[1..] == a;
    }
  }

  /** A string without `d` explodes into itself alone. */
  lemma {:induction false} ExplodeWithoutSeparator(d: char, s: string)
    requires d !in s
    ensures Explode(d, s) == [s]
  {
    if s != [] {
      ExplodeWithoutSeparator(d, s[1..]);
      assert [s[0]] + s[1..] == s;
    }
  }
}
