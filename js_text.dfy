/**
 * The few JavaScript string and number primitives the storefront logic
 * relies on: string ordering (`localeCompare` and the default `sort()`
 * order), `split(',')`, `filter(Boolean)`, `join(',')`, `parseFloat` and
 * `Number.prototype.toString`.
 */
module JsText {
  import opened Wrappers

  // ---------------------------------------------------------------- ordering

  /**
   * Three-way string comparison in code-point order: -1, 0 or 1.  It stands
   * for both `localeCompare` and the default `Array.prototype.sort` order.
   */
  function CompareStrings(a: string, b: string): (r: int)
    ensures -1 <= r <= 1
  {
    if a == [] && b == [] then 0
    else if a == [] then -1
    else if b == [] then 1
    else if a[0] < b[0] then -1
    else if a[0] > b[0] then 1
    else CompareStrings(a[1..], b[1..])
  }

  lemma {:induction false} CompareStringsAntisymmetric(a: string, b: string)
    ensures CompareStrings(a, b) == -CompareStrings(b, a)
  {
    if a != [] && b != [] && a[0] == b[0] {
      CompareStringsAntisymmetric(a[1..], b[1..]);
    }
  }

  /** Two strings compare equal exactly when they are the same string. */
  lemma {:induction false} CompareStringsZero(a: string, b: string)
    ensures CompareStrings(a, b) == 0 <==> a == b
  {
    if a != [] && b != [] && a[0] == b[0] {
      CompareStringsZero(a[1..], b[1..]);
      assert a == [a[0]] + a[1..] && b == [b[0]] + b[1..];
    }
  }

  lemma {:induction false} CompareStringsTransitive(a: string, b: string, c: string)
    requires CompareStrings(a, b) <= 0 && CompareStrings(b, c) <= 0
    ensures CompareStrings(a, c) <= 0
  {
    if a != [] && b != [] && c != [] && a[0] == b[0] && b[0] == c[0] {
      CompareStringsTransitive(a[1..], b[1..], c[1..]);
    }
  }

  // ------------------------------------------------------- split and join

  predicate CommaFree(s: string) {
    ',' !in s
  }

  /** `s.split(',')`: the segments between commas, at least one. */
  function Split(s: string): (r: seq<string>)
    ensures |r| >= 1
    ensures forall i :: 0 <= i < |r| ==> CommaFree(r[i])
  {
    if s == [] then [""]
    else
      var rest := Split(s[1..]);
      if s[0] == ',' then [""] + rest
      else [[s[0]] + rest[0]] + rest[1..]
  }

  /**
   * `filter(Boolean)` on strings: drops the empty ones and keeps every
   * other one as often as it occurs; `CompactAppend` adds that the order
   * is kept.
   */
  function Compact(xs: seq<string>): (r: seq<string>)
    ensures forall i :: 0 <= i < |r| ==> r[i] != "" && r[i] in xs
    ensures forall x :: x in xs && x != "" ==> x in r
    ensures forall x :: multiset(r)[x] == (if x == "" then 0 else multiset(xs)[x])
  {
    if xs == [] then []
    else
      assert xs == [xs[0]] + xs[1..];
      if xs[0] == "" then Compact(xs[1..])
      else [xs[0]] + Compact(xs[1..])
  }

  /** `filter` works element by element: compacting a concatenation compacts each part in order. */
  lemma {:induction false} CompactAppend(a: seq<string>, b: seq<string>)
    ensures Compact(a + b) == Compact(a) + Compact(b)
  {
    if a == [] {
      assert a + b == b;
    } else {
      var ab := a + b;
      assert ab[0] == a[0] && ab[1..] == a[1..] + b;
      CompactAppend(a[1..], b);
      if a[0] == "" {
        assert Compact(ab) == Compact(a[1..] + b);
      } else {
        assert Compact(ab) == [a[0]] + Compact(a[1..] + b);
        assert Compact(a) == [a[0]] + Compact(a[1..]);
      }
    }
  }

  /** `s.split(',').filter(Boolean)`, the decoding of a list parameter. */
  function SplitList(s: string): (r: seq<string>)
    ensures forall i :: 0 <= i < |r| ==> r[i] != "" && CommaFree(r[i])
  {
    Compact(Split(s))
  }

  /** `xs.join(',')`. */
  function Join(xs: seq<string>): string {
    if xs == [] then ""
    else if |xs| == 1 then xs[0]
    else xs[0] + "," + Join(xs[1..])
  }

  /** The elements a list parameter can carry through a join and a split. */
  predicate Joinable(xs: seq<string>) {
    forall i :: 0 <= i < |xs| ==> xs[i] != "" && CommaFree(xs[i])
  }

  lemma {:induction false} SplitCommaFreePrefix(a: string, t: string)
    requires CommaFree(a)
    ensures Split(a + t) == [a + Split(t)[0]] + Split(t)[1..]
  {
    if a == [] {
      assert a + t == t && a + Split(t)[0] == Split(t)[0];
      assert Split(t) == [Split(t)[0]] + Split(t)[1..];
    } else {
      var s := Split(t);
      assert (a + t)[0] == a[0] && (a + t)[1..] == a[1..] + t;
      SplitCommaFreePrefix(a[1..], t);
      var rest := Split(a[1..] + t);
      assert rest[0] == a[1..] + s[0] && rest[1..] == s[1..];
      assert Split(a + t) == [[a[0]] + rest[0]] + rest[1..];
      assert [a[0]] + (a[1..] + s[0]) == a + s[0];
    }
  }

  /** Splitting undoes joining whenever no element holds a comma. */
  lemma {:induction false} SplitJoin(xs: seq<string>)
    requires |xs| >= 1
    requires forall i :: 0 <= i < |xs| ==> CommaFree(xs[i])
    ensures Split(Join(xs)) == xs
  {
    if |xs| == 1 {
      SplitCommaFreePrefix(xs[0], "");
      assert xs[0] + "" == xs[0];
    } else {
      SplitJoin(xs[1..]);
      var t := "," + Join(xs[1..]);
      assert Join(xs) == xs[0] + t;
      SplitCommaFreePrefix(xs[0], t);
      assert t[1..] == Join(xs[1..]);
      assert Split(t) == [""] + xs[1..];
      assert Split(Join(xs)) == [xs[0] + ""] + xs[1..];
      assert xs[0] + "" == xs[0];
      assert xs == [xs[0]] + xs[1..];
    }
  }

  /** Joining the segments of a split gives the text back: `Split(s)` is the comma-free segments of `s`, in order. */
  lemma {:induction false} JoinSplit(s: string)
    ensures Join(Split(s)) == s
  {
    if s != [] {
      var rest := Split(s[1..]);
      JoinSplit(s[1..]);
      if s[0] == ',' {
        assert Split(s) == [""] + rest;
        assert ([""] + rest)[1..] == rest;
        assert Join(Split(s)) == "" + "," + Join(rest);
      } else if |rest| == 1 {
        assert Join(Split(s)) == [s[0]] + rest[0];
      } else {
        assert Join(rest) == rest[0] + "," + Join(rest[1..]);
        assert Split(s)[1..] == rest[1..];
        assert Join(Split(s)) == ([s[0]] + rest[0]) + "," + Join(rest[1..]);
      }
      assert s == [s[0]] + s[1..];
    }
  }

  /**
   * Decoding a list parameter: its values are the non-empty segments of
   * the text, in order, each as often as it occurs (`"b,,a"` gives
   * `["b", "a"]`).
   */
  lemma SplitListOfSegments(segments: seq<string>)
    requires |segments| >= 1
    requires forall i :: 0 <= i < |segments| ==> CommaFree(segments[i])
    ensures SplitList(Join(segments)) == Compact(segments)
  {
    SplitJoin(segments);
  }

  lemma SplitListExample()
    ensures SplitList("b,,a") == ["b", "a"]
  {
    assert "b,,a" == Join(["b", "", "a"]);
    SplitListOfSegments(["b", "", "a"]);
    assert Compact(["b", "", "a"]) == ["b"] + Compact(["", "a"]);
  }

  lemma {:induction false} CompactKeepsNonEmpty(xs: seq<string>)
    requires forall i :: 0 <= i < |xs| ==> xs[i] != ""
    ensures Compact(xs) == xs
  {
    if xs != [] {
      CompactKeepsNonEmpty(xs[1..]);
    }
  }

  /**
   * Round trip of a list parameter: a non-empty list of non-empty,
   * comma-free values is joined with ',' and split back to itself.
   */
  lemma ListRoundTrip(xs: seq<string>)
    requires |xs| >= 1 && Joinable(xs)
    ensures SplitList(Join(xs)) == xs
  {
    SplitJoin(xs);
    CompactKeepsNonEmpty(xs);
  }

  /** JavaScript truthiness of a string that may be undefined: present and not "". */
  predicate StringTruthy(s: Option<string>) {
    s.Some? && s.value != ""
  }

  // ------------------------------------------------------------- numbers

  /** A JavaScript number as far as the model needs it: an integer or NaN. */
  datatype Number = Finite(value: int) | NaN

  /** JavaScript truthiness of a number: neither 0 nor NaN. */
  predicate NumberTruthy(n: Number) {
    n.Finite? && n.value != 0
  }

  predicate IsDigit(c: char) {
    '0' <= c <= '9'
  }

  function DigitPrefix(s: string): (r: string)
    ensures |r| <= |s| && r == s[..|r|]
    ensures forall i :: 0 <= i < |r| ==> IsDigit(r[i])
  {
    if s == [] || !IsDigit(s[0]) then [] else [s[0]] + DigitPrefix(s[1..])
  }

  function DigitsValue(d: string): (v: int)
    requires forall i :: 0 <= i < |d| ==> IsDigit(d[i])
    ensures v >= 0
  {
    if d == [] then 0
    else
      assert IsDigit(d[|d| - 1]);
      DigitsValue(d[..|d| - 1]) * 10 + (d[|d| - 1] as int - '0' as int)
  }

  /**
   * `parseFloat` restricted to integers: an optional sign followed by the
   * longest run of decimal digits; no digit at all gives NaN.
   */
  function ParseFloat(s: string): (n: Number)
    ensures n.NaN? <==> DigitPrefix(if s != [] && s[0] in "+-" then s[1..] else s) == []
  {
    var negative := s != [] && s[0] == '-';
    var body := if s != [] && s[0] in "+-" then s[1..] else s;
    var d := DigitPrefix(body);
    if d == [] then NaN
    else if negative then Finite(-DigitsValue(d))
    else Finite(DigitsValue(d))
  }

  function DigitChar(d: nat): (c: char)
    requires d < 10
    ensures IsDigit(c)
  {
    ('0' as int + d) as char
  }

  /** The decimal digits of `n`, most significant first. */
  function Digits(n: nat): (r: string)
    ensures |r| >= 1
    ensures forall i :: 0 <= i < |r| ==> IsDigit(r[i])
  {
    if n < 10 then [DigitChar(n)] else Digits(n / 10) + [DigitChar(n % 10)]
  }

  /** `n.toString()` for an integer `n`. */
  function NumberToString(n: int): (r: string)
    ensures r != [] && CommaFree(r)
  {
    if n < 0 then "-" + Digits(-n) else Digits(n)
  }

  lemma {:induction false} DigitPrefixOfDigits(d: string)
    requires forall i :: 0 <= i < |d| ==> IsDigit(d[i])
    ensures DigitPrefix(d) == d
  {
    if d != [] {
      DigitPrefixOfDigits(d[1..]);
      assert d == [d[0]] + d[1..];
    }
  }

  lemma {:induction false} DigitsValueOfDigits(n: nat)
    ensures DigitsValue(Digits(n)) == n
  {
    if n >= 10 {
      DigitsValueOfDigits(n / 10);
      var d := Digits(n);
      assert d[..|d| - 1] == Digits(n / 10);
    }
  }

  /** Writing an integer with `toString` and reading it with `parseFloat` gives it back. */
  lemma NumberRoundTrip(n: int)
    ensures ParseFloat(NumberToString(n)) == Finite(n)
  {
    var m: nat := if n < 0 then -n else n;
    DigitPrefixOfDigits(Digits(m));
    DigitsValueOfDigits(m);
    var s := NumberToString(n);
    if n < 0 {
      assert s[0] == '-' && s[1..] == Digits(m);
    } else {
      assert s[0] != '-' && s[0] != '+';
    }
  }
}
