/** Models of the few Go standard-library string operations the core relies on:
    decimal rendering (strconv.Itoa), joining and splitting on a separator,
    first-occurrence replacement (strings.Replace with n = 1), upper-casing
    (strings.ToUpper, ASCII only) and the byte-wise order of Go's `<` on strings. */
module Text {

  datatype Option<T> = None | Some(value: T)

  // ---------------------------------------------------------------------------
  // Joining and splitting
  // ---------------------------------------------------------------------------

  /** `xs` joined with `sep` between consecutive elements (Go's strings.Join). */
  function Join(sep: string, xs: seq<string>): (r: string)
  {
    if |xs| == 0 then ""
    else if |xs| == 1 then xs[0]
    else Join(sep, xs[..|xs| - 1]) + sep + xs[|xs| - 1]
  }

  /** `xs` without its leading run of empty strings. */
  function DropLeadingEmpty(xs: seq<string>): (r: seq<string>)
    ensures |r| <= |xs|
    ensures r == [] || r[0] != ""
  {
    if xs == [] then []
    else if xs[0] == "" then DropLeadingEmpty(xs[1..])
    else xs
  }

  lemma {:induction false} DropLeadingEmptyAppend(xs: seq<string>, x: string)
    ensures DropLeadingEmpty(xs + [x]) ==
            if DropLeadingEmpty(xs) == [] then (if x == "" then [] else [x])
            else DropLeadingEmpty(xs) + [x]
  {
    if xs == [] {
      assert xs + [x] == [x];
      assert [x][1..] == [];
    } else {
      assert (xs + [x])[1..] == xs[1..] + [x];
      if xs[0] == "" {
        DropLeadingEmptyAppend(xs[1..], x);
      }
    }
  }

  /** A joined list whose first element is non-empty is non-empty. */
  lemma {:induction false} JoinNonEmpty(sep: string, xs: seq<string>)
    requires xs != [] && xs[0] != ""
    ensures Join(sep, xs) != ""
    ensures |Join(sep, xs)| >= |xs[0]|
  {
    if |xs| > 1 {
      assert xs[..|xs| - 1][0] == xs[0];
      JoinNonEmpty(sep, xs[..|xs| - 1]);
    }
  }

  /** Joining one more element appends the separator and the element. */
  lemma JoinSnoc(sep: string, xs: seq<string>, x: string)
    requires xs != []
    ensures Join(sep, xs + [x]) == Join(sep, xs) + sep + x
  {
    assert (xs + [x])[..|xs|] == xs;
  }

  /** A string without the separator splits into itself alone. */
  lemma SplitWithout(c: char, s: string)
    requires c !in s
    ensures Split(c, s) == [s]
  {
    SplitJoin(c, [s]);
  }

  /** A character found neither in the separator nor in any element is not in
      the joined string. */
  lemma {:induction false} JoinAvoids(sep: string, xs: seq<string>, c: char)
    requires c !in sep
    requires forall i :: 0 <= i < |xs| ==> c !in xs[i]
    ensures c !in Join(sep, xs)
  {
    if |xs| > 1 {
      JoinAvoids(sep, xs[..|xs| - 1], c);
    }
  }

  /** Splits `s` at every occurrence of `c` (Go's strings.Split with a one-character
      separator): the result always has at least one element. */
  function Split(c: char, s: string): (r: seq<string>)
    ensures |r| >= 1
  {
    if s == [] then [""]
    else
      var p := Split(c, s[..|s| - 1]);
      if s[|s| - 1] == c then p + [""]
      else p[..|p| - 1] + [p[|p| - 1] + [s[|s| - 1]]]
  }

  lemma {:induction false} SplitPlain(c: char, s: string, t: string)
    requires c !in t
    ensures var p := Split(c, s); Split(c, s + t) == p[..|p| - 1] + [p[|p| - 1] + t]
  {
    var p := Split(c, s);
    if t == [] {
      assert s + t == s;
      assert p[|p| - 1] + t == p[|p| - 1];
      assert p[..|p| - 1] + [p[|p| - 1]] == p;
    } else {
      var t', last := t[..|t| - 1], t[|t| - 1];
      assert s + t == (s + t') + [last];
      SplitPlain(c, s, t');
      SplitSnoc(c, s + t', last);
      var q := Split(c, s + t');
      assert q[..|q| - 1] == p[..|p| - 1];
      assert q[|q| - 1] + [last] == p[|p| - 1] + t;
    }
  }

  /** A character other than the separator extends the last piece. */
  lemma SplitSnoc(c: char, s: string, x: char)
    requires x != c
    ensures var p := Split(c, s); Split(c, s + [x]) == p[..|p| - 1] + [p[|p| - 1] + [x]]
  {
    assert (s + [x])[..|s|] == s;
  }

  /** Splitting a joined list gives the list back when no element holds the separator. */
  lemma {:induction false} SplitJoin(c: char, xs: seq<string>)
    requires |xs| >= 1
    requires forall i :: 0 <= i < |xs| ==> c !in xs[i]
    ensures Split(c, Join([c], xs)) == xs
  {
    if |xs| == 1 {
      SplitPlain(c, [], xs[0]);
      assert [] + xs[0] == xs[0];
      assert Split(c, []) == [""];
      assert "" + xs[0] == xs[0];
      assert Split(c, xs[0]) == [xs[0]];
      assert xs == [xs[0]];
    } else {
      var init := xs[..|xs| - 1];
      var last := xs[|xs| - 1];
      SplitJoin(c, init);
      var j := Join([c], init);
      assert Join([c], xs) == (j + [c]) + last;
      SplitPlain(c, j + [c], last);
      var u := j + [c];
      assert u[..|u| - 1] == j;
      var q := Split(c, u);
      assert q == init + [""];
      assert q[..|q| - 1] == init && q[|q| - 1] + last == last;
      assert Split(c, u + last) == init + [last];
      assert init + [last] == xs;
    }
  }

  // ---------------------------------------------------------------------------
  // Decimal rendering (strconv.Itoa)
  // ---------------------------------------------------------------------------

  predicate IsDigit(ch: char) { '0' <= ch <= '9' }

  function DigitChar(d: nat): (ch: char)
    requires d < 10
    ensures IsDigit(ch)
  {
    "0123456789"[d]
  }

  function DigitValue(ch: char): (d: nat)
    requires IsDigit(ch)
    ensures d < 10
  {
    (ch - '0') as nat
  }

  /** The decimal rendering of a natural number, without leading zeros. */
  function NatToString(n: nat): (s: string)
    ensures |s| >= 1
    ensures forall i :: 0 <= i < |s| ==> IsDigit(s[i])
    ensures |s| > 1 ==> s[0] != '0'
  {
    if n < 10 then [DigitChar(n)] else NatToString(n / 10) + [DigitChar(n % 10)]
  }

  /** The decimal rendering of an integer, with a leading '-' for a negative one (strconv.Itoa). */
  function IntToString(i: int): (s: string)
  {
    if i < 0 then "-" + NatToString(-i) else NatToString(i)
  }

  /** Reads a string of decimal digits back as a number. */
  function ParseNat(s: string): (n: nat)
    requires forall i :: 0 <= i < |s| ==> IsDigit(s[i])
  {
    if s == [] then 0 else ParseNat(s[..|s| - 1]) * 10 + DigitValue(s[|s| - 1])
  }

  /** Reads an optional '-' followed by decimal digits back as an integer. */
  function ParseInt(s: string): (i: int)
    requires |s| >= 1 && (forall k :: 0 < k < |s| ==> IsDigit(s[k]))
    requires IsDigit(s[0]) || s[0] == '-'
  {
    if s[0] == '-' then -(ParseNat(s[1..]) as int) else ParseNat(s)
  }

  lemma {:induction false} DigitRoundTrip(d: nat)
    requires d < 10
    ensures DigitValue(DigitChar(d)) == d
  {
    assert "0123456789"[d] as int - '0' as int == d;
  }

  /** Reading back the rendering of `n` gives `n`. */
  lemma {:induction false} NatToStringRoundTrip(n: nat)
    ensures ParseNat(NatToString(n)) == n
  {
    var s := NatToString(n);
    if n < 10 {
      assert s[..0] == [];
      DigitRoundTrip(n);
    } else {
      NatToStringRoundTrip(n / 10);
      assert s[..|s| - 1] == NatToString(n / 10);
      DigitRoundTrip(n % 10);
    }
  }

  /** Reading back the rendering of `i` gives `i`, for negative numbers too. */
  lemma IntToStringRoundTrip(i: int)
    ensures var s := IntToString(i);
            |s| >= 1 && (forall k :: 0 < k < |s| ==> IsDigit(s[k])) && (IsDigit(s[0]) || s[0] == '-') &&
            ParseInt(s) == i
  {
    if i < 0 {
      var t := NatToString(-i);
      var s := "-" + t;
      assert s[1..] == t;
      assert forall k :: 0 < k < |s| ==> s[k] == t[k - 1];
      NatToStringRoundTrip(-i);
    } else {
      NatToStringRoundTrip(i);
    }
  }

  /** Reads a non-empty string of decimal digits as a number; anything else is refused. */
  function ReadNat(s: string): (n: Option<nat>)
  {
    if s != [] && forall i :: 0 <= i < |s| ==> IsDigit(s[i]) then Some(ParseNat(s)) else None
  }

  lemma ReadNatToString(n: nat)
    ensures ReadNat(NatToString(n)) == Some(n)
  {
    NatToStringRoundTrip(n);
  }

  // ---------------------------------------------------------------------------
  // Substring search and first-occurrence replacement (strings.Replace, n = 1)
  // ---------------------------------------------------------------------------

  /** `pat` occurs in `s` starting at position `i`. */
  predicate MatchAt(s: string, pat: string, i: nat)
  {
    i + |pat| <= |s| && s[i..i + |pat|] == pat
  }

  /** `pat` occurs somewhere in `s` (strings.Contains). */
  predicate Contains(s: string, pat: string)
  {
    exists i: nat | i <= |s| :: MatchAt(s, pat, i)
  }

  /** `s` with its first occurrence of `pat` replaced by `rep`; `s` itself when
      `pat` does not occur. As in Go, an empty `pat` matches at the start. */
  function ReplaceFirst(s: string, pat: string, rep: string): (r: string)
    decreases |s|
  {
    if |pat| <= |s| && s[..|pat|] == pat then rep + s[|pat|..]
    else if s == [] then []
    else [s[0]] + ReplaceFirst(s[1..], pat, rep)
  }

  lemma NoMatchInTail(s: string, pat: string)
    requires s != [] && !Contains(s, pat)
    ensures !Contains(s[1..], pat)
  {
    forall i: nat | i <= |s[1..]| ensures !MatchAt(s[1..], pat, i) {
      assert !MatchAt(s, pat, i + 1);
      if i + |pat| <= |s[1..]| {
        assert s[1..][i..i + |pat|] == s[i + 1..i + 1 + |pat|];
      }
    }
  }

  /** Replacing a pattern that does not occur changes nothing. */
  lemma {:induction false} ReplaceAbsent(s: string, pat: string, rep: string)
    requires !Contains(s, pat)
    ensures ReplaceFirst(s, pat, rep) == s
    decreases |s|
  {
    if |pat| <= |s| {
      assert !MatchAt(s, pat, 0);
      assert s[..|pat|] == s[0..|pat|];
    }
    if s != [] {
      NoMatchInTail(s, pat);
      ReplaceAbsent(s[1..], pat, rep);
      assert [s[0]] + s[1..] == s;
    }
  }

  /** A prefix with no occurrence of `pat`, followed by a character `pat` does not
      contain, is left alone: the replacement happens in the rest. */
  lemma {:induction false} ReplaceAfter(x: string, c: char, y: string, pat: string, rep: string)
    requires |pat| >= 1 && c !in pat && !Contains(x, pat)
    ensures ReplaceFirst(x + [c] + y, pat, rep) == x + [c] + ReplaceFirst(y, pat, rep)
    decreases |x|
  {
    var s := x + [c] + y;
    if |pat| <= |s| {
      if |pat| <= |x| {
        assert !MatchAt(x, pat, 0);
        assert s[..|pat|] == x[0..|pat|];
      } else {
        assert s[..|pat|][|x|] == c;
      }
    }
    if x == [] {
      assert s == [c] + y;
      assert s[1..] == y;
    } else {
      NoMatchInTail(x, pat);
      ReplaceAfter(x[1..], c, y, pat, rep);
      assert s[1..] == x[1..] + [c] + y;
      assert [x[0]] + x[1..] == x;
    }
  }

  /** A prefix without the first character of `pat` is skipped by the search. */
  lemma {:induction false} ReplaceSkipping(x: string, y: string, pat: string, rep: string)
    requires |pat| >= 1 && pat[0] !in x
    ensures ReplaceFirst(x + y, pat, rep) == x + ReplaceFirst(y, pat, rep)
    decreases |x|
  {
    var s := x + y;
    if x == [] {
      assert s == y;
    } else {
      if |pat| <= |s| {
        assert s[..|pat|][0] == x[0];
      }
      assert s[1..] == x[1..] + y;
      ReplaceSkipping(x[1..], y, pat, rep);
      assert [x[0]] + x[1..] == x;
    }
  }

  /** A string that starts with `pat` has that occurrence replaced. */
  lemma ReplaceAtStart(pat: string, y: string, rep: string)
    ensures ReplaceFirst(pat + y, pat, rep) == rep + y
  {
    var s := pat + y;
    assert s[..|pat|] == pat && s[|pat|..] == y;
  }

  /** A pattern whose first character is missing from `x` can only occur in
      `x + y` inside `y`. */
  lemma NoMatchAcross(x: string, y: string, pat: string)
    requires |pat| >= 1 && pat[0] !in x && !Contains(y, pat)
    ensures !Contains(x + y, pat)
  {
    var s := x + y;
    forall i: nat | i <= |s| ensures !MatchAt(s, pat, i) {
      if i + |pat| <= |s| {
        if i < |x| {
          assert s[i..i + |pat|][0] == x[i];
        } else {
          assert !MatchAt(y, pat, i - |x|);
          assert s[i..i + |pat|] == y[i - |x|..i - |x| + |pat|];
        }
      }
    }
  }

  /** A string without the first character of `pat` contains no occurrence of it. */
  lemma NoMatchWithoutHead(x: string, pat: string)
    requires |pat| >= 1 && pat[0] !in x
    ensures !Contains(x, pat)
  {
    forall i: nat | i <= |x| ensures !MatchAt(x, pat, i) {
      if i + |pat| <= |x| {
        assert x[i..i + |pat|][0] == x[i];
      }
    }
  }

  // ---------------------------------------------------------------------------
  // Upper-casing (strings.ToUpper, ASCII letters only)
  // ---------------------------------------------------------------------------

  function UpperChar(ch: char): (u: char)
  {
    if 'a' <= ch <= 'z' then (ch as int - 32) as char else ch
  }

  /** `s` with every ASCII lower-case letter replaced by its upper-case letter. */
  function ToUpper(s: string): (r: string)
    ensures |r| == |s|
    ensures forall i :: 0 <= i < |s| ==> r[i] == UpperChar(s[i])
  {
    if s == [] then [] else [UpperChar(s[0])] + ToUpper(s[1..])
  }

  // ---------------------------------------------------------------------------
  // Go's `<` on strings: lexicographic order of the characters
  // ---------------------------------------------------------------------------

  /** `a` sorts strictly before `b`: at the first difference `a` has the smaller
      character, or `a` is a proper prefix of `b`. */
  predicate LexLess(a: string, b: string)
  {
    if a == [] then b != []
    else if b == [] then false
    else if a[0] != b[0] then a[0] < b[0]
    else LexLess(a[1..], b[1..])
  }

  lemma {:induction false} LexLessIrreflexive(a: string)
    ensures !LexLess(a, a)
  {
    if a != [] {
      LexLessIrreflexive(a[1..]);
    }
  }

  lemma {:induction false} LexLessTransitive(a: string, b: string, c: string)
    ensures LexLess(a, b) && LexLess(b, c) ==> LexLess(a, c)
  {
    if a != [] && b != [] && c != [] && a[0] == b[0] && b[0] == c[0] {
      LexLessTransitive(a[1..], b[1..], c[1..]);
    }
  }

  lemma {:induction false} LexLessTotal(a: string, b: string)
    ensures a == b || LexLess(a, b) || LexLess(b, a)
  {
    if a != [] && b != [] && a[0] == b[0] {
      LexLessTotal(a[1..], b[1..]);
      if a[1..] == b[1..] {
        assert a == [a[0]] + a[1..] && b == [b[0]] + b[1..];
      }
    }
  }

  /** No two strings each sort before the other. */
  lemma LexLessAsymmetric(a: string, b: string)
    ensures LexLess(a, b) ==> !LexLess(b, a)
  {
    LexLessIrreflexive(a);
    LexLessTransitive(a, b, a);
  }

  /** "Not before" is transitive: the order sort.Slice is given is a total preorder. */
  lemma LexNotLessTransitive(a: string, b: string, c: string)
    ensures !LexLess(b, a) && !LexLess(c, b) ==> !LexLess(c, a)
  {
    LexLessTotal(a, b);
    LexLessTotal(b, c);
    LexLessTransitive(a, b, c);
    LexLessAsymmetric(a, c);
    LexLessIrreflexive(a);
  }
}
