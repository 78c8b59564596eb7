/** ASCII models of the Python string built-ins the pipeline relies on
    (`str.split`, `str.strip`, `str.lower`, `str.isupper`, `in`, `str.join`),
    together with the facts about substring containment that the routing
    proofs need. */
module Text {

  // ---------------------------------------------------------------------
  // Characters
  // ---------------------------------------------------------------------

  /** Python's whitespace, restricted to ASCII: space, \t \n \v \f \r and
      the four separators U+001C..U+001F. */
  predicate IsSpace(c: char) {
    c == ' ' || (9 <= c as int <= 13) || (28 <= c as int <= 31)
  }

  /** `c.isupper()` for a single ASCII character. */
  predicate IsUpper(c: char) {
    'A' <= c <= 'Z'
  }

  function LowerChar(c: char): (r: char)
    ensures !IsUpper(r)
    ensures IsUpper(c) ==> r as int == c as int + 32
    ensures !IsUpper(c) ==> r == c
  {
    if IsUpper(c) then (c as int + 32) as char else c
  }

  /** `s.lower()`, character by character. */
  function Lower(s: string): (r: string)
    ensures |r| == |s|
    ensures forall i :: 0 <= i < |s| ==> r[i] == LowerChar(s[i])
  {
    seq(|s|, i requires 0 <= i < |s| => LowerChar(s[i]))
  }

  lemma LowerAppend(a: string, b: string)
    ensures Lower(a + b) == Lower(a) + Lower(b)
  {
  }

  /** A string with no upper-case letter is its own lower-case form. */
  lemma LowerOfLower(s: string)
    requires forall i :: 0 <= i < |s| ==> !IsUpper(s[i])
    ensures Lower(s) == s
  {
  }

  predicate AllSpace(s: string) {
    forall i :: 0 <= i < |s| ==> IsSpace(s[i])
  }

  // ---------------------------------------------------------------------
  // strip
  // ---------------------------------------------------------------------

  function StripLeft(s: string): (r: string)
    ensures |r| <= |s| && r == s[|s| - |r|..]
    ensures AllSpace(s[..|s| - |r|])
    ensures r == [] || !IsSpace(r[0])
    decreases |s|
  {
    if s != [] && IsSpace(s[0]) then
      var r := StripLeft(s[1..]);
      assert s[..|s| - |r|] == [s[0]] + s[1..][..|s| - 1 - |r|];
      r
    else
      s
  }

  function StripRight(s: string): (r: string)
    ensures |r| <= |s| && r == s[..|r|]
    ensures AllSpace(s[|r|..])
    ensures r == [] || !IsSpace(r[|r| - 1])
    decreases |s|
  {
    if s != [] && IsSpace(s[|s| - 1]) then
      var r := StripRight(s[..|s| - 1]);
      assert s[|r|..] == s[..|s| - 1][|r|..] + [s[|s| - 1]];
      r
    else
      s
  }

  /** `s.strip()`: the result is a slice of `s` that neither starts nor ends
      with whitespace, and everything cut away on either side is whitespace. */
  function Strip(s: string): (r: string)
    ensures |r| <= |s|
    ensures r == [] || (!IsSpace(r[0]) && !IsSpace(r[|r| - 1]))
    ensures r == StripRight(StripLeft(s))
  {
    StripRight(StripLeft(s))
  }

  // ---------------------------------------------------------------------
  // split(sep), join, split()
  // ---------------------------------------------------------------------

  /** `s.split(sep)` for a one-character separator. */
  function SplitOn(s: string, sep: char): (r: seq<string>)
    ensures |r| >= 1
    ensures forall k :: 0 <= k < |r| ==> sep !in r[k]
    decreases |s|
  {
    if s == [] then [[]]
    else
      var rest := SplitOn(s[1..], sep);
      if s[0] == sep then [[]] + rest
      else [[s[0]] + rest[0]] + rest[1..]
  }

  /** `sep.join(xs)`. */
  function Join(xs: seq<string>, sep: string): string
    decreases |xs|
  {
    if |xs| == 0 then []
    else if |xs| == 1 then xs[0]
    else xs[0] + sep + Join(xs[1..], sep)
  }

  /** Splitting on a character and joining with it gives the string back. */
  lemma {:induction false} JoinSplitOn(s: string, sep: char)
    ensures Join(SplitOn(s, sep), [sep]) == s
    decreases |s|
  {
    if s != [] {
      JoinSplitOn(s[1..], sep);
      var rest := SplitOn(s[1..], sep);
      if s[0] == sep {
        assert s == [sep] + s[1..];
      } else if |rest| == 1 {
        assert s == [s[0]] + s[1..];
      } else {
        assert rest == [rest[0]] + rest[1..];
        assert Join(rest, [sep]) == rest[0] + [sep] + Join(rest[1..], [sep]);
        assert s == [s[0]] + s[1..];
      }
    }
  }

  predicate NoSpace(w: string) {
    forall i :: 0 <= i < |w| ==> !IsSpace(w[i])
  }

  /** The words of `s` when the word in progress is `cur`. */
  function WordsFrom(s: string, cur: string): (r: seq<string>)
    requires NoSpace(cur)
    ensures forall k :: 0 <= k < |r| ==> r[k] != [] && NoSpace(r[k])
    decreases |s|
  {
    if s == [] then (if cur == [] then [] else [cur])
    else if IsSpace(s[0]) then
      (if cur == [] then WordsFrom(s[1..], []) else [cur] + WordsFrom(s[1..], []))
    else WordsFrom(s[1..], cur + [s[0]])
  }

  /** `s.split()`: the maximal runs of non-whitespace characters. */
  function Words(s: string): (r: seq<string>)
    ensures forall k :: 0 <= k < |r| ==> r[k] != [] && NoSpace(r[k])
  {
    WordsFrom(s, [])
  }

  function DropSpaces(s: string): (r: string)
    ensures NoSpace(r)
    decreases |s|
  {
    if s == [] then [] else if IsSpace(s[0]) then DropSpaces(s[1..]) else [s[0]] + DropSpaces(s[1..])
  }

  /** No character is lost or invented by `split()`: the words, put back
      together, are the string with its whitespace removed. */
  lemma {:induction false} WordsFromKeepCharacters(s: string, cur: string)
    requires NoSpace(cur)
    ensures Concat(WordsFrom(s, cur)) == cur + DropSpaces(s)
    decreases |s|
  {
    if s == [] {
      if cur != [] { ConcatFront([cur]); }
    } else if IsSpace(s[0]) {
      WordsFromKeepCharacters(s[1..], []);
      if cur != [] {
        var rest := WordsFrom(s[1..], []);
        ConcatFront([cur] + rest);
        assert ([cur] + rest)[1..] == rest;
      }
    } else {
      WordsFromKeepCharacters(s[1..], cur + [s[0]]);
      assert cur + [s[0]] + DropSpaces(s[1..]) == cur + ([s[0]] + DropSpaces(s[1..]));
    }
  }

  lemma WordsKeepCharacters(s: string)
    ensures Concat(Words(s)) == DropSpaces(s)
  {
    WordsFromKeepCharacters(s, []);
  }

  /** A run of non-whitespace characters continues the word in progress. */
  lemma {:induction false} WordsFromRun(w: string, cur: string)
    requires NoSpace(cur) && NoSpace(w)
    ensures WordsFrom(w, cur) == if cur + w == [] then [] else [cur + w]
    decreases |w|
  {
    if w == [] {
      assert cur + w == cur;
    } else {
      assert !IsSpace(w[0]) && NoSpace(w[1..]);
      WordsFromRun(w[1..], cur + [w[0]]);
      assert cur + [w[0]] + w[1..] == cur + w;
    }
  }

  /** A non-empty text without whitespace is one word. */
  lemma WordsOfWord(w: string)
    requires w != [] && NoSpace(w)
    ensures Words(w) == [w]
  {
    WordsFromRun(w, []);
    assert [] + w == w;
  }

  /** A whitespace character ends the word in progress, and the words after
      it are found afresh. */
  lemma {:induction false} WordsFromBreak(a: string, c: char, b: string, cur: string)
    requires NoSpace(cur) && IsSpace(c)
    ensures WordsFrom(a + [c] + b, cur) == WordsFrom(a, cur) + WordsFrom(b, [])
    decreases |a|
  {
    var t := a + [c] + b;
    if a == [] {
      assert t[0] == c && t[1..] == b;
    } else if IsSpace(a[0]) {
      assert t[0] == a[0] && t[1..] == a[1..] + [c] + b;
      WordsFromBreak(a[1..], c, b, []);
    } else {
      assert t[0] == a[0] && t[1..] == a[1..] + [c] + b;
      WordsFromBreak(a[1..], c, b, cur + [a[0]]);
    }
  }

  /** `split()` breaks at every whitespace character: the words of the text
      on either side of one are found separately.  With `WordsOfWord` this
      fixes the words of every text. */
  lemma WordsBreakAtSpace(a: string, c: char, b: string)
    requires IsSpace(c)
    ensures Words(a + [c] + b) == Words(a) + Words(b)
  {
    WordsFromBreak(a, c, b, []);
  }

  // ---------------------------------------------------------------------
  // str(n) for a natural number
  // ---------------------------------------------------------------------

  predicate IsDigit(c: char) {
    '0' <= c <= '9'
  }

  /** The decimal numeral of `n`, most significant digit first, without
      leading zeros. */
  function Decimal(n: nat): (r: string)
    ensures |r| >= 1
    ensures forall i :: 0 <= i < |r| ==> IsDigit(r[i])
    ensures n < 10 <==> |r| == 1
    ensures r[|r| - 1] as int - '0' as int == n % 10
  {
    if n < 10 then [('0' as int + n) as char]
    else Decimal(n / 10) + [('0' as int + n % 10) as char]
  }

  /** The number a string of digits denotes, read most significant digit
      first. */
  function DigitsValue(s: string): int
    decreases |s|
  {
    if s == [] then 0 else DigitsValue(s[..|s| - 1]) * 10 + (s[|s| - 1] as int - '0' as int)
  }

  /** `str(n)` denotes `n`. */
  lemma {:induction false} DecimalValue(n: nat)
    ensures DigitsValue(Decimal(n)) == n
    decreases n
  {
    if n >= 10 {
      var r := Decimal(n);
      assert r[..|r| - 1] == Decimal(n / 10);
      DecimalValue(n / 10);
    }
  }

  /** `str(n)` starts with '0' only for zero itself. */
  lemma {:induction false} DecimalNoLeadingZero(n: nat)
    ensures Decimal(n)[0] == '0' <==> n == 0
    decreases n
  {
    if n >= 10 {
      assert Decimal(n)[0] == Decimal(n / 10)[0];
      DecimalNoLeadingZero(n / 10);
    }
  }

  /** Different numbers have different numerals. */
  lemma {:induction false} DecimalInjective(a: nat, b: nat)
    requires Decimal(a) == Decimal(b)
    ensures a == b
    decreases a
  {
    if a >= 10 && b >= 10 {
      var da, db := Decimal(a), Decimal(b);
      assert Decimal(a / 10) == da[..|da| - 1];
      assert Decimal(b / 10) == db[..|db| - 1];
      DecimalInjective(a / 10, b / 10);
    }
  }

  // ---------------------------------------------------------------------
  // Substring containment (Python's `p in t`)
  // ---------------------------------------------------------------------

  predicate Contains(t: string, p: string) {
    exists i :: 0 <= i <= |t| && p <= t[i..]
  }

  lemma ContainsAt(t: string, p: string, i: nat)
    requires i + |p| <= |t| && t[i..i + |p|] == p
    ensures Contains(t, p)
  {
    assert p <= t[i..];
  }

  lemma ContainsItself(p: string)
    ensures Contains(p, p)
  {
    assert p <= p[0..];
  }

  lemma ContainsAppendLeft(a: string, b: string, p: string)
    requires Contains(a, p)
    ensures Contains(a + b, p)
  {
    var i :| 0 <= i <= |a| && p <= a[i..];
    assert (a + b)[i..] == a[i..] + b;
  }

  lemma ContainsAppendRight(a: string, b: string, p: string)
    requires Contains(b, p)
    ensures Contains(a + b, p)
  {
    var i :| 0 <= i <= |b| && p <= b[i..];
    assert (a + b)[|a| + i..] == b[i..];
  }

  /** A substring of a substring is a substring. */
  lemma ContainsPart(t: string, p: string, lo: nat, hi: nat)
    requires lo <= hi <= |p| && Contains(t, p)
    ensures Contains(t, p[lo..hi])
  {
    var i :| 0 <= i <= |t| && p <= t[i..];
    assert p[lo..hi] <= t[i + lo..];
  }

  /** `a` ends with a non-empty proper prefix of `p`. */
  predicate EndsWithStartOf(a: string, p: string) {
    exists k :: 0 < k < |p| && k <= |a| && a[|a| - k..] == p[..k]
  }

  /** `b` begins with a non-empty proper suffix of `p`. */
  predicate StartsWithEndOf(p: string, b: string) {
    exists k :: 0 < k < |p| && k <= |b| && b[..k] == p[|p| - k..]
  }

  /** An occurrence in `a + b` lies in `a`, in `b`, or straddles the seam,
      in which case `a` ends with the start of `p` and `b` begins with its end. */
  lemma ContainsSplit(a: string, b: string, p: string)
    requires Contains(a + b, p)
    ensures Contains(a, p) || Contains(b, p) || (EndsWithStartOf(a, p) && StartsWithEndOf(p, b))
  {
    var t := a + b;
    var i :| 0 <= i <= |t| && p <= t[i..];
    if i + |p| <= |a| {
      assert p <= a[i..];
    } else if |a| <= i {
      assert b[i - |a|..] == t[i..];
    } else {
      var k := |a| - i;
      assert a[|a| - k..] == p[..k];
      assert b[..|p| - k] == p[|p| - (|p| - k)..];
    }
  }

  lemma NotContainsAppend(a: string, b: string, p: string)
    requires !Contains(a, p) && !Contains(b, p)
    requires !EndsWithStartOf(a, p) || !StartsWithEndOf(p, b)
    ensures !Contains(a + b, p)
  {
    if Contains(a + b, p) {
      ContainsSplit(a, b, p);
    }
  }

  /** A string shorter than `p` cannot contain it. */
  lemma ShortNotContains(t: string, p: string)
    requires |t| < |p|
    ensures !Contains(t, p)
  {
  }

  // ---------------------------------------------------------------------
  // Character-level tests, cheap to decide on short literal strings
  // ---------------------------------------------------------------------

  /** The first two, three or four characters of `g` (all of `g` when it
      is that short) occur in `w` at position `j`. */
  predicate GramAt(w: string, g: string, j: int)
    requires 2 <= |g| <= 4 && 0 <= j <= |w| - |g|
  {
    w[j] == g[0] && w[j + 1] == g[1] && (|g| < 3 || w[j + 2] == g[2]) && (|g| < 4 || w[j + 3] == g[3])
  }

  predicate NoGram(w: string, g: string)
    requires 2 <= |g| <= 4
  {
    forall j :: 0 <= j <= |w| - |g| ==> !GramAt(w, g, j)
  }

  lemma GramOccurs(w: string, g: string)
    requires 2 <= |g| <= 4 && Contains(w, g)
    ensures !NoGram(w, g)
  {
    var j :| 0 <= j <= |w| && g <= w[j..];
    assert w[j..][0] == w[j] && w[j..][1] == w[j + 1];
    assert |g| >= 3 ==> w[j..][2] == w[j + 2];
    assert |g| >= 4 ==> w[j..][3] == w[j + 3];
    assert GramAt(w, g, j);
  }

  lemma NoGramNotContains(w: string, g: string)
    requires 2 <= |g| <= 4 && NoGram(w, g)
    ensures !Contains(w, g)
  {
    if Contains(w, g) {
      GramOccurs(w, g);
    }
  }

  /** The last `n` characters of `a` (all of `a` when it is shorter). */
  function Tail(a: string, n: nat): (r: string)
    ensures |r| == (if |a| <= n then |a| else n)
    ensures r == a[|a| - |r|..]
  {
    if |a| <= n then a else a[|a| - n..]
  }

  /** The first `n` characters of `b` (all of `b` when it is shorter). */
  function Head(b: string, n: nat): (r: string)
    ensures |r| == (if |b| <= n then |b| else n)
    ensures r == b[..|r|]
  {
    if |b| <= n then b else b[..n]
  }

  /** Position `i` of `w` agrees with the start of `p` on up to four
      characters, as far as `w` reaches. */
  predicate StartAt(w: string, p: string, i: int)
    requires |p| >= 1 && 0 <= i < |w|
  {
    w[i] == p[0]
    && (i + 1 >= |w| || (1 < |p| && w[i + 1] == p[1]))
    && (i + 2 >= |w| || (2 < |p| && w[i + 2] == p[2]))
    && (i + 3 >= |w| || (3 < |p| && w[i + 3] == p[3]))
  }

  /** No position of `w` can begin a prefix of `p` that runs to the end of `w`. */
  predicate NoStartIn(w: string, p: string)
    requires |p| >= 1
  {
    forall i :: 0 <= i < |w| ==> !StartAt(w, p, i)
  }

  lemma StartOfPIn(a: string, p: string)
    requires |p| >= 1 && EndsWithStartOf(a, p)
    ensures !NoStartIn(Tail(a, |p| - 1), p)
  {
    var k :| 0 < k < |p| && k <= |a| && a[|a| - k..] == p[..k];
    var w := Tail(a, |p| - 1);
    assert w == a[|a| - |w|..];
    var i := |w| - k;
    forall m | 0 <= m < k
      ensures w[i + m] == p[m]
    {
      calc {
        w[i + m];
        a[|a| - k + m];
        a[|a| - k..][m];
        p[m];
      }
    }
    assert i + k == |w|;
    assert w[i] == p[0];
    assert k > 1 ==> w[i + 1] == p[1];
    assert k > 2 ==> w[i + 2] == p[2];
    assert k > 3 ==> w[i + 3] == p[3];
    assert StartAt(w, p, i);
  }

  lemma NoStartInRefutes(a: string, p: string)
    requires |p| >= 1 && NoStartIn(Tail(a, |p| - 1), p)
    ensures !EndsWithStartOf(a, p)
  {
    if EndsWithStartOf(a, p) {
      StartOfPIn(a, p);
    }
  }

  /** Position `e` of `w` agrees with the end of `p` on up to four
      characters, as far back as `w` reaches. */
  predicate EndAt(p: string, w: string, e: int)
    requires |p| >= 1 && 0 <= e < |w|
  {
    w[e] == p[|p| - 1]
    && (e < 1 || (1 < |p| && w[e - 1] == p[|p| - 2]))
    && (e < 2 || (2 < |p| && w[e - 2] == p[|p| - 3]))
    && (e < 3 || (3 < |p| && w[e - 3] == p[|p| - 4]))
  }

  /** No position of `w` can end a suffix of `p` that starts at the front of `w`. */
  predicate NoEndIn(p: string, w: string)
    requires |p| >= 1
  {
    forall e :: 0 <= e < |w| ==> !EndAt(p, w, e)
  }

  lemma EndOfPIn(p: string, b: string)
    requires |p| >= 1 && StartsWithEndOf(p, b)
    ensures !NoEndIn(p, Head(b, |p| - 1))
  {
    var k :| 0 < k < |p| && k <= |b| && b[..k] == p[|p| - k..];
    var w := Head(b, |p| - 1);
    SharedStretch(p, b, k, w);
    var e := k - 1;
    assert w[e] == p[|p| - 1];
    assert e >= 1 ==> w[e - 1] == p[|p| - 2];
    assert e >= 2 ==> w[e - 2] == p[|p| - 3];
    assert e >= 3 ==> w[e - 3] == p[|p| - 4];
    assert EndAt(p, w, e);
  }

  /** A start of `b` that shares its first `k` characters with the end of
      `p` keeps them, position by position. */
  lemma SharedStretch(p: string, b: string, k: nat, w: string)
    requires 0 < k < |p| && k <= |b| && b[..k] == p[|p| - k..]
    requires k <= |w| <= |b| && w == b[..|w|]
    ensures forall m :: 0 <= m < k ==> w[m] == p[|p| - k + m]
  {
    var u, v := b[..k], p[|p| - k..];
    forall m | 0 <= m < k
      ensures w[m] == p[|p| - k + m]
    {
      assert w[m] == b[m] == u[m];
      assert u[m] == v[m];
    }
  }


  lemma NoEndInRefutes(p: string, b: string)
    requires |p| >= 1 && NoEndIn(p, Head(b, |p| - 1))
    ensures !StartsWithEndOf(p, b)
  {
    if StartsWithEndOf(p, b) {
      EndOfPIn(p, b);
    }
  }

  // ---------------------------------------------------------------------
  // Seams between pieces of a text
  // ---------------------------------------------------------------------

  /** The pieces of a text laid end to end. */
  function Concat(cs: seq<string>): string {
    if cs == [] then [] else Concat(cs[..|cs| - 1]) + cs[|cs| - 1]
  }

  lemma ConcatLast(cs: seq<string>)
    requires |cs| > 0
    ensures Concat(cs) == Concat(cs[..|cs| - 1]) + cs[|cs| - 1]
  {
  }

  lemma {:induction false} ConcatFront(cs: seq<string>)
    requires |cs| > 0
    ensures Concat(cs) == cs[0] + Concat(cs[1..])
    decreases |cs|
  {
    if |cs| > 1 {
      ConcatFront(cs[..|cs| - 1]);
      assert cs[..|cs| - 1][1..] == cs[1..][..|cs| - 2];
    } else {
      assert cs[1..] == [];
    }
  }

  /** Short runs of pieces laid end to end, given the text they join into. */
  lemma ConcatOne(a: string)
    ensures Concat([a]) == a
  {
    assert [a][..0] == [];
    assert [] + a == a;
  }

  lemma ConcatTwo(a: string, b: string, ab: string)
    requires a + b == ab
    ensures Concat([a, b]) == ab
  {
    ConcatOne(a);
    assert [a, b][..1] == [a];
  }

  lemma ConcatThree(a: string, b: string, c: string, ab: string, abc: string)
    requires a + b == ab && ab + c == abc
    ensures Concat([a, b, c]) == abc
  {
    ConcatTwo(a, b, ab);
    assert [a, b, c][..2] == [a, b];
  }

  /** Concatenation of pieces distributes over joining two runs of pieces. */
  lemma {:induction false} ConcatAppend(a: seq<string>, b: seq<string>)
    ensures Concat(a + b) == Concat(a) + Concat(b)
    decreases |b|
  {
    if b == [] {
      assert a + b == a;
    } else {
      var c := a + b;
      assert c[..|c| - 1] == a + b[..|b| - 1];
      ConcatAppend(a, b[..|b| - 1]);
    }
  }

  /** A start of `p` that ends `x + c` is either a start of `p` ending `c`,
      or it covers all of `c`, which is then a short piece of `p`. */
  lemma EndsWithStartOfAppend(x: string, c: string, p: string)
    requires EndsWithStartOf(x + c, p)
    ensures EndsWithStartOf(c, p) || (|c| < |p| && Contains(p, c))
  {
    var a := x + c;
    var k :| 0 < k < |p| && k <= |a| && a[|a| - k..] == p[..k];
    if k <= |c| {
      assert c[|c| - k..] == a[|a| - k..];
    } else {
      assert c == p[k - |c|..k] by {
        assert c == a[|a| - |c|..];
        assert a[|a| - |c|..] == a[|a| - k..][k - |c|..];
      }
      ContainsAt(p, c, k - |c|);
    }
  }

  /** Mirror image of `EndsWithStartOfAppend` at the front of `c + y`. */
  lemma StartsWithEndOfPrepend(p: string, c: string, y: string)
    requires StartsWithEndOf(p, c + y)
    ensures StartsWithEndOf(p, c) || (|c| < |p| && Contains(p, c))
  {
    var b := c + y;
    var k :| 0 < k < |p| && k <= |b| && b[..k] == p[|p| - k..];
    if k <= |c| {
      assert c[..k] == b[..k];
    } else {
      var i := |p| - k;
      assert c == p[i..i + |c|] by {
        assert c == b[..k][..|c|];
      }
      ContainsAt(p, c, i);
    }
  }

  /** The characters next to the seam of a straddling occurrence. */
  lemma EndsWithStartOfEdge(a: string, p: string)
    requires EndsWithStartOf(a, p)
    ensures |a| >= 1 && a[|a| - 1] in p
    ensures a[|a| - 1] == p[0] || (|a| >= 2 && a[|a| - 2] in p)
  {
    var k :| 0 < k < |p| && k <= |a| && a[|a| - k..] == p[..k];
    EqualEnds(a, p, k);
    assert p[k - 1] in p;
    if k > 1 {
      assert p[k - 2] in p;
    }
  }

  /** The last characters of `a` are the last of its shared stretch with `p`. */
  lemma EqualEnds(a: string, p: string, k: nat)
    requires 0 < k < |p| && k <= |a| && a[|a| - k..] == p[..k]
    ensures a[|a| - 1] == p[k - 1]
    ensures k > 1 ==> a[|a| - 2] == p[k - 2]
  {
    var v, u := a[|a| - k..], p[..k];
    assert v[k - 1] == u[k - 1];
    if k > 1 {
      assert v[k - 2] == u[k - 2];
    }
  }

  lemma StartsWithEndOfEdge(p: string, b: string)
    requires StartsWithEndOf(p, b)
    ensures |b| >= 1 && b[0] in p
    ensures b[0] == p[|p| - 1] || (|b| >= 2 && b[1] in p)
  {
    var k :| 0 < k < |p| && k <= |b| && b[..k] == p[|p| - k..];
    var v, u := b[..k], p[|p| - k..];
    assert v[0] == u[0];
    assert b[0] == p[|p| - k];
    assert p[|p| - k] in p;
    if k > 1 {
      assert v[1] == u[1];
      assert b[1] == p[|p| - k + 1];
      assert p[|p| - k + 1] in p;
    }
  }

  /** `a` ends in a character `p` lacks, after one that does not begin `p`
      when that one is in `p` at all: no start of `p` ends `a`. */
  predicate ClosedEnd(a: string, p: string) {
    |a| >= 1 && (a[|a| - 1] !in p || (a[|a| - 1] != p[0] && |a| >= 2 && a[|a| - 2] !in p))
  }

  predicate ClosedStart(p: string, b: string) {
    |b| >= 1 && (b[0] !in p || (|p| >= 1 && b[0] != p[|p| - 1] && |b| >= 2 && b[1] !in p))
  }

  lemma ClosedEndRefutes(a: string, p: string)
    requires ClosedEnd(a, p)
    ensures !EndsWithStartOf(a, p)
  {
    if EndsWithStartOf(a, p) {
      EndsWithStartOfEdge(a, p);
    }
  }

  lemma ClosedStartRefutes(p: string, b: string)
    requires ClosedStart(p, b)
    ensures !StartsWithEndOf(p, b)
  {
    if StartsWithEndOf(p, b) {
      StartsWithEndOfEdge(p, b);
    }
  }

  /** Joining two texts that lack `p` across a closed seam gives a text lacking `p`. */
  lemma NotContainsJoined(a: string, b: string, p: string)
    requires !Contains(a, p) && !Contains(b, p)
    requires ClosedEnd(a, p) || ClosedStart(p, b)
    ensures !Contains(a + b, p)
  {
    if ClosedEnd(a, p) {
      ClosedEndRefutes(a, p);
    } else {
      ClosedStartRefutes(p, b);
    }
    NotContainsAppend(a, b, p);
  }

  /** Lacking a piece of `p` means lacking `p`. */
  lemma NotContainsPart(t: string, p: string, lo: nat, hi: nat)
    requires lo <= hi <= |p| && !Contains(t, p[lo..hi])
    ensures !Contains(t, p)
  {
    if Contains(t, p) {
      ContainsPart(t, p, lo, hi);
    }
  }

  /** Across a closed seam, `a + b` contains `p` exactly when one side does. */
  lemma ContainsJoinedIff(a: string, b: string, p: string)
    requires ClosedEnd(a, p) || ClosedStart(p, b)
    ensures Contains(a + b, p) <==> Contains(a, p) || Contains(b, p)
  {
    if Contains(a + b, p) {
      ContainsSplit(a, b, p);
      if ClosedEnd(a, p) {
        ClosedEndRefutes(a, p);
      } else {
        ClosedStartRefutes(p, b);
      }
    }
    if Contains(a, p) {
      ContainsAppendLeft(a, b, p);
    }
    if Contains(b, p) {
      ContainsAppendRight(a, b, p);
    }
  }

  /** A closed end of `c` stays closed whatever is put in front of `c`. */
  lemma ClosedEndLowerAppend(x: string, c: string, p: string)
    requires ClosedEnd(Lower(c), p)
    ensures ClosedEnd(Lower(x + c), p)
  {
    LowerAppend(x, c);
    var a := Lower(x + c);
    assert a[|a| - 1] == Lower(c)[|c| - 1];
    if |c| >= 2 {
      assert a[|a| - 2] == Lower(c)[|c| - 2];
    }
  }

  /** Pieces that each lack `p` (ignoring case), with a closed seam after
      every piece but the last, make a text that lacks `p`. */
  lemma {:induction false} NotContainsInConcat(cs: seq<string>, p: string)
    requires |p| >= 1
    requires forall i :: 0 <= i < |cs| ==> !Contains(Lower(cs[i]), p)
    requires forall i :: 0 <= i < |cs| - 1 ==> ClosedEnd(Lower(cs[i]), p)
    ensures !Contains(Lower(Concat(cs)), p)
    decreases |cs|
  {
    if cs == [] {
      return;
    }
    var n := |cs|;
    var pre := cs[..n - 1];
    var last := cs[n - 1];
    assert forall i :: 0 <= i < n - 1 ==> pre[i] == cs[i];
    NotContainsInConcat(pre, p);
    LowerAppend(Concat(pre), last);
    if n >= 2 {
      var before := cs[..n - 2];
      assert pre == before + [cs[n - 2]];
      assert Concat(pre) == Concat(before) + cs[n - 2];
      ClosedEndLowerAppend(Concat(before), cs[n - 2], p);
      NotContainsJoined(Lower(Concat(pre)), Lower(last), p);
    } else {
      assert Concat(pre) == [];
      assert Lower(Concat(cs)) == Lower(last);
    }
  }

  // ---------------------------------------------------------------------
  // Seams next to an arbitrary text
  // ---------------------------------------------------------------------

  /** No occurrence of `p` (in lower case) can start inside `c` and run on
      past its end: no suffix of the lowered `c` is a proper prefix of `p`,
      and `c` is not a short piece of `p`. */
  predicate ClosedAfter(c: string, p: string) {
    |p| >= 1 && NoStartIn(Tail(Lower(c), |p| - 1), p) && (|c| >= |p| || !Contains(p, Lower(c)))
  }

  /** Mirror image of `ClosedAfter` at the front of `c`. */
  predicate ClosedBefore(p: string, c: string) {
    |p| >= 1 && NoEndIn(p, Head(Lower(c), |p| - 1)) && (|c| >= |p| || !Contains(p, Lower(c)))
  }

  lemma ClosedAfterRefutes(x: string, c: string, p: string)
    requires ClosedAfter(c, p)
    ensures !EndsWithStartOf(Lower(x + c), p)
  {
    LowerAppend(x, c);
    NoStartInRefutes(Lower(c), p);
    if EndsWithStartOf(Lower(x) + Lower(c), p) {
      EndsWithStartOfAppend(Lower(x), Lower(c), p);
    }
  }

  lemma ClosedBeforeRefutes(p: string, c: string, y: string)
    requires ClosedBefore(p, c)
    ensures !StartsWithEndOf(p, Lower(c + y))
  {
    LowerAppend(c, y);
    NoEndInRefutes(p, Lower(c));
    if StartsWithEndOf(p, Lower(c) + Lower(y)) {
      StartsWithEndOfPrepend(p, Lower(c), Lower(y));
    }
  }

  /** `StartAt` read off `c` before lowering. */
  predicate StartAtIgnoringCase(c: string, p: string, i: int)
    requires |p| >= 1 && 0 <= i < |c|
  {
    LowerChar(c[i]) == p[0]
    && (i + 1 >= |c| || (1 < |p| && LowerChar(c[i + 1]) == p[1]))
    && (i + 2 >= |c| || (2 < |p| && LowerChar(c[i + 2]) == p[2]))
    && (i + 3 >= |c| || (3 < |p| && LowerChar(c[i + 3]) == p[3]))
  }

  /** No position of `c`, ignoring case, begins a prefix of `p` running to its end. */
  predicate NoStartIgnoringCase(c: string, p: string)
    requires |p| >= 1
  {
    forall i :: 0 <= i < |c| ==> !StartAtIgnoringCase(c, p, i)
  }

  lemma NoStartInTailOfLower(c: string, p: string)
    requires |p| >= 1 && NoStartIgnoringCase(c, p)
    ensures NoStartIn(Tail(Lower(c), |p| - 1), p)
  {
    var w := Tail(Lower(c), |p| - 1);
    var off := |c| - |w|;
    assert forall k :: 0 <= k < |w| ==> w[k] == LowerChar(c[off + k]);
    forall i | 0 <= i < |w|
      ensures !StartAt(w, p, i)
    {
      StartAtShifted(c, w, p, off, i);
    }
  }

  lemma StartAtShifted(c: string, w: string, p: string, off: nat, i: nat)
    requires |p| >= 1 && off + |w| == |c| && i < |w|
    requires forall k :: 0 <= k < |w| ==> w[k] == LowerChar(c[off + k])
    requires NoStartIgnoringCase(c, p)
    ensures !StartAt(w, p, i)
  {
    assert !StartAtIgnoringCase(c, p, off + i);
  }

  /** `EndAt` read off `c` before lowering. */
  predicate EndAtIgnoringCase(p: string, c: string, e: int)
    requires |p| >= 1 && 0 <= e < |c|
  {
    LowerChar(c[e]) == p[|p| - 1]
    && (e < 1 || (1 < |p| && LowerChar(c[e - 1]) == p[|p| - 2]))
    && (e < 2 || (2 < |p| && LowerChar(c[e - 2]) == p[|p| - 3]))
    && (e < 3 || (3 < |p| && LowerChar(c[e - 3]) == p[|p| - 4]))
  }

  /** No position of `c`, ignoring case, ends a suffix of `p` starting at its front. */
  predicate NoEndIgnoringCase(p: string, c: string)
    requires |p| >= 1
  {
    forall e :: 0 <= e < |c| ==> !EndAtIgnoringCase(p, c, e)
  }

  lemma NoEndInHeadOfLower(p: string, c: string)
    requires |p| >= 1 && NoEndIgnoringCase(p, c)
    ensures NoEndIn(p, Head(Lower(c), |p| - 1))
  {
    var l := Lower(c);
    var w := Head(l, |p| - 1);
    forall e | 0 <= e < |w|
      ensures !EndAt(p, w, e)
    {
      assert !EndAtIgnoringCase(p, c, e);
      assert w[e] == l[e];
      assert e >= 1 ==> w[e - 1] == l[e - 1];
      assert e >= 2 ==> w[e - 2] == l[e - 2];
      assert e >= 3 ==> w[e - 3] == l[e - 3];
    }
  }

  /** `p` cannot hold all of `c` when it lacks a two-letter piece of `c`. */
  lemma PieceNotInPhrase(c: string, p: string, lo: nat)
    requires lo + 2 <= |c| && NoGram(p, [LowerChar(c[lo]), LowerChar(c[lo + 1])])
    ensures !Contains(p, Lower(c))
  {
    var l := Lower(c);
    assert l[lo..lo + 2] == [LowerChar(c[lo]), LowerChar(c[lo + 1])];
    NoGramNotContains(p, l[lo..lo + 2]);
    NotContainsPart(p, l, lo, lo + 2);
  }

  /** `ClosedAfter` from a scan of `c` and a two-letter piece of `c`, at
      `lo`, that `p` lacks. */
  lemma ClosedAfterByGram(c: string, p: string, lo: nat)
    requires |p| >= 1 && NoStartIgnoringCase(c, p)
    requires lo + 2 <= |c| && NoGram(p, [LowerChar(c[lo]), LowerChar(c[lo + 1])])
    ensures ClosedAfter(c, p)
  {
    NoStartInTailOfLower(c, p);
    PieceNotInPhrase(c, p, lo);
  }

  lemma ClosedBeforeByGram(p: string, c: string, lo: nat)
    requires |p| >= 1 && NoEndIgnoringCase(p, c)
    requires lo + 2 <= |c| && NoGram(p, [LowerChar(c[lo]), LowerChar(c[lo + 1])])
    ensures ClosedBefore(p, c)
  {
    NoEndInHeadOfLower(p, c);
    PieceNotInPhrase(c, p, lo);
  }

  // ---------------------------------------------------------------------
  // Case-insensitive gram scans, cheap to decide on short literal strings
  // ---------------------------------------------------------------------

  /** The gram `g` (two to four characters, lower case) occurs in `w` at
      position `j` once `w` is lowered. */
  predicate GramAtIgnoringCase(w: string, g: string, j: int)
    requires 0 <= j < |w|
  {
    2 <= |g| <= 4 && j + |g| <= |w|
    && LowerChar(w[j]) == g[0] && LowerChar(w[j + 1]) == g[1]
    && (|g| < 3 || LowerChar(w[j + 2]) == g[2]) && (|g| < 4 || LowerChar(w[j + 3]) == g[3])
  }

  /** None of three grams occurs anywhere in `w`, ignoring case. */
  predicate LacksGrams(w: string, g1: string, g2: string, g3: string) {
    forall j :: 0 <= j < |w| ==> !GramAtIgnoringCase(w, g1, j) && !GramAtIgnoringCase(w, g2, j) && !GramAtIgnoringCase(w, g3, j)
  }

  lemma GramOccursIgnoringCase(w: string, g: string)
    requires 2 <= |g| <= 4 && Contains(Lower(w), g)
    ensures exists j :: 0 <= j < |w| && GramAtIgnoringCase(w, g, j)
  {
    var l := Lower(w);
    var j :| 0 <= j <= |l| && g <= l[j..];
    assert l[j..][0] == l[j] && l[j..][1] == l[j + 1];
    assert |g| >= 3 ==> l[j..][2] == l[j + 2];
    assert |g| >= 4 ==> l[j..][3] == l[j + 3];
    assert GramAtIgnoringCase(w, g, j);
  }

  lemma LacksGramsNotContains(w: string, g1: string, g2: string, g3: string)
    requires 2 <= |g1| <= 4 && 2 <= |g2| <= 4 && 2 <= |g3| <= 4
    requires LacksGrams(w, g1, g2, g3)
    ensures !Contains(Lower(w), g1) && !Contains(Lower(w), g2) && !Contains(Lower(w), g3)
  {
    if Contains(Lower(w), g1) {
      GramOccursIgnoringCase(w, g1);
    }
    if Contains(Lower(w), g2) {
      GramOccursIgnoringCase(w, g2);
    }
    if Contains(Lower(w), g3) {
      GramOccursIgnoringCase(w, g3);
    }
  }

  /** `ClosedEnd` read off the last two characters of `w` before lowering. */
  predicate ClosedEndIgnoringCase(w: string, p: string) {
    |w| >= 2 && |p| >= 1
    && (LowerChar(w[|w| - 1]) !in p || (LowerChar(w[|w| - 1]) != p[0] && LowerChar(w[|w| - 2]) !in p))
  }

  lemma ClosedEndOfLower(w: string, p: string)
    requires ClosedEndIgnoringCase(w, p)
    ensures ClosedEnd(Lower(w), p)
  {
    var l := Lower(w);
    assert l[|l| - 1] == LowerChar(w[|w| - 1]) && l[|l| - 2] == LowerChar(w[|w| - 2]);
  }

  /** Pieces that lack the grams, none of whose seams can carry the gram `g`,
      make a text that lacks `g`. */
  lemma PiecesLackGram(cs: seq<string>, g1: string, g2: string, g3: string, g: string)
    requires 2 <= |g1| <= 4 && 2 <= |g2| <= 4 && 2 <= |g3| <= 4
    requires g == g1 || g == g2 || g == g3
    requires forall i :: 0 <= i < |cs| ==> LacksGrams(cs[i], g1, g2, g3)
    requires forall i :: 0 <= i < |cs| - 1 ==> ClosedEndIgnoringCase(cs[i], g)
    ensures !Contains(Lower(Concat(cs)), g)
  {
    forall i | 0 <= i < |cs|
      ensures !Contains(Lower(cs[i]), g)
    {
      LacksGramsNotContains(cs[i], g1, g2, g3);
    }
    forall i | 0 <= i < |cs| - 1
      ensures ClosedEnd(Lower(cs[i]), g)
    {
      ClosedEndOfLower(cs[i], g);
    }
    NotContainsInConcat(cs, g);
  }

  /** No character of `w` lowers to `c`. */
  predicate Avoids(w: string, c: char) {
    forall j :: 0 <= j < |w| ==> LowerChar(w[j]) != c
  }

  /** A text that avoids one of the letters of `p` does not contain `p` once lowered. */
  lemma AvoidsNotContains(w: string, p: string, k: nat)
    requires k < |p| && Avoids(w, p[k])
    ensures !Contains(Lower(w), p)
  {
  }

  /** A two-letter `g` cannot occur in `x + y` when `x` lacks its first
    * letter and `y` its second. */
  lemma PairAvoided(x: string, y: string, g: string)
    requires |g| == 2 && Avoids(x, g[0]) && Avoids(y, g[1])
    ensures !Contains(Lower(x + y), g)
  {
    var s := Lower(x + y);
    forall i | 0 <= i <= |s|
      ensures !(g <= s[i..])
    {
      if i + 1 < |s| {
        if i < |x| {
          assert s[i] == LowerChar(x[i]) != g[0];
        } else {
          assert s[i + 1] == LowerChar(y[i + 1 - |x|]) != g[1];
        }
        assert s[i..][..2] != g;
      }
    }
  }

  lemma {:induction false} ConcatAvoids(cs: seq<string>, c: char)
    requires forall i :: 0 <= i < |cs| ==> Avoids(cs[i], c)
    ensures Avoids(Concat(cs), c)
    decreases |cs|
  {
    if cs != [] {
      ConcatLast(cs);
      ConcatAvoids(cs[..|cs| - 1], c);
    }
  }

  /** Each piece occurs in the pieces laid end to end. */
  lemma {:induction false} ConcatHasPiece(cs: seq<string>, i: nat)
    requires i < |cs|
    ensures Contains(Concat(cs), cs[i])
    decreases |cs|
  {
    var front := cs[..|cs| - 1];
    ConcatLast(cs);
    if i == |cs| - 1 {
      ContainsItself(cs[i]);
      ContainsAppendRight(Concat(front), cs[i], cs[i]);
    } else {
      assert front[i] == cs[i];
      ConcatHasPiece(front, i);
      ContainsAppendLeft(Concat(front), cs[|cs| - 1], cs[i]);
    }
  }

  lemma ContainsInMiddle(a: string, b: string, c: string, p: string)
    requires Contains(b, p)
    ensures Contains(a + b + c, p)
  {
    ContainsAppendRight(a, b, p);
    ContainsAppendLeft(a + b, c, p);
  }
}
