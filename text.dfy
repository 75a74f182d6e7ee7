// Python string primitives shared by the question-answering app, the PDF
// extractor and the troubleshooter: whitespace (Python's whitespace test
// and the regular-expression whitespace class, restricted to ASCII),
// stripping, splitting at whitespace, joining with a separator and the
// whitespace normalisation that collapses runs of whitespace and strips.

module Text {

  type String = seq<char>

  /** Python's str.isspace and regex \s on the ASCII range:
      space, \t \n \v \f \r, and the separators \x1c..\x1f. */
  predicate IsSpace(c: char) {
    c == ' ' || ('\t' <= c <= '\r') || ('\U{1C}' <= c <= '\U{1F}')
  }

  /** One token of str.split(): non-empty, without whitespace. */
  predicate IsWord(w: String) {
    w != [] && forall i :: 0 <= i < |w| ==> !IsSpace(w[i])
  }

  predicate AllSpace(s: String) {
    forall i :: 0 <= i < |s| ==> IsSpace(s[i])
  }

  /** str.lstrip(): drops the leading whitespace and nothing else. */
  function TrimStart(s: String): (r: String)
    ensures |r| <= |s| && r == s[|s| - |r|..]
    ensures r == [] || !IsSpace(r[0])
    ensures forall i :: 0 <= i < |s| - |r| ==> IsSpace(s[i])
  {
    if s != [] && IsSpace(s[0]) then TrimStart(s[1..]) else s
  }

  /** str.rstrip(): drops the trailing whitespace and nothing else. */
  function TrimEnd(s: String): (r: String)
    ensures |r| <= |s| && r == s[..|r|]
    ensures r == [] || !IsSpace(r[|r| - 1])
    ensures forall i :: |r| <= i < |s| ==> IsSpace(s[i])
  {
    if s != [] && IsSpace(s[|s| - 1]) then TrimEnd(s[..|s| - 1]) else s
  }

  /** str.strip(): empty exactly for all-whitespace input, otherwise
      begins and ends with a non-space character. */
  function Strip(s: String): (r: String)
    ensures r == [] <==> AllSpace(s)
    ensures r == [] || (!IsSpace(r[0]) && !IsSpace(r[|r| - 1]))
  {
    var t := TrimStart(s);
    assert t == [] || !IsSpace(t[0]);
    TrimEnd(t)
  }

  /** Each maximal whitespace run becomes one space. */
  function Collapse(s: String): String
    decreases |s|
  {
    if s == [] then []
    else if IsSpace(s[0]) then " " + Collapse(TrimStart(s[1..]))
    else [s[0]] + Collapse(s[1..])
  }

  /** The whitespace normalisation: every run of whitespace becomes one
      space, then leading and trailing whitespace is stripped. */
  function NormalizeWs(s: String): String {
    Strip(Collapse(s))
  }

  /** Length of the leading run of non-whitespace characters. */
  function WordLen(s: String): (n: nat)
    ensures n <= |s|
    ensures forall i :: 0 <= i < n ==> !IsSpace(s[i])
    ensures n == |s| || IsSpace(s[n])
  {
    if s == [] || IsSpace(s[0]) then 0 else 1 + WordLen(s[1..])
  }

  /** str.split() without a separator: the maximal non-whitespace runs, in
      order; every token is a word made of characters of s. */
  function Words(s: String): seq<String>
    decreases |s|
  {
    var t := TrimStart(s);
    if t == [] then []
    else
      var n := WordLen(t);
      WordPrefix(t);
      [t[..n]] + Words(t[n..])
  }

  /** Every token of str.split() is a non-empty run of non-whitespace. */
  lemma {:induction false} WordsAreWords(s: String)
    ensures forall k :: 0 <= k < |Words(s)| ==> IsWord(Words(s)[k])
    decreases |s|
  {
    var t := TrimStart(s);
    if t != [] {
      var n := WordLen(t);
      WordPrefix(t);
      WordsAreWords(t[n..]);
      var rest := Words(t[n..]);
      assert Words(s) == [t[..n]] + rest;
      forall k | 0 <= k < |Words(s)|
        ensures IsWord(Words(s)[k])
      {
        if k > 0 {
          assert Words(s)[k] == rest[k - 1];
        }
      }
    }
  }

  /** The leading run of a text that starts with a non-space is a word. */
  lemma WordPrefix(t: String)
    requires t != [] && !IsSpace(t[0])
    ensures WordLen(t) >= 1 && IsWord(t[..WordLen(t)])
  {
  }

  /** The parts glued together with sep between neighbours. */
  function Join(sep: String, parts: seq<String>): String {
    if parts == [] then []
    else if |parts| == 1 then parts[0]
    else parts[0] + sep + Join(sep, parts[1..])
  }

  /** str.split("\n\n"): cut at each leftmost non-overlapping blank line. */
  function SplitParagraphs(s: String): (ps: seq<String>)
    ensures |ps| >= 1
    decreases |s|
  {
    if |s| >= 2 && s[0] == '\n' && s[1] == '\n' then [[]] + SplitParagraphs(s[2..])
    else if s == [] then [[]]
    else
      var rest := SplitParagraphs(s[1..]);
      [[s[0]] + rest[0]] + rest[1..]
  }

  /** What NormalizeWs produces: no leading or trailing whitespace, every
      whitespace character is a single space and no two are adjacent. */
  predicate Normalized(t: String) {
    (t == [] || (!IsSpace(t[0]) && !IsSpace(t[|t| - 1]))) &&
    (forall i :: 0 <= i < |t| && IsSpace(t[i]) ==> t[i] == ' ') &&
    (forall i :: 0 <= i < |t| ==> !SpacePair(t, i))
  }

  /** Positions i and i + 1 of t both hold whitespace. */
  predicate SpacePair(t: String, i: int) {
    0 <= i && i + 1 < |t| && IsSpace(t[i]) && IsSpace(t[i + 1])
  }

  // ---------------------------------------------------------------------
  // Lemmas about the primitives

  lemma {:induction false} TrimStartNoSpace(s: String)
    requires s == [] || !IsSpace(s[0])
    ensures TrimStart(s) == s
  {
  }

  lemma {:induction false} TrimEndAppend(a: String, b: String)
    requires b != [] && !IsSpace(b[0])
    ensures TrimEnd(a + b) == a + TrimEnd(b)
    decreases |b|
  {
    if IsSpace(b[|b| - 1]) {
      assert (a + b)[..|a + b| - 1] == a + b[..|b| - 1];
      TrimEndAppend(a, b[..|b| - 1]);
    }
  }

  lemma CollapseCons(s: String)
    requires s != [] && !IsSpace(s[0])
    ensures Collapse(s) == [s[0]] + Collapse(s[1..])
  {
  }

  lemma {:induction false} CollapseWord(w: String, rest: String)
    requires forall i :: 0 <= i < |w| ==> !IsSpace(w[i])
    ensures Collapse(w + rest) == w + Collapse(rest)
    decreases |w|
  {
    if w != [] {
      HeadTail(w, rest);
      CollapseCons(w + rest);
      CollapseWord(w[1..], rest);
      ConsRegroup(w, Collapse(rest));
    } else {
      AppendEmpty(w, rest);
      AppendEmpty(w, Collapse(rest));
    }
  }

  lemma {:induction false} WordLenPrefix(w: String, rest: String)
    requires forall i :: 0 <= i < |w| ==> !IsSpace(w[i])
    requires rest == [] || IsSpace(rest[0])
    ensures WordLen(w + rest) == |w|
    decreases |w|
  {
    if w != [] {
      assert (w + rest)[1..] == w[1..] + rest;
      WordLenPrefix(w[1..], rest);
    }
  }

  /** Leading whitespace never changes the tokens. */
  lemma {:induction false} WordsTrimStart(s: String)
    ensures Words(TrimStart(s)) == Words(s)
  {
    TrimStartNoSpace(TrimStart(s));
  }

  /** Splitting a word followed by whitespace and more text. */
  lemma {:induction false} WordsCons(w: String, s: String)
    requires IsWord(w)
    ensures Words(w + " " + s) == [w] + Words(s)
  {
    var t := w + " " + s;
    TrimStartNoSpace(t);
    assert t == w + (" " + s);
    WordLenPrefix(w, " " + s);
    assert t[..|w|] == w;
    assert t[|w|..] == " " + s;
    assert TrimStart(" " + s) == TrimStart(s);
    WordsTrimStart(" " + s);
    WordsTrimStart(s);
  }

  lemma {:induction false} WordsSingle(w: String)
    requires IsWord(w)
    ensures Words(w) == [w]
  {
    TrimStartNoSpace(w);
    WordLenPrefix(w, []);
    assert w + [] == w;
    assert w[|w|..] == [];
  }

  lemma {:induction false} WordsFirst(s: String)
    requires s != [] && !IsSpace(s[0])
    ensures Words(s) == [s[..WordLen(s)]] + Words(s[WordLen(s)..])
  {
    TrimStartNoSpace(s);
  }

  lemma {:induction false} SpaceRun(rest: String)
    requires rest != [] && IsSpace(rest[0])
    ensures Collapse(rest) == " " + Collapse(TrimStart(rest))
    ensures Words(rest) == Words(TrimStart(rest))
    ensures |TrimStart(rest)| < |rest|
  {
    WordsTrimStart(rest);
  }

  /** Stripping the collapsed text is joining its tokens with single spaces,
      for text that does not begin with whitespace. */
  lemma {:induction false} TrimEndCollapse(s: String)
    requires s == [] || !IsSpace(s[0])
    ensures TrimEnd(Collapse(s)) == Join(" ", Words(s))
    decreases |s|
  {
    if s != [] {
      var n := WordLen(s);
      var w, rest := s[..n], s[n..];
      assert s == w + rest;
      CollapseWord(w, rest);
      WordsFirst(s);
      if rest == [] {
        assert Collapse(s) == w by { assert w + [] == w; }
        assert Words(s) == [w];
      } else {
        var u := TrimStart(rest);
        SpaceRun(rest);
        if u != [] {
          TrimEndCollapse(u);
        }
        assert IsWord(w);
        TrimEndCollapseStep(w, u);
      }
    }
  }

  lemma {:induction false} TrimEndCollapseStep(w: String, u: String)
    requires IsWord(w)
    requires u == [] || !IsSpace(u[0])
    requires u != [] ==> TrimEnd(Collapse(u)) == Join(" ", Words(u))
    ensures TrimEnd(w + (" " + Collapse(u))) == Join(" ", [w] + Words(u))
  {
    assert w + (" " + Collapse(u)) == (w + " ") + Collapse(u);
    if u == [] {
      assert Words(u) == [];
      assert (w + " ") + [] == w + " ";
      assert TrimEnd(w + " ") == TrimEnd(w);
      assert TrimEnd(w) == w;
    } else {
      CollapseHead(u);
      TrimEndAppend(w + " ", Collapse(u));
      assert Words(u) != [];
      assert [w] + Words(u) != [] && ([w] + Words(u))[1..] == Words(u);
    }
  }

  lemma CollapseHead(u: String)
    requires u != [] && !IsSpace(u[0])
    ensures Collapse(u) != [] && Collapse(u)[0] == u[0]
  {
  }

  lemma TrimStartSpace(x: String)
    ensures TrimStart(" " + x) == TrimStart(x)
  {
    assert (" " + x)[1..] == x;
  }

  lemma {:induction false} TrimStartCollapse(s: String)
    ensures TrimStart(Collapse(s)) == Collapse(TrimStart(s))
  {
    if s != [] {
      if IsSpace(s[0]) {
        var u := TrimStart(s[1..]);
        assert TrimStart(s) == u;
        assert Collapse(s) == " " + Collapse(u);
        TrimStartSpace(Collapse(u));
        if u != [] {
          CollapseHead(u);
        }
        TrimStartNoSpace(Collapse(u));
      } else {
        CollapseHead(s);
        TrimStartNoSpace(Collapse(s));
        TrimStartNoSpace(s);
      }
    }
  }

  /** The normalisation is the same as joining str.split()'s tokens with
      single spaces. */
  lemma {:induction false} NormalizeWsJoinsWords(s: String)
    ensures NormalizeWs(s) == Join(" ", Words(s))
  {
    TrimStartCollapse(s);
    TrimEndCollapse(TrimStart(s));
    WordsTrimStart(s);
  }

  /** Splitting words joined by single spaces gives the words back. */
  lemma {:induction false} WordsOfJoin(ws: seq<String>)
    requires forall k :: 0 <= k < |ws| ==> IsWord(ws[k])
    ensures Words(Join(" ", ws)) == ws
  {
    if ws == [] {
    } else if |ws| == 1 {
      WordsSingle(ws[0]);
    } else {
      WordsOfJoin(ws[1..]);
      WordsCons(ws[0], Join(" ", ws[1..]));
      assert ws[0] + " " + Join(" ", ws[1..]) == Join(" ", ws);
    }
  }

  lemma {:induction false} JoinWordsNormalized(ws: seq<String>)
    requires forall k :: 0 <= k < |ws| ==> IsWord(ws[k])
    ensures Normalized(Join(" ", ws))
  {
    if |ws| > 1 {
      JoinWordsNormalized(ws[1..]);
      var w, j := ws[0], Join(" ", ws[1..]);
      var t := w + " " + j;
      assert j != [] by {
        if |ws| == 2 { } else { assert j == ws[1] + " " + Join(" ", ws[2..]); }
      }
      forall i | 0 <= i < |t| && IsSpace(t[i])
        ensures t[i] == ' '
      {
        if i > |w| {
          assert t[i] == j[i - |w| - 1];
        }
      }
      forall i | 0 <= i && i + 1 < |t|
        ensures !SpacePair(t, i)
      {
        if i > |w| {
          assert t[i] == j[i - |w| - 1];
          assert t[i + 1] == j[i - |w|];
          assert !SpacePair(j, i - |w| - 1);
        } else if i == |w| {
          assert t[i + 1] == j[0];
        } else {
          assert t[i] == w[i];
        }
      }
    }
  }

  /** The output of NormalizeWs: no leading or trailing whitespace, runs
      become single spaces, applying it again changes nothing, and the
      tokens are those of the input. */
  lemma {:induction false} NormalizeWsProperties(s: String)
    ensures Normalized(NormalizeWs(s))
    ensures Words(NormalizeWs(s)) == Words(s)
    ensures NormalizeWs(NormalizeWs(s)) == NormalizeWs(s)
    ensures NormalizeWs(s) == [] <==> AllSpace(s)
  {
    NormalizeWsJoinsWords(s);
    WordsAreWords(s);
    JoinWordsNormalized(Words(s));
    WordsOfJoin(Words(s));
    NormalizeWsJoinsWords(NormalizeWs(s));
    if !AllSpace(s) {
      var i :| 0 <= i < |s| && !IsSpace(s[i]);
      assert Words(s) != [] by {
        var t := TrimStart(s);
        assert |s| - |t| <= i;
      }
      assert Join(" ", Words(s)) != [] by {
        var ws := Words(s);
        if |ws| > 1 { assert Join(" ", ws) == ws[0] + " " + Join(" ", ws[1..]); }
      }
    }
  }

  /** Normalized text contains no line break. */
  lemma NormalizedHasNoNewline(t: String)
    requires Normalized(t)
    ensures '\n' !in t
  {
    if '\n' in t {
      var i :| 0 <= i < |t| && t[i] == '\n';
      assert IsSpace(t[i]);
    }
  }

  lemma {:induction false} SplitParagraphsPrefix(p: String, rest: String)
    requires '\n' !in p
    ensures SplitParagraphs(p + rest) ==
            [p + SplitParagraphs(rest)[0]] + SplitParagraphs(rest)[1..]
    decreases |p|
  {
    var ps := SplitParagraphs(rest);
    if p != [] {
      var s := p + rest;
      HeadTail(p, rest);
      assert '\n' !in p[1..];
      SplitParagraphsPrefix(p[1..], rest);
      SplitParagraphsCons(s);
      ConsRegroup(p, ps[0]);
    } else {
      AppendEmpty(p, rest);
      AppendEmpty(p, ps[0]);
      HeadCons(ps);
    }
  }

  lemma SplitParagraphsCons(s: String)
    requires s != [] && s[0] != '\n'
    ensures SplitParagraphs(s) ==
            [[s[0]] + SplitParagraphs(s[1..])[0]] + SplitParagraphs(s[1..])[1..]
  {
  }

  lemma HeadTail<T>(p: seq<T>, rest: seq<T>)
    requires p != []
    ensures (p + rest)[0] == p[0] && (p + rest)[1..] == p[1..] + rest
  {
  }

  lemma ConsRegroup<T>(p: seq<T>, y: seq<T>)
    requires p != []
    ensures [p[0]] + (p[1..] + y) == p + y
  {
  }

  lemma HeadCons<T>(xs: seq<T>)
    requires xs != []
    ensures xs == [xs[0]] + xs[1..]
  {
  }

  /** Splitting on blank lines undoes the "\n\n" join of parts that hold no
      line break. */
  lemma {:induction false} SplitJoinParagraphs(parts: seq<String>)
    requires |parts| >= 1
    requires forall k :: 0 <= k < |parts| ==> '\n' !in parts[k]
    ensures SplitParagraphs(Join("\n\n", parts)) == parts
  {
    if |parts| == 1 {
      SplitParagraphsPrefix(parts[0], []);
      assert parts[0] + [] == parts[0];
    } else {
      SplitJoinParagraphs(parts[1..]);
      var rest := "\n\n" + Join("\n\n", parts[1..]);
      assert Join("\n\n", parts) == parts[0] + rest;
      assert rest[2..] == Join("\n\n", parts[1..]);
      SplitParagraphsPrefix(parts[0], rest);
      assert parts[0] + [] == parts[0];
    }
  }
  /** Joining two non-empty lists puts one separator between their joins. */
  lemma {:induction false} JoinAppend(sep: String, a: seq<String>, b: seq<String>)
    requires a != [] && b != []
    ensures Join(sep, a + b) == Join(sep, a) + sep + Join(sep, b)
  {
    if |a| == 1 {
      assert (a + b)[1..] == b;
    } else {
      assert (a + b)[1..] == a[1..] + b;
      JoinAppend(sep, a[1..], b);
    }
  }

  /** Every character of s is whitespace or has property p. */
  predicate SpaceOr(s: String, p: char -> bool) {
    forall i :: 0 <= i < |s| ==> IsSpace(s[i]) || p(s[i])
  }

  lemma SpaceOrSlice(s: String, p: char -> bool, a: nat, b: nat)
    requires a <= b <= |s| && SpaceOr(s, p)
    ensures SpaceOr(s[a..b], p)
  {
    assert forall i :: 0 <= i < b - a ==> s[a..b][i] == s[a + i];
  }

  /** A property that every non-whitespace character of the input has,
      every character of every token has. */
  lemma {:induction false} WordsChars(s: String, p: char -> bool)
    requires SpaceOr(s, p)
    ensures forall k :: 0 <= k < |Words(s)| ==> SpaceOr(Words(s)[k], p)
    decreases |s|
  {
    var t := TrimStart(s);
    if t != [] {
      var n := WordLen(t);
      WordsStep(s, p);
      WordsChars(t[n..], p);
      AllConcat(w => SpaceOr(w, p), [t[..n]], Words(t[n..]));
    }
  }

  lemma WordsStep(s: String, p: char -> bool)
    requires SpaceOr(s, p) && TrimStart(s) != []
    ensures var t := TrimStart(s);
            var n := WordLen(t);
            SpaceOr(t[n..], p) && SpaceOr(t[..n], p) && Words(s) == [t[..n]] + Words(t[n..])
  {
    var t := TrimStart(s);
    var n := WordLen(t);
    SpaceOrSlice(s, p, |s| - |t|, |s|);
    SpaceOrSlice(t, p, n, |t|);
    SpaceOrSlice(t, p, 0, n);
  }

  /** Leading whitespace is skipped by str.lstrip(). */
  lemma {:induction false} TrimStartSpaces(x: String, y: String)
    requires AllSpace(x)
    ensures TrimStart(x + y) == TrimStart(y)
    decreases |x|
  {
    if x != [] {
      assert (x + y)[1..] == x[1..] + y;
      TrimStartSpaces(x[1..], y);
    } else {
      assert x + y == y;
    }
  }

  lemma ConcatAssoc<T>(x: seq<T>, y: seq<T>, z: seq<T>)
    ensures x + (y + z) == (x + y) + z
  {
  }

  /** A property of every element of two lists holds for every element of
      their concatenation. */
  lemma AllConcat<T>(P: T -> bool, a: seq<T>, b: seq<T>)
    requires forall k :: 0 <= k < |a| ==> P(a[k])
    requires forall k :: 0 <= k < |b| ==> P(b[k])
    ensures forall k :: 0 <= k < |a + b| ==> P((a + b)[k])
  {
    forall k | 0 <= k < |a + b|
      ensures P((a + b)[k])
    {
      ConcatIndex(a, b, k);
    }
  }

  lemma ConcatIndex<T>(x: seq<T>, y: seq<T>, k: nat)
    requires k < |x| + |y|
    ensures (x + y)[k] == if k < |x| then x[k] else y[k - |x|]
  {
  }

  lemma {:induction false} WordsSpaces(x: String, y: String)
    requires AllSpace(x)
    ensures Words(x + y) == Words(y)
  {
    TrimStartSpaces(x, y);
    WordsTrimStart(x + y);
    WordsTrimStart(y);
  }

  lemma {:induction false} WordsFirstSpace(t: String, b: String)
    requires t != [] && !IsSpace(t[0])
    ensures Words(t + " " + b) == [t[..WordLen(t)]] + Words(t[WordLen(t)..] + " " + b)
  {
    var n := WordLen(t);
    var u := t[n..];
    assert t + " " + b == t[..n] + (u + " " + b);
    WordLenPrefix(t[..n], u + " " + b);
    WordsFirst(t + " " + b);
    assert (t + " " + b)[..n] == t[..n];
    assert (t + " " + b)[n..] == u + " " + b;
  }

  /** str.split() of two texts joined by a space is the concatenation of
      their splits: tokens keep their input order. */
  lemma {:induction false} WordsSpaceSplit(a: String, b: String)
    ensures Words(a + " " + b) == Words(a) + Words(b)
    decreases |a|
  {
    var t := TrimStart(a);
    WordsSkipLead(a, b);
    if t == [] {
      WordsSpaceSplitBlank(t, b);
    } else {
      WordsSpaceSplit(t[WordLen(t)..], b);
      WordsSpaceSplitStep(t, b);
    }
  }

  lemma {:induction false} WordsSpaceSplitBlank(t: String, b: String)
    requires t == []
    ensures Words(t + " " + b) == Words(t) + Words(b)
  {
    var sp := t + " ";
    assert IsSpace(sp[0]) && |sp| == 1;
    WordsSpaces(sp, b);
    WordsEmpty(t);
    AppendEmpty(Words(t), Words(b));
  }

  lemma WordsEmpty(t: String)
    requires t == []
    ensures Words(t) == []
  {
  }

  lemma AppendEmpty<T>(x: seq<T>, y: seq<T>)
    requires x == []
    ensures x + y == y
  {
  }

  lemma AppendEmptyRight<T>(x: seq<T>, y: seq<T>)
    requires y == []
    ensures x + y == x
  {
  }

  lemma {:induction false} WordsSpaceSplitStep(t: String, b: String)
    requires t != [] && !IsSpace(t[0])
    requires Words(t[WordLen(t)..] + " " + b) == Words(t[WordLen(t)..]) + Words(b)
    ensures Words(t + " " + b) == Words(t) + Words(b)
  {
    var n := WordLen(t);
    WordsFirstSpace(t, b);
    WordsFirst(t);
    ConcatAssoc([t[..n]], Words(t[n..]), Words(b));
  }

  lemma {:induction false} WordsSkipLead(a: String, b: String)
    ensures Words(a + " " + b) == Words(TrimStart(a) + " " + b)
    ensures Words(a) == Words(TrimStart(a))
  {
    var t := TrimStart(a);
    var sp := a[..|a| - |t|];
    SplitAt(a, |a| - |t|);
    Regroup(a, sp, t, " ", b);
    WordsSpaces(sp, t + " " + b);
    WordsTrimStart(a);
  }

  lemma SplitAt<T>(s: seq<T>, k: nat)
    requires k <= |s|
    ensures s == s[..k] + s[k..]
  {
  }

  lemma Regroup<T>(a: seq<T>, x: seq<T>, y: seq<T>, m: seq<T>, b: seq<T>)
    requires a == x + y
    ensures a + m + b == x + (y + m + b)
  {
  }
}
