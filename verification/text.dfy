/**
  The string operations the planner relies on, written over `string` (a
  sequence of Unicode scalar values): joining with a separator, splitting at
  one character, trimming white space, replacing one character everywhere,
  and falling back to a default for the empty string.
 */
module Text {

  /** The elements with `sep` between neighbours. */
  function Join(xs: seq<string>, sep: string): string
    decreases |xs|
  {
    if |xs| == 0 then ""
    else if |xs| == 1 then xs[0]
    else xs[0] + sep + Join(xs[1..], sep)
  }

  /** The string itself, or the fallback when it is empty. */
  function OrElse(s: string, fallback: string): string {
    if s == "" then fallback else s
  }

  /** A joined list is empty exactly when the list is empty or holds one empty string. */
  lemma JoinEmptyIff(xs: seq<string>, sep: string)
    requires |sep| > 0
    ensures Join(xs, sep) == "" <==> (|xs| == 0 || (|xs| == 1 && xs[0] == ""))
  {
    if |xs| >= 2 {
      assert |Join(xs, sep)| >= |sep|;
    }
  }

  /** The pieces of `s` between occurrences of the separator `c`. */
  function Split(s: string, c: char): (r: seq<string>)
    ensures |r| >= 1
    ensures forall i :: 0 <= i < |r| ==> c !in r[i]
    decreases |s|
  {
    if |s| == 0 then [""]
    else
      var rest := Split(s[1..], c);
      if s[0] == c then [""] + rest
      else [[s[0]] + rest[0]] + rest[1..]
  }

  /** Splitting and re-joining on the same character gives the text back. */
  lemma {:induction false} JoinSplitRoundTrip(s: string, c: char)
    ensures Join(Split(s, c), [c]) == s
    decreases |s|
  {
    if |s| > 0 {
      var rest := Split(s[1..], c);
      JoinSplitRoundTrip(s[1..], c);
      assert s == [s[0]] + s[1..];
      if s[0] == c {
        assert Split(s, c) == [""] + rest;
        assert ([""] + rest)[1..] == rest;
      } else {
        var r := Split(s, c);
        assert r == [[s[0]] + rest[0]] + rest[1..];
        if |rest| == 1 {
          assert Join(r, [c]) == [s[0]] + rest[0];
        } else {
          assert r[1..] == rest[1..];
          assert Join(r, [c]) == [s[0]] + rest[0] + [c] + Join(rest[1..], [c]);
          assert Join(rest, [c]) == rest[0] + [c] + Join(rest[1..], [c]);
        }
      }
    }
  }

  /** Splitting a prefix free of the separator glues that prefix onto the first piece. */
  lemma {:induction false} SplitPrefix(a: string, t: string, c: char)
    requires c !in a
    ensures Split(a + t, c) == [a + Split(t, c)[0]] + Split(t, c)[1..]
    decreases |a|
  {
    var st := Split(t, c);
    if |a| == 0 {
      assert a + t == t;
      assert a + st[0] == st[0];
      assert [st[0]] + st[1..] == st;
    } else {
      var a' := a[1..];
      SplitPrefix(a', t, c);
      var rest := Split(a' + t, c);
      assert rest == [a' + st[0]] + st[1..];
      assert (a + t)[0] == a[0] && a[0] != c;
      assert (a + t)[1..] == a' + t;
      assert Split(a + t, c) == [[a[0]] + rest[0]] + rest[1..];
      assert rest[0] == a' + st[0] && rest[1..] == st[1..];
      assert a == [a[0]] + a';
      assert [a[0]] + (a' + st[0]) == a + st[0];
    }
  }

  /**
    Joining with a character and splitting on it again gives the list back,
    exactly when the list is non-empty and no element holds that character.
   */
  lemma {:induction false} SplitJoinRoundTrip(xs: seq<string>, c: char)
    ensures Split(Join(xs, [c]), c) == xs <==>
              (|xs| >= 1 && forall i :: 0 <= i < |xs| ==> c !in xs[i])
    decreases |xs|
  {
    if |xs| >= 1 && forall i :: 0 <= i < |xs| ==> c !in xs[i] {
      if |xs| == 1 {
        SplitPrefix(xs[0], "", c);
        assert xs[0] + "" == xs[0];
      } else {
        var j := Join(xs[1..], [c]);
        assert forall i :: 0 <= i < |xs[1..]| ==> c !in xs[1..][i] by {
          forall i | 0 <= i < |xs[1..]| ensures c !in xs[1..][i] {
            assert xs[1..][i] == xs[i + 1];
          }
        }
        SplitJoinRoundTrip(xs[1..], c);
        assert Join(xs, [c]) == xs[0] + [c] + j;
        assert xs[0] + [c] + j == xs[0] + ([c] + j);
        SplitPrefix(xs[0], [c] + j, c);
        assert ([c] + j)[0] == c;
        assert ([c] + j)[1..] == j;
        var sj := Split([c] + j, c);
        assert sj == [""] + Split(j, c);
        assert sj == [""] + xs[1..];
        assert sj[0] == "" && sj[1..] == xs[1..];
        assert xs[0] + sj[0] == xs[0];
        assert xs == [xs[0]] + xs[1..];
      }
    }
  }

  /** White space and line terminators as `String.prototype.trim` knows them. */
  predicate IsSpace(ch: char) {
    ch in {'\t', '\n', '\U{000B}', '\U{000C}', '\r', ' ', '\U{00A0}', '\U{1680}',
           '\U{2000}', '\U{2001}', '\U{2002}', '\U{2003}', '\U{2004}', '\U{2005}',
           '\U{2006}', '\U{2007}', '\U{2008}', '\U{2009}', '\U{200A}', '\U{2028}',
           '\U{2029}', '\U{202F}', '\U{205F}', '\U{3000}', '\U{FEFF}'}
  }

  predicate AllSpace(s: string) {
    forall i :: 0 <= i < |s| ==> IsSpace(s[i])
  }

  /** Drops leading white space: the result is a suffix that starts with a non-space. */
  function TrimStart(s: string): (r: string)
    ensures |r| <= |s| && r == s[|s| - |r|..]
    ensures AllSpace(s[..|s| - |r|])
    ensures r == "" || !IsSpace(r[0])
    decreases |s|
  {
    if |s| > 0 && IsSpace(s[0]) then
      var r := TrimStart(s[1..]);
      assert s[..|s| - |r|] == [s[0]] + s[1..][..|s| - 1 - |r|];
      r
    else s
  }

  /** Drops trailing white space: the result is a prefix that ends with a non-space. */
  function TrimEnd(s: string): (r: string)
    ensures |r| <= |s| && r == s[..|r|]
    ensures AllSpace(s[|r|..])
    ensures r == "" || !IsSpace(r[|r| - 1])
    decreases |s|
  {
    if |s| > 0 && IsSpace(s[|s| - 1]) then
      var r := TrimEnd(s[..|s| - 1]);
      assert s[|r|..] == s[..|s| - 1][|r|..] + [s[|s| - 1]];
      r
    else s
  }

  /** The string without leading and trailing white space. */
  function Trim(s: string): string {
    TrimEnd(TrimStart(s))
  }

  /** A trimmed text is empty exactly when the input was white space only. */
  lemma TrimEmptyIff(s: string)
    ensures Trim(s) == "" <==> AllSpace(s)
  {
    var t := TrimStart(s);
    if Trim(s) == "" {
      assert AllSpace(t[0..]);
      assert t == "";
      assert s[..|s|] == s;
    } else {
      assert !IsSpace(t[0]);
      assert t[0] == s[|s| - |t|];
    }
  }

  /** Trimming never leaves white space at either end. */
  lemma TrimEnds(s: string)
    ensures Trim(s) == "" || (!IsSpace(Trim(s)[0]) && !IsSpace(Trim(s)[|Trim(s)| - 1]))
  {
    var t := TrimStart(s);
    var r := TrimEnd(t);
    if r != "" {
      assert r[0] == t[0];
    }
  }

  /** Trimming a text that already has no white space at its ends changes nothing. */
  lemma TrimOfTrimmed(s: string)
    requires s == "" || (!IsSpace(s[0]) && !IsSpace(s[|s| - 1]))
    ensures Trim(s) == s
  {
  }

  /** Trailing white space is dropped by `TrimEnd` as a whole. */
  lemma {:induction false} TrimEndSpaceSuffix(s: string, w: string)
    requires AllSpace(w)
    ensures TrimEnd(s + w) == TrimEnd(s)
    decreases |w|
  {
    if |w| == 0 {
      assert s + w == s;
    } else {
      var sw := s + w;
      assert sw[|sw| - 1] == w[|w| - 1];
      assert sw[..|sw| - 1] == s + w[..|w| - 1];
      TrimEndSpaceSuffix(s, w[..|w| - 1]);
    }
  }

  /** Trimming the end of `a + n` stays inside `n` when `n` holds a non-space. */
  lemma {:induction false} TrimEndConcat(a: string, n: string)
    requires !AllSpace(n)
    ensures TrimEnd(a + n) == a + TrimEnd(n)
    decreases |n|
  {
    var an := a + n;
    assert an[|an| - 1] == n[|n| - 1];
    if IsSpace(n[|n| - 1]) {
      var n' := n[..|n| - 1];
      assert !AllSpace(n') by {
        var k :| 0 <= k < |n| && !IsSpace(n[k]);
        assert k < |n| - 1 && n'[k] == n[k];
      }
      assert an[..|an| - 1] == a + n';
      TrimEndConcat(a, n');
    }
  }

  /** A text opening with one space character and then a non-space loses exactly that character. */
  lemma TrimStartOneSpace(s: string)
    requires |s| >= 2 && IsSpace(s[0]) && !IsSpace(s[1])
    ensures TrimStart(s) == s[1..]
  {
    assert s[1..][0] == s[1];
  }

  lemma ConcatAssoc(a: string, b: string, c: string)
    ensures a + b + c == a + (b + c)
  {
  }

  /** The last `|b|` characters of `a + b` are `b`. */
  lemma SuffixOfConcat(a: string, b: string)
    ensures |a + b| >= |b| && (a + b)[|a + b| - |b|..] == b
  {
  }

  /**
    Trimming a text framed by a leading line break and trailing white space
    keeps everything between, except white space closing its last part `n`.
   */
  lemma TrimFramed(h: string, n: string, w: string)
    requires |h| > 0 && !IsSpace(h[0]) && !AllSpace(n) && AllSpace(w)
    ensures Trim("\n" + h + n + w) == h + TrimEnd(n)
  {
    var raw := "\n" + h + n + w;
    assert raw[0] == '\n' && raw[1] == h[0];
    TrimStartOneSpace(raw);
    assert raw[1..] == (h + n) + w;
    TrimEndSpaceSuffix(h + n, w);
    TrimEndConcat(h, n);
  }

  /** When the last part `n` is white space only, the trim eats into `h` as well. */
  lemma TrimFramedSpace(h: string, n: string, w: string)
    requires |h| > 0 && !IsSpace(h[0]) && AllSpace(n) && AllSpace(w)
    ensures Trim("\n" + h + n + w) == TrimEnd(h)
  {
    var body := h + (n + w);
    ConcatAssoc("\n" + h, n, w);
    ConcatAssoc("\n", h, n + w);
    TrimAfterBreak(body);
    SpaceConcat(n, w);
    TrimEndSpaceSuffix(h, n + w);
  }

  /** A text that is one line break and then a non-space trims to the trimmed end of the rest. */
  lemma TrimAfterBreak(body: string)
    requires |body| > 0 && !IsSpace(body[0])
    ensures Trim("\n" + body) == TrimEnd(body)
  {
    var raw := "\n" + body;
    assert raw[0] == '\n' && raw[1] == body[0] && raw[1..] == body;
    TrimStartOneSpace(raw);
  }

  /** Two runs of white space make one. */
  lemma SpaceConcat(a: string, b: string)
    requires AllSpace(a) && AllSpace(b)
    ensures AllSpace(a + b)
  {
    forall i | 0 <= i < |a + b| ensures IsSpace((a + b)[i]) {
      if i < |a| { assert (a + b)[i] == a[i]; } else { assert (a + b)[i] == b[i - |a|]; }
    }
  }

  /** The fallback "None" holds a non-space and has nothing to trim. */
  lemma NoneIsTrimmed()
    ensures !AllSpace("None") && TrimEnd("None") == "None"
  {
    assert !IsSpace("None"[3]);
  }

  /** Every occurrence of character `a` replaced by `b`. */
  function ReplaceChar(s: string, a: char, b: char): (r: string)
    ensures |r| == |s|
    ensures forall i :: 0 <= i < |s| ==> r[i] == (if s[i] == a then b else s[i])
    decreases |s|
  {
    if |s| == 0 then "" else [if s[0] == a then b else s[0]] + ReplaceChar(s[1..], a, b)
  }

  /** Replacing `a` by `b` is undone by replacing `b` by `a` when `b` did not occur. */
  lemma ReplaceCharRoundTrip(s: string, a: char, b: char)
    requires b !in s
    ensures ReplaceChar(ReplaceChar(s, a, b), b, a) == s
  {
    var r := ReplaceChar(ReplaceChar(s, a, b), b, a);
    assert forall i :: 0 <= i < |s| ==> r[i] == s[i];
  }
}
