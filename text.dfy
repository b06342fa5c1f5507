/**
 * The string operations the ingestion code relies on: Python's
 * `str.split()` (on whitespace), `sep.join(parts)`, `str.split(sep)` and
 * `str.replace('\n', '<br>')`, and the whitespace collapse
 * `' '.join(s.split())` used when markup is reduced to text.
 */
module Text {
  import opened Common

  /** The characters Python's `str.split()` treats as whitespace. */
  predicate IsSpace(c: char)
  {
    || c == ' '
    || ('\t' <= c <= '\r')
    || ('\U{1C}' <= c <= '\U{1F}')
    || c == '\U{85}'
    || c == '\U{A0}'
    || c == '\U{1680}'
    || ('\U{2000}' <= c <= '\U{200A}')
    || c == '\U{2028}'
    || c == '\U{2029}'
    || c == '\U{202F}'
    || c == '\U{205F}'
    || c == '\U{3000}'
  }

  /** A word as `str.split()` produces it: non-empty, no whitespace. */
  predicate IsWord(w: string)
  {
    0 < |w| && forall i :: 0 <= i < |w| ==> !IsSpace(w[i])
  }

  /** Length of the run of non-whitespace characters that starts `s`. */
  function WordLen(s: string): (n: nat)
    ensures n <= |s|
    ensures forall i :: 0 <= i < n ==> !IsSpace(s[i])
    ensures n < |s| ==> IsSpace(s[n])
  {
    if |s| == 0 || IsSpace(s[0]) then 0 else 1 + WordLen(s[1..])
  }

  /** Python's `s.split()`: the maximal whitespace-free runs, in order. */
  function Words(s: string): seq<string>
    decreases |s|
  {
    if |s| == 0 then []
    else if IsSpace(s[0]) then Words(s[1..])
    else
      var n := WordLen(s);
      [s[..n]] + Words(s[n..])
  }

  /** Python's `sep.join(parts)`. */
  function Join(parts: seq<string>, sep: string): string
  {
    if |parts| == 0 then ""
    else if |parts| == 1 then parts[0]
    else parts[0] + sep + Join(parts[1..], sep)
  }

  /** `' '.join(s.split())`: every run of whitespace becomes one space, ends trimmed. */
  function Collapse(s: string): string
  {
    Join(Words(s), " ")
  }

  /** Concatenation of the words of each string in turn. */
  function WordsOfAll(ts: seq<string>): seq<string>
  {
    if |ts| == 0 then [] else Words(ts[0]) + WordsOfAll(ts[1..])
  }

  /**
   * A whitespace-normalised string: no whitespace at either end, and the
   * only whitespace is single spaces between words.
   */
  ghost predicate Normalized(t: string)
  {
    && (0 < |t| ==> !IsSpace(t[0]) && !IsSpace(t[|t| - 1]))
    && (forall i :: 0 <= i < |t| && IsSpace(t[i]) ==> t[i] == ' ' && i + 1 < |t| && !IsSpace(t[i + 1]))
  }

  lemma {:induction false} WordsAreWords(s: string)
    ensures forall w :: w in Words(s) ==> IsWord(w)
    decreases |s|
  {
    if |s| > 0 {
      if IsSpace(s[0]) {
        WordsAreWords(s[1..]);
      } else {
        WordsAreWords(s[WordLen(s)..]);
      }
    }
  }

  lemma WordsOfWord(w: string)
    requires IsWord(w)
    ensures Words(w) == [w]
  {
    assert WordLen(w) == |w|;
    assert !IsSpace(w[0]);
    assert w[..|w|] == w && w[|w|..] == "";
    assert Words(w) == [w[..|w|]] + Words(w[|w|..]);
  }

  /** Splitting at a whitespace character never joins the words on its two sides. */
  lemma {:induction false} WordsAroundSpace(a: string, c: char, b: string)
    requires IsSpace(c)
    ensures Words(a + [c] + b) == Words(a) + Words(b)
    decreases |a|
  {
    var t := [c] + b;
    ConcatAssoc(a, [c], b);
    if |a| == 0 {
      assert a + t == t && t[1..] == b;
    } else {
      var n := if IsSpace(a[0]) then 1 else WordLen(a);
      if !IsSpace(a[0]) {
        WordLenPrefix(a, t);
      }
      ConcatAt(a, t, n);
      ConcatAssoc(a[n..], [c], b);
      WordsAroundSpace(a[n..], c, b);
    }
  }

  /** The leading word of `a` is not extended by what follows a space. */
  lemma {:induction false} WordLenPrefix(a: string, rest: string)
    requires 0 < |rest| && IsSpace(rest[0])
    ensures WordLen(a + rest) == WordLen(a)
    decreases |a|
  {
    if |a| > 0 && !IsSpace(a[0]) {
      assert (a + rest)[1..] == a[1..] + rest;
      WordLenPrefix(a[1..], rest);
    } else if |a| == 0 {
      assert a + rest == rest;
    }
  }

  /** Joining texts with single spaces keeps each text's words, in order. */
  lemma {:induction false} WordsOfJoin(ts: seq<string>)
    ensures Words(Join(ts, " ")) == WordsOfAll(ts)
  {
    if |ts| == 1 {
      assert WordsOfAll(ts) == Words(ts[0]) + WordsOfAll(ts[1..]);
    } else if |ts| > 1 {
      WordsAroundSpace(ts[0], ' ', Join(ts[1..], " "));
      assert ts[0] + " " + Join(ts[1..], " ") == ts[0] + [' '] + Join(ts[1..], " ");
      WordsOfJoin(ts[1..]);
    }
  }

  /** Joining words with single spaces and splitting again gives the words back. */
  lemma {:induction false} SplitJoinedWords(ws: seq<string>)
    requires forall w :: w in ws ==> IsWord(w)
    ensures Words(Join(ws, " ")) == ws
  {
    WordsOfJoin(ws);
    WordsOfAllOfWords(ws);
  }

  lemma {:induction false} WordsOfAllOfWords(ws: seq<string>)
    requires forall w :: w in ws ==> IsWord(w)
    ensures WordsOfAll(ws) == ws
  {
    if |ws| > 0 {
      WordsOfWord(ws[0]);
      WordsOfAllOfWords(ws[1..]);
    }
  }

  /** Collapsing whitespace keeps the word sequence of its input. */
  lemma CollapseKeepsWords(s: string)
    ensures Words(Collapse(s)) == Words(s)
  {
    WordsAreWords(s);
    SplitJoinedWords(Words(s));
  }

  /** Collapsing whitespace twice is collapsing it once. */
  lemma CollapseIdempotent(s: string)
    ensures Collapse(Collapse(s)) == Collapse(s)
  {
    CollapseKeepsWords(s);
  }

  /** The collapsed string has no outer whitespace and no two adjacent spaces. */
  lemma CollapseNormalized(s: string)
    ensures Normalized(Collapse(s))
  {
    WordsAreWords(s);
    JoinedWordsNormalized(Words(s));
  }

  lemma {:induction false} JoinedWordsNormalized(ws: seq<string>)
    requires forall w :: w in ws ==> IsWord(w)
    ensures Normalized(Join(ws, " "))
    ensures 0 < |ws| ==> 0 < |Join(ws, " ")| && Join(ws, " ")[0] == ws[0][0]
  {
    if |ws| > 1 {
      var w := ws[0];
      var rest := Join(ws[1..], " ");
      JoinedWordsNormalized(ws[1..]);
      var t := w + " " + rest;
      assert t == Join(ws, " ");
      assert IsWord(w) && IsWord(ws[1]);
      assert forall j :: 0 <= j < |w| ==> t[j] == w[j];
      forall i | 0 <= i < |t| && IsSpace(t[i])
        ensures t[i] == ' ' && i + 1 < |t| && !IsSpace(t[i + 1])
      {
        if i == |w| {
          assert t[i + 1] == rest[0];
        } else if i > |w| {
          assert t[i] == rest[i - |w| - 1];
          assert i + 1 < |t| ==> t[i + 1] == rest[i - |w|];
        }
      }
      assert t[|t| - 1] == rest[|rest| - 1];
    } else if |ws| == 1 {
      assert IsWord(ws[0]) && Join(ws, " ") == ws[0];
    }
  }

  /** Index of the first occurrence of `c` in `s`, or `|s|` when there is none. */
  function IndexOf(s: string, c: char): (k: nat)
    ensures k <= |s|
    ensures k < |s| ==> s[k] == c
    ensures forall i :: 0 <= i < k ==> s[i] != c
  {
    if |s| == 0 then 0 else if s[0] == c then 0 else 1 + IndexOf(s[1..], c)
  }

  lemma {:induction false} IndexOfAfter(u: string, c: char, x: string)
    requires c !in u
    ensures IndexOf(u + [c] + x, c) == |u|
    decreases |u|
  {
    if |u| > 0 {
      assert (u + [c] + x)[1..] == u[1..] + [c] + x;
      IndexOfAfter(u[1..], c, x);
    }
  }

  /** Python's `s.split(sep)` for a non-empty separator: leftmost, non-overlapping. */
  function SplitOn(s: string, sep: string): (parts: seq<string>)
    requires 0 < |sep|
    ensures 0 < |parts|
    decreases |s|
  {
    if |s| < |sep| then [s]
    else if s[..|sep|] == sep then [""] + SplitOn(s[|sep|..], sep)
    else
      var rest := SplitOn(s[1..], sep);
      [[s[0]] + rest[0]] + rest[1..]
  }

  /** Re-joining the pieces of a split with the same separator restores the string. */
  lemma {:induction false} JoinSplitOn(s: string, sep: string)
    requires 0 < |sep|
    ensures Join(SplitOn(s, sep), sep) == s
    decreases |s|
  {
    if |s| < |sep| {
    } else if s[..|sep|] == sep {
      var rest := SplitOn(s[|sep|..], sep);
      JoinSplitOn(s[|sep|..], sep);
      assert [""] + rest == SplitOn(s, sep);
      assert Join([""] + rest, sep) == "" + sep + Join(rest, sep);
      assert s == s[..|sep|] + s[|sep|..];
    } else {
      var rest := SplitOn(s[1..], sep);
      JoinSplitOn(s[1..], sep);
      var parts := [[s[0]] + rest[0]] + rest[1..];
      assert parts == SplitOn(s, sep);
      if |rest| == 1 {
        assert Join(parts, sep) == [s[0]] + rest[0];
      } else {
        assert parts[1..] == rest[1..];
        assert Join(rest, sep) == rest[0] + sep + Join(rest[1..], sep);
        assert Join(parts, sep) == [s[0]] + rest[0] + sep + Join(rest[1..], sep);
      }
      assert s == [s[0]] + s[1..];
    }
  }

  /** A string in which the separator's first character never occurs is one piece. */
  lemma {:induction false} SplitOnWithout(p: string, sep: string)
    requires 0 < |sep| && sep[0] !in p
    ensures SplitOn(p, sep) == [p]
    decreases |p|
  {
    if |p| >= |sep| {
      assert p[..|sep|][0] != sep[0];
      SplitOnWithout(p[1..], sep);
      assert [p[0]] + p[1..] == p;
    }
  }

  lemma {:induction false} SplitOnFirstPiece(p: string, sep: string, rest: string)
    requires 0 < |sep| && sep[0] !in p
    ensures SplitOn(p + sep + rest, sep) == [p] + SplitOn(rest, sep)
    decreases |p|
  {
    var s := p + sep + rest;
    if |p| == 0 {
      assert s[..|sep|] == sep && s[|sep|..] == rest;
    } else {
      assert s[..|sep|][0] == p[0] != sep[0];
      assert s[1..] == p[1..] + sep + rest;
      SplitOnFirstPiece(p[1..], sep, rest);
      assert [p[0]] + p[1..] == p;
    }
  }

  /**
   * Splitting a join gives the parts back, provided no part contains the
   * separator's first character (so no separator can start inside a part).
   */
  lemma {:induction false} SplitOnJoin(parts: seq<string>, sep: string)
    requires 0 < |sep| && 0 < |parts|
    requires forall p :: p in parts ==> sep[0] !in p
    ensures SplitOn(Join(parts, sep), sep) == parts
  {
    if |parts| == 1 {
      SplitOnWithout(parts[0], sep);
    } else {
      SplitOnFirstPiece(parts[0], sep, Join(parts[1..], sep));
      SplitOnJoin(parts[1..], sep);
    }
  }

  /** Python's `s.replace('\n', '<br>')`. */
  function ReplaceNewlines(s: string): (r: string)
  {
    if |s| == 0 then ""
    else (if s[0] == '\n' then "<br>" else [s[0]]) + ReplaceNewlines(s[1..])
  }

  /** After the replacement no newline is left. */
  lemma {:induction false} ReplaceNewlinesRemovesAll(s: string)
    ensures '\n' !in ReplaceNewlines(s)
  {
    if |s| > 0 {
      ReplaceNewlinesRemovesAll(s[1..]);
    }
  }

  /** A string without newlines is left as it is. */
  lemma {:induction false} ReplaceNewlinesIdentity(s: string)
    requires '\n' !in s
    ensures ReplaceNewlines(s) == s
  {
    if |s| > 0 {
      ReplaceNewlinesIdentity(s[1..]);
      assert [s[0]] + s[1..] == s;
    }
  }
}
