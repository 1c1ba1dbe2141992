/** The clean-up both generators apply to a script before laying it out:
    newlines become spaces, surrounding whitespace is stripped and the rest
    is cut into words on runs of whitespace. These are Python's
    `str.replace("\n", " ")`, `str.strip()` and `str.split()` (no arguments),
    which all use the whitespace of `str.isspace()`. */
module PyText {
  import opened Seqs

  /** The characters for which Python's `str.isspace()` holds. */
  const SpaceChars: set<char> := {
    '\t', '\n', '\U{0B}', '\U{0C}', '\r', '\U{1C}', '\U{1D}', '\U{1E}', '\U{1F}', ' ',
    '\U{85}', '\U{A0}', '\U{1680}',
    '\U{2000}', '\U{2001}', '\U{2002}', '\U{2003}', '\U{2004}', '\U{2005}',
    '\U{2006}', '\U{2007}', '\U{2008}', '\U{2009}', '\U{200A}',
    '\U{2028}', '\U{2029}', '\U{202F}', '\U{205F}', '\U{3000}'
  }

  predicate IsSpace(c: char)
  {
    c in SpaceChars
  }

  predicate AllSpace(s: string)
  {
    forall i :: 0 <= i < |s| ==> IsSpace(s[i])
  }

  /** A word as `str.split()` yields it: non-empty, without whitespace. */
  predicate IsWord(w: string)
  {
    w != [] && forall i :: 0 <= i < |w| ==> !IsSpace(w[i])
  }

  /** `s.replace("\n", " ")`. */
  function ReplaceNewlines(s: string): (r: string)
    ensures |r| == |s| && '\n' !in r
    ensures forall i :: 0 <= i < |s| ==> (IsSpace(r[i]) <==> IsSpace(s[i]))
    ensures forall i :: 0 <= i < |s| && s[i] != '\n' ==> r[i] == s[i]
    ensures forall i :: 0 <= i < |s| && s[i] == '\n' ==> r[i] == ' '
  {
    seq(|s|, i requires 0 <= i < |s| => if s[i] == '\n' then ' ' else s[i])
  }

  /** Length of the run of whitespace at the front of `s`. */
  function LeadingSpaces(s: string): (n: nat)
    ensures n <= |s|
    ensures forall i :: 0 <= i < n ==> IsSpace(s[i])
    ensures n == |s| || !IsSpace(s[n])
  {
    if s != [] && IsSpace(s[0]) then 1 + LeadingSpaces(s[1..]) else 0
  }

  /** Length of the run of whitespace at the end of `s`. */
  function TrailingSpaces(s: string): (n: nat)
    ensures n <= |s|
    ensures forall i :: |s| - n <= i < |s| ==> IsSpace(s[i])
    ensures n == |s| || !IsSpace(s[|s| - n - 1])
  {
    if s != [] && IsSpace(s[|s| - 1]) then 1 + TrailingSpaces(s[..|s| - 1]) else 0
  }

  /** `s.lstrip()`. */
  function TrimStart(s: string): string
  {
    s[LeadingSpaces(s)..]
  }

  /** `s.rstrip()`. */
  function TrimEnd(s: string): string
  {
    s[..|s| - TrailingSpaces(s)]
  }

  /** `s.strip()`: what is left between the leading and the trailing
      whitespace, which starts and ends with a non-space character. */
  function Strip(s: string): (r: string)
    ensures r == [] || (!IsSpace(r[0]) && !IsSpace(r[|r| - 1]))
    ensures exists a, b :: 0 <= a <= b <= |s| && r == s[a..b] && AllSpace(s[..a]) && AllSpace(s[b..])
  {
    TrimBothEnds(s);
    TrimEnd(TrimStart(s))
  }

  lemma TrimBothEnds(s: string)
    ensures exists a, b :: 0 <= a <= b <= |s| && TrimEnd(TrimStart(s)) == s[a..b] && AllSpace(s[..a]) && AllSpace(s[b..])
  {
    var a := LeadingSpaces(s);
    var t := s[a..];
    var m := TrailingSpaces(t);
    var b := a + |t| - m;
    assert TrimEnd(TrimStart(s)) == t[..|t| - m] == s[a..b];
    assert AllSpace(s[..a]);
    assert AllSpace(s[b..]) by {
      forall i | 0 <= i < |s| - b ensures IsSpace(s[b..][i]) {
        assert s[b..][i] == t[|t| - m + i];
      }
    }
  }

  /** Length of the run of non-space characters at the front of `s`. */
  function WordLen(s: string): (n: nat)
    ensures n <= |s|
    ensures forall i :: 0 <= i < n ==> !IsSpace(s[i])
    ensures n == |s| || IsSpace(s[n])
  {
    if s == [] || IsSpace(s[0]) then 0 else 1 + WordLen(s[1..])
  }

  /** `s.split()`: the maximal runs of non-space characters, in order. */
  function Split(s: string): (words: seq<string>)
    ensures forall k :: 0 <= k < |words| ==> IsWord(words[k])
    decreases |s|
  {
    if s == [] then []
    else if IsSpace(s[0]) then Split(s[1..])
    else
      var n := WordLen(s);
      [s[..n]] + Split(s[n..])
  }

  /** `gaps[0] + words[0] + gaps[1] + ... + words[n-1] + gaps[n]`. */
  function Joined(gaps: seq<string>, words: seq<string>): string
    requires |gaps| == |words| + 1
  {
    if words == [] then gaps[0] else gaps[0] + words[0] + Joined(gaps[1..], words[1..])
  }

  /** A decomposition of a text into whitespace gaps and words: every gap
      is whitespace, every word is a word, the gaps between two words are
      not empty, and together they spell the text. */
  predicate Decomposes(s: string, gaps: seq<string>, words: seq<string>)
  {
    && |gaps| == |words| + 1
    && (forall k :: 0 <= k < |gaps| ==> AllSpace(gaps[k]))
    && (forall k :: 0 <= k < |words| ==> IsWord(words[k]))
    && (forall k :: 0 < k < |words| ==> gaps[k] != [])
    && Joined(gaps, words) == s
  }

  /** The whitespace around and between the words `Split` returns. */
  function Gaps(s: string): (gaps: seq<string>)
    ensures |gaps| == |Split(s)| + 1
    decreases |s|
  {
    if s == [] then [[]]
    else if IsSpace(s[0]) then
      var g := Gaps(s[1..]);
      [[s[0]] + g[0]] + g[1..]
    else
      [[]] + Gaps(s[WordLen(s)..])
  }

  /** The words of `Split(s)` and the gaps around them spell `s`: the words
      are separated by whitespace, so none of them could be longer. */
  lemma {:induction false} SplitDecomposes(s: string)
    ensures Decomposes(s, Gaps(s), Split(s))
    decreases |s|
  {
    if s == [] {
    } else if IsSpace(s[0]) {
      SplitDecomposes(s[1..]);
      DecomposesAfterSpace(s, Gaps(s[1..]), Split(s[1..]));
    } else {
      var n := WordLen(s);
      SplitDecomposes(s[n..]);
      if Split(s[n..]) != [] {
        GapsStartsWithSpace(s[n..]);
      }
      DecomposesAfterWord(s, n, Gaps(s[n..]), Split(s[n..]));
    }
  }

  lemma DecomposesAfterSpace(s: string, g: seq<string>, ws: seq<string>)
    requires s != [] && IsSpace(s[0]) && Decomposes(s[1..], g, ws)
    ensures Decomposes(s, [[s[0]] + g[0]] + g[1..], ws)
  {
    var gs := [[s[0]] + g[0]] + g[1..];
    assert Joined(gs, ws) == [s[0]] + Joined(g, ws);
    assert [s[0]] + s[1..] == s;
    forall k | 0 <= k < |gs| ensures AllSpace(gs[k]) {
      if k > 0 { assert gs[k] == g[k]; }
    }
  }

  lemma DecomposesAfterWord(s: string, n: nat, g: seq<string>, ws: seq<string>)
    requires 0 < n <= |s| && forall i :: 0 <= i < n ==> !IsSpace(s[i])
    requires Decomposes(s[n..], g, ws) && (ws != [] ==> g[0] != [])
    ensures Decomposes(s, [[]] + g, [s[..n]] + ws)
  {
    var gs := [[]] + g;
    var w := [s[..n]] + ws;
    assert gs[1..] == g && w[1..] == ws;
    assert Joined(gs, w) == s[..n] + Joined(g, ws);
    assert s[..n] + s[n..] == s;
    forall k | 0 <= k < |gs| ensures AllSpace(gs[k]) {
      if k > 0 { assert gs[k] == g[k - 1]; }
    }
    forall k | 0 <= k < |w| ensures IsWord(w[k]) {
      if k > 0 { assert w[k] == ws[k - 1]; }
    }
    forall k | 0 < k < |w| ensures gs[k] != [] {
      assert gs[k] == g[k - 1];
    }
  }

  lemma GapsStartsWithSpace(s: string)
    requires s != [] && IsSpace(s[0])
    ensures Gaps(s)[0] != []
  {
  }

  /** `Split(s)` is the only way to cut `s` into words separated by
      whitespace: any decomposition has exactly its words. */
  lemma {:induction false} SplitUnique(s: string, gaps: seq<string>, words: seq<string>)
    requires Decomposes(s, gaps, words)
    ensures words == Split(s)
    decreases |s|
  {
    if gaps[0] != [] {
      var g0 := gaps[0];
      var gs := [g0[1..]] + gaps[1..];
      assert Joined(gaps, words) == [g0[0]] + Joined(gs, words);
      assert s[0] == g0[0] && IsSpace(s[0]);
      forall k | 0 <= k < |gs| ensures AllSpace(gs[k]) {
        if k > 0 { assert gs[k] == gaps[k]; }
      }
      SplitUnique(s[1..], gs, words);
    } else if words != [] {
      var w := words[0];
      var rest := Joined(gaps[1..], words[1..]);
      assert s == w + rest;
      if words[1..] != [] {
        assert gaps[1] != [];
        assert rest[0] == gaps[1][0];
      } else if gaps[1] != [] {
        assert rest == gaps[1];
      }
      assert s[..|w|] == w;
      WordLenUnique(s, |w|);
      assert s[|w|..] == rest;
      SplitUnique(rest, gaps[1..], words[1..]);
      assert words == [w] + words[1..];
    }
  }

  /** The characters of `s` that are not whitespace, in order. */
  function NonSpace(s: string): string
  {
    if s == [] then [] else (if IsSpace(s[0]) then [] else [s[0]]) + NonSpace(s[1..])
  }

  /** The words of a script, as `text_input.replace("\n", " ").strip().split()`. */
  function ScriptWords(text: string): seq<string>
  {
    Split(Strip(ReplaceNewlines(text)))
  }

  lemma {:induction false} NonSpacePrefix(s: string, n: nat)
    requires n <= |s| && forall i :: 0 <= i < n ==> !IsSpace(s[i])
    ensures NonSpace(s) == s[..n] + NonSpace(s[n..])
    decreases n
  {
    if n > 0 {
      var t := s[1..];
      NonSpacePrefix(t, n - 1);
      assert NonSpace(s) == [s[0]] + NonSpace(t);
      assert t[n - 1..] == s[n..];
      assert s[..n] == [s[0]] + t[..n - 1];
    }
  }

  /** Splitting loses only whitespace: the words, concatenated, are the
      non-space characters of the text. */
  lemma {:induction false} SplitKeepsText(s: string)
    ensures Flatten(Split(s)) == NonSpace(s)
    decreases |s|
  {
    if s == [] {
    } else if IsSpace(s[0]) {
      SplitKeepsText(s[1..]);
    } else {
      var n := WordLen(s);
      SplitKeepsText(s[n..]);
      NonSpacePrefix(s, n);
      var ws := [s[..n]] + Split(s[n..]);
      assert ws[0] == s[..n] && ws[1..] == Split(s[n..]);
    }
  }

  /** A text has no words exactly when it is all whitespace. */
  lemma {:induction false} SplitEmptyIff(s: string)
    ensures Split(s) == [] <==> AllSpace(s)
    decreases |s|
  {
    if s != [] && IsSpace(s[0]) {
      SplitEmptyIff(s[1..]);
      assert AllSpace(s) <==> AllSpace(s[1..]) by {
        if AllSpace(s[1..]) {
          forall i | 0 <= i < |s| ensures IsSpace(s[i]) {
            if i > 0 { assert s[i] == s[1..][i - 1]; }
          }
        }
      }
    }
  }

  /** Leading whitespace does not change the words. */
  lemma {:induction false} SplitDropLeading(s: string, a: nat)
    requires a <= |s| && forall i :: 0 <= i < a ==> IsSpace(s[i])
    ensures Split(s[a..]) == Split(s)
    decreases a
  {
    if a > 0 {
      var t := s[1..];
      assert forall i :: 0 <= i < a - 1 ==> IsSpace(t[i]) by {
        forall i | 0 <= i < a - 1 ensures IsSpace(t[i]) {
          assert t[i] == s[i + 1];
        }
      }
      SplitDropLeading(t, a - 1);
      assert t[a - 1..] == s[a..];
    }
  }

  /** Trailing whitespace does not change the words. */
  lemma {:induction false} SplitDropTrailing(s: string, b: nat)
    requires b <= |s| && forall i :: b <= i < |s| ==> IsSpace(s[i])
    ensures Split(s[..b]) == Split(s)
    decreases |s|, 1
  {
    if b == |s| {
      assert s[..b] == s;
    } else if b == 0 {
      SplitEmptyIff(s);
      SplitEmptyIff(s[..0]);
    } else if IsSpace(s[0]) {
      var t := s[1..];
      assert forall i :: b - 1 <= i < |t| ==> IsSpace(t[i]) by {
        forall i | b - 1 <= i < |t| ensures IsSpace(t[i]) {
          assert t[i] == s[i + 1];
        }
      }
      SplitDropTrailing(t, b - 1);
      assert s[..b][1..] == t[..b - 1];
    } else {
      SplitDropTrailingAfterWord(s, b);
    }
  }

  lemma {:induction false} SplitDropTrailingAfterWord(s: string, b: nat)
    requires 0 < b < |s| && !IsSpace(s[0]) && forall i :: b <= i < |s| ==> IsSpace(s[i])
    ensures Split(s[..b]) == Split(s)
    decreases |s|, 0
  {
    var n := WordLen(s);
    var u := s[..b];
    var t := s[n..];
    assert Split(u) == [s[..n]] + Split(t[..b - n]) by {
      assert IsSpace(s[b]);
      WordLenUnique(u, n);
      assert u[..n] == s[..n];
      assert u[n..] == t[..b - n];
    }
    assert forall i :: b - n <= i < |t| ==> IsSpace(t[i]) by {
      forall i | b - n <= i < |t| ensures IsSpace(t[i]) {
        assert t[i] == s[i + n];
      }
    }
    SplitDropTrailing(t, b - n);
  }

  lemma WordLenUnique(s: string, n: nat)
    requires n <= |s| && (forall i :: 0 <= i < n ==> !IsSpace(s[i])) && (n == |s| || IsSpace(s[n]))
    ensures WordLen(s) == n
  {
  }

  /** Two texts with whitespace at the same places and the same other
      characters have the same words. */
  lemma {:induction false} SplitSameSpacing(s: string, t: string)
    requires |s| == |t|
    requires forall i :: 0 <= i < |s| ==> (IsSpace(s[i]) <==> IsSpace(t[i]))
    requires forall i :: 0 <= i < |s| && !IsSpace(s[i]) ==> s[i] == t[i]
    ensures Split(s) == Split(t)
    decreases |s|
  {
    if s == [] {
    } else if IsSpace(s[0]) {
      SplitSameSpacing(s[1..], t[1..]);
    } else {
      var n := WordLen(s);
      WordLenUnique(t, n);
      assert s[..n] == t[..n];
      SplitSameSpacing(s[n..], t[n..]);
    }
  }

  /** Stripping does not change the words of a text. */
  lemma StripKeepsWords(s: string)
    ensures Split(Strip(s)) == Split(s)
  {
    SplitDropLeading(s, LeadingSpaces(s));
    var t := TrimStart(s);
    SplitDropTrailing(t, |t| - TrailingSpaces(t));
  }

  /** Replacing newlines and stripping does not change the words: the
      script's words are those of the raw input. */
  lemma CleaningKeepsWords(text: string)
    ensures ScriptWords(text) == Split(text)
  {
    SplitSameSpacing(ReplaceNewlines(text), text);
    StripKeepsWords(ReplaceNewlines(text));
  }

  /** A script has no words exactly when its cleaned text is empty, which is
      exactly when the input is all whitespace. */
  lemma ScriptWordsEmpty(text: string)
    ensures ScriptWords(text) == [] <==> Strip(ReplaceNewlines(text)) == []
    ensures ScriptWords(text) == [] <==> AllSpace(text)
  {
    CleaningKeepsWords(text);
    SplitEmptyIff(text);
    var r := Strip(ReplaceNewlines(text));
    SplitEmptyIff(r);
  }
}
