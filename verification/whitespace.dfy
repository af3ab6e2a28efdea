/** Python's `" ".join(text.strip().split())`: the text of a right-hand side
    with every run of whitespace collapsed to one space and the ends trimmed.
    `strip()` before `split()` changes nothing, because `split()` with no
    argument already drops leading and trailing whitespace. */
module Whitespace {

  /** The characters `str.split()` with no argument splits on
      (`str.isspace()`). */
  predicate IsSpace(c: char) {
    || '\U{9}' <= c <= '\U{D}'
    || '\U{1C}' <= c <= '\U{20}'
    || c == '\U{85}'
    || c == '\U{A0}'
    || c == '\U{1680}'
    || '\U{2000}' <= c <= '\U{200A}'
    || c == '\U{2028}'
    || c == '\U{2029}'
    || c == '\U{202F}'
    || c == '\U{205F}'
    || c == '\U{3000}'
  }

  /** A non-empty run of non-whitespace characters. */
  predicate IsWord(w: string) {
    |w| > 0 && forall i :: 0 <= i < |w| ==> !IsSpace(w[i])
  }

  /** No whitespace at either end, no two whitespace characters in a row, and
      every whitespace character a plain space. */
  predicate Tidy(s: string) {
    && (|s| > 0 ==> !IsSpace(s[0]) && !IsSpace(s[|s| - 1]))
    && (forall i :: 0 <= i < |s| && IsSpace(s[i]) ==> s[i] == ' ')
    && (forall i :: 0 < i < |s| && IsSpace(s[i]) ==> !IsSpace(s[i - 1]))
  }

  /** Length of the longest whitespace-free prefix of `s`. */
  function WordEnd(s: string): (n: nat)
    ensures n <= |s|
    ensures forall i :: 0 <= i < n ==> !IsSpace(s[i])
    ensures n < |s| ==> IsSpace(s[n])
  {
    if s == [] || IsSpace(s[0]) then 0 else 1 + WordEnd(s[1..])
  }

  /** `str.split()` with no argument: the maximal whitespace-free runs, in
      order. */
  function Words(s: string): (ws: seq<string>)
    ensures forall i :: 0 <= i < |ws| ==> IsWord(ws[i])
    decreases |s|
  {
    if s == [] then []
    else if IsSpace(s[0]) then Words(s[1..])
    else
      var n := WordEnd(s);
      [s[..n]] + Words(s[n..])
  }

  /** `" ".join(ws)`. */
  function Join(ws: seq<string>): string {
    if |ws| == 0 then ""
    else if |ws| == 1 then ws[0]
    else ws[0] + " " + Join(ws[1..])
  }

  /** The normalised text of a right-hand side. It is tidy and keeps exactly
      the words of the original text, in order. */
  function Normalize(s: string): (r: string)
    ensures Tidy(r)
    ensures Words(r) == Words(s)
  {
    JoinIsTidy(Words(s));
    WordsOfJoin(Words(s));
    Join(Words(s))
  }

  lemma {:induction false} WordEndOfWord(w: string, rest: string)
    requires IsWord(w)
    requires rest == [] || IsSpace(rest[0])
    ensures WordEnd(w + rest) == |w|
    decreases |w|
  {
    assert (w + rest)[0] == w[0];
    assert (w + rest)[1..] == w[1..] + rest;
    if |w| > 1 {
      assert IsWord(w[1..]) by {
        forall i | 0 <= i < |w[1..]| ensures !IsSpace(w[1..][i]) {
          assert w[1..][i] == w[i + 1];
        }
      }
      WordEndOfWord(w[1..], rest);
    } else {
      assert w[1..] + rest == rest;
    }
  }

  lemma WordsOfWordThen(w: string, rest: string)
    requires IsWord(w)
    requires rest == [] || IsSpace(rest[0])
    ensures Words(w + rest) == [w] + Words(rest)
  {
    var s := w + rest;
    WordEndOfWord(w, rest);
    assert s[..|w|] == w;
    assert s[|w|..] == rest;
  }

  /** Splitting joined words gives the words back. */
  lemma {:induction false} WordsOfJoin(ws: seq<string>)
    requires forall i :: 0 <= i < |ws| ==> IsWord(ws[i])
    ensures Words(Join(ws)) == ws
    decreases |ws|
  {
    if |ws| == 1 {
      WordsOfWordThen(ws[0], "");
      assert ws[0] + "" == ws[0];
    } else if |ws| > 1 {
      var j := Join(ws[1..]);
      WordsOfJoin(ws[1..]);
      assert ws[0] + " " + j == ws[0] + (" " + j);
      WordsOfWordThen(ws[0], " " + j);
      assert (" " + j)[1..] == j;
    }
  }

  lemma {:induction false} JoinIsTidy(ws: seq<string>)
    requires forall i :: 0 <= i < |ws| ==> IsWord(ws[i])
    ensures Tidy(Join(ws))
    ensures |ws| > 0 ==> |Join(ws)| > 0
    decreases |ws|
  {
    if |ws| > 1 {
      var w, j := ws[0], Join(ws[1..]);
      JoinIsTidy(ws[1..]);
      var s := w + " " + j;
      assert s[..|w|] == w;
      assert s[|w| + 1..] == j;
      forall i | 0 <= i < |s| && IsSpace(s[i])
        ensures s[i] == ' '
        ensures i > 0 ==> !IsSpace(s[i - 1])
      {
        if i > |w| {
          assert s[i] == j[i - |w| - 1];
          if i - 1 > |w| {
            assert s[i - 1] == j[i - 1 - |w| - 1];
          }
        }
      }
      assert s[|s| - 1] == j[|j| - 1];
    }
  }

  /** A tidy text is left as it is, so `Normalize(s) == s` exactly when `s`
      is tidy. */
  lemma {:induction false} NormalizeKeepsTidy(s: string)
    requires Tidy(s)
    ensures Normalize(s) == s
    decreases |s|
  {
    if s != [] {
      var n := WordEnd(s);
      var w := s[..n];
      assert n > 0;
      if n == |s| {
        assert w == s;
        assert s[n..] == [];
      } else {
        assert s[n] == ' ';
        var t := s[n + 1..];
        assert |t| > 0 && t[0] == s[n + 1];
        assert Tidy(t) by {
          forall i | 0 < i < |t| && IsSpace(t[i]) ensures !IsSpace(t[i - 1]) {
            assert t[i] == s[n + 1 + i] && t[i - 1] == s[n + i];
          }
          assert t[|t| - 1] == s[|s| - 1];
        }
        NormalizeKeepsTidy(t);
        assert s[n..][1..] == t;
        assert Words(s[n..]) == Words(t);
        assert Words(t) != [] by {
          WordsOfJoin(Words(t));
          assert Join(Words(t)) == t;
        }
        assert Words(s) == [w] + Words(t);
        assert Join([w] + Words(t)) == w + " " + Join(Words(t)) by {
          assert ([w] + Words(t))[1..] == Words(t);
        }
        assert s == w + " " + t;
      }
    }
  }

  /** Normalising twice is normalising once. */
  lemma NormalizeIdempotent(s: string)
    ensures Normalize(Normalize(s)) == Normalize(s)
  {
    NormalizeKeepsTidy(Normalize(s));
  }
}
