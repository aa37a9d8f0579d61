/** Python's `str.split()` with no separator and `" ".join(...)`, the two string
    operations `trim_text` is built from. */
module Words {

  /** The characters Python's `str.split()` treats as whitespace. */
  predicate IsSpace(c: char) {
    || ('\U{0009}' <= c <= '\U{000D}')
    || ('\U{001C}' <= c <= '\U{001F}')
    || c == ' ' || c == '\U{0085}' || c == '\U{00A0}' || c == '\U{1680}'
    || ('\U{2000}' <= c <= '\U{200A}')
    || c == '\U{2028}' || c == '\U{2029}' || c == '\U{202F}' || c == '\U{205F}' || c == '\U{3000}'
  }

  /** A word as `split()` produces it: non-empty, with no whitespace in it. */
  predicate IsWord(w: string) {
    w != [] && forall i :: 0 <= i < |w| ==> !IsSpace(w[i])
  }

  /** The length of the run of non-whitespace characters that `s` starts with. */
  function LeadingWordLength(s: string): (n: nat)
    ensures n <= |s|
    ensures forall i :: 0 <= i < n ==> !IsSpace(s[i])
    ensures n < |s| ==> IsSpace(s[n])
  {
    if s == [] || IsSpace(s[0]) then 0 else 1 + LeadingWordLength(s[1..])
  }

  /** `s.split()`: the maximal runs of non-whitespace characters, in order;
      leading, trailing and repeated whitespace produce no empty words. */
  function Split(s: string): (ws: seq<string>)
    ensures forall i :: 0 <= i < |ws| ==> IsWord(ws[i])
    decreases |s|
  {
    if s == [] then []
    else if IsSpace(s[0]) then Split(s[1..])
    else
      var n := LeadingWordLength(s);
      [s[..n]] + Split(s[n..])
  }

  /** `" ".join(ws)`. */
  function Join(ws: seq<string>): string {
    if ws == [] then ""
    else if |ws| == 1 then ws[0]
    else ws[0] + " " + Join(ws[1..])
  }

  /** A whole word followed by whitespace or nothing splits off as that one word. */
  lemma {:induction false} SplitAfterWord(w: string, s: string)
    requires IsWord(w)
    requires s == [] || IsSpace(s[0])
    ensures Split(w + s) == [w] + Split(s)
  {
    LeadingWordLengthOfWord(w, s);
    assert (w + s)[..|w|] == w;
    assert (w + s)[|w|..] == s;
  }

  /** The leading run of `w + s` is exactly `w`. */
  lemma {:induction false} LeadingWordLengthOfWord(w: string, s: string)
    requires forall i :: 0 <= i < |w| ==> !IsSpace(w[i])
    requires s == [] || IsSpace(s[0])
    ensures LeadingWordLength(w + s) == |w|
  {
    if w != [] {
      assert (w + s)[1..] == w[1..] + s;
      LeadingWordLengthOfWord(w[1..], s);
    }
  }

  /** Splitting what `Join` produced from words gives the words back. */
  lemma {:induction false} SplitJoin(ws: seq<string>)
    requires forall i :: 0 <= i < |ws| ==> IsWord(ws[i])
    ensures Split(Join(ws)) == ws
  {
    if ws == [] {
    } else if |ws| == 1 {
      SplitAfterWord(ws[0], "");
      assert ws[0] + "" == ws[0];
    } else {
      var rest := " " + Join(ws[1..]);
      SplitAfterWord(ws[0], rest);
      assert ws[0] + " " + Join(ws[1..]) == ws[0] + rest;
      assert rest[1..] == Join(ws[1..]);
      SplitJoin(ws[1..]);
      assert [ws[0]] + ws[1..] == ws;
    }
  }

  /** Joining words and appending a suffix without whitespace splits into the same
      words, the suffix glued to the last one. */
  lemma {:induction false} SplitJoinSuffix(ws: seq<string>, suffix: string)
    requires ws != []
    requires forall i :: 0 <= i < |ws| ==> IsWord(ws[i])
    requires forall i :: 0 <= i < |suffix| ==> !IsSpace(suffix[i])
    ensures Split(Join(ws) + suffix) == ws[..|ws| - 1] + [ws[|ws| - 1] + suffix]
  {
    var last := ws[|ws| - 1] + suffix;
    assert IsWord(last) by {
      forall i | 0 <= i < |last| ensures !IsSpace(last[i]) {
        if i < |ws[|ws| - 1]| {
          assert last[i] == ws[|ws| - 1][i];
        } else {
          assert last[i] == suffix[i - |ws[|ws| - 1]|];
        }
      }
    }
    if |ws| == 1 {
      SplitAfterWord(last, "");
      assert last + "" == last;
      assert Join(ws) + suffix == last;
    } else {
      var rest := " " + (Join(ws[1..]) + suffix);
      assert Join(ws) + suffix == ws[0] + rest;
      SplitAfterWord(ws[0], rest);
      assert rest[1..] == Join(ws[1..]) + suffix;
      SplitJoinSuffix(ws[1..], suffix);
      assert ws[1..][..|ws| - 2] == ws[1..|ws| - 1];
      assert [ws[0]] + ws[1..|ws| - 1] == ws[..|ws| - 1];
    }
  }

  /** The number of words in `s`, counted as the positions where a word ends: a
      non-whitespace character followed by whitespace or by the end of `s`. */
  function WordCount(s: string): nat {
    if s == [] then 0
    else (if !IsSpace(s[0]) && (|s| == 1 || IsSpace(s[1])) then 1 else 0) + WordCount(s[1..])
  }

  /** `s` with every whitespace character removed. */
  function NonSpace(s: string): string {
    if s == [] then ""
    else (if IsSpace(s[0]) then "" else [s[0]]) + NonSpace(s[1..])
  }

  /** The words one after the other, with nothing between them. */
  function Concat(ws: seq<string>): string {
    if ws == [] then "" else ws[0] + Concat(ws[1..])
  }

  /** A run of `n` non-whitespace characters that ends where whitespace or the text
      ends holds exactly one word end. */
  lemma {:induction false} WordCountAfterRun(s: string, n: nat)
    requires 0 < n <= |s|
    requires forall i :: 0 <= i < n ==> !IsSpace(s[i])
    requires n < |s| ==> IsSpace(s[n])
    ensures WordCount(s) == 1 + WordCount(s[n..])
  {
    if n > 1 {
      WordCountAfterRun(s[1..], n - 1);
      assert s[1..][n - 1..] == s[n..];
    }
  }

  /** `split()` returns one word per word end of the text: the count `trim_text`
      compares with `max_words`. */
  lemma {:induction false} SplitCount(s: string)
    ensures |Split(s)| == WordCount(s)
    decreases |s|
  {
    if s != [] {
      if IsSpace(s[0]) {
        SplitCount(s[1..]);
      } else {
        var n := LeadingWordLength(s);
        WordCountAfterRun(s, n);
        SplitCount(s[n..]);
      }
    }
  }

  /** `split()` returns no words exactly when the text is all whitespace (or empty). */
  lemma {:induction false} SplitEmpty(s: string)
    ensures Split(s) == [] <==> forall i :: 0 <= i < |s| ==> IsSpace(s[i])
    decreases |s|
  {
    if s != [] && IsSpace(s[0]) {
      SplitEmpty(s[1..]);
      if forall i :: 0 <= i < |s| - 1 ==> IsSpace(s[1..][i]) {
        forall i | 0 <= i < |s| ensures IsSpace(s[i]) {
          if i > 0 {
            assert s[i] == s[1..][i - 1];
          }
        }
      }
    }
  }

  /** Removing whitespace distributes over concatenation. */
  lemma {:induction false} NonSpaceAppend(a: string, b: string)
    ensures NonSpace(a + b) == NonSpace(a) + NonSpace(b)
  {
    if a == [] {
      assert a + b == b;
    } else {
      assert (a + b)[0] == a[0];
      assert (a + b)[1..] == a[1..] + b;
      NonSpaceAppend(a[1..], b);
    }
  }

  /** A text without whitespace loses nothing when whitespace is removed. */
  lemma {:induction false} NonSpaceOfRun(w: string)
    requires forall i :: 0 <= i < |w| ==> !IsSpace(w[i])
    ensures NonSpace(w) == w
  {
    if w != [] {
      NonSpaceOfRun(w[1..]);
    }
  }

  /** The words of `s`, put back together without separators, are exactly the
      non-whitespace characters of `s` in order: `split()` drops whitespace and
      nothing else. */
  lemma {:induction false} SplitConcat(s: string)
    ensures Concat(Split(s)) == NonSpace(s)
    decreases |s|
  {
    if s != [] {
      if IsSpace(s[0]) {
        SplitConcat(s[1..]);
      } else {
        var n := LeadingWordLength(s);
        SplitConcat(s[n..]);
        assert s == s[..n] + s[n..];
        NonSpaceAppend(s[..n], s[n..]);
        NonSpaceOfRun(s[..n]);
        assert Split(s)[1..] == Split(s[n..]);
      }
    }
  }
}
