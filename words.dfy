/** What `split(/\s+/)` keeps of a text: the words, glued back together,
    are the text without its spaces. */
module Words {
  import opened Text

  /** The pieces glued back together, `parts.join('')`. */
  function Concat(parts: seq<string>): string
    decreases |parts|
  {
    if parts == [] then "" else parts[0] + Concat(parts[1..])
  }

  /** `s` with every character that `sep` picks removed. */
  function Without(s: string, sep: char -> bool): string
    decreases |s|
  {
    if s == [] then "" else (if sep(s[0]) then "" else [s[0]]) + Without(s[1..], sep)
  }

  function SpaceP(): char -> bool {
    (c: char) => IsSpace(c)
  }

  lemma {:induction false} WithoutAppend(a: string, b: string, sep: char -> bool)
    ensures Without(a + b, sep) == Without(a, sep) + Without(b, sep)
    decreases |a|
  {
    if a != [] {
      assert (a + b)[0] == a[0] && (a + b)[1..] == a[1..] + b;
      WithoutAppend(a[1..], b, sep);
    } else {
      assert a + b == b;
    }
  }

  lemma {:induction false} WithoutKeeps(w: string, sep: char -> bool)
    requires forall i :: 0 <= i < |w| ==> !sep(w[i])
    ensures Without(w, sep) == w
    decreases |w|
  {
    if w != [] {
      WithoutKeeps(w[1..], sep);
    }
  }

  lemma {:induction false} WithoutDrops(r: string, sep: char -> bool)
    requires forall i :: 0 <= i < |r| ==> sep(r[i])
    ensures Without(r, sep) == ""
    decreases |r|
  {
    if r != [] {
      WithoutDrops(r[1..], sep);
    }
  }

  lemma ConcatCons(x: string, rest: seq<string>)
    ensures Concat([x] + rest) == x + Concat(rest)
  {
    assert ([x] + rest)[1..] == rest;
  }

  /** A word followed by a run of separators contributes just the word. */
  lemma WithoutAfterWord(word: string, run: string, rest: string, sep: char -> bool)
    requires forall i :: 0 <= i < |word| ==> !sep(word[i])
    requires forall i :: 0 <= i < |run| ==> sep(run[i])
    ensures Without(word + run + rest, sep) == word + Without(rest, sep)
  {
    assert Without(word + run, sep) == word by {
      WithoutKeeps(word, sep);
      WithoutDrops(run, sep);
      WithoutAppend(word, run, sep);
      assert word + "" == word;
    }
    WithoutAppend(word + run, rest, sep);
  }

  lemma SplitThree(s: string, i: nat, j: nat)
    requires i <= j <= |s|
    ensures s == s[..i] + s[i..j] + s[j..]
  {
    assert s[..j] == s[..i] + s[i..j];
  }

  /** One word of the split: a word, its run of spaces and the rest give
      the word followed by what the rest gives. */
  lemma KeepsTextStep(s: string, word: string, run: string, rest: string, words: seq<string>)
    requires s == word + run + rest
    requires NoSpace(word) && forall i :: 0 <= i < |run| ==> IsSpace(run[i])
    requires Concat(words) == Without(rest, SpaceP())
    ensures Concat([word] + words) == Without(s, SpaceP())
  {
    ConcatCons(word, words);
    assert forall i :: 0 <= i < |word| ==> !SpaceP()(word[i]);
    assert forall i :: 0 <= i < |run| ==> SpaceP()(run[i]);
    WithoutAfterWord(word, run, rest, SpaceP());
  }

  /** Splitting loses only the spaces: the words, glued back together,
      are the text with its spaces removed, in order. */
  lemma {:induction false} SplitOnSpacesKeepsText(s: string)
    ensures Concat(SplitOnSpaces(s)) == Without(s, SpaceP())
    decreases |s|
  {
    var w := WordLength(s);
    if w == |s| {
      assert forall i :: 0 <= i < |s| ==> !SpaceP()(s[i]);
      WithoutKeeps(s, SpaceP());
      ConcatCons(s, []);
    } else {
      var sp := SpaceLength(s[w..]);
      var rest := s[w + sp..];
      SplitOnSpacesKeepsText(rest);
      SplitThree(s, w, w + sp);
      var run := s[w..w + sp];
      forall i | 0 <= i < |run| ensures IsSpace(run[i]) {
        assert run[i] == s[w..][i];
      }
      KeepsTextStep(s, s[..w], run, rest, SplitOnSpaces(rest));
    }
  }
}
