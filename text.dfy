/** String primitives the keyword pipeline is built on: Python's substring
    test `w in s` and `any(...)` over a word list, the `\d` search, and `"/".join`
    with its inverse `split("/")`. */
module Text {

  /** Python's `w in s` on strings: `w` occurs somewhere in `s` as a contiguous run. */
  predicate Contains(w: string, s: string)
    decreases |s|
  {
    w <= s || (|s| > 0 && Contains(w, s[1..]))
  }

  /** Reference definition of an occurrence: a position where `w` starts in `s`. */
  ghost predicate OccursAt(w: string, s: string, i: int)
  {
    0 <= i && i + |w| <= |s| && s[i..i + |w|] == w
  }

  /** The recursive test agrees with the positional definition, in both directions. */
  lemma {:induction false} ContainsIffOccurs(w: string, s: string)
    ensures Contains(w, s) <==> exists i :: OccursAt(w, s, i)
    decreases |s|
  {
    if w <= s {
      assert s[0..|w|] == w;
      assert OccursAt(w, s, 0);
    } else if |s| > 0 {
      ContainsIffOccurs(w, s[1..]);
      if Contains(w, s[1..]) {
        var i :| OccursAt(w, s[1..], i);
        assert s[i + 1..i + 1 + |w|] == s[1..][i..i + |w|];
        assert OccursAt(w, s, i + 1);
      }
      if exists i :: OccursAt(w, s, i) {
        var i :| OccursAt(w, s, i);
        assert i > 0;
        assert s[1..][i - 1..i - 1 + |w|] == s[i..i + |w|];
        assert OccursAt(w, s[1..], i - 1);
      }
    }
  }

  /** Text placed around an occurrence keeps it: `w in p + s + t` whenever `w in s`. */
  lemma {:induction false} ContainsInContext(w: string, p: string, s: string, t: string)
    requires Contains(w, s)
    ensures Contains(w, p + s + t)
    decreases |p|
  {
    if |p| == 0 {
      assert p + s + t == s + t;
      ContainsAppend(w, s, t);
    } else {
      assert (p + s + t)[1..] == p[1..] + s + t;
      ContainsInContext(w, p[1..], s, t);
    }
  }

  /** Appending text after an occurrence keeps it. */
  lemma {:induction false} ContainsAppend(w: string, s: string, t: string)
    requires Contains(w, s)
    ensures Contains(w, s + t)
    decreases |s|
  {
    if w <= s {
      assert (s + t)[..|w|] == s[..|w|];
    } else {
      assert (s + t)[1..] == s[1..] + t;
      ContainsAppend(w, s[1..], t);
    }
  }

  /** A string contains itself wherever it is spliced in. */
  lemma ContainsSelf(w: string, p: string, t: string)
    ensures Contains(w, p + w + t)
  {
    assert w <= w;
    ContainsInContext(w, p, w, t);
  }

  /** Every character of an occurring word is a character of the text. */
  lemma {:induction false} ContainsOnlyItsChars(w: string, s: string, c: char)
    requires Contains(w, s) && c in w
    ensures c in s
    decreases |s|
  {
    if !(w <= s) {
      ContainsOnlyItsChars(w, s[1..], c);
    }
  }

  /** Python's `any(w in s for w in words)`. */
  predicate AnyIn(words: seq<string>, s: string)
  {
    exists i :: 0 <= i < |words| && Contains(words[i], s)
  }

  /** No word of the list occurs when each starts with a character the text lacks. */
  lemma NoneOccur(words: seq<string>, s: string)
    requires forall i :: 0 <= i < |words| ==> |words[i]| > 0 && words[i][0] !in s
    ensures !AnyIn(words, s)
  {
    forall i | 0 <= i < |words| ensures !Contains(words[i], s) {
      if Contains(words[i], s) { ContainsOnlyItsChars(words[i], s, words[i][0]); }
    }
  }

  /** A word of the list found in `s` is still found in any text around `s`. */
  lemma AnyInContext(words: seq<string>, p: string, s: string, t: string)
    requires AnyIn(words, s)
    ensures AnyIn(words, p + s + t)
  {
    var i :| 0 <= i < |words| && Contains(words[i], s);
    ContainsInContext(words[i], p, s, t);
  }

  /** What Python's `\d` matches here: ASCII and full-width decimal digits. */
  predicate IsDigit(c: char)
  {
    ('0' <= c <= '9') || ('０' <= c <= '９')
  }

  /** `re.search(r'\d+', s)` succeeds: some character of `s` is a digit. */
  predicate HasDigit(s: string)
  {
    exists i :: 0 <= i < |s| && IsDigit(s[i])
  }

  /** A digit found in `s` is still found once text is placed around `s`. */
  lemma HasDigitInContext(p: string, s: string, t: string)
    requires HasDigit(s)
    ensures HasDigit(p + s + t)
  {
    var i :| 0 <= i < |s| && IsDigit(s[i]);
    assert (p + s + t)[|p| + i] == s[i];
  }

  /** `"/".join(parts)`. */
  function Join(parts: seq<string>): (r: string)
  {
    if |parts| == 0 then ""
    else if |parts| == 1 then parts[0]
    else parts[0] + "/" + Join(parts[1..])
  }

  /** `s.split("/")`: the pieces between the slashes, always at least one. */
  function Split(s: string): (parts: seq<string>)
    ensures |parts| >= 1
    decreases |s|
  {
    if |s| == 0 then [""]
    else if s[0] == '/' then [""] + Split(s[1..])
    else
      var rest := Split(s[1..]);
      [[s[0]] + rest[0]] + rest[1..]
  }

  /** `s.split("/")[0]`: everything before the first slash. */
  function FirstSegment(s: string): string
  {
    Split(s)[0]
  }

  predicate SlashFree(s: string)
  {
    '/' !in s
  }

  /** A piece with no slash splits to itself, and a slash after it starts the next piece. */
  lemma {:induction false} SplitSlashFree(a: string, t: string)
    requires SlashFree(a)
    ensures Split(a) == [a]
    ensures Split(a + "/" + t) == [a] + Split(t)
    decreases |a|
  {
    if |a| == 0 {
      assert a + "/" + t == "/" + t;
      assert ("/" + t)[1..] == t;
    } else {
      assert (a + "/" + t)[1..] == a[1..] + "/" + t;
      assert [a[0]] + a[1..] == a;
      SplitSlashFree(a[1..], t);
    }
  }

  /** `split` undoes `join` on a non-empty list of slash-free labels. */
  lemma {:induction false} SplitJoin(parts: seq<string>)
    requires |parts| >= 1
    requires forall i :: 0 <= i < |parts| ==> SlashFree(parts[i])
    ensures Split(Join(parts)) == parts
    decreases |parts|
  {
    if |parts| == 1 {
      SplitSlashFree(parts[0], "");
    } else {
      SplitSlashFree(parts[0], Join(parts[1..]));
      SplitJoin(parts[1..]);
    }
  }

  /** No element occurs twice. */
  predicate Distinct(s: seq<string>)
  {
    forall i, j :: 0 <= i < j < |s| ==> s[i] != s[j]
  }
}
