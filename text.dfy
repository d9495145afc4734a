/**
 * The Python string built-ins the bot and the event functions rely on:
 * `str.lower`, the `in` substring test, `str.split(sep)`, `str.split()`,
 * `sep.join(...)` and `str.startswith`.
 */
module Text {

  /** Whitespace as `str.split()` and `str.isspace` see it in the ASCII range:
      tab, line feed, vertical tab, form feed, carriage return, the four
      separator controls 0x1C-0x1F and space. */
  predicate IsSpace(c: char) {
    (9 <= c as int <= 13) || (28 <= c as int <= 32)
  }

  predicate NoSpace(s: string) {
    forall i | 0 <= i < |s| :: !IsSpace(s[i])
  }

  /** `str.lower` on one character (ASCII letters only). */
  function LowerChar(c: char): char {
    if 'A' <= c <= 'Z' then (c as int + 32) as char else c
  }

  /** `str.lower` on a string (ASCII letters only). */
  function Lower(s: string): string {
    seq(|s|, i requires 0 <= i < |s| => LowerChar(s[i]))
  }

  lemma LowerIdempotent(s: string)
    ensures Lower(Lower(s)) == Lower(s)
  {
  }

  // ---------------------------------------------------------------------------
  // `needle in hay` on strings
  // ---------------------------------------------------------------------------

  predicate OccursAt(needle: string, hay: string, i: int) {
    0 <= i && i + |needle| <= |hay| && hay[i..i + |needle|] == needle
  }

  /** Python's `needle in hay`: true when `needle` is a contiguous piece of `hay`
      (so the empty string is in every string). */
  predicate IsSubstring(needle: string, hay: string) {
    exists i | 0 <= i <= |hay| - |needle| :: OccursAt(needle, hay, i)
  }

  lemma EmptyIsSubstring(hay: string)
    ensures IsSubstring("", hay)
  {
    assert OccursAt("", hay, 0);
  }

  lemma SubstringOfSelf(s: string)
    ensures IsSubstring(s, s)
  {
    assert OccursAt(s, s, 0);
  }

  lemma SubstringInLeft(needle: string, a: string, b: string)
    requires IsSubstring(needle, a)
    ensures IsSubstring(needle, a + b)
  {
    var i :| 0 <= i <= |a| - |needle| && OccursAt(needle, a, i);
    assert (a + b)[i..i + |needle|] == a[i..i + |needle|];
    assert OccursAt(needle, a + b, i);
  }

  lemma SubstringInRight(needle: string, a: string, b: string)
    requires IsSubstring(needle, b)
    ensures IsSubstring(needle, a + b)
  {
    var i :| 0 <= i <= |b| - |needle| && OccursAt(needle, b, i);
    assert (a + b)[|a| + i..|a| + i + |needle|] == b[i..i + |needle|];
    assert OccursAt(needle, a + b, |a| + i);
  }

  /** `s.startswith(prefix)` */
  predicate StartsWith(s: string, prefix: string) {
    |prefix| <= |s| && s[..|prefix|] == prefix
  }

  // ---------------------------------------------------------------------------
  // `sep.join(parts)`
  // ---------------------------------------------------------------------------

  /** `sep.join(parts)`: the parts with `sep` between neighbours; "" for no parts. */
  function Join(parts: seq<string>, sep: string): string
    decreases |parts|
  {
    if |parts| == 0 then ""
    else if |parts| == 1 then parts[0]
    else parts[0] + sep + Join(parts[1..], sep)
  }

  /** Every part can be found in the joined string. */
  lemma {:induction false} JoinMentionsEach(parts: seq<string>, sep: string, k: nat)
    requires k < |parts|
    ensures IsSubstring(parts[k], Join(parts, sep))
    decreases |parts|
  {
    if |parts| == 1 {
      SubstringOfSelf(parts[0]);
    } else if k == 0 {
      SubstringOfSelf(parts[0]);
      SubstringInLeft(parts[0], parts[0], sep);
      SubstringInLeft(parts[0], parts[0] + sep, Join(parts[1..], sep));
    } else {
      JoinMentionsEach(parts[1..], sep, k - 1);
      SubstringInRight(parts[k], parts[0] + sep, Join(parts[1..], sep));
    }
  }

  lemma {:induction false} JoinConsHead(a: string, p: string, ps: seq<string>, sep: string)
    ensures Join([a + p] + ps, sep) == a + Join([p] + ps, sep)
  {
    if |ps| > 0 {
      assert ([a + p] + ps)[1..] == ps;
      assert ([p] + ps)[1..] == ps;
    }
  }

  // ---------------------------------------------------------------------------
  // `s.split(c)` for a one-character separator
  // ---------------------------------------------------------------------------

  /** `s.split(c)`: the pieces between the occurrences of `c`, empty pieces
      included; always at least one piece (`"".split("/") == [""]`). */
  function Split(s: string, c: char): (r: seq<string>)
    ensures |r| >= 1
    decreases |s|
  {
    if |s| == 0 then [""]
    else
      var rest := Split(s[1..], c);
      if s[0] == c then [""] + rest else [[s[0]] + rest[0]] + rest[1..]
  }

  /** No piece contains the separator. */
  lemma {:induction false} SplitPiecesFree(s: string, c: char)
    ensures forall p | p in Split(s, c) :: c !in p
    decreases |s|
  {
    if |s| > 0 {
      SplitPiecesFree(s[1..], c);
    }
  }

  /** Joining the pieces with the separator gives the string back. */
  lemma {:induction false} JoinSplit(s: string, c: char)
    ensures Join(Split(s, c), [c]) == s
    decreases |s|
  {
    if |s| > 0 {
      var rest := Split(s[1..], c);
      JoinSplit(s[1..], c);
      if s[0] == c {
        assert ([""] + rest)[1..] == rest;
        assert s == [c] + s[1..];
      } else {
        assert rest == [rest[0]] + rest[1..];
        JoinConsHead([s[0]], rest[0], rest[1..], [c]);
        assert s == [s[0]] + s[1..];
      }
    }
  }

  lemma {:induction false} SplitNoSeparator(x: string, c: char)
    requires c !in x
    ensures Split(x, c) == [x]
    decreases |x|
  {
    if |x| > 0 {
      SplitNoSeparator(x[1..], c);
      assert x == [x[0]] + x[1..];
    }
  }

  lemma {:induction false} SplitAfterPiece(x: string, y: string, c: char)
    requires c !in x
    ensures Split(x + [c] + y, c) == [x] + Split(y, c)
    decreases |x|
  {
    var s := x + [c] + y;
    if |x| == 0 {
      assert s[1..] == y;
    } else {
      assert s[1..] == x[1..] + [c] + y;
      SplitAfterPiece(x[1..], y, c);
      assert x == [x[0]] + x[1..];
    }
  }

  /** Splitting separator-free pieces joined by the separator gives the pieces back. */
  lemma {:induction false} SplitJoin(parts: seq<string>, c: char)
    requires |parts| >= 1
    requires forall p | p in parts :: c !in p
    ensures Split(Join(parts, [c]), c) == parts
    decreases |parts|
  {
    if |parts| == 1 {
      SplitNoSeparator(parts[0], c);
    } else {
      SplitAfterPiece(parts[0], Join(parts[1..], [c]), c);
      SplitJoin(parts[1..], c);
      assert parts == [parts[0]] + parts[1..];
    }
  }

  // ---------------------------------------------------------------------------
  // `s.split()` with no separator
  // ---------------------------------------------------------------------------

  /** The words of `s`, given the word read so far. */
  function WordsFrom(s: string, word: string): (r: seq<string>)
    requires NoSpace(word)
    ensures forall w | w in r :: w != "" && NoSpace(w)
    decreases |s|
  {
    if |s| == 0 then
      (if word == "" then [] else [word])
    else if IsSpace(s[0]) then
      (if word == "" then [] else [word]) + WordsFrom(s[1..], "")
    else
      WordsFrom(s[1..], word + [s[0]])
  }

  /** `s.split()`: the maximal runs of non-whitespace characters, in order;
      leading, trailing and repeated whitespace produce no empty words. */
  function Words(s: string): (r: seq<string>)
    ensures forall w | w in r :: w != "" && NoSpace(w)
  {
    WordsFrom(s, "")
  }

  lemma {:induction false} WordsFromNoSpace(s: string, word: string)
    requires NoSpace(word) && NoSpace(s)
    ensures WordsFrom(s, word) == if word + s == "" then [] else [word + s]
    decreases |s|
  {
    if |s| == 0 {
      assert word + s == word;
    } else {
      WordsFromNoSpace(s[1..], word + [s[0]]);
      assert (word + [s[0]]) + s[1..] == word + s;
    }
  }

  /** A non-empty string without whitespace is a single word. */
  lemma OneWord(s: string)
    requires s != "" && NoSpace(s)
    ensures Words(s) == [s]
  {
    WordsFromNoSpace(s, "");
    assert "" + s == s;
  }
}
