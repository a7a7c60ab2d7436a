/**
 * The few pieces of Python string behaviour the generator relies on:
 * `str.split()` with no separator, the `in` substring test and the
 * truthiness of optional strings used by `a or b`.
 */
module Text {
  import opened Wrappers

  /** Python's `str.isspace()` for one character (the set `str.split()` and `\s` use). */
  predicate IsSpace(c: char) {
    c == ' ' || c == '\t' || c == '\n' || c == '\r' || c == '\U{000B}' || c == '\U{000C}'
    || c == '\U{001C}' || c == '\U{001D}' || c == '\U{001E}' || c == '\U{001F}'
    || c == '\U{0085}' || c == '\U{00A0}' || c == '\U{1680}'
    || ('\U{2000}' <= c <= '\U{200A}')
    || c == '\U{2028}' || c == '\U{2029}' || c == '\U{202F}' || c == '\U{205F}' || c == '\U{3000}'
  }

  predicate NoSpace(s: string) {
    forall i :: 0 <= i < |s| ==> !IsSpace(s[i])
  }

  /** A well-formed token of `str.split()`: non-empty and free of whitespace. */
  predicate IsWord(s: string) {
    s != [] && NoSpace(s)
  }

  /** `s` with every whitespace character removed. */
  function DropSpaces(s: string): string {
    if s == [] then []
    else if IsSpace(s[0]) then DropSpaces(s[1..])
    else [s[0]] + DropSpaces(s[1..])
  }

  function Concat(ts: seq<string>): string {
    if ts == [] then [] else ts[0] + Concat(ts[1..])
  }

  /** The tokens joined by single spaces (Python's `" ".join(ts)`). */
  function JoinSpace(ts: seq<string>): string {
    if |ts| == 0 then []
    else if |ts| == 1 then ts[0]
    else ts[0] + " " + JoinSpace(ts[1..])
  }

  function Flush(word: string): seq<string> {
    if word == [] then [] else [word]
  }

  /** The scan of `str.split()`: `word` is the token being read. */
  function SplitWith(s: string, word: string): seq<string>
    decreases |s|
  {
    if s == [] then Flush(word)
    else if IsSpace(s[0]) then Flush(word) + SplitWith(s[1..], [])
    else SplitWith(s[1..], word + [s[0]])
  }

  /** Python's `s.split()`: the maximal runs of non-whitespace characters, in order. */
  function Split(s: string): seq<string> {
    SplitWith(s, [])
  }

  lemma {:induction false} SplitWithWords(s: string, word: string)
    requires NoSpace(word)
    ensures forall t :: t in SplitWith(s, word) ==> IsWord(t)
    ensures Concat(SplitWith(s, word)) == word + DropSpaces(s)
    decreases |s|
  {
    if s == [] {
    } else if IsSpace(s[0]) {
      SplitWithWords(s[1..], []);
      ConcatAppend(Flush(word), SplitWith(s[1..], []));
    } else {
      SplitWithWords(s[1..], word + [s[0]]);
    }
  }

  lemma {:induction false} ConcatAppend(a: seq<string>, b: seq<string>)
    ensures Concat(a + b) == Concat(a) + Concat(b)
  {
    if a == [] {
      assert a + b == b;
    } else {
      assert (a + b)[1..] == a[1..] + b;
      ConcatAppend(a[1..], b);
    }
  }

  /**
   * Every token of `s.split()` is non-empty and whitespace-free, and the tokens
   * together hold exactly the non-whitespace characters of `s`, in order.
   */
  lemma SplitSpec(s: string)
    ensures forall t :: t in Split(s) ==> IsWord(t)
    ensures Concat(Split(s)) == DropSpaces(s)
  {
    SplitWithWords(s, []);
  }

  lemma {:induction false} SplitWithSkipsWord(w: string, rest: string, word: string)
    requires NoSpace(w)
    ensures SplitWith(w + rest, word) == SplitWith(rest, word + w)
    decreases |w|
  {
    if w != [] {
      assert (w + rest)[0] == w[0];
      assert (w + rest)[1..] == w[1..] + rest;
      SplitWithSkipsWord(w[1..], rest, word + [w[0]]);
      assert word + [w[0]] + w[1..] == word + w;
    } else {
      assert w + rest == rest && word + w == word;
    }
  }

  /**
   * Whitespace separates: the tokens of `a + [c] + b` for a whitespace `c` are
   * the tokens of `a` followed by those of `b`. With `SplitWord` and
   * `SplitEmpty` this fixes `Split` on every text: the tokens are exactly the
   * maximal whitespace-free runs, so repeated, leading and trailing whitespace
   * of any kind yields no empty token.
   */
  lemma SplitAtSpace(a: string, c: char, b: string)
    requires IsSpace(c)
    ensures Split(a + [c] + b) == Split(a) + Split(b)
  {
    SplitWithAtSpace(a, c, b, []);
  }

  lemma {:induction false} SplitWithAtSpace(a: string, c: char, b: string, word: string)
    requires IsSpace(c)
    ensures SplitWith(a + [c] + b, word) == SplitWith(a, word) + SplitWith(b, [])
    decreases |a|
  {
    if a == [] {
      assert a + [c] + b == [c] + b;
      assert ([c] + b)[1..] == b;
    } else {
      assert (a + [c] + b)[0] == a[0];
      assert (a + [c] + b)[1..] == a[1..] + [c] + b;
      if IsSpace(a[0]) {
        SplitWithAtSpace(a[1..], c, b, []);
      } else {
        SplitWithAtSpace(a[1..], c, b, word + [a[0]]);
      }
    }
  }

  /** A text without whitespace is one token, unless it is empty. */
  lemma SplitWord(w: string)
    requires IsWord(w)
    ensures Split(w) == [w]
  {
    SplitWithSkipsWord(w, [], []);
    assert w + [] == w && [] + w == w;
  }

  lemma SplitEmpty()
    ensures Split("") == []
  {
  }

  /** Splitting undoes joining: `" ".join(ts).split() == ts` for well-formed tokens. */
  lemma {:induction false} SplitJoin(ts: seq<string>)
    requires forall t :: t in ts ==> IsWord(t)
    ensures Split(JoinSpace(ts)) == ts
  {
    if ts != [] {
      assert ts[0] in ts;
    }
    if |ts| == 1 {
      SplitWithSkipsWord(ts[0], [], []);
      assert ts[0] + [] == ts[0];
    } else if |ts| > 1 {
      var rest := JoinSpace(ts[1..]);
      assert ts[0] + " " + rest == ts[0] + (" " + rest);
      SplitWithSkipsWord(ts[0], " " + rest, []);
      assert (" " + rest)[1..] == rest;
      forall t | t in ts[1..] ensures IsWord(t) {
        assert t in ts;
      }
      SplitJoin(ts[1..]);
      assert [] + ts[0] == ts[0];
    }
  }

  /** `sub` occurs in `s` starting at index `i`. */
  predicate OccursAt(s: string, sub: string, i: int) {
    0 <= i && i + |sub| <= |s| && s[i..i + |sub|] == sub
  }

  /** Python's `sub in s`, searched left to right. */
  function Contains(s: string, sub: string): bool
    decreases |s|
  {
    |sub| <= |s| && (s[..|sub|] == sub || Contains(s[1..], sub))
  }

  /** The left-to-right search finds `sub` exactly when it occurs somewhere in `s`. */
  lemma {:induction false} ContainsSpec(s: string, sub: string)
    ensures Contains(s, sub) <==> exists i :: OccursAt(s, sub, i)
    decreases |s|
  {
    if |sub| <= |s| && s[..|sub|] != sub {
      ContainsSpec(s[1..], sub);
      if Contains(s[1..], sub) {
        var i :| OccursAt(s[1..], sub, i);
        assert s[1..][i..i + |sub|] == s[i + 1..i + 1 + |sub|];
        assert OccursAt(s, sub, i + 1);
      }
      if i :| OccursAt(s, sub, i) {
        assert i != 0;
        assert s[1..][i - 1..i - 1 + |sub|] == s[i..i + |sub|];
        assert OccursAt(s[1..], sub, i - 1);
      }
    } else if |sub| <= |s| {
      assert OccursAt(s, sub, 0);
    } else {
      if i :| OccursAt(s, sub, i) {
        assert false;
      }
    }
  }

  /** Python truthiness of an optional string: present and non-empty. */
  predicate Given(o: Option<string>) {
    o.Some? && o.value != ""
  }

  /** Python's `a or b` where `a` is an optional string and `b` a string. */
  function Or(a: Option<string>, b: string): string {
    if Given(a) then a.value else b
  }
}
