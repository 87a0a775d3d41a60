/**
 * Column-name normalisation (`norm` in streamlit/app3.py) and the Python string
 * operations it is built from: `strip`, `lower`, `replace("_", "")`, `split()`
 * and `"".join(...)`.
 */
module Text {

  /** Python's `str.isspace()` for a single character. */
  predicate IsSpace(c: char) {
    var n := c as int;
    n == 0x20 || 0x09 <= n <= 0x0D || 0x1C <= n <= 0x1F || n == 0x85 || n == 0xA0 ||
    n == 0x1680 || 0x2000 <= n <= 0x200A || n == 0x2028 || n == 0x2029 ||
    n == 0x202F || n == 0x205F || n == 0x3000
  }

  predicate IsUpper(c: char) {
    'A' <= c <= 'Z'
  }

  /** `str.lower()` on one character (ASCII letters only). */
  function LowerChar(c: char): char {
    if IsUpper(c) then (c as int + 32) as char else c
  }

  predicate Spaceless(s: string) {
    forall i :: 0 <= i < |s| ==> !IsSpace(s[i])
  }

  predicate EndsWith(s: string, suffix: string) {
    |suffix| <= |s| && s[|s| - |suffix|..] == suffix
  }

  /** `s.lstrip()`. */
  function StripLeading(s: string): string {
    if s != [] && IsSpace(s[0]) then StripLeading(s[1..]) else s
  }

  /** `s.rstrip()`. */
  function StripTrailing(s: string): string {
    if s != [] && IsSpace(s[|s| - 1]) then StripTrailing(s[..|s| - 1]) else s
  }

  /** `s.strip()`. */
  function Strip(s: string): string {
    StripTrailing(StripLeading(s))
  }

  /** `s.lower()`. */
  function Lower(s: string): string {
    if s == [] then [] else [LowerChar(s[0])] + Lower(s[1..])
  }

  /** `s.replace(c, "")`. */
  function Remove(s: string, c: char): string {
    if s == [] then [] else (if s[0] == c then [] else [s[0]]) + Remove(s[1..], c)
  }

  /** `s.split()` with no separator: the maximal runs of non-whitespace characters. */
  function Split(s: string): seq<string> {
    SplitFrom(s, [])
  }

  /** Splitting `s` when `word` has already been read and not yet emitted. */
  function SplitFrom(s: string, word: string): seq<string>
    decreases |s|
  {
    if s == [] then Flush(word)
    else if IsSpace(s[0]) then Flush(word) + SplitFrom(s[1..], [])
    else SplitFrom(s[1..], word + [s[0]])
  }

  function Flush(word: string): seq<string> {
    if word == [] then [] else [word]
  }

  /** `"".join(words)`. */
  function Join(words: seq<string>): string {
    if words == [] then [] else words[0] + Join(words[1..])
  }

  /** `norm` (streamlit/app3.py:120-122), step by step as the source writes it. */
  function NormSteps(s: string): string {
    Join(Split(Remove(Lower(Strip(s)), '_')))
  }

  /**
   * What `norm` computes, in one pass: every whitespace character and every
   * underscore is dropped, every other character is lower-cased.  The rest of
   * the model uses this form; `NormMatchesSteps` proves it equal to `NormSteps`.
   */
  function Norm(s: string): string {
    if s == [] then [] else
      (if IsSpace(s[0]) || s[0] == '_' then [] else [LowerChar(s[0])]) + Norm(s[1..])
  }

  function RemoveSpaces(s: string): string {
    if s == [] then [] else (if IsSpace(s[0]) then [] else [s[0]]) + RemoveSpaces(s[1..])
  }

  lemma {:induction false} JoinAppend(a: seq<string>, b: seq<string>)
    ensures Join(a + b) == Join(a) + Join(b)
  {
    if a != [] {
      assert (a + b)[1..] == a[1..] + b;
      JoinAppend(a[1..], b);
      assert a + b == [a[0]] + (a[1..] + b);
    } else {
      assert a + b == b;
    }
  }

  lemma {:induction false} JoinSplitFrom(s: string, word: string)
    ensures Join(SplitFrom(s, word)) == word + RemoveSpaces(s)
    decreases |s|
  {
    if s == [] {
    } else if IsSpace(s[0]) {
      JoinAppend(Flush(word), SplitFrom(s[1..], []));
      JoinSplitFrom(s[1..], []);
    } else {
      JoinSplitFrom(s[1..], word + [s[0]]);
      assert word + [s[0]] + RemoveSpaces(s[1..]) == word + ([s[0]] + RemoveSpaces(s[1..]));
    }
  }

  /** Joining the words of `s` back together is `s` with its whitespace removed. */
  lemma JoinSplit(s: string)
    ensures Join(Split(s)) == RemoveSpaces(s)
  {
    JoinSplitFrom(s, []);
  }

  lemma {:induction false} NormOfSteps(s: string)
    ensures RemoveSpaces(Remove(Lower(s), '_')) == Norm(s)
  {
    if s != [] {
      NormOfSteps(s[1..]);
      var c := s[0];
      assert IsSpace(LowerChar(c)) == IsSpace(c);
      assert (LowerChar(c) == '_') == (c == '_');
      var rest := Remove(Lower(s[1..]), '_');
      if c == '_' {
        assert Remove(Lower(s), '_') == rest;
      } else {
        assert Remove(Lower(s), '_') == [LowerChar(c)] + rest;
        assert ([LowerChar(c)] + rest)[1..] == rest;
      }
    }
  }

  lemma {:induction false} NormAppend(a: string, b: string)
    ensures Norm(a + b) == Norm(a) + Norm(b)
  {
    if a != [] {
      assert (a + b)[1..] == a[1..] + b;
      NormAppend(a[1..], b);
    } else {
      assert a + b == b;
    }
  }

  lemma {:induction false} NormStripLeading(s: string)
    ensures Norm(StripLeading(s)) == Norm(s)
  {
    if s != [] && IsSpace(s[0]) {
      NormStripLeading(s[1..]);
    }
  }

  lemma {:induction false} NormStripTrailing(s: string)
    ensures Norm(StripTrailing(s)) == Norm(s)
  {
    if s != [] && IsSpace(s[|s| - 1]) {
      var init := s[..|s| - 1];
      NormStripTrailing(init);
      assert s == init + [s[|s| - 1]];
      NormAppend(init, [s[|s| - 1]]);
    }
  }

  /** The one-pass description agrees with the source's chain of string operations. */
  lemma NormMatchesSteps(s: string)
    ensures NormSteps(s) == Norm(s)
  {
    var t := Strip(s);
    NormStripLeading(s);
    NormStripTrailing(StripLeading(s));
    JoinSplit(Remove(Lower(t), '_'));
    NormOfSteps(t);
  }

  /** The result of `norm` holds no underscore, no whitespace and no upper-case letter. */
  lemma {:induction false} NormShape(s: string)
    ensures '_' !in Norm(s)
    ensures forall i :: 0 <= i < |Norm(s)| ==> !IsSpace(Norm(s)[i]) && !IsUpper(Norm(s)[i])
  {
    if s != [] {
      NormShape(s[1..]);
    }
  }

  /** Normalising twice is normalising once. */
  lemma {:induction false} NormIdempotent(s: string)
    ensures Norm(Norm(s)) == Norm(s)
  {
    if s != [] {
      NormIdempotent(s[1..]);
      var head := if IsSpace(s[0]) || s[0] == '_' then [] else [LowerChar(s[0])];
      NormAppend(head, Norm(s[1..]));
    }
  }
}
