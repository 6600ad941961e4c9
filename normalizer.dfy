/**
  The text normaliser applied to every slogan before any prompt is built:
  each full-width comma becomes a comma followed by a space, and each
  full-width period is deleted (two chained `str.replace` calls).
 */
module Normalizer {

  const FULL_WIDTH_COMMA: char := '，'
  const FULL_WIDTH_PERIOD: char := '。'

  /**
    `s.replace(needle, rep)` for a one-character needle: every occurrence of
    `needle` is replaced by `rep`, everything else is kept in order.
   */
  function Replace(s: string, needle: char, rep: string): (r: string)
    ensures needle !in s ==> r == s
    ensures forall c :: c in r ==> c in rep || (c in s && c != needle)
  {
    if s == [] then []
    else (if s[0] == needle then rep else [s[0]]) + Replace(s[1..], needle, rep)
  }

  /** Number of occurrences of `c` in `s`. */
  function Count(s: string, c: char): nat
  {
    if s == [] then 0 else (if s[0] == c then 1 else 0) + Count(s[1..], c)
  }

  /** `replace_punctuation`: the two replacements, comma first, then period. */
  function ReplacePunctuation(text: string): (r: string)
    ensures FULL_WIDTH_COMMA !in r && FULL_WIDTH_PERIOD !in r
    ensures FULL_WIDTH_COMMA !in text && FULL_WIDTH_PERIOD !in text ==> r == text
  {
    Replace(Replace(text, FULL_WIDTH_COMMA, ", "), FULL_WIDTH_PERIOD, "")
  }

  /** What a single character of the input turns into. */
  function NormalizeChar(c: char): string
  {
    if c == FULL_WIDTH_COMMA then ", "
    else if c == FULL_WIDTH_PERIOD then ""
    else [c]
  }

  /** Reference definition: one left-to-right pass, character by character. */
  function NormalizeOnePass(s: string): string
  {
    if s == [] then [] else NormalizeChar(s[0]) + NormalizeOnePass(s[1..])
  }

  lemma {:induction false} ReplaceAppend(a: string, b: string, needle: char, rep: string)
    ensures Replace(a + b, needle, rep) == Replace(a, needle, rep) + Replace(b, needle, rep)
  {
    if a == [] {
      assert a + b == b;
    } else {
      assert (a + b)[0] == a[0];
      assert (a + b)[1..] == a[1..] + b;
      ReplaceAppend(a[1..], b, needle, rep);
    }
  }

  /** The chained replacements agree with the one-pass reference definition. */
  lemma {:induction false} ReplacePunctuationIsOnePass(s: string)
    ensures ReplacePunctuation(s) == NormalizeOnePass(s)
  {
    if s != [] {
      var head := if s[0] == FULL_WIDTH_COMMA then ", " else [s[0]];
      var mid := Replace(s, FULL_WIDTH_COMMA, ", ");
      assert mid == head + Replace(s[1..], FULL_WIDTH_COMMA, ", ");
      ReplaceAppend(head, Replace(s[1..], FULL_WIDTH_COMMA, ", "), FULL_WIDTH_PERIOD, "");
      assert Replace(head, FULL_WIDTH_PERIOD, "") == NormalizeChar(s[0]) by {
        if s[0] == FULL_WIDTH_COMMA {
          assert head == [','] + [' '];
          ReplaceAppend([','], [' '], FULL_WIDTH_PERIOD, "");
        }
      }
      ReplacePunctuationIsOnePass(s[1..]);
    }
  }

  /** Normalising twice is normalising once. */
  lemma ReplacePunctuationIdempotent(s: string)
    ensures ReplacePunctuation(ReplacePunctuation(s)) == ReplacePunctuation(s)
  {
  }

  /** Each comma adds one character, each period removes one. */
  lemma {:induction false} ReplacePunctuationLength(s: string)
    ensures |ReplacePunctuation(s)| == |s| + Count(s, FULL_WIDTH_COMMA) - Count(s, FULL_WIDTH_PERIOD)
  {
    ReplacePunctuationIsOnePass(s);
    OnePassLength(s);
  }

  lemma {:induction false} OnePassLength(s: string)
    ensures |NormalizeOnePass(s)| == |s| + Count(s, FULL_WIDTH_COMMA) - Count(s, FULL_WIDTH_PERIOD)
  {
    if s != [] {
      OnePassLength(s[1..]);
    }
  }

  /** Normalisation commutes with concatenation of slogan fragments. */
  lemma {:induction false} ReplacePunctuationAppend(a: string, b: string)
    ensures ReplacePunctuation(a + b) == ReplacePunctuation(a) + ReplacePunctuation(b)
  {
    ReplaceAppend(a, b, FULL_WIDTH_COMMA, ", ");
    ReplaceAppend(Replace(a, FULL_WIDTH_COMMA, ", "), Replace(b, FULL_WIDTH_COMMA, ", "), FULL_WIDTH_PERIOD, "");
  }

  /** The worked example: "A，B。" becomes "A, B". */
  lemma ReplacePunctuationExample(s: string)
    requires s == "A，B。"
    ensures ReplacePunctuation(s) == "A, B"
  {
    var left, right := s[..2], s[2..];
    assert left + right == s;
    PairOfChars(left);
    PairOfChars(right);
    ReplacePunctuationAppend(left, right);
  }

  /** A two-character fragment normalises character by character. */
  lemma PairOfChars(s: string)
    requires |s| == 2
    ensures ReplacePunctuation(s) == NormalizeChar(s[0]) + NormalizeChar(s[1])
  {
    assert s == [s[0]] + [s[1]];
    ReplacePunctuationAppend([s[0]], [s[1]]);
    SingleChar(s[0]);
    SingleChar(s[1]);
  }

  lemma SingleChar(c: char)
    ensures ReplacePunctuation([c]) == NormalizeChar(c)
  {
    ReplacePunctuationIsOnePass([c]);
    assert [c][1..] == [];
  }
}
