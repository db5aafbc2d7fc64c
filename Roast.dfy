/**
 * The roast record the result endpoint delivers: its four keys, the limits the
 * prompt asks the model to respect, and the constant returned when generation fails.
 */
module Roast {
  import opened Json

  const HeadlineKey := "headline"
  const ScoreKey := "score"
  const BodyKey := "roast_body"
  const DatingKey := "dating_life"
  const RoastKeys: set<string> := {HeadlineKey, ScoreKey, BodyKey, DatingKey}

  predicate IsSpace(c: char) {
    c == ' ' || c == '\n' || c == '\t'
  }

  /** The number of maximal runs of non-blank characters in `s`; `inWord` says whether one is already open. */
  function Words(s: string, inWord: bool): nat {
    if s == [] then 0
    else if IsSpace(s[0]) then Words(s[1..], false)
    else (if inWord then 0 else 1) + Words(s[1..], true)
  }

  function WordCount(s: string): nat {
    Words(s, false)
  }

  /** One of the four tags the prompt allows in `roast_body` starts at index `i` of `s`. */
  predicate EmphasisTagAt(s: string, i: nat)
    requires i <= |s|
  {
    var rest := s[i..];
    "<b>" <= rest || "<i>" <= rest || "</b>" <= rest || "</i>" <= rest
  }

  /** The prompt forbids `*`, `_` and backticks, and allows markup only through `<b>` and `<i>` tags. */
  predicate EmphasisOnly(s: string) {
    forall i :: 0 <= i < |s| ==>
      s[i] != '*' && s[i] != '_' && s[i] != '`' && (s[i] == '<' ==> EmphasisTagAt(s, i))
  }

  /**
   * A complete roast record: exactly the four keys, a headline of at most four
   * words, an integer score from 0 to 100, a body with emphasis markup only and a
   * dating-life warning of at most six words.
   */
  predicate IsRoastResult(v: Json) {
    && v.JObj?
    && v.fields.Keys == RoastKeys
    && v.fields[HeadlineKey].JStr? && WordCount(v.fields[HeadlineKey].s) <= 4
    && v.fields[ScoreKey].JNum? && 0 <= v.fields[ScoreKey].n <= 100
    && v.fields[BodyKey].JStr? && EmphasisOnly(v.fields[BodyKey].s)
    && v.fields[DatingKey].JStr? && WordCount(v.fields[DatingKey].s) <= 6
  }

  /** The record returned whenever the model cannot be used or its answer cannot be used. */
  const FallbackHeadline := "Basic Taste"
  const FallbackBody := "The AI is speechless at your taste."
  const FallbackDating := "Unknown"

  function FallbackRoast(): Json {
    JObj(map[
      HeadlineKey := JStr(FallbackHeadline),
      ScoreKey := JNum(0),
      BodyKey := JStr(FallbackBody),
      DatingKey := JStr(FallbackDating)
    ])
  }

  /** Whether the last character seen after reading `s` (starting with `inWord`) was part of a word. */
  function EndsInWord(s: string, inWord: bool): bool {
    if s == [] then inWord else !IsSpace(s[|s| - 1])
  }

  lemma {:induction false} WordsAppend(a: string, b: string, inWord: bool)
    ensures Words(a + b, inWord) == Words(a, inWord) + Words(b, EndsInWord(a, inWord))
  {
    if a == [] {
      assert a + b == b;
    } else {
      assert (a + b)[1..] == a[1..] + b;
      WordsAppend(a[1..], b, !IsSpace(a[0]));
    }
  }

  /** No character of `w` is blank. */
  predicate Blankless(w: string) {
    forall i :: 0 <= i < |w| ==> !IsSpace(w[i])
  }

  /** A non-empty run of non-blank characters is one word, or none when a word is already open. */
  lemma {:induction false} WordsOfRun(w: string, inWord: bool)
    requires Blankless(w)
    ensures Words(w, inWord) == if w == [] || inWord then 0 else 1
  {
    if w != [] {
      assert !IsSpace(w[0]);
      assert Blankless(w[1..]) by {
        forall i | 0 <= i < |w[1..]|
          ensures !IsSpace(w[1..][i])
        {
          assert w[1..][i] == w[i + 1];
        }
      }
      WordsOfRun(w[1..], true);
    }
  }

  /** Two non-empty runs of non-blank characters separated by one space are two words. */
  lemma TwoWords(a: string, b: string)
    requires a != [] && b != [] && Blankless(a) && Blankless(b)
    ensures WordCount(a + " " + b) == 2
  {
    WordsOfRun(a, false);
    WordsOfRun(b, false);
    WordsAppend(a, " " + b, false);
    WordsAppend(" ", b, true);
    assert (" " + b)[1..] == b;
    assert a + " " + b == a + (" " + b);
  }

  lemma FallbackHeadlineSplit()
    ensures "Basic" + " " + "Taste" == FallbackHeadline
    ensures Blankless("Basic") && Blankless("Taste")
  {
  }

  lemma FallbackHeadlineWords()
    ensures WordCount(FallbackHeadline) == 2
  {
    FallbackHeadlineSplit();
    TwoWords("Basic", "Taste");
  }

  lemma FallbackDatingWords()
    ensures WordCount(FallbackDating) == 1
  {
    assert Blankless(FallbackDating);
    WordsOfRun(FallbackDating, false);
  }

  /** Emphasis-only text stays emphasis-only when another such text is appended. */
  lemma EmphasisOnlyAppend(a: string, b: string)
    requires EmphasisOnly(a) && EmphasisOnly(b)
    ensures EmphasisOnly(a + b)
  {
    var s := a + b;
    forall i | 0 <= i < |s|
      ensures s[i] != '*' && s[i] != '_' && s[i] != '`' && (s[i] == '<' ==> EmphasisTagAt(s, i))
    {
      if i < |a| {
        assert s[i] == a[i] && s[i..] == a[i..] + b;
        if s[i] == '<' {
          assert EmphasisTagAt(a, i);
        }
      } else {
        assert s[i] == b[i - |a|] && s[i..] == b[i - |a|..];
        if s[i] == '<' {
          assert EmphasisTagAt(b, i - |a|);
        }
      }
    }
  }

  /** The fallback body in four pieces, each free of forbidden markup. */
  lemma FallbackBodySplit()
    ensures "The AI is " + "speechless" + " at your " + "taste." == FallbackBody
  {
  }

  lemma FallbackBodyHead()
    ensures EmphasisOnly("The AI is ") && EmphasisOnly("speechless")
  {
  }

  lemma FallbackBodyEnd()
    ensures EmphasisOnly(" at your ") && EmphasisOnly("taste.")
  {
  }

  lemma FallbackBodyPlain()
    ensures EmphasisOnly(FallbackBody)
  {
    var c1, c2, c3, c4 := "The AI is ", "speechless", " at your ", "taste.";
    FallbackBodySplit();
    FallbackBodyHead();
    FallbackBodyEnd();
    EmphasisOnlyAppend(c1, c2);
    EmphasisOnlyAppend(c1 + c2, c3);
    EmphasisOnlyAppend(c1 + c2 + c3, c4);
  }

  /** The four checks of a roast record, one per field. */
  lemma RecordIsRoastResult(headline: string, score: int, body: string, dating: string)
    requires WordCount(headline) <= 4 && 0 <= score <= 100
    requires EmphasisOnly(body) && WordCount(dating) <= 6
    ensures IsRoastResult(JObj(map[
      HeadlineKey := JStr(headline), ScoreKey := JNum(score),
      BodyKey := JStr(body), DatingKey := JStr(dating)]))
  {
  }

  /** The fallback is itself a complete roast record, so no caller ever sees a partial result. */
  lemma FallbackIsRoastResult()
    ensures IsRoastResult(FallbackRoast())
  {
    FallbackHeadlineWords();
    FallbackBodyPlain();
    FallbackDatingWords();
    RecordIsRoastResult(FallbackHeadline, 0, FallbackBody, FallbackDating);
  }
}
