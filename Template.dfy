/**
 * The instruction text sent to the model: constant text around the user's name
 * and music profile, which are inserted verbatim.
 */
module PromptTemplate {
  import opened Roast

  const PromptHead := "\n    You are a roast comedian who specializes in stereotyping people based on their music taste. Your goal is to be unhinged, observant, and brutally funny.\n\n    Target User: "
  const PromptMid := "\n    Music profile data: \""
  const Instructions :=
    "\"\n    Instructions:\n"
    + "    1. Identify the specific \"vibes\" (e.g., Sad boi, Gym bro, Indie pretender, Divorced dad energy).\n"
    + "    2. Make a wild, hyper-specific assumption about their personal life based on these artists.\n"
    + "    3. Be mean, but in a way that makes the user laugh.\n"
    + "    4. Do not include any Markdown formatting, no asterisks (*), no underscores (_), no backticks (`).\n"
    + "\n    Return valid JSON with these keys:\n"

  /** The quoted key as it appears in the template, e.g. `"score":`. */
  function QuotedKey(key: string): string {
    "\"" + key + "\":"
  }

  /** One line of the schema part of the template. */
  function KeyLine(key: string, description: string): string {
    "    - " + QuotedKey(key) + description + "\n"
  }

  const HeadlineHint := " A short, funny archetype describing them max 4 word (e.g., \"Gaslight Gatekeep Girlboss\" or \"Peaked in High School\")."
  const HeadlineLine := KeyLine(HeadlineKey, HeadlineHint)
  const ScoreHint := " An integer (0-100) based on you judgement."
  const ScoreLine := KeyLine(ScoreKey, ScoreHint)
  const BodyHint := " The roast text. Use <b> to emphasize the punchline. Use <i> for sarcastic side-comments."
  const BodyLine := KeyLine(BodyKey, BodyHint)
  const DatingHint := " A \"Red Flag\" warning. MAX 6 WORDS. (e.g., \"Will text ex at 3am\", \"Afraid of commitment\")."
  const DatingLine := KeyLine(DatingKey, DatingHint)

  const PromptTail := Instructions + HeadlineLine + ScoreLine + BodyLine + DatingLine + "    "

  /** The prompt for `username` and `profile` (both already rendered as text). */
  function Prompt(username: string, profile: string): string {
    PromptHead + username + PromptMid + profile + PromptTail
  }
}

/** What the prompt is made of: both inserted values verbatim, and every key of the roast record. */
module PromptProperties {
  import opened Roast
  import opened PromptTemplate

  /** `s` consists of `head`, `u`, `mid`, `p` and `tail`, in that order and each in full. */
  predicate SplicedFrom(s: string, head: string, u: string, mid: string, p: string, tail: string) {
    var i, j, k := |head|, |head| + |u|, |head| + |u| + |mid|;
    && |s| == |head| + |u| + |mid| + |p| + |tail|
    && s[..i] == head
    && s[i..j] == u
    && s[j..k] == mid
    && s[k..k + |p|] == p
    && s[k + |p|..] == tail
  }

  /** The five slices of `head + u + mid + p + tail`. */
  lemma FiveParts(head: string, u: string, mid: string, p: string, tail: string)
    ensures SplicedFrom(head + u + mid + p + tail, head, u, mid, p, tail)
  {
    var a := head + u;
    var b := a + mid;
    var c := b + p;
    assert c[..|head|] == head;
    assert c[|head|..|a|] == u;
    assert c[|a|..|b|] == mid;
  }

  /** Both values appear in full, at fixed positions, between constant text: nothing is truncated or escaped. */
  lemma PromptEmbedsVerbatim(username: string, profile: string)
    ensures SplicedFrom(Prompt(username, profile), PromptHead, username, PromptMid, profile, PromptTail)
  {
    FiveParts(PromptHead, username, PromptMid, profile, PromptTail);
  }

  /** Text spliced between the same constant parts, with the first insert of known length, gives away both inserts. */
  lemma FillDeterminesInserts(head: string, mid: string, tail: string, u1: string, p1: string, u2: string, p2: string)
    requires |u1| == |u2|
    requires head + u1 + mid + p1 + tail == head + u2 + mid + p2 + tail
    ensures u1 == u2 && p1 == p2
  {
    FiveParts(head, u1, mid, p1, tail);
    FiveParts(head, u2, mid, p2, tail);
    var s := head + u1 + mid + p1 + tail;
    var j, k := |head| + |u1|, |head| + |u1| + |mid|;
    assert u1 == s[|head|..j] == u2;
    assert |p1| == |p2|;
    assert p1 == s[k..k + |p1|] == p2;
  }

  /** Given the length of the name, the prompt determines both inserted values. */
  lemma PromptDeterminesInputs(u1: string, p1: string, u2: string, p2: string)
    requires |u1| == |u2|
    requires Prompt(u1, p1) == Prompt(u2, p2)
    ensures u1 == u2 && p1 == p2
  {
    FillDeterminesInserts(PromptHead, PromptMid, PromptTail, u1, p1, u2, p2);
  }

  /** `t` occurs in `s` starting at index `i`. */
  predicate OccursAt(t: string, s: string, i: nat) {
    i + |t| <= |s| && s[i..i + |t|] == t
  }

  ghost predicate Occurs(t: string, s: string) {
    exists i: nat :: OccursAt(t, s, i)
  }

  lemma OccursInKeyLine(key: string, description: string)
    ensures Occurs(QuotedKey(key), KeyLine(key, description))
  {
    assert OccursAt(QuotedKey(key), KeyLine(key, description), 6);
  }

  lemma OccursWithin(t: string, s: string, x: string, y: string)
    requires Occurs(t, s)
    ensures Occurs(t, x + s + y)
  {
    var i: nat :| OccursAt(t, s, i);
    assert (x + s + y)[|x| + i..|x| + i + |t|] == s[i..i + |t|];
    assert OccursAt(t, x + s + y, |x| + i);
  }

  lemma Regroup(a: string, b: string, c: string, d: string, e: string)
    ensures a + b + c + d + e == a + b + (c + d + e)
    ensures a + b + c + d + e == (a + b) + c + (d + e)
    ensures a + b + c + d + e == (a + b + c) + d + e
  {
  }

  /** Four key lines after any preamble, for any descriptions, name the four keys of the roast record. */
  lemma KeyLinesNameEveryRoastKey(preamble: string, hh: string, sh: string, bh: string, dh: string)
    ensures var h, s, b, d := KeyLine(HeadlineKey, hh), KeyLine(ScoreKey, sh), KeyLine(BodyKey, bh), KeyLine(DatingKey, dh);
      forall k :: k in RoastKeys ==> Occurs(QuotedKey(k), preamble + h + s + b + d + "    ")
  {
    var i, h, s, b, d := preamble, KeyLine(HeadlineKey, hh), KeyLine(ScoreKey, sh), KeyLine(BodyKey, bh), KeyLine(DatingKey, dh);
    var e := d + "    ";
    assert i + h + s + b + d + "    " == i + h + s + b + e;
    Regroup(i, h, s, b, e);
    OccursInKeyLine(HeadlineKey, hh);
    OccursWithin(QuotedKey(HeadlineKey), h, i, s + b + e);
    OccursInKeyLine(ScoreKey, sh);
    OccursWithin(QuotedKey(ScoreKey), s, i + h, b + e);
    OccursInKeyLine(BodyKey, bh);
    OccursWithin(QuotedKey(BodyKey), b, i + h + s, e);
    OccursInKeyLine(DatingKey, dh);
    OccursWithin(QuotedKey(DatingKey), d, i + h + s + b, "    ");
  }

  /** The schema part of the template names every key of the roast record. */
  lemma TailNamesEveryRoastKey()
    ensures forall k :: k in RoastKeys ==> Occurs(QuotedKey(k), PromptTail)
  {
    KeyLinesNameEveryRoastKey(Instructions, HeadlineHint, ScoreHint, BodyHint, DatingHint);
  }

  /** What every key's quoted form occurs in still holds it after a prefix is added. */
  lemma KeysSurvivePrefix(prefix: string, s: string)
    requires forall k :: k in RoastKeys ==> Occurs(QuotedKey(k), s)
    ensures forall k :: k in RoastKeys ==> Occurs(QuotedKey(k), prefix + s)
  {
    forall k | k in RoastKeys
      ensures Occurs(QuotedKey(k), prefix + s)
    {
      OccursWithin(QuotedKey(k), s, prefix, []);
      assert prefix + s + [] == prefix + s;
    }
  }

  /** The prompt names every key of the roast record, so the record's keys and the prompt stay in step. */
  lemma PromptNamesEveryRoastKey(username: string, profile: string)
    ensures forall k :: k in RoastKeys ==> Occurs(QuotedKey(k), Prompt(username, profile))
  {
    TailNamesEveryRoastKey();
    KeysSurvivePrefix(PromptHead + username + PromptMid + profile, PromptTail);
  }
}
