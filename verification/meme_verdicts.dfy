/** Meme verdicts (src/lib/memeVerdicts.ts): the score is rounded and
    clamped to a key 1..10, a verdict is drawn from that key's list, and an
    emoji strip is chosen from the unrounded score in half-point bands.
    `Math.random()` is the parameter `rand`. */
module MemeVerdicts {
  import opened Numeric
  import Strings

  /** One line of the verdict table. */
  datatype Entry = Entry(verdict: string, emoji: string)

  /** `MemeVerdict`. */
  datatype MemeVerdict = MemeVerdict(score: int, verdict: string, emoji: string, shareText: string, scoreEmojis: string)

  /** How many verdicts each key has: six for 1 and 2, four otherwise. */
  function Count(key: int): nat {
    if key <= 2 then 6 else 4
  }

  /** Verdict `i` of key `key`. */
  function VerdictAt(key: int, i: nat): Entry
    requires 1 <= key <= 10 && i < Count(key)
  {
    if key == 10 then
      if i == 0 then Entry("Foot model material. Quentin Tarantino would approve.", "\U{1F451}")
      else if i == 1 then Entry("These feet belong in a museum. Perfect specimen.", "\U{1F3DB}\U{FE0F}")
      else if i == 2 then Entry("God-tier feet. Michelangelo would carve these.", "\U{2728}")
      else Entry("Certified foot royalty. Bow down to these toes.", "\U{1F451}")
    else if key == 9 then
      if i == 0 then Entry("Cinderella-ready. Glass slipper approved.", "\U{1F97F}")
      else if i == 1 then Entry("These feet could sell sandals. Model material.", "\U{1FA74}")
      else if i == 2 then Entry("Foot goals achieved. Instagram worthy.", "\U{1F4F8}")
      else Entry("Almost perfect. Just missing the crown.", "\U{1F451}")
    else if key == 8 then
      if i == 0 then Entry("Pretty decent feet. Sandal season ready.", "\U{1FA74}")
      else if i == 1 then Entry("Solid foot game. No shame in these toes.", "\U{1F44D}")
      else if i == 2 then Entry("Good looking feet. Beach approved.", "\U{1F3D6}\U{FE0F}")
      else Entry("Respectable feet. Could do much worse.", "\U{1F44C}")
    else if key == 7 then
      if i == 0 then Entry("Not bad at all. Could do worse.", "\U{1F44D}")
      else if i == 1 then Entry("Decent feet. Nothing to hide here.", "\U{1F60A}")
      else if i == 2 then Entry("Acceptable foot situation. Moving on.", "\U{2705}")
      else Entry("Fine feet. No complaints from me.", "\U{1F44D}")
    else if key == 6 then
      if i == 0 then Entry("Average feet. Would pass unnoticed in sandals.", "\U{1F610}")
      else if i == 1 then Entry("Meh feet. They exist, that's something.", "\U{1F937}")
      else if i == 2 then Entry("Standard issue feet. Nothing special.", "\U{1F4E6}")
      else Entry("Basic feet. At least they work.", "\U{1F610}")
    else if key == 5 then
      if i == 0 then Entry("Meh. At least they're attached to your legs.", "\U{1F937}")
      else if i == 1 then Entry("Questionable feet. But functional.", "\U{2753}")
      else if i == 2 then Entry("Not great, not terrible. Just... feet.", "\U{1F615}")
      else Entry("Mediocre feet. Could be worse, could be better.", "\U{1F937}")
    else if key == 4 then
      if i == 0 then Entry("Yikes. Time for some TLC.", "\U{1F62C}")
      else if i == 1 then Entry("These feet need therapy. And maybe a spa day.", "\U{1F9D6}")
      else if i == 2 then Entry("Foot situation: concerning. But fixable.", "\U{26A0}\U{FE0F}")
      else Entry("Not the worst, but definitely not the best.", "\U{1F62C}")
    else if key == 3 then
      if i == 0 then Entry("Ouch. Walking must be painful.", "\U{1F635}")
      else if i == 1 then Entry("These feet have seen things. Dark things.", "\U{1F631}")
      else if i == 2 then Entry("Foot emergency. Call the foot doctor.", "\U{1F691}")
      else Entry("Painful to look at. Probably painful to walk on.", "\U{1F635}")
    else if key == 2 then
      if i == 0 then Entry("Looks like you walk on Legos daily.", "\U{1F480}")
      else if i == 1 then Entry("Certified Crocs-only feet.", "\U{1FA74}")
      else if i == 2 then Entry("AI said: hide those toes \U{1F62D}", "\U{1F62D}")
      else if i == 3 then Entry("These feet need witness protection.", "\U{1F575}\U{FE0F}")
      else if i == 4 then Entry("Foot crime scene. Evidence of neglect.", "\U{1F6A8}")
      else Entry("These toes have been through war.", "\U{2694}\U{FE0F}")
    else
      if i == 0 then Entry("Emergency podiatrist appointment needed.", "\U{1F6A8}")
      else if i == 1 then Entry("These feet are a medical mystery.", "\U{1F52C}")
      else if i == 2 then Entry("Foot apocalypse. End times for toes.", "\U{1F4A5}")
      else if i == 3 then Entry("These feet need an exorcism.", "\U{1F47B}")
      else if i == 4 then Entry("Foot disaster. Call FEMA.", "\U{1F32A}\U{FE0F}")
      else Entry("These feet are a war crime.", "\U{2696}\U{FE0F}")
  }

  /** `getScoreEmojis` bands: 9.5, 8.5, ..., 1.5. */
  const EmojiThresholds: seq<real> := [9.5, 8.5, 7.5, 6.5, 5.5, 4.5, 3.5, 2.5, 1.5]

  /** The strip of band `j` (0 is the best). */
  function Strip(j: nat): string {
    if j == 0 then "\U{1F525}\U{1F451}\U{2728}"
    else if j == 1 then "\U{1F525}\U{1F451}"
    else if j == 2 then "\U{1F525}\U{1F44D}"
    else if j == 3 then "\U{1F44D}\U{1F60A}"
    else if j == 4 then "\U{1F610}\U{1F937}"
    else if j == 5 then "\U{1F615}\U{2753}"
    else if j == 6 then "\U{1F62C}\U{26A0}\U{FE0F}"
    else if j == 7 then "\U{1F635}\U{1F631}"
    else if j == 8 then "\U{1F480}\U{1F62D}"
    else "\U{1F6A8}\U{1F4A5}"
  }

  /** `getScoreEmojis`: the strip of the first half-point band the score
      reaches. */
  function ScoreEmojis(score: real): string {
    Strip(TierIndex(score, EmojiThresholds))
  }

  /** `Math.max(1, Math.min(10, Math.round(score)))`. */
  function ScoreKey(score: real): (key: int)
    ensures 1 <= key <= 10
    ensures 1 <= Round(score) <= 10 ==> key == Round(score)
    ensures Round(score) < 1 ==> key == 1
    ensures Round(score) > 10 ==> key == 10
  {
    var r := Round(score);
    if r > 10 then 10 else if r < 1 then 1 else r
  }

  /** `Math.floor(Math.random() * n)`. */
  function Pick(rand: real, n: nat): (i: nat)
    requires 0.0 <= rand < 1.0 && n > 0
    ensures i < n
    ensures i as real <= rand * n as real < i as real + 1.0
  {
    FractionBelow(rand, n as real);
    FloorBelow(rand * n as real, n)
  }

  /** The whole part of a value in `[0, n)` is an index below `n`. */
  function FloorBelow(x: real, n: nat): (i: nat)
    requires 0.0 <= x < n as real
    ensures i < n
    ensures i as real <= x < i as real + 1.0
  {
    Floor(x)
  }

  lemma FractionBelow(rand: real, n: real)
    requires 0.0 <= rand < 1.0 && n > 0.0
    ensures 0.0 <= rand * n < n
  {
    assert n - rand * n == (1.0 - rand) * n;
    assert (1.0 - rand) * n > 0.0;
  }

  /** The text offered for sharing: the verdict's emoji, then the key out
      of ten. */
  function ShareText(emoji: string, key: int): string {
    "AI roasted my feet " + emoji + " Got a " + (Strings.IntToString(key) + "/10") + " on FootRate AI \U{1F463} footrateai.com"
  }

  /** Both inserted pieces of a five-part text occur in it. */
  lemma ContainsBoth(a: string, x: string, b: string, y: string, c: string)
    ensures Strings.Contains(a + x + b + y + c, x)
    ensures Strings.Contains(a + x + b + y + c, y)
  {
    assert a + x + b + y + c == a + x + (b + y + c);
    Strings.ContainsMiddle(a, x, b + y + c);
    Strings.ContainsMiddle(a + x + b, y, c);
  }

  /** The share text names the verdict's emoji and the key out of ten. */
  lemma ShareTextMentions(emoji: string, key: int)
    ensures Strings.Contains(ShareText(emoji, key), Strings.IntToString(key) + "/10")
    ensures Strings.Contains(ShareText(emoji, key), emoji)
  {
    ContainsBoth("AI roasted my feet ", emoji, " Got a ", Strings.IntToString(key) + "/10",
                 " on FootRate AI \U{1F463} footrateai.com");
  }

  /** `getMemeVerdict` (and `getOverallMemeVerdict`, which forwards to it). */
  function GetMemeVerdict(score: real, rand: real): (v: MemeVerdict)
    requires 0.0 <= rand < 1.0
    ensures v.score == ScoreKey(score)
    ensures Entry(v.verdict, v.emoji) == VerdictAt(v.score, Pick(rand, Count(v.score)))
    ensures v.scoreEmojis == ScoreEmojis(score)
    ensures Strings.Contains(v.shareText, Strings.IntToString(v.score) + "/10")
    ensures Strings.Contains(v.shareText, v.emoji)
  {
    var key := ScoreKey(score);
    var e := VerdictAt(key, Pick(rand, Count(key)));
    ShareTextMentions(e.emoji, key);
    MemeVerdict(key, e.verdict, e.emoji, ShareText(e.emoji, key), ScoreEmojis(score))
  }

  /** The emoji strip and the verdict key always agree: band `j` of the
      strip belongs to key `10 - j`, for every score. */
  lemma StripMatchesKey(score: real)
    ensures TierIndex(score, EmojiThresholds) == 10 - ScoreKey(score)
  {
    var t := EmojiThresholds;
    assert t[0] == 9.5 && t[1] == 8.5 && t[2] == 7.5 && t[3] == 6.5 && t[4] == 5.5;
    assert t[5] == 4.5 && t[6] == 3.5 && t[7] == 2.5 && t[8] == 1.5;
    HalfPointBands(score, t);
  }

  lemma HalfPointBands(score: real, t: seq<real>)
    requires |t| == 9
    requires forall k :: 0 <= k < 9 ==> t[k] == 9.5 - k as real
    ensures TierIndex(score, t) == 10 - ScoreKey(score)
  {
    var j := TierIndex(score, t);
    if j < 9 {
      assert score >= 9.5 - j as real;
    }
    if j > 0 {
      assert score < t[j - 1];
    }
  }

  /** A higher score never gets a weaker emoji strip band or a lower key. */
  lemma VerdictMonotone(a: real, b: real)
    requires a <= b
    ensures ScoreKey(a) <= ScoreKey(b)
    ensures TierIndex(b, EmojiThresholds) <= TierIndex(a, EmojiThresholds)
  {
    StripMatchesKey(a);
    StripMatchesKey(b);
  }
}
