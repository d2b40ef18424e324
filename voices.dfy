/** Voice selection for text-to-speech playback: `getVoiceType`, which maps a
    demographic label to one of four voice keys, and the `voices` table that
    `playTextToSpeech` looks the key up in. */
module Voices {
  import opened Strings

  const ProgressiveKey := "progressive"
  const ConservativeKey := "conservative"
  const ModerateKey := "moderate"
  const DefaultKey := "default"

  /** The `voices` table of `playTextToSpeech`. */
  const VoiceTable: map<string, string> := map[
    ProgressiveKey := "UK English Female",
    ConservativeKey := "UK English Male",
    ModerateKey := "US English Female",
    DefaultKey := "US English Male"
  ]

  /** `demographic.toLowerCase().includes(keyword)`. */
  predicate Includes(demographic: string, keyword: string) {
    Contains(ToLower(demographic), keyword)
  }

  /** `getVoiceType`: the keyword pairs are tried in a fixed order and the first match wins. */
  function GetVoiceType(demographic: string): (key: string)
    ensures key in VoiceTable
  {
    if Includes(demographic, "progressive") || Includes(demographic, "liberal") then ProgressiveKey
    else if Includes(demographic, "conservative") || Includes(demographic, "right") then ConservativeKey
    else if Includes(demographic, "moderate") || Includes(demographic, "center") then ModerateKey
    else DefaultKey
  }

  /** `voices[voiceType] || voices['default']`. */
  function VoiceName(voiceType: string): (name: string)
    ensures voiceType in VoiceTable ==> name == VoiceTable[voiceType]
    ensures voiceType !in VoiceTable ==> name == "US English Male"
  {
    if voiceType in VoiceTable then VoiceTable[voiceType] else VoiceTable[DefaultKey]
  }

  /** Reference meaning of a case-insensitive keyword match: some window of
      `demographic` agrees with the lower-case `keyword` character by character,
      after each character of the window is lowered. */
  ghost predicate MatchesAt(demographic: string, keyword: string, i: int) {
    0 <= i && i + |keyword| <= |demographic|
    && forall j :: 0 <= j < |keyword| ==> ToLowerChar(demographic[i + j]) == keyword[j]
  }

  ghost predicate Mentions(demographic: string, keyword: string) {
    exists i :: MatchesAt(demographic, keyword, i)
  }

  /** The lower-then-search implementation agrees with the reference meaning. */
  lemma {:induction false} IncludesIff(demographic: string, keyword: string)
    ensures Includes(demographic, keyword) <==> Mentions(demographic, keyword)
  {
    var low := ToLower(demographic);
    ContainsIff(low, keyword);
    forall i
      ensures OccursAt(low, keyword, i) <==> MatchesAt(demographic, keyword, i)
    {
      if 0 <= i && i + |keyword| <= |demographic| {
        var w := low[i..i + |keyword|];
        assert forall j :: 0 <= j < |keyword| ==> w[j] == ToLowerChar(demographic[i + j]);
        if MatchesAt(demographic, keyword, i) {
          assert w == keyword;
        }
      }
    }
  }

  /** The ordered classification, stated over the reference meaning of a match:
      "progressive"/"liberal" beats every later keyword, then
      "conservative"/"right", then "moderate"/"center", else the default. */
  lemma {:induction false} VoiceTypeClassification(d: string)
    ensures GetVoiceType(d) == ProgressiveKey <==>
      Mentions(d, "progressive") || Mentions(d, "liberal")
    ensures GetVoiceType(d) == ConservativeKey <==>
      !(Mentions(d, "progressive") || Mentions(d, "liberal"))
      && (Mentions(d, "conservative") || Mentions(d, "right"))
    ensures GetVoiceType(d) == ModerateKey <==>
      !(Mentions(d, "progressive") || Mentions(d, "liberal"))
      && !(Mentions(d, "conservative") || Mentions(d, "right"))
      && (Mentions(d, "moderate") || Mentions(d, "center"))
    ensures GetVoiceType(d) == DefaultKey <==>
      !Mentions(d, "progressive") && !Mentions(d, "liberal")
      && !Mentions(d, "conservative") && !Mentions(d, "right")
      && !Mentions(d, "moderate") && !Mentions(d, "center")
  {
    IncludesIff(d, "progressive");
    IncludesIff(d, "liberal");
    IncludesIff(d, "conservative");
    IncludesIff(d, "right");
    IncludesIff(d, "moderate");
    IncludesIff(d, "center");
  }

  /** Two labels that differ only in letter case get the same voice type. */
  lemma {:induction false} VoiceTypeIgnoresCase(a: string, b: string)
    requires |a| == |b|
    requires forall i :: 0 <= i < |a| ==> ToLowerChar(a[i]) == ToLowerChar(b[i])
    ensures GetVoiceType(a) == GetVoiceType(b)
  {
    assert ToLower(a) == ToLower(b);
  }

  /** The voice chosen for a demographic label never falls back: every key
      `getVoiceType` returns has its own entry. */
  lemma {:induction false} VoiceForDemographic(d: string)
    ensures VoiceName(GetVoiceType(d)) == VoiceTable[GetVoiceType(d)]
    ensures VoiceName(GetVoiceType(d)) in VoiceTable.Values
  {
  }

  /** A label with none of the keywords, such as "Reddit", gets the default voice. */
  lemma {:induction false} VoiceTypeUnmatchedExample()
    ensures GetVoiceType("Reddit") == DefaultKey
  {
    assert ToLower("Reddit") == "reddit";
    ShorterNeverContains("reddit", "progressive");
    ShorterNeverContains("reddit", "liberal");
    ShorterNeverContains("reddit", "conservative");
    ShorterNeverContains("reddit", "moderate");
    ShorterNeverContains("ddit", "right");
    assert "eddit"[..5][0] != "right"[0] && "eddit"[1..] == "ddit";
    assert "reddit"[..5][1] != "right"[1] && "reddit"[1..] == "eddit";
    ShorterNeverContains("eddit", "center");
    assert "reddit"[..6][0] != "center"[0];
  }

  /** Upper-case labels match, and an earlier keyword pair wins over a later one. */
  lemma {:induction false} VoiceTypeOrderExamples()
    ensures GetVoiceType("Progressive") == ProgressiveKey
    ensures GetVoiceType("Liberal Right") == ProgressiveKey
  {
    assert ToLower("Progressive") == "progressive";
    assert StartsWith("progressive", "progressive");
    assert ToLower("Liberal Right") == "liberal right";
    assert StartsWith("liberal right", "liberal");
  }
}
