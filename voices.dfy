/** The voice picker of the drill player (`loadVoices`): ordered preference
    chains, first match wins, evaluated over the platform's voice list. */
module Voices {
  import opened Text

  /** A synthetic voice as the speech platform lists it. */
  datatype Voice = Voice(name: string, lang: string)

  /** One test of a preference chain. `lower` is the platform's
      `toLowerCase`, applied to the voice name before keyword tests. */
  datatype Rule =
    | LangAndName(prefix: string, keyword: string)  // lang starts with prefix, lower-cased name contains keyword
    | NameHas(keyword: string)                      // lower-cased name contains keyword, any lang
    | LangPrefix(prefix: string)                    // lang starts with prefix
    | LangExactly(tag: string)                      // lang equals tag
    | NameIs(name: string)                          // name equals `name` exactly (the voice pickers)

  predicate Matches(rule: Rule, v: Voice, lower: string -> string)
  {
    match rule
    case LangAndName(prefix, keyword) => StartsWith(v.lang, prefix) && Contains(lower(v.name), keyword)
    case NameHas(keyword) => Contains(lower(v.name), keyword)
    case LangPrefix(prefix) => StartsWith(v.lang, prefix)
    case LangExactly(tag) => v.lang == tag
    case NameIs(name) => v.name == name
  }

  /** English chain: enhanced, premium, neural (all `en*`), then `en-US*`, then `en*`. */
  const EnglishRules: seq<Rule> := [
    LangAndName("en", "enhanced"),
    LangAndName("en", "premium"),
    LangAndName("en", "neural"),
    LangPrefix("en-US"),
    LangPrefix("en")
  ]

  /** Mandarin chain: enhanced, premium (both `zh*`), the two named voices in
      any language, then exactly `zh-CN`, then `zh*`. */
  const MandarinRules: seq<Rule> := [
    LangAndName("zh", "enhanced"),
    LangAndName("zh", "premium"),
    NameHas("ting-ting"),
    NameHas("sin-ji"),
    LangExactly("zh-CN"),
    LangPrefix("zh")
  ]

  /** Index of the first voice the rule accepts, or `|voices|` if none does. */
  function FirstMatch(voices: seq<Voice>, rule: Rule, lower: string -> string): (i: nat)
    ensures i <= |voices|
    ensures i < |voices| ==> Matches(rule, voices[i], lower)
    ensures forall j :: 0 <= j < i ==> !Matches(rule, voices[j], lower)
    decreases |voices|
  {
    if voices == [] then 0
    else if Matches(rule, voices[0], lower) then 0
    else 1 + FirstMatch(voices[1..], rule, lower)
  }

  /** `voices.find(v => rule)`. */
  function Find(voices: seq<Voice>, rule: Rule, lower: string -> string): (r: Option<Voice>)
    ensures r.Some? ==> r.value in voices && Matches(rule, r.value, lower)
    ensures r.None? <==> forall v :: v in voices ==> !Matches(rule, v, lower)
  {
    var i := FirstMatch(voices, rule, lower);
    if i < |voices| then Some(voices[i]) else None
  }

  /** `find(r_from) || find(r_from+1) || ...` over the rules from `from` on. */
  function FirstRuleMatch(rules: seq<Rule>, from: nat, voices: seq<Voice>, lower: string -> string): Option<Voice>
    requires from <= |rules|
    decreases |rules| - from
  {
    if from == |rules| then None
    else
      var first := Find(voices, rules[from], lower);
      if first.Some? then first else FirstRuleMatch(rules, from + 1, voices, lower)
  }

  /** The chain finds nothing exactly when no rule from `from` on finds a voice. */
  lemma {:induction false} FirstRuleMatchNone(rules: seq<Rule>, from: nat, voices: seq<Voice>, lower: string -> string)
    requires from <= |rules|
    ensures FirstRuleMatch(rules, from, voices, lower).None? <==>
      forall j :: from <= j < |rules| ==> Find(voices, rules[j], lower).None?
    decreases |rules| - from
  {
    if from < |rules| {
      FirstRuleMatchNone(rules, from + 1, voices, lower);
    }
  }

  /** The first rule that finds a voice decides: the chain finds what it finds. */
  lemma {:induction false} FirstRuleMatchFirst(rules: seq<Rule>, from: nat, j: nat, voices: seq<Voice>, lower: string -> string)
    requires from <= j < |rules| && Find(voices, rules[j], lower).Some?
    requires forall i :: from <= i < j ==> Find(voices, rules[i], lower).None?
    ensures FirstRuleMatch(rules, from, voices, lower) == Find(voices, rules[j], lower)
    decreases j - from
  {
    if from < j {
      assert Find(voices, rules[from], lower).None?;
      FirstRuleMatchFirst(rules, from + 1, j, voices, lower);
    }
  }

  /** What the chain finds, some rule from `from` on found. */
  lemma {:induction false} FirstRuleMatchFound(rules: seq<Rule>, from: nat, voices: seq<Voice>, lower: string -> string)
    requires from <= |rules|
    ensures var r := FirstRuleMatch(rules, from, voices, lower);
      r.Some? ==> exists j :: from <= j < |rules| && r == Find(voices, rules[j], lower)
    decreases |rules| - from
  {
    if from < |rules| && Find(voices, rules[from], lower).None? {
      FirstRuleMatchFound(rules, from + 1, voices, lower);
    }
  }

  /** `voices.filter(v => v.lang.startsWith(prefix))` */
  function LangFilter(voices: seq<Voice>, prefix: string): (r: seq<Voice>)
    ensures |r| <= |voices|
    ensures forall v :: v in r <==> v in voices && StartsWith(v.lang, prefix)
    decreases |voices|
  {
    if voices == [] then []
    else
      var rest := LangFilter(voices[1..], prefix);
      assert forall v :: v in voices <==> v == voices[0] || v in voices[1..];
      if StartsWith(voices[0].lang, prefix) then [voices[0]] + rest else rest
  }

  /** The default English voice: the English chain's pick. */
  function SelectEnglish(voices: seq<Voice>, lower: string -> string): Option<Voice>
  {
    FirstRuleMatch(EnglishRules, 0, voices, lower)
  }

  /** Whatever the English chain picks is an English voice of the list (so
      one the English picker lists), and it picks nothing only when the list
      has no English voice. */
  lemma SelectEnglishSound(voices: seq<Voice>, lower: string -> string)
    ensures var r := SelectEnglish(voices, lower);
      && (r.Some? ==> r.value in voices && StartsWith(r.value.lang, "en") && r.value in LangFilter(voices, "en"))
      && (r.None? <==> forall v :: v in voices ==> !StartsWith(v.lang, "en"))
  {
    var r := FirstRuleMatch(EnglishRules, 0, voices, lower);
    FirstRuleMatchNone(EnglishRules, 0, voices, lower);
    FirstRuleMatchFound(EnglishRules, 0, voices, lower);
    if r.Some? {
      var j :| 0 <= j < |EnglishRules| && r == Find(voices, EnglishRules[j], lower);
      EnglishRuleEnglish(j, r.value, lower);
    } else {
      assert Find(voices, EnglishRules[4], lower).None?;
    }
  }

  lemma EnglishRuleEnglish(j: nat, v: Voice, lower: string -> string)
    requires j < |EnglishRules| && Matches(EnglishRules[j], v, lower)
    ensures StartsWith(v.lang, "en")
  {
    if j == 3 {
      StartsWithLonger(v.lang, "en-US", "en");
    }
  }

  /** A voice the Mandarin chain can pick: a `zh*` voice, or one whose
      lower-cased name holds one of the two named voices. */
  predicate MandarinCandidate(v: Voice, lower: string -> string)
  {
    StartsWith(v.lang, "zh") || Contains(lower(v.name), "ting-ting") || Contains(lower(v.name), "sin-ji")
  }

  /** The default Mandarin voice: the Mandarin chain's pick. */
  function SelectMandarin(voices: seq<Voice>, lower: string -> string): Option<Voice>
  {
    FirstRuleMatch(MandarinRules, 0, voices, lower)
  }

  /** Whatever the Mandarin chain picks is a Mandarin candidate of the list,
      and it picks nothing only when the list holds no candidate. */
  lemma SelectMandarinSound(voices: seq<Voice>, lower: string -> string)
    ensures var r := SelectMandarin(voices, lower);
      && (r.Some? ==> r.value in voices && MandarinCandidate(r.value, lower))
      && (r.None? <==> forall v :: v in voices ==> !MandarinCandidate(v, lower))
  {
    var r := FirstRuleMatch(MandarinRules, 0, voices, lower);
    FirstRuleMatchFound(MandarinRules, 0, voices, lower);
    if r.Some? {
      var j :| 0 <= j < |MandarinRules| && r == Find(voices, MandarinRules[j], lower);
      MandarinRuleCandidate(j, r.value, lower);
    } else {
      MandarinChainNone(voices, lower);
    }
  }

  lemma MandarinRuleCandidate(j: nat, v: Voice, lower: string -> string)
    requires j < |MandarinRules| && Matches(MandarinRules[j], v, lower)
    ensures MandarinCandidate(v, lower)
  {
    if j == 4 {
      assert StartsWith(v.lang, "zh");
    }
  }

  lemma MandarinChainNone(voices: seq<Voice>, lower: string -> string)
    requires FirstRuleMatch(MandarinRules, 0, voices, lower).None?
    ensures forall v :: v in voices ==> !MandarinCandidate(v, lower)
  {
    FirstRuleMatchNone(MandarinRules, 0, voices, lower);
    forall v | v in voices
      ensures !MandarinCandidate(v, lower)
    {
      assert !Matches(MandarinRules[2], v, lower);
      assert !Matches(MandarinRules[3], v, lower);
      assert !Matches(MandarinRules[5], v, lower);
    }
  }

  /** `list.find(v => v.name === name)` for the voice pickers. */
  function FindByName(list: seq<Voice>, name: string): (r: Option<Voice>)
    ensures r.Some? ==> r.value in list && r.value.name == name
    ensures r.None? <==> forall v :: v in list ==> v.name != name
  {
    Find(list, NameIs(name), (s: string) => s)
  }

  /** First match wins across the English chain: when rule `j` is the first
      rule that finds a voice, the pick is the first voice in list order that
      rule accepts. */
  lemma EnglishPriority(voices: seq<Voice>, j: nat, i: nat, lower: string -> string)
    requires j < |EnglishRules| && i < |voices|
    requires forall k :: 0 <= k < j ==> Find(voices, EnglishRules[k], lower).None?
    requires Matches(EnglishRules[j], voices[i], lower)
    requires forall h :: 0 <= h < i ==> !Matches(EnglishRules[j], voices[h], lower)
    ensures SelectEnglish(voices, lower) == Some(voices[i])
  {
    var f := FirstMatch(voices, EnglishRules[j], lower);
    assert f == i;
    FirstRuleMatchFirst(EnglishRules, 0, j, voices, lower);
  }

  /** First match wins across the Mandarin chain, as for English. */
  lemma MandarinPriority(voices: seq<Voice>, j: nat, i: nat, lower: string -> string)
    requires j < |MandarinRules| && i < |voices|
    requires forall k :: 0 <= k < j ==> Find(voices, MandarinRules[k], lower).None?
    requires Matches(MandarinRules[j], voices[i], lower)
    requires forall h :: 0 <= h < i ==> !Matches(MandarinRules[j], voices[h], lower)
    ensures SelectMandarin(voices, lower) == Some(voices[i])
  {
    var f := FirstMatch(voices, MandarinRules[j], lower);
    assert f == i;
    FirstRuleMatchFirst(MandarinRules, 0, j, voices, lower);
  }

  /** On the list [A en-GB, B en-US] the English pick is B: the `en-US` rule
      comes before the plain `en` rule, though A is listed first. */
  lemma EnglishRegionBeatsPrefix(lower: string -> string)
    requires lower("A") == "a" && lower("B") == "b"
    ensures SelectEnglish([Voice("A", "en-GB"), Voice("B", "en-US")], lower) == Some(Voice("B", "en-US"))
  {
    var voices := [Voice("A", "en-GB"), Voice("B", "en-US")];
    forall k | 0 <= k < 3
      ensures Find(voices, EnglishRules[k], lower).None?
    {
      assert !Contains("a", EnglishRules[k].keyword);
      assert !Contains("b", EnglishRules[k].keyword);
    }
    assert !StartsWith("en-GB", "en-US") by {
      assert "en-GB"[..5][3] != "en-US"[3];
    }
    EnglishPriority(voices, 3, 1, lower);
  }

  /** On the list [X zh-TW, Y zh-CN] the Mandarin pick is Y: exactly `zh-CN`
      comes before any `zh*` voice. */
  lemma MandarinMainlandBeatsPrefix(lower: string -> string)
    requires lower("X") == "x" && lower("Y") == "y"
    ensures SelectMandarin([Voice("X", "zh-TW"), Voice("Y", "zh-CN")], lower) == Some(Voice("Y", "zh-CN"))
  {
    var voices := [Voice("X", "zh-TW"), Voice("Y", "zh-CN")];
    forall k | 0 <= k < 4
      ensures Find(voices, MandarinRules[k], lower).None?
    {
      assert !Contains("x", MandarinRules[k].keyword);
      assert !Contains("y", MandarinRules[k].keyword);
    }
    MandarinPriority(voices, 4, 1, lower);
  }

  /** The named-voice rules accept any language, so the Mandarin pick can be a
      voice that is not in the Mandarin picker list (`zh*` voices only). */
  lemma MandarinPickOutsidePicker(lower: string -> string)
    requires lower("Ting-Ting") == "ting-ting"
    ensures var voices := [Voice("Ting-Ting", "en-US")];
      && SelectMandarin(voices, lower) == Some(Voice("Ting-Ting", "en-US"))
      && Voice("Ting-Ting", "en-US") !in LangFilter(voices, "zh")
  {
    var voices := [Voice("Ting-Ting", "en-US")];
    assert !StartsWith("en-US", "zh") by {
      assert "en-US"[..2][0] != "zh"[0];
    }
    assert Contains("ting-ting", "ting-ting");
    MandarinPriority(voices, 2, 0, lower);
  }
}
