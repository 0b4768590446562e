/** The drill player component (`AudioDrill`): its state, the playback chain
    `speakNext` / `handlePlay` / `handleStop`, the speech platform's end and
    error events, voice loading and the voice pickers. The speech platform is
    a log of the calls made to it (`synth`); its events are methods a caller
    invokes (`OnEnd`, `OnError`, `LoadVoices`). */
module AudioDrill {
  import opened Text
  import opened DrillSequence
  import opened Voices
  import opened Counters

  /** An utterance handed to the platform. `voice` is None when no voice is
      assigned (the platform default is used); `index` is the cursor its end
      handler advances from. */
  datatype Utterance = Utterance(text: string, lang: string, voice: Option<Voice>, index: nat)

  /** One call into the speech platform. */
  datatype SynthCall = Speak(utterance: Utterance) | Cancel

  /** The repetition slider's initial value. */
  const DEFAULT_REPETITIONS: int := 3

  /** Index of the first pair whose English or Chinese text is `word`, or
      `|pairs|` if none is. */
  function FirstPairShowing(pairs: seq<PhrasePair>, word: string): (i: nat)
    ensures i <= |pairs|
    ensures i < |pairs| ==> pairs[i].english == word || pairs[i].chinese == word
    ensures forall h :: 0 <= h < i ==> pairs[h].english != word && pairs[h].chinese != word
    decreases |pairs|
  {
    if pairs == [] then 0
    else if pairs[0].english == word || pairs[0].chinese == word then 0
    else 1 + FirstPairShowing(pairs[1..], word)
  }

  /** `pairs.find(p => p.english === word || p.chinese === word)` */
  function PairShowing(pairs: seq<PhrasePair>, word: string): Option<PhrasePair>
  {
    var i := FirstPairShowing(pairs, word);
    if i < |pairs| then Some(pairs[i]) else None
  }

  /** The large English line: the English of the pair showing the current
      word, else the first pair's English, else a placeholder (each step
      skipped when its value is empty, as `||` does). */
  function ShownEnglish(pairs: seq<PhrasePair>, currentWord: Option<string>): string
  {
    var found := if Truthy(currentWord) then PairShowing(pairs, currentWord.value) else None;
    if found.Some? && found.value.english != "" then found.value.english
    else if |pairs| > 0 && pairs[0].english != "" then pairs[0].english
    else "Ready to start"
  }

  /** The large Mandarin line, chosen the same way. */
  function ShownChinese(pairs: seq<PhrasePair>, currentWord: Option<string>): string
  {
    var found := if Truthy(currentWord) then PairShowing(pairs, currentWord.value) else None;
    if found.Some? && found.value.chinese != "" then found.value.chinese
    else if |pairs| > 0 && pairs[0].chinese != "" then pairs[0].chinese
    else "准备开始"
  }

  /** A word that is one of pair `k`'s non-empty texts, and no text of an
      earlier pair, makes the display show pair `k`. */
  lemma ShowsPair(pairs: seq<PhrasePair>, k: nat, word: string)
    requires k < |pairs| && pairs[k].english != "" && pairs[k].chinese != ""
    requires word == pairs[k].english || word == pairs[k].chinese
    requires forall h :: 0 <= h < k ==> pairs[h].english != word && pairs[h].chinese != word
    ensures ShownEnglish(pairs, Some(word)) == pairs[k].english
    ensures ShownChinese(pairs, Some(word)) == pairs[k].chinese
  {
    var first := FirstPairShowing(pairs, word);
    if first > k {
      assert false;
    }
    assert PairShowing(pairs, word) == Some(pairs[k]);
  }

  /** While item `j` of pair `k`'s block is the current word, the display
      shows pair `k`, provided its texts are not empty and no earlier pair
      has a text equal to that word. */
  lemma DisplayFollowsPlayback(pairs: seq<PhrasePair>, repetitions: int, k: nat, j: nat)
    requires k < |pairs| && j < BlockLength(repetitions)
    requires pairs[k].english != "" && pairs[k].chinese != ""
    requires var word := if j == 0 then pairs[k].english else pairs[k].chinese;
      forall h :: 0 <= h < k ==> pairs[h].english != word && pairs[h].chinese != word
    ensures k * BlockLength(repetitions) + j < |DrillSpec(pairs, repetitions)|
    ensures var item := DrillSpec(pairs, repetitions)[k * BlockLength(repetitions) + j];
      && ShownEnglish(pairs, Some(item.displayLabel)) == pairs[k].english
      && ShownChinese(pairs, Some(item.displayLabel)) == pairs[k].chinese
  {
    DrillAt(pairs, repetitions, k, j);
    ShowsPair(pairs, k, if j == 0 then pairs[k].english else pairs[k].chinese);
  }

  /** One value per language, as the component's `{ en, zh }` objects hold them. */
  datatype ByLanguage<T> = ByLanguage(en: T, zh: T)

  /** The pickers hold only voices of their language, and the English pick,
      when there is one, is in the English picker. */
  predicate VoicesFit(available: ByLanguage<seq<Voice>>, enVoice: Option<Voice>)
  {
    && (forall v :: v in available.en ==> StartsWith(v.lang, "en"))
    && (forall v :: v in available.zh ==> StartsWith(v.lang, "zh"))
    && (enVoice.Some? ==> enVoice.value in available.en)
  }

  /** The lists and picks `loadVoices` computes from the platform's list:
      each picker holds exactly the voices of its language, each language
      gets its chain's pick, and together they fit. */
  method PickVoices(voices: seq<Voice>, lower: string -> string)
    returns (available: ByLanguage<seq<Voice>>, enVoice: Option<Voice>, zhVoice: Option<Voice>)
    ensures available == ByLanguage(LangFilter(voices, "en"), LangFilter(voices, "zh"))
    ensures enVoice == SelectEnglish(voices, lower) && zhVoice == SelectMandarin(voices, lower)
    ensures VoicesFit(available, enVoice)
  {
    SelectEnglishSound(voices, lower);
    enVoice := SelectEnglish(voices, lower);
    zhVoice := SelectMandarin(voices, lower);
    available := ByLanguage(LangFilter(voices, "en"), LangFilter(voices, "zh"));
  }

  /** The voice `speakNext` assigns to an item in `lang`, from the voice
      ref: the Mandarin voice for a `zh*` language, the English one otherwise. */
  function VoiceFor(ref: ByLanguage<Option<Voice>>, lang: string): Option<Voice>
  {
    if StartsWith(lang, "zh") then ref.zh else ref.en
  }

  /** The call `speakNext` makes for item `index` of `items`. */
  function Say(items: seq<DrillItem>, index: nat, ref: ByLanguage<Option<Voice>>): SynthCall
    requires index < |items|
  {
    Speak(Utterance(items[index].text, items[index].lang, VoiceFor(ref, items[index].lang), index))
  }

  /** The calls the chain makes from item `from` to the end. */
  function Spoken(items: seq<DrillItem>, from: nat, ref: ByLanguage<Option<Voice>>): seq<SynthCall>
    decreases |items| - from
  {
    if from >= |items| then [] else [Say(items, from, ref)] + Spoken(items, from + 1, ref)
  }

  /** The chain's calls are one utterance per item from `from` on, in
      sequence order, each with its own index. */
  lemma {:induction false} SpokenItems(items: seq<DrillItem>, from: nat, ref: ByLanguage<Option<Voice>>)
    ensures |Spoken(items, from, ref)| == if from <= |items| then |items| - from else 0
    ensures forall k :: 0 <= k < |Spoken(items, from, ref)| ==>
      from + k < |items| && Spoken(items, from, ref)[k] == Say(items, from + k, ref)
    decreases |items| - from
  {
    if from < |items| {
      SpokenItems(items, from + 1, ref);
    }
  }

  /** Logging item i and then the items after it logs the items from i on. */
  lemma SpokenFrom(log: seq<SynthCall>, items: seq<DrillItem>, i: nat, ref: ByLanguage<Option<Voice>>)
    requires i < |items|
    ensures log + [Say(items, i, ref)] + Spoken(items, i + 1, ref) == log + Spoken(items, i, ref)
  {
    assert Spoken(items, i, ref) == [Say(items, i, ref)] + Spoken(items, i + 1, ref);
  }

  class DrillPlayer {
    const pairs: seq<PhrasePair>
    var isPlaying: bool
    var currentWord: Option<string>
    var voicesLoaded: bool
    var chineseRepetitions: int
    var drillSequence: seq<DrillItem>
    var phraseRepetitionCounts: map<string, nat>   // session counter
    var lifetimeRepetitions: map<string, nat>      // lifetime counter
    var availableVoices: ByLanguage<seq<Voice>>
    var selectedEnVoice: Option<Voice>
    var selectedZhVoice: Option<Voice>
    var selectedVoicesRef: ByLanguage<Option<Voice>>   // selectedVoicesRef.current
    var synth: seq<SynthCall>                      // calls made to the platform, oldest first

    /** The component's consistency: the sequence is the one built from the
        pairs and the repetition setting, the voice state and the voice ref
        agree, the picker lists hold only voices of their language, and the
        chosen English voice is one of the English picker's. */
    ghost predicate Valid()
      reads this`drillSequence, this`chineseRepetitions, this`availableVoices
      reads this`selectedEnVoice, this`selectedZhVoice, this`selectedVoicesRef
    {
      && drillSequence == DrillSpec(pairs, chineseRepetitions)
      && selectedVoicesRef == ByLanguage(selectedEnVoice, selectedZhVoice)
      && VoicesFit(availableVoices, selectedEnVoice)
    }

    /** Everything but the playback state and the counters is as before. */
    twostate predicate SetupUnchanged()
      reads this
    {
      && drillSequence == old(drillSequence) && chineseRepetitions == old(chineseRepetitions)
      && voicesLoaded == old(voicesLoaded)
      && availableVoices == old(availableVoices)
      && selectedEnVoice == old(selectedEnVoice) && selectedZhVoice == old(selectedZhVoice)
      && selectedVoicesRef == old(selectedVoicesRef)
    }

    /** Playback, the counters, the platform log and the sequence are as
        before: what a voice change leaves alone. */
    twostate predicate PlaybackUnchanged()
      reads this
    {
      && isPlaying == old(isPlaying) && currentWord == old(currentWord) && synth == old(synth)
      && drillSequence == old(drillSequence) && chineseRepetitions == old(chineseRepetitions)
      && phraseRepetitionCounts == old(phraseRepetitionCounts)
      && lifetimeRepetitions == old(lifetimeRepetitions)
    }

    /** The first render: idle, no voices yet, repetitions at their default,
        the lifetime counter as saved by an earlier session. */
    constructor (pairs: seq<PhrasePair>, savedLifetime: map<string, nat>)
      ensures Valid()
      ensures this.pairs == pairs && !isPlaying && currentWord == None && !voicesLoaded
      ensures chineseRepetitions == DEFAULT_REPETITIONS && phraseRepetitionCounts == map[]
      ensures lifetimeRepetitions == savedLifetime
      ensures availableVoices == ByLanguage([], []) && selectedEnVoice == None && selectedZhVoice == None
      ensures synth == []
    {
      var sequence := GenerateDrillSequence(pairs, DEFAULT_REPETITIONS);
      this.pairs := pairs;
      isPlaying, currentWord, voicesLoaded := false, None, false;
      chineseRepetitions := DEFAULT_REPETITIONS;
      phraseRepetitionCounts, lifetimeRepetitions := map[], savedLifetime;
      availableVoices := ByLanguage([], []);
      selectedEnVoice, selectedZhVoice, selectedVoicesRef := None, None, ByLanguage(None, None);
      synth := [];
      drillSequence := sequence;
    }

    /** `speakNext(index)`: past the end, playback stops and nothing is
        spoken; otherwise the item becomes the current word, a Mandarin item
        moves both counters of its phrase, and the item is spoken with the
        voice for its language. `isPlaying` is never consulted. */
    method SpeakNext(index: nat)
      requires Valid()
      modifies this
      ensures Valid() && SetupUnchanged()
      ensures index >= |drillSequence| ==>
        && !isPlaying && currentWord == None && synth == old(synth)
        && phraseRepetitionCounts == old(phraseRepetitionCounts)
        && lifetimeRepetitions == old(lifetimeRepetitions)
      ensures index < |drillSequence| ==>
        var item := drillSequence[index];
        && isPlaying == old(isPlaying)
        && currentWord == Some(item.displayLabel)
        && phraseRepetitionCounts == Bump(old(phraseRepetitionCounts), item)
        && lifetimeRepetitions == Bump(old(lifetimeRepetitions), item)
        && synth == old(synth) + [Say(drillSequence, index, selectedVoicesRef)]
    {
      if index >= |drillSequence| {
        isPlaying := false;
        currentWord := None;
        return;
      }
      var item := drillSequence[index];
      currentWord := Some(item.displayLabel);
      phraseRepetitionCounts := Bump(phraseRepetitionCounts, item);
      lifetimeRepetitions := Bump(lifetimeRepetitions, item);
      synth := synth + [Say(drillSequence, index, selectedVoicesRef)];
    }

    /** `handlePlay`: a no-op while playing; otherwise cancel the platform,
        start playing and speak item 0. */
    method HandlePlay()
      requires Valid()
      modifies this
      ensures Valid() && SetupUnchanged()
      ensures old(isPlaying) ==>
        && isPlaying && currentWord == old(currentWord) && synth == old(synth)
        && phraseRepetitionCounts == old(phraseRepetitionCounts)
        && lifetimeRepetitions == old(lifetimeRepetitions)
      ensures !old(isPlaying) && drillSequence == [] ==>
        && !isPlaying && currentWord == None && synth == old(synth) + [Cancel]
        && phraseRepetitionCounts == old(phraseRepetitionCounts)
        && lifetimeRepetitions == old(lifetimeRepetitions)
      ensures !old(isPlaying) && drillSequence != [] ==>
        var item := drillSequence[0];
        && isPlaying && currentWord == Some(item.displayLabel)
        && phraseRepetitionCounts == Bump(old(phraseRepetitionCounts), item)
        && lifetimeRepetitions == Bump(old(lifetimeRepetitions), item)
        && synth == old(synth) + [Cancel] + [Say(drillSequence, 0, selectedVoicesRef)]
    {
      if isPlaying {
        return;
      }
      synth := synth + [Cancel];
      isPlaying := true;
      SpeakNext(0);
    }

    /** The platform reports the end of the utterance spoken for `index`:
        its handler speaks the next item (after a settle delay, not modelled).
        It does not look at `isPlaying`, so an end arriving after a stop
        still advances. */
    method OnEnd(index: nat)
      requires Valid()
      modifies this
      ensures Valid() && SetupUnchanged()
      ensures index + 1 >= |drillSequence| ==>
        && !isPlaying && currentWord == None && synth == old(synth)
        && phraseRepetitionCounts == old(phraseRepetitionCounts)
        && lifetimeRepetitions == old(lifetimeRepetitions)
      ensures index + 1 < |drillSequence| ==>
        var item := drillSequence[index + 1];
        && isPlaying == old(isPlaying)
        && currentWord == Some(item.displayLabel)
        && phraseRepetitionCounts == Bump(old(phraseRepetitionCounts), item)
        && lifetimeRepetitions == Bump(old(lifetimeRepetitions), item)
        && synth == old(synth) + [Say(drillSequence, index + 1, selectedVoicesRef)]
    {
      SpeakNext(index + 1);
    }

    /** The platform reports a synthesis error: playback ends, nothing else changes. */
    method OnError()
      requires Valid()
      modifies this
      ensures Valid() && SetupUnchanged()
      ensures !isPlaying && currentWord == None && synth == old(synth)
      ensures phraseRepetitionCounts == old(phraseRepetitionCounts)
      ensures lifetimeRepetitions == old(lifetimeRepetitions)
    {
      isPlaying := false;
      currentWord := None;
    }

    /** `handleStop`, from any state: cancel the platform, stop, clear the word. */
    method HandleStop()
      requires Valid()
      modifies this
      ensures Valid() && SetupUnchanged()
      ensures !isPlaying && currentWord == None && synth == old(synth) + [Cancel]
      ensures phraseRepetitionCounts == old(phraseRepetitionCounts)
      ensures lifetimeRepetitions == old(lifetimeRepetitions)
    {
      synth := synth + [Cancel];
      isPlaying := false;
      currentWord := None;
    }

    /** `loadVoices` on the platform's list: an empty list (voices not loaded
        yet) changes nothing; otherwise the pickers get the `en*` and `zh*`
        voices and each language its chain's pick. */
    method LoadVoices(voices: seq<Voice>, lower: string -> string)
      requires Valid()
      modifies this
      ensures Valid()
      ensures voices == [] ==>
        && voicesLoaded == old(voicesLoaded)
        && availableVoices == old(availableVoices)
        && selectedEnVoice == old(selectedEnVoice) && selectedZhVoice == old(selectedZhVoice)
      ensures voices != [] ==>
        && voicesLoaded
        && availableVoices == ByLanguage(LangFilter(voices, "en"), LangFilter(voices, "zh"))
        && selectedEnVoice == SelectEnglish(voices, lower)
        && selectedZhVoice == SelectMandarin(voices, lower)
      ensures PlaybackUnchanged()
    {
      if |voices| == 0 {
        return;
      }
      var available, enVoice, zhVoice := PickVoices(voices, lower);
      SetVoices(available, enVoice, zhVoice);
    }

    /** The state updates of `loadVoices`: both picker lists, both chosen
        voices and the voice ref, and the loaded flag. */
    method SetVoices(available: ByLanguage<seq<Voice>>, enVoice: Option<Voice>, zhVoice: Option<Voice>)
      requires Valid() && VoicesFit(available, enVoice)
      modifies this
      ensures Valid() && voicesLoaded
      ensures availableVoices == available
      ensures selectedEnVoice == enVoice && selectedZhVoice == zhVoice
      ensures PlaybackUnchanged()
    {
      availableVoices := available;
      selectedEnVoice, selectedZhVoice := enVoice, zhVoice;
      selectedVoicesRef := ByLanguage(enVoice, zhVoice);
      voicesLoaded := true;
    }

    /** The English picker: disabled while playing; otherwise the choice
        becomes the first listed English voice with that name, or none. */
    method HandleEnVoiceChange(name: string)
      requires Valid()
      modifies this
      ensures Valid()
      ensures old(isPlaying) ==> selectedEnVoice == old(selectedEnVoice)
      ensures !old(isPlaying) ==> selectedEnVoice == FindByName(old(availableVoices).en, name)
      ensures selectedZhVoice == old(selectedZhVoice) && availableVoices == old(availableVoices)
      ensures voicesLoaded == old(voicesLoaded)
      ensures PlaybackUnchanged()
    {
      if isPlaying {
        return;
      }
      var voice := FindByName(availableVoices.en, name);
      selectedEnVoice := voice;
      selectedVoicesRef := selectedVoicesRef.(en := voice);
    }

    /** The Mandarin picker: disabled while playing; otherwise the choice
        becomes the first listed Mandarin voice with that name, or none. */
    method HandleZhVoiceChange(name: string)
      requires Valid()
      modifies this
      ensures Valid()
      ensures old(isPlaying) ==> selectedZhVoice == old(selectedZhVoice)
      ensures !old(isPlaying) ==> selectedZhVoice == FindByName(old(availableVoices).zh, name)
      ensures selectedEnVoice == old(selectedEnVoice) && availableVoices == old(availableVoices)
      ensures voicesLoaded == old(voicesLoaded)
      ensures PlaybackUnchanged()
    {
      if isPlaying {
        return;
      }
      var voice := FindByName(availableVoices.zh, name);
      selectedZhVoice := voice;
      selectedVoicesRef := selectedVoicesRef.(zh := voice);
    }

    /** The repetition slider: disabled while playing; otherwise the new
        count is stored and the sequence rebuilt from it. */
    method SetRepetitions(repetitions: int)
      requires Valid()
      modifies this
      ensures Valid()
      ensures old(isPlaying) ==> chineseRepetitions == old(chineseRepetitions) && drillSequence == old(drillSequence)
      ensures !old(isPlaying) ==> chineseRepetitions == repetitions
      ensures isPlaying == old(isPlaying) && currentWord == old(currentWord) && synth == old(synth)
      ensures phraseRepetitionCounts == old(phraseRepetitionCounts)
      ensures lifetimeRepetitions == old(lifetimeRepetitions)
      ensures selectedEnVoice == old(selectedEnVoice) && selectedZhVoice == old(selectedZhVoice)
      ensures availableVoices == old(availableVoices) && voicesLoaded == old(voicesLoaded)
    {
      if isPlaying {
        return;
      }
      chineseRepetitions := repetitions;
      drillSequence := GenerateDrillSequence(pairs, repetitions);
    }

    /** The large phrase display for the current word. */
    function Shown(): (string, string)
      reads this
    {
      (ShownEnglish(pairs, currentWord), ShownChinese(pairs, currentWord))
    }

    /** While item `j` of pair `k`'s block is the current word, as `SpeakNext`
        of its position leaves it, the large display shows pair `k`, provided
        its texts are not empty and no earlier pair has a text equal to that
        word. */
    lemma ShownFollowsPlayback(k: nat, j: nat)
      requires Valid() && k < |pairs| && j < BlockLength(chineseRepetitions)
      requires pairs[k].english != "" && pairs[k].chinese != ""
      requires var word := if j == 0 then pairs[k].english else pairs[k].chinese;
        forall h :: 0 <= h < k ==> pairs[h].english != word && pairs[h].chinese != word
      requires k * BlockLength(chineseRepetitions) + j < |drillSequence|
      requires currentWord == Some(drillSequence[k * BlockLength(chineseRepetitions) + j].displayLabel)
      ensures Shown() == (pairs[k].english, pairs[k].chinese)
    {
      DisplayFollowsPlayback(pairs, chineseRepetitions, k, j);
    }

    /** The platform ends utterance `i`, and the end of each utterance the
        chain speaks next, in turn: each end speaks the next item and the last
        one stops playback; the counters move by the items after `i`, and the
        platform is asked to speak each later item in order. */
    method EndFrom(i: nat)
      requires Valid() && i < |drillSequence|
      modifies this
      ensures Valid() && SetupUnchanged()
      ensures !isPlaying && currentWord == None
      ensures synth == old(synth) + Spoken(drillSequence, i + 1, selectedVoicesRef)
      ensures phraseRepetitionCounts == Tally(old(phraseRepetitionCounts), drillSequence[i + 1..])
      ensures lifetimeRepetitions == Tally(old(lifetimeRepetitions), drillSequence[i + 1..])
      decreases |drillSequence| - i
    {
      ghost var session0, lifetime0 := phraseRepetitionCounts, lifetimeRepetitions;
      ghost var items, log0, ref := drillSequence, synth, selectedVoicesRef;
      OnEnd(i);
      if i + 1 < |drillSequence| {
        EndFrom(i + 1);
        SpokenFrom(log0, items, i + 1, ref);
      }
      TallyFrom(session0, items, i + 1);
      TallyFrom(lifetime0, items, i + 1);
    }

    /** Play from idle and let the platform end every utterance in turn: the
        platform is cancelled once, then asked to speak every item in
        order, and playback stops with no current word;
        every counter has moved by the Mandarin items of its phrase, that is
        by the repetition count once per pair with that English text. */
    method RunToCompletion()
      requires Valid() && !isPlaying
      modifies this
      ensures Valid() && SetupUnchanged()
      ensures !isPlaying && currentWord == None
      ensures synth == old(synth) + [Cancel] + Spoken(drillSequence, 0, selectedVoicesRef)
      ensures phraseRepetitionCounts == Tally(old(phraseRepetitionCounts), drillSequence)
      ensures lifetimeRepetitions == Tally(old(lifetimeRepetitions), drillSequence)
      ensures forall id :: (Get(phraseRepetitionCounts, id) ==
        Get(old(phraseRepetitionCounts), id) + ChineseCount(chineseRepetitions) * Occurrences(pairs, id))
    {
      ghost var session0, lifetime0 := phraseRepetitionCounts, lifetimeRepetitions;
      ghost var items, log0, ref := drillSequence, synth, selectedVoicesRef;
      if |drillSequence| == 0 {
        TallyCons(session0, items);
        TallyCons(lifetime0, items);
        HandlePlay();
      } else {
        HandlePlay();
        ghost var log1, session1, lifetime1 := synth, phraseRepetitionCounts, lifetimeRepetitions;
        EndFrom(0);
        SpokenFrom(log0 + [Cancel], items, 0, ref);
        assert synth == log1 + Spoken(items, 1, ref);
        TallyRun(session0, session1, phraseRepetitionCounts, items);
        TallyRun(lifetime0, lifetime1, lifetimeRepetitions, items);
      }
      assert forall id :: (Get(phraseRepetitionCounts, id) ==
        Get(session0, id) + ChineseCount(chineseRepetitions) * Occurrences(pairs, id)) by {
        TallyDrillAll(session0, pairs, chineseRepetitions);
      }
    }
  }

  /** The drill of one pair "Good morning" / 早上好 at 2 repetitions: its
      English item and its Mandarin item twice, counted 2 for the phrase. */
  lemma GoodMorningDrill()
    ensures var pair := PhrasePair("Good morning", "早上好");
      && DrillSpec([pair], 2) == [EnglishItem(pair), ChineseItem(pair), ChineseItem(pair)]
      && Tally(map[], DrillSpec([pair], 2)) == map["Good morning" := 2]
    ensures !StartsWith(EN_US, "zh") && StartsWith(ZH_CN, "zh")
  {
    var pair := PhrasePair("Good morning", "早上好");
    assert Repeat(ChineseItem(pair), 2) == [ChineseItem(pair), ChineseItem(pair)];
    var items := [EnglishItem(pair), ChineseItem(pair), ChineseItem(pair)];
    assert DrillSpec([pair], 2) == items;
    assert EN_US != ZH_CN by {
      assert EN_US[0] != ZH_CN[0];
    }
    assert items[..1][..0] == [] && items[..2][..1] == items[..1] && items[..3] == items;
    assert Tally(map[], items[..1]) == map[];
    assert Tally(map[], items[..2]) == map["Good morning" := 1];
  }

  /** One pair "Good morning" / 早上好 drilled twice per phrase, before any
      voice is loaded: the platform is cancelled, then speaks the English
      phrase and the Mandarin phrase twice with the platform default voice;
      the session counter of the phrase ends at 2 and playback ends idle. */
  method GoodMorningRun() returns (session: map<string, nat>, playing: bool, log: seq<SynthCall>)
    ensures session == map["Good morning" := 2] && !playing
    ensures log == [Cancel,
      Speak(Utterance("Good morning", EN_US, None, 0)),
      Speak(Utterance("早上好", ZH_CN, None, 1)),
      Speak(Utterance("早上好", ZH_CN, None, 2))]
  {
    var player := new DrillPlayer([PhrasePair("Good morning", "早上好")], map[]);
    player.SetRepetitions(2);
    player.RunToCompletion();
    GoodMorningDrill();
    SpokenItems(player.drillSequence, 0, player.selectedVoicesRef);
    session, playing, log := player.phraseRepetitionCounts, player.isPlaying, player.synth;
  }
}
