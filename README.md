# Mandarin pronunciation drill, modelled in Dafny

This project models the logic of a pronunciation-drill web app. Its core is
the drill player. The player turns English/Mandarin phrase pairs into a
sequence of utterances: each English phrase once, then its Mandarin
translation a chosen number of times. It picks the best installed English
and Mandarin voices by ordered preference chains. It then speaks the
sequence item by item, and counts every Mandarin repetition per phrase, for
the session and for the learner's lifetime. Three smaller parts of the app
are modelled too:

- the CSV import of the admin area: header detection, validation,
  duplicate check, defaults, statistics;
- the per-user progress store: a map from phrase to total repetitions,
  kept in step with the database by increment-and-upsert;
- the admin phrase list: the local copy of the table after create, update
  and delete, and the choice between the form and the table.

Modules:

- `Text`: optional values, remote-call outcomes, and the string tests
  `startsWith` / `includes`.
- `DrillSequence`: `generateDrillSequence`. It is a loop method, proved
  equal to the block-by-block specification `DrillSpec`. Lemmas give its
  length and the item at every position.
- `Counters`: the counter update made when an item starts (`Bump`), and its
  fold over a sequence (`Tally`). `TallyDrill` proves that a whole run adds
  the repetition count to every phrase.
- `Voices`: the voice preference chains. A chain is a table of rules where
  the first match wins. It also holds the language filters of the pickers
  and the pickers' lookup by name.
- `AudioDrill`: the player as a class `DrillPlayer`. Each state variable of
  the component is a field, except the playback rate (see "Left out"). The speech platform is a log of the calls made
  to it (`synth`). The platform's end and error events are methods
  (`OnEnd`, `OnError`), and so is the arrival of the voice list
  (`LoadVoices`). The component's `{ en, zh }` objects (the picker lists
  and the voice ref) are values of `ByLanguage`. The invariant `Valid` ties
  the sequence to the repetition setting, and the voice ref to the chosen
  voices.
- `ImportRows`: the row loop of the CSV import, proved against `AcceptedRows`
  and `DuplicateRows`, and the dialog as a class `ImportModal`.
- `UserProgress`: the progress map and the class `ProgressTracker`.
- `AdminDashboard`: the list transforms (merge by id, filter by id) and the
  class `Dashboard`.

Remote calls (database queries and writes, the CSV parser) are parameters
holding their outcome. A call that returns data is a `Remote<T>`: the data
returned, or the error's message. A write that only reports an error (the
update, the upsert, the insert) is an `Option<string>`: the error's
message, if any. The platform's
`toLowerCase`, `trim` and `parseInt`, and the pinyin generator, are function
parameters. The phrase pairs, which the component hard-codes, are a
constructor parameter.

## Model

| member | source | states |
|---|---|---|
| DrillSequence.GenerateDrillSequence | src/components/AudioDrill.jsx:36-57 | the pushed sequence is the specification: for each pair in order, one English item, then the Chinese item once per loop turn |
| DrillSequence.DrillLength | src/components/AudioDrill.jsx:36-57 | the sequence has `pairs` times `r + 1` items (with no turns for `r <= 0`); no pairs gives an empty sequence |
| DrillSequence.DrillPrefix | src/components/AudioDrill.jsx:38-55 | the items of the first `k` pairs are a prefix of the whole sequence |
| DrillSequence.DrillAt | src/components/AudioDrill.jsx:38-55 | position `k*(r+1)` holds pair `k`'s English in `en-US`, and the next `r` positions its Chinese in `zh-CN`; each label equals its text; each phrase id is the pair's English |
| DrillSequence.DrillItemAt | src/components/AudioDrill.jsx:38-55 | every position belongs to the block of pair `i / (r+1)`: English at the block's start, Chinese elsewhere |
| Counters.BumpCounts | src/components/AudioDrill.jsx:131-143 | a `zh-CN` item moves its phrase's counter by exactly one; any other item leaves the map as it is; other keys keep their value and presence |
| Counters.TallyAppend | src/components/AudioDrill.jsx:131-143 | counting two runs one after the other is counting their concatenation |
| Counters.TallyRepeat | src/components/AudioDrill.jsx:131-143 | `n` starts of one Mandarin item move its phrase by `n`; English starts move nothing |
| Counters.TallyDrill | src/components/AudioDrill.jsx:36-143 | a full run adds `r` times the number of pairs with that English text to each phrase's counter, and nothing to other keys |
| Counters.TallyCons | src/components/AudioDrill.jsx:131-143 | counting a run is counting its first item, then the rest |
| Counters.TallyDrillDistinct | src/components/AudioDrill.jsx:131-143 | with distinct English texts, a full run adds exactly `r` to each phrase's counter |
| Counters.OccurrencesDistinct | src/components/AudioDrill.jsx:38-55 | with distinct English texts, each pair's English is the phrase id of exactly one pair |
| Counters.OccurrencesAbsent | src/components/AudioDrill.jsx:38-55 | a text that no pair has as its English is the phrase id of no pair |
| Voices.FirstMatch | src/components/AudioDrill.jsx:77-92 | the index of the first voice a rule accepts: every earlier voice fails the rule |
| Voices.Find | src/components/AudioDrill.jsx:77-92 | `find` returns a listed voice the rule accepts, and returns nothing exactly when no listed voice is accepted |
| Voices.FirstRuleMatchNone | src/components/AudioDrill.jsx:77-92 | the `\|\|` chain gives nothing exactly when every rule finds nothing |
| Voices.FirstRuleMatchFirst | src/components/AudioDrill.jsx:77-92 | when rule `j` finds a voice and no earlier rule does, the chain gives rule `j`'s voice |
| Voices.FirstRuleMatchFound | src/components/AudioDrill.jsx:77-92 | whatever the chain gives, some rule of it found |
| Voices.LangFilter | src/components/AudioDrill.jsx:95-96 | the picker list holds exactly the listed voices whose language has the prefix |
| Voices.SelectEnglishSound | src/components/AudioDrill.jsx:77-95 | the English pick is an `en*` voice of the list and of the English picker; there is no pick exactly when no voice is `en*` |
| Voices.SelectMandarinSound | src/components/AudioDrill.jsx:86-92 | the Mandarin pick is a `zh*` voice or one named Ting-Ting or Sin-Ji; there is no pick exactly when no listed voice is one of those |
| Voices.MandarinRuleCandidate | src/components/AudioDrill.jsx:86-92 | any voice a Mandarin rule accepts is `zh*` or carries one of the two names |
| Voices.MandarinChainNone | src/components/AudioDrill.jsx:86-92 | when the Mandarin chain finds nothing, no listed voice is `zh*` or carries one of the two names |
| Voices.FindByName | src/components/AudioDrill.jsx:189-195 | the picker's lookup returns a listed voice with that name, and returns nothing exactly when none has it |
| Voices.EnglishPriority | src/components/AudioDrill.jsx:77-82 | when rule `j` is the first English rule to find a voice, the pick is the first listed voice it accepts |
| Voices.MandarinPriority | src/components/AudioDrill.jsx:86-92 | the same first-rule, first-voice priority for the Mandarin chain |
| Voices.EnglishRegionBeatsPrefix | src/components/AudioDrill.jsx:77-82 | on [A en-GB, B en-US] the English pick is B |
| Voices.MandarinMainlandBeatsPrefix | src/components/AudioDrill.jsx:86-92 | on [X zh-TW, Y zh-CN] the Mandarin pick is Y |
| Voices.MandarinPickOutsidePicker | src/components/AudioDrill.jsx:89-96 | a voice named Ting-Ting with language en-US becomes the Mandarin pick, though the Mandarin picker does not list it |
| AudioDrill.FirstPairShowing | src/components/AudioDrill.jsx:261-266 | the index of the first pair whose English or Chinese equals the word: no earlier pair shows it |
| AudioDrill.ShowsPair | src/components/AudioDrill.jsx:261-266 | a word that is a non-empty text of pair `k`, and no text of an earlier pair, makes the display show pair `k`'s texts |
| AudioDrill.DisplayFollowsPlayback | src/components/AudioDrill.jsx:261-266 | while an item of pair `k` is current, the large display shows pair `k`'s texts, when those are non-empty and no earlier pair shares the word |
| AudioDrill.PickVoices | src/components/AudioDrill.jsx:77-96 | the `{ en, zh }` picker lists are the `en*` and `zh*` voices; the picks are the chains' results; each list holds only its language, and the English pick is in the English list |
| AudioDrill.DrillPlayer.constructor | src/components/AudioDrill.jsx:5-59 | the first render is idle, with no voices, 3 repetitions, an empty session map, the saved lifetime map, and the sequence built from them |
| AudioDrill.SpokenItems | src/components/AudioDrill.jsx:120-161 | the calls `Spoken` gives from an item on: one utterance per remaining item, in sequence order, item `from + k` at position `k`, each with its text, language, the ref's voice for that language and its index |
| AudioDrill.GoodMorningDrill | src/components/AudioDrill.jsx:36-57 | one pair "Good morning" / 早上好 at 2 repetitions: the drill is its English item, then its Mandarin item twice, and starting all of them counts 2 for the phrase |
| AudioDrill.DrillPlayer.ShownFollowsPlayback | src/components/AudioDrill.jsx:261-266 | while item `j` of pair `k`'s block is the current word, the large display shows pair `k`'s texts, when those are non-empty and no earlier pair shares the word |
| AudioDrill.DrillPlayer.SpeakNext | src/components/AudioDrill.jsx:120-170 | past the end: stop, clear the word, speak nothing. Otherwise: show the label, bump both counters for a Mandarin item, and speak the item with the ref's voice for its language (none if unset). Playing state is not consulted |
| AudioDrill.DrillPlayer.HandlePlay | src/components/AudioDrill.jsx:172-180 | a no-op while playing; otherwise cancel, start playing and speak item 0 |
| AudioDrill.DrillPlayer.OnEnd | src/components/AudioDrill.jsx:156-161 | an utterance's end speaks item `index + 1` |
| AudioDrill.DrillPlayer.OnError | src/components/AudioDrill.jsx:163-167 | an utterance error stops playback and clears the word |
| AudioDrill.DrillPlayer.HandleStop | src/components/AudioDrill.jsx:182-186 | from any state: cancel, stop, clear the word |
| AudioDrill.DrillPlayer.LoadVoices | src/components/AudioDrill.jsx:68-107 | an empty voice list changes nothing; otherwise the lists, the picks and the ref are set from the chains, and voices count as loaded |
| AudioDrill.DrillPlayer.SetVoices | src/components/AudioDrill.jsx:98-102 | sets the `{ en, zh }` lists, both choices, the ref to those choices, and the loaded flag; playback, counters and sequence are unchanged |
| AudioDrill.DrillPlayer.HandleEnVoiceChange | src/components/AudioDrill.jsx:188-192 | the picker is disabled while playing; otherwise the English choice and ref become the first English-list voice with that name, or none |
| AudioDrill.DrillPlayer.HandleZhVoiceChange | src/components/AudioDrill.jsx:194-198 | the picker is disabled while playing; otherwise the Mandarin choice and ref become the first Mandarin-list voice with that name, or none |
| AudioDrill.DrillPlayer.SetRepetitions | src/components/AudioDrill.jsx:354-356 | the slider is disabled while playing; otherwise the count is stored and the sequence is rebuilt from it |
| AudioDrill.DrillPlayer.EndFrom | src/components/AudioDrill.jsx:120-170 | ending utterance `i` and every utterance after it: the platform is asked to speak each later item, in order; playback ends with no word; each counter has counted exactly the items after `i` |
| AudioDrill.DrillPlayer.RunToCompletion | src/components/AudioDrill.jsx:120-180 | play from idle, then end every utterance: the platform is cancelled once, then asked to speak every item in sequence order; playback ends with no word; each counter grows by `r` per pair with that English text |
| AudioDrill.GoodMorningRun | src/components/AudioDrill.jsx:120-180 | one pair with 2 repetitions and no voice loaded: the calls are exactly cancel, "Good morning" in `en-US`, then 早上好 in `zh-CN` twice, all with the default voice; the session counter ends at 2 and playback idle |
| ImportRows.Cell | src/components/Admin/ImportModal.jsx:56-60 | a column past the row's end is missing |
| ImportRows.ExistingKeys | src/components/Admin/ImportModal.jsx:30 | the duplicate set holds exactly the lower-cased, trimmed English texts already stored |
| ImportRows.DataStart | src/components/Admin/ImportModal.jsx:44-49 | data starts at row 1 exactly when row 0's first cell, lower-cased and trimmed, is `english`; otherwise at row 0 |
| ImportRows.Category | src/components/Admin/ImportModal.jsx:81 | a missing or empty category becomes `general`, so it is never empty |
| ImportRows.Difficulty | src/components/Admin/ImportModal.jsx:82 | NaN (a missing cell included) and 0 fall back to 1; any other parsed value is kept; the level is never 0 |
| ImportRows.ProcessRows | src/components/Admin/ImportModal.jsx:39-85 | the loop's records and skip count are the accepted records and the duplicate count of the data rows |
| ImportRows.RowsSnoc | src/components/Admin/ImportModal.jsx:52-85 | one more row adds its record when accepted, and one to the skip count when a duplicate |
| ImportRows.OutcomeCounts | src/components/Admin/ImportModal.jsx:62-85 | accepted, duplicate and invalid rows add up to the number of data rows |
| ImportRows.StatsBound | src/components/Admin/ImportModal.jsx:96-100 | imported plus skipped never exceeds the total, which counts the header too |
| ImportRows.RowsAppend | src/components/Admin/ImportModal.jsx:52-85 | records keep file order, and counts add up over concatenated files |
| ImportRows.AcceptedMembership | src/components/Admin/ImportModal.jsx:62-84 | a record is inserted exactly when some data row is accepted with it |
| ImportRows.AcceptedRecordShape | src/components/Admin/ImportModal.jsx:62-84 | an accepted row has both texts and a new key; its record has trimmed texts, pinyin of the raw Chinese, a non-empty category, a non-zero level, and is active |
| ImportRows.RepeatedRowsAllAccepted | src/components/Admin/ImportModal.jsx:30-72 | the key set is never extended, so a new phrase repeated `n` times is inserted `n` times, with no skips |
| ImportRows.BlankEnglishAccepted | src/components/Admin/ImportModal.jsx:63-78 | a blank English cell passes validation (tested before trimming), and its record's English is empty |
| ImportRows.ImportModal.constructor | src/components/Admin/ImportModal.jsx:8-10 | the dialog starts idle, with no statistics and no error |
| ImportRows.ImportModal.HandleFileUpload | src/components/Admin/ImportModal.jsx:15-121 | no file: nothing. A fetch or parse error sets its message (`Failed to parse CSV: ` for parse errors). An insert error sets its message and keeps the statistics. Otherwise the statistics are set; insert and success callback happen only when a row was accepted. Importing ends in every case |
| ImportRows.ImportModal.ImportParsed | src/components/Admin/ImportModal.jsx:39-107 | the accepted records are inserted when there are any. An insert error sets its message and keeps the statistics. Otherwise the statistics count all raw rows, the accepted and the duplicates, and the success callback runs when a row was inserted |
| UserProgress.Increment | src/hooks/useUserProgress.js:53-75 | the phrase's entry becomes its count (absent as 0) plus the increment; every other entry is kept |
| UserProgress.BuildProgressMap | src/hooks/useUserProgress.js:34-38 | the fetched rows become the map the rows set in order; null data gives the empty map |
| UserProgress.ProgressMapKeys | src/hooks/useUserProgress.js:35-38 | a phrase has an entry exactly when some row names it |
| UserProgress.ProgressMapLastWins | src/hooks/useUserProgress.js:35-38 | the last row for a phrase decides its entry |
| UserProgress.IncrementTwice | src/hooks/useUserProgress.js:53-75 | two successful updates of one phrase add both increments |
| UserProgress.IncrementCommutes | src/hooks/useUserProgress.js:72-75 | successful updates of different phrases commute |
| UserProgress.ProgressTracker.constructor | src/hooks/useUserProgress.js:6-9 | the hook starts with an empty map, loading, no error |
| UserProgress.ProgressTracker.FetchProgress | src/hooks/useUserProgress.js:20-47 | no user: nothing. Otherwise it queries for that user. Success replaces the map with the rows' map and clears the error; failure keeps the map and sets the error. Loading ends either way |
| UserProgress.ProgressTracker.UserChanged | src/hooks/useUserProgress.js:11-18 | a user triggers a fetch; no user empties the map and ends loading |
| UserProgress.ProgressTracker.UpdateProgress | src/hooks/useUserProgress.js:49-80 | no user: nothing. Otherwise upsert count-plus-increment (default 1) on conflict `user_id,phrase_id`. On success only that phrase's entry changes; on failure the map is kept and the error set |
| AdminDashboard.MergeByIdShape | src/components/Admin/AdminDashboard.jsx:65 | the merge keeps length and order; rows with another id are untouched; rows with the id take every form field and keep their others |
| AdminDashboard.MergeByIdIdempotent | src/components/Admin/AdminDashboard.jsx:65 | merging the same form twice equals merging it once, when the form does not change the id |
| AdminDashboard.RemoveByIdMembership | src/components/Admin/AdminDashboard.jsx:89 | a row survives the delete exactly when it was listed with another id |
| AdminDashboard.RemoveByIdAppend | src/components/Admin/AdminDashboard.jsx:89 | the filter distributes over concatenation, so survivors keep their order |
| AdminDashboard.RemoveByIdAbsent | src/components/Admin/AdminDashboard.jsx:89 | a list without the id is unchanged |
| AdminDashboard.CreateThenDelete | src/components/Admin/AdminDashboard.jsx:46-89 | prepending a row with a new id, then deleting that id, restores the list |
| AdminDashboard.Dashboard.constructor | src/components/Admin/AdminDashboard.jsx:8-13 | the dashboard starts with an empty list, loading, no form open, no error |
| AdminDashboard.Dashboard.CurrentView | src/components/Admin/AdminDashboard.jsx:95-116 | the form shows exactly while creating or editing; it submits to create exactly while creating |
| AdminDashboard.Dashboard.FetchPhrases | src/components/Admin/AdminDashboard.jsx:19-34 | success replaces the list; failure keeps it and sets the error; loading ends |
| AdminDashboard.Dashboard.HandleCreate | src/components/Admin/AdminDashboard.jsx:36-53 | the form is inserted. Success prepends the returned row, keeps the rest in order and closes the create form. Failure keeps list and form and sets the error |
| AdminDashboard.Dashboard.HandleUpdate | src/components/Admin/AdminDashboard.jsx:55-72 | the form is written to the edited row's id. Success merges it into the rows with that id and closes the edit form. Failure keeps both. Nothing edited: the id read fails before any write |
| AdminDashboard.Dashboard.HandleDelete | src/components/Admin/AdminDashboard.jsx:74-93 | declined: nothing. An error, or a count of 0 (with the permission message), keeps the list. Otherwise the rows with the id leave it |
| AdminDashboard.Dashboard.StartCreate | src/components/Admin/AdminDashboard.jsx:139 | the create form opens |
| AdminDashboard.Dashboard.StartEdit | src/components/Admin/AdminDashboard.jsx:174 | the row is edited; the edit form shows unless the create form is open |
| AdminDashboard.Dashboard.CancelForm | src/components/Admin/AdminDashboard.jsx:107-110 | both forms close and the table shows |

## Left out

- Rendering is not modelled: markup, styles, the phrase-list highlight, the percentage progress bar and the waveform's random bar heights. These are presentation and floating point.
- Playback rate and pitch are floats handed to the platform unchanged, so utterances do not carry them, and the rate slider's state is not a field.
- The Web Speech API is reduced to a log of `speak`/`cancel` calls and two event methods. The 500 ms pause before the next item is a timer and is not modelled. So is the `voiceschanged` listener's registration and removal.
- An utterance end that arrives after a stop still advances the chain, as in the source; the model does not claim that a stop suppresses it.
- An end handler in the source runs the `speakNext` of the render that created it, so it uses that render's sequence. `OnEnd` uses the current sequence instead. The two agree while playing, because the repetition slider is disabled then. They can differ for a late end that arrives after a stop followed by a slider change; that case is not modelled.
- UserProgress.ProgressTracker.UpdateProgress: the upsert also writes the current time as `last_practiced_at` and `updated_at`; the clock is not modelled, so `Upsert` does not carry these two fields.
- Reading and writing the lifetime counter in `localStorage` is I/O. The saved map is a constructor parameter.
- Asynchronous interleaving is not modelled. Each handler runs to completion in one method, so the `loading`/`importing` states seen while a call is pending are not modelled. Neither are two `updateProgress` calls racing on the same render's map, where one increment would be lost.
- The platform's Unicode `toLowerCase` and `trim`, `parseInt`, and the pinyin library are uninterpreted function parameters; no property of them is assumed beyond what a lemma's precondition names.
- Database queries, the CSV parser and the confirm dialog are outcome parameters. A query that succeeds with null data is covered only in `FetchProgress`, as the source's `data?.` handles it.
- HandleCreate: the created row is taken as present. The source would prepend `undefined` if the database returned an empty array.
- HandleUpdate: the text of the message for a null `editingPhrase` comes from the JavaScript engine; the model uses one such text as a constant.
- The dashboard's import dialog open/close flag and its "back to app" navigation are UI state with no logic.
- The component's hard-coded two phrase pairs are a constructor parameter; the shuffle, category filter and settings views hold no logic of their own.
- ImportRows.ImportModal: the `isOpen` early return only affects rendering. A stored phrase with a null English text would throw inside the fetch handler; that path is not modelled.
