# Dream zone voice assistant: the decision layer

A model, in Dafny, of the deterministic logic inside two versions of a
desktop voice-chat assistant (`dreamzone.py` and `fack.py`). Both classes
load an intent table (tag, example patterns, candidate responses), train a
text classifier on it, and answer user input. The model covers:

- **Training-set extraction** (`Intents.ExtractTrainingSet`): the nested
  loop that turns the intent table into two parallel lists, lower-cased
  non-blank patterns and their tags. It fails when no pattern survives.
  It is proved equal, element by element, to the reference function
  `Intents.Examples`. Lemmas about that function cover order, traceability,
  completeness and the error condition.
- **Keyword commands** (`Commands`): `_handle_hardcoded_commands` of
  `dreamzone.py`. It is written as the `if` chain of `dreamzone.py` over the
  lower-cased, stripped input. It is proved equal to a first-match search
  over an ordered rule table (`Commands.Rules`), and from that come the
  priority, `None`-case, case- and whitespace-insensitivity lemmas.
- **The tiered resolver** (`DreamZone.Respond`): blank-input guard, then
  keyword command, then a confident classifier tag answered from the first
  intent carrying it, then the remote model, then the apology if the remote
  call raises, then the static fallback. `Fack.Respond` is the simpler
  `fack.py` resolver: predicted tag, else a fixed apology.
- **Voice flags**: the `speak_text` guard and text cleaning
  (`DreamZone.SpeechFor`, `DreamZone.Assistant.SpeakText`) and both
  `toggle_voice` methods (`DreamZone.Assistant.ToggleVoice`,
  `Fack.Assistant.ToggleVoice`).

The parts outside the program's control are parameters:

- the classifier is a function from the lower-cased input to a prediction,
  or `None` when prediction raises;
- the remote model is an optional function from the prompt to a reply or
  an exception;
- `random.choice` is a `roll: nat`, choosing `responses[roll % |responses|]`;
- the clock is a pair of already formatted strings.

Python's `str.strip()`, `str.lower()`, `in` and `replace` are modelled in
`Text`. Lower-casing covers ASCII letters only. `Strip` removes exactly the
characters for which `str.isspace()` holds.

Behaviour taken from the code where a reader might expect otherwise:

- In `dreamzone.py`, a confident tag that no intent carries, or whose first
  intent has an empty response list, does not answer locally. The loop ends,
  or `random.choice` raises inside the `try`, so the remote tier answers.
- In `fack.py` the same two cases give the fixed "Sorry, ..." reply.
- In `dreamzone.py` a failed training leaves the assistant running: the
  window does not exist yet when `train_model` runs, so nothing is
  destroyed. Every later prediction then raises (`DreamZone.Untrained`) and
  the remote tier answers. In `fack.py` the window exists first and is
  destroyed (`Fack.Assistant.closed`).
- Training can also fail after extraction: `CountVectorizer` raises when
  no kept pattern has a token of two or more word characters. `dreamzone.py`
  catches this like any other training error. `fack.py` does not catch it,
  so the error leaves `__init__` and no assistant is started (`Fack.Launch`).

## Model

| member | source | states |
|---|---|---|
| `Intents.ExtractTrainingSet` | dreamzone.py:108-119 | fails exactly when the table has no non-blank pattern; otherwise the pattern and tag lists have equal length and position k of both is the k-th training example of the table |
| `Intents.Examples` | fack.py:48-55 | reference definition of the training samples, intent after intent and pattern after pattern, blank patterns skipped; what it means is stated by `ExamplesMembers`, `ExamplesAppend`, `PatternExamplesAppend` and `NoExamplesIffAllBlank` |
| `Intents.ExamplesAppend` | fack.py:51-55 | extraction preserves table order: the examples of two tables laid end to end are those of the first followed by those of the second |
| `Intents.PatternExamplesAppend` | fack.py:52-55 | within one intent, pattern order is preserved the same way |
| `Intents.ExamplesMembers` | fack.py:51-55 | an example is in the training set iff it comes from some intent i and non-blank pattern j of it: the pattern lower-cased, paired with intent i's tag |
| `Intents.PatternExamplesMembers` | fack.py:52-55 | one intent contributes exactly its non-blank patterns, lower-cased, each with that intent's tag |
| `Intents.ExamplesWellFormed` | dreamzone.py:114-116 | every training pattern is non-blank and contains no upper-case letter |
| `Intents.NoExamplesIffAllBlank` | fack.py:57-60 | the error path is taken iff every pattern of every intent is blank |
| `Intents.FindIntent` | fack.py:114-115 | the search returns the index of the first intent whose tag equals the predicted tag, and `None` only when no intent carries it |
| `Intents.Pick` | fack.py:117 | the random choice is an element of the responses |
| `Intents.PickReachesEvery` | dreamzone.py:177 | every response can be drawn |
| `Intents.ReplyForTag` | dreamzone.py:174-177 | a reply exists iff the first intent with the tag exists and has responses, and it is then one of that intent's responses |
| `Commands.Dispatch` | dreamzone.py:131-152 | the `if` chain itself, on the lower-cased, stripped input; what it means is stated by `DispatchFollowsRules`, `DispatchPriority`, `DispatchNone` and the case and whitespace lemmas |
| `Commands.FirstFiring` | dreamzone.py:135-152 | first-match search: returns the earliest rule that fires, and `None` only when no rule fires |
| `Commands.RulesFire` | dreamzone.py:135-150 | each rule of the table fires exactly when one of the phrases `dreamzone.py` tests for it occurs |
| `Commands.DispatchFollowsRules` | dreamzone.py:131-152 | the `if` chain on the normalised input returns the command of the first firing rule of the ordered table, or `None` |
| `Commands.DispatchPriority` | dreamzone.py:135-150 | the dispatcher returns command c iff the rule for c fires and no earlier rule (time, date, YouTube, website, Instagram, maps) does |
| `Commands.DispatchNone` | dreamzone.py:152 | the dispatcher returns `None` iff no phrase of any rule occurs in the normalised input |
| `Commands.DispatchIgnoresCase` | dreamzone.py:133 | lower-casing the input does not change the command |
| `Commands.DispatchIgnoresSurroundingSpace` | dreamzone.py:133 | whitespace added before and after the input does not change the command |
| `Commands.WebsitePhrases` | dreamzone.py:142-144 | "open google" and "open website" both give the website command once no earlier rule fires |
| `Commands.MapsPhrases` | dreamzone.py:148-150 | any of the five location phrases gives the maps command once no earlier rule fires |
| `Commands.Reply` | dreamzone.py:135-150 | every command reply is non-empty, so a matched command is always truthy |
| `Commands.Url` | dreamzone.py:139-150 | every command opens a page in the browser except reporting the time and the date |
| `Commands.Hardcoded` | dreamzone.py:131-152 | a reply exists iff a command matched, and it is that command's non-empty reply |
| `DreamZone.Respond` | dreamzone.py:154-193 | every reply is the blank prompt, the matched command's reply, a response of some intent, the remote model's text for the prompt, the apology or the fallback |
| `DreamZone.LocalReply` | dreamzone.py:167-179 | a local reply exists only for a confident prediction, and it is a response of the first intent carrying the predicted tag |
| `DreamZone.RemoteTier` | dreamzone.py:181-193 | the reply is the model's text for the prompt whenever the model replies, and otherwise the apology or the fallback |
| `DreamZone.BlankInput` | dreamzone.py:159-160 | a blank or whitespace-only input gets "Please say something!", and the reply is the same whatever the table, clock, classifier, remote model and draw |
| `DreamZone.CommandShortCircuits` | dreamzone.py:162-165 | a matched command decides the reply to a non-blank input, whatever the table, classifier, remote model and draw |
| `DreamZone.ConfidentTag` | dreamzone.py:168-177 | with no command and a confident tag, the reply is a response of the first intent carrying that tag, when it has responses |
| `DreamZone.LocalSilence` | dreamzone.py:168-179 | the local tier gives nothing iff prediction raised, was not confident, or the first intent with the tag is missing or has no responses |
| `DreamZone.FallsToRemote` | dreamzone.py:181-193 | past the local tier: the remote text when the call succeeds, the apology when it raises, the "not sure" fallback when there is no remote model |
| `DreamZone.UntrainedSkipsLocal` | dreamzone.py:126-129 | after a failed training, a non-blank input without a command is answered by the remote tier |
| `DreamZone.Assistant.ChatbotResponse` | dreamzone.py:154-193 | an untrained assistant answers a non-blank, command-free input from the remote tier |
| `DreamZone.CleanForSpeech` | dreamzone.py:241 | the cleaned text is what remains of the text with every `*` removed once a run of spaces is cut off each end; it has no `*`, no space at either end, and is non-empty iff the text has a character that is neither `*` nor a space |
| `DreamZone.SpeechFor` | dreamzone.py:235-243 | something is spoken iff voice is on, an engine exists, no speech is in progress and the text has a character other than `*` and spaces; what is spoken is exactly the cleaned text, which is non-blank |
| `DreamZone.Assistant.SpeakText` | dreamzone.py:233-250 | the engine receives exactly the cleaned text when the guard and the blank check pass, and nothing otherwise; `is_speaking` is back to its old value afterwards |
| `DreamZone.Assistant.ToggleVoice` | dreamzone.py:319-328 | flips the flag; switching on announces "Voice is now on" through the speech guard, switching off mid-speech stops the engine |
| `DreamZone.Assistant.constructor` | dreamzone.py:108-129 | voice on, not speaking, no engine calls; trained iff the table has a non-blank pattern and the vectorizer finds a vocabulary in those patterns, and the assistant runs either way |
| `DreamZone.ToggleTwice` | dreamzone.py:319-321 | toggling twice restores the voice flag |
| `Fack.ReplyFromFirstTagged` | fack.py:114-117 | the reply is a response of the first intent whose tag equals the predicted tag, when it has responses |
| `Fack.FallbackCases` | fack.py:119-123 | the fixed "Sorry, ..." reply is given when prediction raises, when no intent carries the tag, or when the first that does has no responses |
| `Fack.VoiceStatus` | fack.py:211 | the status text is "Voice enabled" iff voice is on and "Voice disabled" iff it is off |
| `Fack.Assistant.ToggleVoice` | fack.py:204-212 | flips `voice_enabled` and sets the status line to the matching status text |
| `Fack.Respond` | fack.py:108-123 | the reply is the fixed "Sorry, ..." text or a response of the first intent carrying the predicted tag |
| `Fack.Assistant.constructor` | fack.py:19-26 | the state left when `__init__` returns: voice on, the first status line, trained iff the window was not destroyed |
| `Fack.Launch` | fack.py:48-63 | starting fails iff the table has a non-blank pattern but the vectorizer finds no vocabulary in the patterns; otherwise the assistant exists, is trained iff the table has a non-blank pattern, and its window is destroyed iff not |
| `Fack.ToggleTwice` | fack.py:206-212 | toggling twice restores the flag, and the status line then reads "Voice enabled" iff voice is on |
| `Text.StripEmptyIffBlank` | dreamzone.py:159 | `strip()` gives the empty string iff every character is a space |
| `Text.LowerStripCommute` | dreamzone.py:133 | lower-casing and stripping commute |
| `Text.StripSurrounded` | dreamzone.py:133 | whitespace around a text does not change what it strips to |
| `Text.StripIdempotent` | dreamzone.py:241 | stripping twice is stripping once |
| `Text.StripUnique` | dreamzone.py:114 | the stripped text is the unique middle part with no space at its ends and only spaces around it |
| `Text.StripShape` | dreamzone.py:133 | the input is spaces, then the stripped text, then spaces |
| `Text.TrimStartShape` | dreamzone.py:133 | stripping at the front removes a run of spaces and stops at a non-space |
| `Text.TrimEndShape` | dreamzone.py:133 | stripping at the back removes a run of spaces and stops at a non-space |
| `Text.LowerIsLowerCase` | dreamzone.py:115 | a lower-cased text has no upper-case ASCII letter |
| `Text.LowerKeepsSpaces` | dreamzone.py:133 | lower-casing keeps blankness and spaces at the ends |
| `Text.RemoveCharCounts` | dreamzone.py:241 | removing `*` leaves no `*` and every other character with its multiplicity |
| `Text.RemoveCharAppend` | dreamzone.py:241 | removing `*` keeps the order of the remaining characters |
| `Text.RemoveCharBlank` | dreamzone.py:241-242 | after removing `*` the text is blank iff every original character is `*` or a space |

## Left out

- The window, transcript canvas, its y-coordinate bookkeeping, buttons, their labels and colours, and the status line of `dreamzone.py`. These are presentation only.
- Threads and `root.after`: `get_and_display_response`, `send_message`, `display_response` and `clear_chat` are GUI glue and are not modelled.
- DreamZone.Assistant.SpeakText: runs the background speech job to completion inside the call. `is_speaking` is therefore only true during the call, and a second call racing with a running job is not modelled. `SpeechFor` takes `is_speaking` as an input so the guard's third condition is still stated.
- The speech engine is a log of `Say` and `Stop` calls. `runAndWait` is folded into `Say`. An exception raised by the engine during `say` is not modelled.
- Speech recognition (`setup_speech_recognition`, `listen_for_speech`, `process_speech_input`) is microphone and network I/O.
- `fack.py`'s `speak_text` is outside the modelled core.
- The Gemini client is the `remote` parameter. `None` stands for "no model configured", the outcome of a missing `GEMINI_API_KEY` or a failed `configure`.
- The naive-Bayes classifier and the `0.65` probability comparison are the `classify`/`predict` parameters. `Prediction.confident` stands for "maximum probability above 0.65".
- `random.choice` is the `roll` parameter. Only membership and reachability are stated, not uniformity.
- `datetime.strftime` output is the `Clock` parameter. `webbrowser.open` is replaced by `Commands.Url`, which returns the address.
- Loading and saving `intents.json` and the default-intents literal are file I/O. `create_default_intents`, called at `fack.py:37`, is not defined in that file and is not part of this model. A table with missing keys, which raises `KeyError` in both programs, cannot be expressed with the typed `Intent` record.
- Whether `CountVectorizer` finds a vocabulary is the `vocabulary` parameter of `DreamZone.Assistant.constructor` and `Fack.Launch`. It is false when no kept pattern has a token of two or more word characters, and `fit_transform` then raises `ValueError`. The tokenizer is not modelled. A failure of `MultinomialNB.fit` after a successful vectorization is not modelled.
- The message-box texts of the training error are not modelled; `TrainingError` carries no message.
- `str.lower()` is modelled for ASCII letters only; Unicode case mapping is not.
- `dream zone.py`, a third variant of the assistant, is not part of this model.
