# Survey session state machine

This project models the session logic of a Streamlit survey (`app.py`) about
human–AI creative collaboration. The survey is a linear wizard:
intro → participant information (demographics) → AI familiarity →
three text-headline rounds and a reflection → eight image-caption tasks → done.
Beneath the widgets, `st.session_state` holds four things:

- the current page;
- a text-round counter;
- a category order, drawn once by `random.sample` over the three brief topics;
- a response ledger (a dictionary from field names to answers).

Each text round has a fixed condition. Round 0 is No-AI, round 1 is AI-first
and round 2 is Human-first. A round advances only when the participant's text
is non-empty after `str.strip()`. In the Human-first round, the AI example
headlines appear only once the text is non-blank.

Streamlit re-runs the whole script on every interaction. The model treats each
run as an event that carries that run's widget values. The outcome of
`random.sample` or `random.choice` and the value of `datetime.now()` also
arrive as event parameters.

Modules:

- `Whitespace` (whitespace.dfy): Python's `str.isspace` character set,
  `str.strip()` as `Strip`, and the blank-answer test `IsBlank`.
- `Survey` (survey.dfy): the pages, the conditions, the ledger values, and the
  fixed catalogues whose entries become ledger keys: brief topics, image
  files, familiarity statements. It also defines the ledger entries that each
  page writes, with their key-distinctness and lookup lemmas.
- `Transitions` (transitions.dfy): the session as a value (`State`), the
  events, the one-run effect `Step`, the invariant `Inv` that every reachable
  session satisfies, `Run` over event sequences, and the properties of the
  state machine.
- `SurveySession` (session.dfy): the `Session` class. Its fields are `page`,
  `textRound`, `categoryOrder` and `responses`. It has one method per button
  press or page run, and each method updates the fields in place. Every event
  method keeps `Valid()` and ends in `Step(old(Snapshot()), event)`. The image
  block is a `for` loop (`WriteImageBlock`) over the eight images that writes
  four keys per image (`WriteImageAnswer`). These two helpers are called only
  on the image page; they keep `Valid()` and are specified by the ledger
  functions `ImageEntries` and `WriteImage`.

Behaviours of `app.py` that the model keeps as the code has them:

- The reset at app.py:98-99 assigns `st.category_order` and `st.text_round`.
  Those are attributes of the `st` module, not of the session, so leaving the
  AI-familiarity page keeps the session's counter and order.
  `FamiliarityKeepsTextState` shows that both are still at their initial
  values (0 and empty) at that point. The missed reset therefore changes
  nothing observable.
- The reflection that closes the text block has no page of its own. It is the
  `text_tasks` page once the counter is 3 (app.py:193-201).
- The Human-first reveal is recomputed on every run (app.py:180). Clearing
  the text hides the examples again (`RevealRule`).
- The eight images share one condition per run, and each run of the image
  page draws that condition again (app.py:245). It is an input of each
  `RenderImages` call. It decides only whether the AI captions are shown,
  never what the ledger holds (`ImageConditionNotRecorded`).
- A text-round run takes the `random.sample` draw as a parameter, but the
  draw is used only while the category order is empty. On every later run
  app.py:137-138 does not call `random.sample`, and the parameter is ignored.

## Model

| member | source | states |
|---|---|---|
| Whitespace.IsSpace | app.py:156 | the whitespace set of `str.isspace()`; among ASCII characters exactly the space, tab to carriage return, and 0x1C to 0x1F |
| Whitespace.TrimLeft | app.py:156 | the result is the suffix of the input that starts at its first non-whitespace character; every dropped character is whitespace |
| Whitespace.TrimRight | app.py:156 | the result is the prefix of the input that ends at its last non-whitespace character; every dropped character is whitespace |
| Whitespace.Strip | app.py:156 | `str.strip()`: the result is no longer than the input and, when not empty, starts and ends at a non-whitespace character |
| Whitespace.StripIsMiddle | app.py:156 | `str.strip()` trims both ends: the result is a slice of the input with only whitespace before and after it |
| Whitespace.IsBlank | app.py:156 | `not text.strip()`: the empty text is blank and a text that starts with a non-whitespace character is not |
| Whitespace.BlankIffAllSpace | app.py:156-160 | `not text.strip()` holds exactly when every character of the text is whitespace |
| Survey.ParticipantEntries | app.py:66-75 | the participant page writes exactly seven keys: the six answers, each under its own field name, and `timestamp_start` set to the supplied clock reading; no ratings |
| Survey.FamiliarityEntries | app.py:84-96 | the familiarity page writes exactly the five statements as keys, each mapped to its own slider value, all in 1..5 |
| Survey.WriteImage | app.py:258-276 | the four writes for one image add exactly its caption, trust, originality and fixation keys, and keep every rating in 1..5 when its sliders are |
| Survey.ImageEntries | app.py:246-276 | the image loop writes exactly the four keys of each image handled so far, and every rating it writes is in 1..5 |
| Survey.ImageKeysDistinct | app.py:258-276 | no two images share a key, and the four keys of one image are pairwise distinct |
| Survey.ImageEntriesLookup | app.py:246-276 | after the loop, each image's caption, trust, originality and fixation keys hold that image's widget values; a later image never overwrites an earlier one |
| Survey.ImageKeysAreNotTimestamps | app.py:274-279 | no image key is `timestamp_start` or `timestamp_end` |
| Survey.FinishedLedgerComplete | app.py:246-281 | a ledger that holds `timestamp_start`, after the image writes and the end timestamp, is a complete record |
| Transitions.Initial | app.py:16-23 | the freshly initialised session (intro page, counter 0, no order, empty ledger) satisfies the reachability invariant |
| Transitions.TextRoundStep | app.py:136-191 | a text-round run keeps the invariant (a drawn order is three distinct brief keys, the counter stays within 0..3), stays on its page and raises the counter by at most one |
| Transitions.ImageStep | app.py:245-282 | an image-page run adds exactly the 32 image keys, plus `timestamp_end` and the move to done when "Finish" was pressed; off the image page it changes nothing; counter and order are never touched |
| Transitions.ImageKeepsInv | app.py:245-282 | an image-page run keeps the invariant; in particular finishing leaves a complete record with all ratings in 1..5 |
| Transitions.ReflectionEntries | app.py:196-198 | a reflection run adds exactly the three `overall_*` keys with this run's slider values, overwriting earlier runs, keeps every other key and keeps ratings in 1..5 |
| Transitions.InvPreserved | app.py:44-282 | every run preserves the invariant: counter in 0..3; order empty or a 3-sample; nothing text-related before the text block; counter 3 from the image block on; start timestamp from AI familiarity on; ratings in 1..5; complete record when done |
| Transitions.Run | app.py:44-303 | every sequence of runs from an invariant-satisfying session ends in one that satisfies it too |
| Transitions.Step | app.py:44-303 | the effect of one run: it either keeps the page or moves to its successor in intro → demographics → ai_familiarity → text_tasks → image_tasks → done; a run on `done` changes nothing |
| Transitions.RunMovesForward | app.py:44-282 | along any sequence of runs, neither the page nor the text-round counter moves backwards |
| Transitions.DoneIsFinal | app.py:287-303 | once the page is `done`, no sequence of runs changes the session |
| Transitions.ImageBlockNeedsThreeRounds | app.py:193-201 | the image block can be entered only from the text page with the counter at 3, through the reflection's "Next" |
| Transitions.FamiliarityKeepsTextState | app.py:95-100 | leaving AI familiarity goes to text_tasks and writes the five sliders; the counter and order are unchanged, and they are 0 and empty at that point |
| Transitions.TextRoundGuard | app.py:156-191 | a text-round run never changes the page; it raises the counter by exactly one when the text is non-blank and "Next" was pressed on a text round, and otherwise leaves the counter unchanged |
| Transitions.CounterStep | app.py:156-191 | any run raises the counter by one exactly when it completes a text round, and otherwise leaves the counter unchanged |
| Transitions.TextRoundWritesOneKey | app.py:140-186 | a text-round run, advancing or not, writes the text under `<category>_response`, with the round's category taken from the drawn order, and leaves every other key as it was |
| Transitions.LastWriteWins | app.py:150-158 | two runs of one round, the first not advancing, leave the second text under the round's key: the ledger overwrites, it never accumulates |
| Transitions.FirstRoundStep | app.py:136-158 | the first completed round draws the order, stores the text under the first drawn category's key and moves the counter from 0 to 1 |
| Transitions.CategoryOrderSetOnce | app.py:136-140 | a run changes the category order only when it was empty and only by a text-round run, which sets it to the drawn sample; a set order is always three distinct brief keys |
| Transitions.RunKeepsCategoryOrder | app.py:136-140 | along any sequence of runs, a category order once set is never reassigned |
| Transitions.CompletedConditionsInOrder | app.py:141-191 | the conditions of the rounds completed along any sequence of runs are `RoundConditions` from the starting counter up to the final counter, in order |
| Transitions.ConditionsFromStart | app.py:142-146 | from a fresh session, the completed conditions are a prefix of No-AI, AI-first, Human-first, and all three once the image block is reached |
| Transitions.ExamplesShown | app.py:152-184 | whether a round shows the AI examples: never for No-AI, always for AI-first, and not for Human-first while the text is empty |
| Transitions.RevealRule | app.py:152-184 | No-AI never shows AI examples and AI-first always does; Human-first shows them exactly when the text contains a non-whitespace character |
| Transitions.ImageConditionNotRecorded | app.py:245-276 | the condition drawn on an image-page run does not affect the session; it only changes what is displayed |
| Transitions.FinishRecordsEverything | app.py:278-282 | finishing the image block moves to `done`; the ledger keeps `timestamp_start`, sets `timestamp_end` to the clock reading and holds every image's caption and three ratings from this run, with all ratings in 1..5 |
| Transitions.DoneHasCompleteRecord | app.py:278-303 | every session that reaches `done` from a fresh start holds the complete record |
| SurveySession.Session.constructor | app.py:16-23 | the new session is on the intro page with an empty ledger, counter 0 and no category order |
| SurveySession.Session.StartSurvey | app.py:50-52 | "Start Survey" moves intro to demographics and changes nothing else; on any other page it is a no-op |
| SurveySession.Session.SubmitParticipant | app.py:57-77 | on the participant page, merges the seven participant entries into the ledger and moves to ai_familiarity; counter and order are unchanged |
| SurveySession.Session.SubmitFamiliarity | app.py:82-100 | on the familiarity page, merges the five slider entries and moves to text_tasks; counter and order are not reset |
| SurveySession.Session.RenderTextRound | app.py:136-191 | in rounds 0..2: fills the order from the sample only if it is empty; writes the text under the round's category key; advances the counter only for non-blank text with "Next"; returns whether the AI examples are shown for the round's condition |
| SurveySession.Session.RenderReflection | app.py:193-201 | at counter 3, writes the three overall sliders on every run and moves to image_tasks on "Next" |
| SurveySession.Session.WriteImageAnswer | app.py:254-276 | on the image page, writes one image's caption, trust, originality and fixation keys and keeps the invariant |
| SurveySession.Session.WriteImageBlock | app.py:246-276 | on the image page, the loop over the eight images leaves the ledger equal to the old ledger merged with the image entries and keeps the invariant after every image |
| SurveySession.Session.RenderImages | app.py:245-282 | on the image page, writes all 32 image keys on every run; "Finish" adds `timestamp_end` and moves to done; returns whether AI captions are shown (AI-first or Human-first) |

## Left out

- Rendering (titles, markdown, images, balloons, the download button, info and warning notices) is presentation only. Widget values enter as method parameters.
- `save_response` and `load_responses` (CSV append and read) and the pandas export on the done page are file I/O and library code. The done page is modelled only as a state that no event changes.
- The randomness of `random.sample` and `random.choice` is left out. The drawn sample is a parameter whose shape is required (three distinct brief keys). The drawn image condition is a parameter.
- `datetime.now()` is left out. Its readings are strings supplied by the caller.
- The image-file existence check only touches the filesystem and chooses between an image and a warning.
- The brief texts, the AI example headlines and the caption examples are display text. Only the brief keys, the eight image file names and the familiarity statements (which are ledger keys) are kept.
- The gender select box's four options are not enforced. The model accepts any string there.
- Slider defaults (3) and the persistence of widget values between runs are Streamlit's state. The model takes each run's current values.
- Dictionary insertion order is not modelled. The ledger is a Dafny `map`, so the column order of the saved CSV row is not captured.
- `st.rerun()` is not modelled as a separate step. Each button press is one event whose effect is the state the rerun then renders. The rerun's own ledger writes are further events: after "Next" in a text round, the rerun writes the still empty text area under the next round's key (app.py:155, 168, 186), which the model has as a further `TextRoundRender(_, "", false)` event.
