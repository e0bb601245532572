/** The survey's session as a value, and what one interaction does to it.
    Streamlit re-runs the whole script on every interaction; here each
    interaction is an `Event` carrying the widget values of that run, and
    `Step` is the effect of that run on the session. Randomness and clock
    readings arrive inside the event. */
module Transitions {
  import opened Whitespace
  import opened Survey

  /** `st.session_state`: the current page, the text-round counter, the
      memoised category order and the response ledger. */
  datatype State = State(page: Page, textRound: nat, categoryOrder: seq<string>, responses: map<string, Value>)

  /** The session as first created (app.py:16-23); it satisfies the
      invariant. */
  function Initial(): (r: State)
    ensures Inv(r)
  {
    State(Intro, 0, [], map[])
  }

  /** One run of the script, with the widget values it read. */
  datatype Event =
      /** "Start Survey" pressed on the intro page */
    | Start
      /** "Next" pressed on the participant page */
    | Participant(participantId: string, age: string, gender: string, major: string,
                  language: string, creativeExp: string, now: string)
      /** "Next" pressed on the AI-familiarity page, with its five sliders */
    | Familiarity(ratings: seq<int>)
      /** a run of a text round: the sample `random.sample` would draw, the
          text area's content and whether "Next" was pressed; the sample is
          used only while the category order is empty and is ignored on
          every later run, when app.py:137-138 does not call
          `random.sample` at all */
    | TextRoundRender(sample: seq<string>, text: string, next: bool)
      /** a run of the text-block reflection, with its three sliders */
    | ReflectionRender(trust: int, original: int, fixation: int, next: bool)
      /** a run of the image page: the condition `random.choice` drew on
          this run, the widgets of the eight images, whether "Finish" was
          pressed and the clock reading */
    | ImageRender(cond: Condition, answers: seq<ImageAnswer>, finish: bool, now: string)

  /** What the widgets and the random calls guarantee about an event. */
  predicate WellFormed(e: Event)
  {
    match e
    case Familiarity(ratings) =>
      |ratings| == |FamiliarityQuestions| && forall i :: 0 <= i < |ratings| ==> IsRating(ratings[i])
    case TextRoundRender(sample, _, _) => IsCategorySample(sample)
    case ReflectionRender(trust, original, fixation, _) => IsRating(trust) && IsRating(original) && IsRating(fixation)
    case ImageRender(_, answers, _, _) => IsImageAnswers(answers)
    case _ => true
  }

  predicate AllWellFormed(es: seq<Event>)
  {
    forall i :: 0 <= i < |es| ==> WellFormed(es[i])
  }

  /** What holds of every session the survey can reach. */
  predicate Inv(s: State)
  {
    s.textRound <= TextRounds &&
    (s.categoryOrder == [] || IsCategorySample(s.categoryOrder)) &&
    (s.textRound > 0 ==> s.categoryOrder != []) &&
    (Rank(s.page) <= Rank(AiFamiliarity) ==> s.textRound == 0 && s.categoryOrder == []) &&
    (Rank(s.page) >= Rank(ImageTasks) ==> s.textRound == TextRounds) &&
    (Rank(s.page) >= Rank(AiFamiliarity) ==> "timestamp_start" in s.responses) &&
    RatingsInRange(s.responses) &&
    (s.page == Done ==> CompleteRecord(s.responses))
  }

  /** The ledger after one run of the text-block reflection: its three
      sliders are written on every run (app.py:196-198), overwriting any
      earlier run's values, and no other key changes. */
  function ReflectionEntries(ledger: map<string, Value>, trust: int, original: int, fixation: int): (r: map<string, Value>)
    ensures r.Keys == ledger.Keys + {"overall_trust", "overall_original", "overall_fixation"}
    ensures r["overall_trust"] == Rating(trust) && r["overall_original"] == Rating(original) &&
            r["overall_fixation"] == Rating(fixation)
    ensures forall k :: k in ledger && k != "overall_trust" && k != "overall_original" && k != "overall_fixation" ==>
      r[k] == ledger[k]
    ensures RatingsInRange(ledger) && IsRating(trust) && IsRating(original) && IsRating(fixation) ==> RatingsInRange(r)
  {
    ledger["overall_trust" := Rating(trust)]["overall_original" := Rating(original)]["overall_fixation" := Rating(fixation)]
  }

  /** A run of a text round (app.py:136-191). It keeps the invariant, stays
      on its page and raises the counter by at most one. */
  function TextRoundStep(s: State, sample: seq<string>, text: string, next: bool): (r: State)
    requires Inv(s) && IsCategorySample(sample)
    ensures Inv(r) && r.page == s.page
    ensures r.textRound == s.textRound || r.textRound == s.textRound + 1
  {
    if s.page == TextTasks && s.textRound < TextRounds then
      var order := if s.categoryOrder == [] then sample else s.categoryOrder;
      s.(categoryOrder := order,
         responses := s.responses[ResponseKey(order[s.textRound]) := Text(text)],
         textRound := if !IsBlank(text) && next then s.textRound + 1 else s.textRound)
    else s
  }

  /** A run of the image page (app.py:245-282). On the image page it adds
      the 32 image keys, plus `timestamp_end` and the move to `Done` when
      "Finish" was pressed; elsewhere it changes nothing. The counter and
      the category order are never touched. */
  function ImageStep(s: State, answers: seq<ImageAnswer>, finish: bool, now: string): (r: State)
    requires IsImageAnswers(answers)
    ensures r.textRound == s.textRound && r.categoryOrder == s.categoryOrder
    ensures s.page == ImageTasks ==>
      r.page == (if finish then Done else ImageTasks) &&
      r.responses.Keys == s.responses.Keys + ImageKeys(|ImageFiles|) + (if finish then {"timestamp_end"} else {})
    ensures s.page != ImageTasks ==> r == s
  {
    if s.page == ImageTasks then
      var written := s.responses + ImageEntries(answers, |ImageFiles|);
      if finish then s.(responses := written["timestamp_end" := Text(now)], page := Done)
      else s.(responses := written)
    else s
  }

  /** The effect of one run of the script. An event for a page other than
      the current one changes nothing: its widgets are not on screen. A run
      either stays on its page or moves to the next one in intro,
      demographics, ai_familiarity, text_tasks, image_tasks, done; a run on
      `done` changes nothing. */
  function Step(s: State, e: Event): (r: State)
    requires Inv(s) && WellFormed(e)
    ensures r.page == s.page || (s.page != Done && r.page == Successor(s.page))
    ensures s.page == Done ==> r == s
  {
    match e
    case Start =>
      if s.page == Intro then s.(page := Demographics) else s
    case Participant(participantId, age, gender, major, language, creativeExp, now) =>
      if s.page == Demographics then
        s.(responses := s.responses + ParticipantEntries(participantId, age, gender, major, language, creativeExp, now),
           page := AiFamiliarity)
      else s
    case Familiarity(ratings) =>
      // the reset of app.py:98-99 assigns attributes of the `st` module,
      // not of the session, so the session's counter and order are kept
      if s.page == AiFamiliarity then
        s.(responses := s.responses + FamiliarityEntries(ratings), page := TextTasks)
      else s
    case TextRoundRender(sample, text, next) =>
      TextRoundStep(s, sample, text, next)
    case ReflectionRender(trust, original, fixation, next) =>
      // the memoisation of app.py:137-138 also runs here, but a counter
      // past zero implies the order is already set (Inv)
      if s.page == TextTasks && s.textRound >= TextRounds then
        s.(responses := ReflectionEntries(s.responses, trust, original, fixation),
           page := if next then ImageTasks else TextTasks)
      else s
    case ImageRender(_, answers, finish, now) =>
      ImageStep(s, answers, finish, now)
  }

  /** Whether a text round shows the AI example headlines on a run whose
      text area holds `text`: never in the No-AI round, always in the
      AI-first round, and in the Human-first round exactly when the text
      area holds a non-whitespace character (`RevealRule`). */
  function ExamplesShown(cond: Condition, text: string): (shown: bool)
    ensures cond == NoAI ==> !shown
    ensures cond == AIFirst ==> shown
    ensures cond == HumanFirst && text == [] ==> !shown
  {
    match cond
    case NoAI => false
    case AIFirst => true
    case HumanFirst => !IsBlank(text)
  }

  /** Adding entries keeps every rating in range when both sides do. */
  lemma UnionRatingsInRange(a: map<string, Value>, b: map<string, Value>)
    requires RatingsInRange(a) && RatingsInRange(b)
    ensures RatingsInRange(a + b)
  {
    forall k | k in a + b && (a + b)[k].Rating?
      ensures IsRating((a + b)[k].score)
    {
      if k in b {
        assert (a + b)[k] == b[k];
      } else {
        assert (a + b)[k] == a[k];
      }
    }
  }

  /** An image-page run keeps the invariant. */
  lemma ImageKeepsInv(s: State, answers: seq<ImageAnswer>, finish: bool, now: string)
    requires Inv(s) && IsImageAnswers(answers)
    ensures Inv(ImageStep(s, answers, finish, now))
  {
    if s.page == ImageTasks {
      UnionRatingsInRange(s.responses, ImageEntries(answers, |ImageFiles|));
      if finish {
        FinishedLedgerComplete(s.responses, answers, now);
      }
    }
  }

  /** Every step keeps the invariant. */
  lemma InvPreserved(s: State, e: Event)
    requires Inv(s) && WellFormed(e)
    ensures Inv(Step(s, e))
  {
    match e
    case Participant(participantId, age, gender, major, language, creativeExp, now) =>
      UnionRatingsInRange(s.responses, ParticipantEntries(participantId, age, gender, major, language, creativeExp, now));
    case Familiarity(ratings) =>
      UnionRatingsInRange(s.responses, FamiliarityEntries(ratings));
    case ImageRender(_, answers, finish, now) =>
      ImageKeepsInv(s, answers, finish, now);
    case _ =>
  }

  /** The session after a sequence of runs. */
  function Run(s: State, es: seq<Event>): (r: State)
    requires Inv(s) && AllWellFormed(es)
    ensures Inv(r)
    decreases |es|
  {
    if es == [] then s
    else
      InvPreserved(s, es[0]);
      Run(Step(s, es[0]), es[1..])
  }

  // ---------------------------------------------------------------------
  // Page progression
  // ---------------------------------------------------------------------

  /** Along any sequence of runs the page and the text-round counter never
      go back. */
  lemma {:induction false} RunMovesForward(s: State, es: seq<Event>)
    requires Inv(s) && AllWellFormed(es)
    ensures Rank(Run(s, es).page) >= Rank(s.page)
    ensures Run(s, es).textRound >= s.textRound
    decreases |es|
  {
    if es != [] {
      InvPreserved(s, es[0]);
      RunMovesForward(Step(s, es[0]), es[1..]);
    }
  }

  /** Once the survey is done no sequence of runs changes the session. */
  lemma {:induction false} DoneIsFinal(s: State, es: seq<Event>)
    requires Inv(s) && AllWellFormed(es) && s.page == Done
    ensures Run(s, es) == s
    decreases |es|
  {
    if es != [] {
      DoneIsFinal(s, es[1..]);
    }
  }

  /** The image block opens only from the reflection that follows the
      third text round, and only when its "Next" is pressed. */
  lemma ImageBlockNeedsThreeRounds(s: State, e: Event)
    requires Inv(s) && WellFormed(e)
    requires s.page != ImageTasks && Step(s, e).page == ImageTasks
    ensures s.page == TextTasks && s.textRound == TextRounds
    ensures e.ReflectionRender? && e.next
  {
  }

  /** Leaving the AI-familiarity page moves to the text block and writes
      the five sliders; the counter and the category order are left as
      they are, and they are still at their initial values then, so the
      reset that misses the session changes nothing observable. */
  lemma FamiliarityKeepsTextState(s: State, ratings: seq<int>)
    requires Inv(s) && WellFormed(Familiarity(ratings)) && s.page == AiFamiliarity
    ensures Step(s, Familiarity(ratings)).page == TextTasks
    ensures Step(s, Familiarity(ratings)).textRound == s.textRound == 0
    ensures Step(s, Familiarity(ratings)).categoryOrder == s.categoryOrder == []
    ensures forall i :: 0 <= i < |FamiliarityQuestions| ==>
      Step(s, Familiarity(ratings)).responses[FamiliarityQuestions[i]] == Rating(ratings[i])
  {
  }

  // ---------------------------------------------------------------------
  // Text rounds
  // ---------------------------------------------------------------------

  /** The round counter moves by exactly one, and only on a text-round run
      whose text is not blank and whose "Next" was pressed; the page does
      not change on a text-round run. */
  lemma TextRoundGuard(s: State, sample: seq<string>, text: string, next: bool)
    requires Inv(s) && IsCategorySample(sample)
    ensures Step(s, TextRoundRender(sample, text, next)).page == s.page
    ensures Step(s, TextRoundRender(sample, text, next)).textRound ==
      if s.page == TextTasks && s.textRound < TextRounds && next && !IsBlank(text)
      then s.textRound + 1 else s.textRound
  {
  }

  /** A text-round run writes the text under its category's key, whether
      the round advances or not, and touches no other key. */
  lemma TextRoundWritesOneKey(s: State, sample: seq<string>, text: string, next: bool)
    requires Inv(s) && IsCategorySample(sample)
    requires s.page == TextTasks && s.textRound < TextRounds
    ensures var t := Step(s, TextRoundRender(sample, text, next));
      var key := ResponseKey(t.categoryOrder[s.textRound]);
      t.categoryOrder[s.textRound] in Categories &&
      key in t.responses && t.responses[key] == Text(text) &&
      forall k :: k != key ==> (k in t.responses <==> k in s.responses) &&
                               (k in s.responses ==> t.responses[k] == s.responses[k])
  {
  }

  /** Two runs of the same round, the first without advancing, leave only
      the second text under the round's key: the last write wins. */
  lemma LastWriteWins(s: State, sample: seq<string>, first: string, second: string, next: bool)
    requires Inv(s) && IsCategorySample(sample)
    requires s.page == TextTasks && s.textRound < TextRounds
    ensures var t := Step(s, TextRoundRender(sample, first, false));
      Inv(t) && t.textRound == s.textRound &&
      var u := Step(t, TextRoundRender(sample, second, next));
      var key := ResponseKey(u.categoryOrder[s.textRound]);
      u.categoryOrder == t.categoryOrder && key in u.responses && u.responses[key] == Text(second)
  {
    InvPreserved(s, TextRoundRender(sample, first, false));
  }

  /** The category order is drawn on the first text-round run and never
      changes afterwards; it is then three distinct brief keys. */
  lemma CategoryOrderSetOnce(s: State, e: Event)
    requires Inv(s) && WellFormed(e)
    ensures s.categoryOrder != [] ==> Step(s, e).categoryOrder == s.categoryOrder
    ensures Step(s, e).categoryOrder != s.categoryOrder ==>
      s.categoryOrder == [] && e.TextRoundRender? && Step(s, e).categoryOrder == e.sample
    ensures Step(s, e).categoryOrder == [] || IsCategorySample(Step(s, e).categoryOrder)
  {
    InvPreserved(s, e);
  }

  /** Along any sequence of runs an assigned category order stays as it
      is. */
  lemma {:induction false} RunKeepsCategoryOrder(s: State, es: seq<Event>)
    requires Inv(s) && AllWellFormed(es) && s.categoryOrder != []
    ensures Run(s, es).categoryOrder == s.categoryOrder
    decreases |es|
  {
    if es != [] {
      CategoryOrderSetOnce(s, es[0]);
      InvPreserved(s, es[0]);
      RunKeepsCategoryOrder(Step(s, es[0]), es[1..]);
    }
  }

  /** Whether a run completes a text round. */
  predicate Completes(s: State, e: Event)
  {
    s.page == TextTasks && s.textRound < TextRounds &&
    e.TextRoundRender? && e.next && !IsBlank(e.text)
  }

  /** The conditions of the text rounds completed along a sequence of
      runs, in the order they were completed. */
  function CompletedConditions(s: State, es: seq<Event>): seq<Condition>
    requires Inv(s) && AllWellFormed(es)
    decreases |es|
  {
    if es == [] then []
    else
      InvPreserved(s, es[0]);
      (if Completes(s, es[0]) then [RoundConditions[s.textRound]] else [])
        + CompletedConditions(Step(s, es[0]), es[1..])
  }

  /** The rounds completed along any sequence of runs are the next ones of
      No-AI, AI-first, Human-first, in that order. */
  lemma {:induction false} CompletedConditionsInOrder(s: State, es: seq<Event>)
    requires Inv(s) && AllWellFormed(es)
    ensures s.textRound <= Run(s, es).textRound <= TextRounds
    ensures CompletedConditions(s, es) == RoundConditions[s.textRound..Run(s, es).textRound]
    decreases |es|
  {
    if es != [] {
      InvPreserved(s, es[0]);
      var t := Step(s, es[0]);
      var rest := CompletedConditions(t, es[1..]);
      var head := if Completes(s, es[0]) then [RoundConditions[s.textRound]] else [];
      assert CompletedConditions(s, es) == head + rest;
      assert Run(s, es) == Run(t, es[1..]);
      CounterStep(s, es[0]);
      CompletedConditionsInOrder(t, es[1..]);
      if Completes(s, es[0]) {
        SliceCons(RoundConditions, s.textRound, Run(s, es).textRound);
      }
    }
  }

  /** A non-empty slice is its first element followed by the rest. */
  lemma SliceCons(q: seq<Condition>, lo: nat, hi: nat)
    requires lo < hi <= |q|
    ensures q[lo..hi] == [q[lo]] + q[lo + 1..hi]
  {
  }

  /** A run advances the counter by one exactly when it completes a round. */
  lemma CounterStep(s: State, e: Event)
    requires Inv(s) && WellFormed(e)
    ensures Step(s, e).textRound == if Completes(s, e) then s.textRound + 1 else s.textRound
  {
  }

  /** From a fresh session the completed conditions are a prefix of
      No-AI, AI-first, Human-first, and all three once the image block is
      reached. */
  lemma ConditionsFromStart(es: seq<Event>)
    requires AllWellFormed(es)
    ensures CompletedConditions(Initial(), es) == RoundConditions[..Run(Initial(), es).textRound]
    ensures Rank(Run(Initial(), es).page) >= Rank(ImageTasks) ==>
      CompletedConditions(Initial(), es) == [NoAI, AIFirst, HumanFirst]
  {
    CompletedConditionsInOrder(Initial(), es);
  }

  /** The No-AI round never shows the AI examples, the AI-first round
      always does, and the Human-first round does exactly when the text
      area holds a non-whitespace character. */
  lemma RevealRule(text: string)
    ensures !ExamplesShown(NoAI, text) && ExamplesShown(AIFirst, text)
    ensures ExamplesShown(HumanFirst, text) <==> exists i :: 0 <= i < |text| && !IsSpace(text[i])
  {
    BlankIffAllSpace(text);
  }

  // ---------------------------------------------------------------------
  // Image block and the finished record
  // ---------------------------------------------------------------------

  /** The condition drawn on an image-page run only changes what is shown,
      never the session. */
  lemma ImageConditionNotRecorded(s: State, c1: Condition, c2: Condition, answers: seq<ImageAnswer>,
                                  finish: bool, now: string)
    requires Inv(s) && IsImageAnswers(answers)
    ensures Step(s, ImageRender(c1, answers, finish, now)) == Step(s, ImageRender(c2, answers, finish, now))
  {
  }

  /** Finishing the image block moves to `Done` with a ledger that keeps
      the start timestamp, adds the end timestamp and holds, for every
      image, the caption and the three ratings of this run. */
  lemma FinishRecordsEverything(s: State, cond: Condition, answers: seq<ImageAnswer>, now: string)
    requires Inv(s) && IsImageAnswers(answers) && s.page == ImageTasks
    ensures var t := Step(s, ImageRender(cond, answers, true, now));
      t.page == Done && CompleteRecord(t.responses) && RatingsInRange(t.responses) &&
      t.responses["timestamp_start"] == s.responses["timestamp_start"] &&
      t.responses["timestamp_end"] == Text(now) &&
      forall j :: 0 <= j < |ImageFiles| ==>
        t.responses[CaptionKey(ImageFiles[j])] == Text(answers[j].caption) &&
        t.responses[TrustKey(ImageFiles[j])] == Rating(answers[j].trust) &&
        t.responses[OriginalKey(ImageFiles[j])] == Rating(answers[j].original) &&
        t.responses[FixationKey(ImageFiles[j])] == Rating(answers[j].fixation)
  {
    InvPreserved(s, ImageRender(cond, answers, true, now));
    ImageKeysAreNotTimestamps(|ImageFiles|);
    forall j | 0 <= j < |ImageFiles|
      ensures CaptionKey(ImageFiles[j]) != "timestamp_end" && TrustKey(ImageFiles[j]) != "timestamp_end"
      ensures OriginalKey(ImageFiles[j]) != "timestamp_end" && FixationKey(ImageFiles[j]) != "timestamp_end"
    {
      ImageKeysHave(|ImageFiles|, j);
    }
    forall j | 0 <= j < |ImageFiles|
      ensures CaptionKey(ImageFiles[j]) in ImageEntries(answers, |ImageFiles|)
      ensures TrustKey(ImageFiles[j]) in ImageEntries(answers, |ImageFiles|)
      ensures OriginalKey(ImageFiles[j]) in ImageEntries(answers, |ImageFiles|)
      ensures FixationKey(ImageFiles[j]) in ImageEntries(answers, |ImageFiles|)
      ensures ImageEntries(answers, |ImageFiles|)[CaptionKey(ImageFiles[j])] == Text(answers[j].caption)
      ensures ImageEntries(answers, |ImageFiles|)[TrustKey(ImageFiles[j])] == Rating(answers[j].trust)
      ensures ImageEntries(answers, |ImageFiles|)[OriginalKey(ImageFiles[j])] == Rating(answers[j].original)
      ensures ImageEntries(answers, |ImageFiles|)[FixationKey(ImageFiles[j])] == Rating(answers[j].fixation)
    {
      ImageEntriesLookup(answers, |ImageFiles|, j);
    }
  }

  /** Every session that has reached `Done` holds the complete record. */
  lemma DoneHasCompleteRecord(es: seq<Event>)
    requires AllWellFormed(es)
    ensures Run(Initial(), es).page == Done ==> CompleteRecord(Run(Initial(), es).responses)
  {
  }

  /** The first text round of a session, completed with a non-blank text:
      the order is drawn, the text is stored under the first drawn
      category's key and the counter moves from 0 to 1. */
  lemma FirstRoundStep(s: State, sample: seq<string>, text: string)
    requires Inv(s) && IsCategorySample(sample) && !IsBlank(text)
    requires s.page == TextTasks && s.textRound == 0 && s.categoryOrder == []
    ensures var t := Step(s, TextRoundRender(sample, text, true));
      ResponseKey(sample[0]) in t.responses && t.responses[ResponseKey(sample[0])] == Text(text) && t.textRound == 1 && t.categoryOrder == sample
  {
    var t := TextRoundStep(s, sample, text, true);
    assert Step(s, TextRoundRender(sample, text, true)) == t;
    assert t.categoryOrder == sample && t.textRound == 1;
    assert t.responses == s.responses[ResponseKey(sample[0]) := Text(text)];
  }
}
