/** `st.session_state` as an object: each button press or re-run of a page
    is a method that updates the session's fields in place. Every event
    method keeps the invariant and ends in the state `Step` prescribes for
    its event; the two image-writing helpers keep the invariant and are
    specified by the ledger functions of module Survey. The properties of
    `Step` are the lemmas of module Transitions. */
module SurveySession {
  import opened Whitespace
  import opened Survey
  import opened Transitions

  class Session {
    var page: Page
    var textRound: nat
    var categoryOrder: seq<string>
    var responses: map<string, Value>

    /** The session's fields as a value. */
    function Snapshot(): State
      reads this
    {
      State(page, textRound, categoryOrder, responses)
    }

    ghost predicate Valid()
      reads this
    {
      Inv(Snapshot())
    }

    /** The first page load: intro page, empty ledger, counter at zero and
        no category order yet. */
    constructor ()
      ensures Valid() && Snapshot() == Initial()
    {
      page := Intro;
      responses := map[];
      textRound := 0;
      categoryOrder := [];
    }

    /** "Start Survey" on the intro page. */
    method StartSurvey()
      requires Valid()
      modifies this
      ensures Valid() && Snapshot() == Step(old(Snapshot()), Start)
      ensures page == if old(page) == Intro then Demographics else old(page)
      ensures textRound == old(textRound) && categoryOrder == old(categoryOrder) && responses == old(responses)
    {
      if page == Intro {
        page := Demographics;
      }
    }

    /** "Next" on the participant page: the six answers and the start
        timestamp are merged into the ledger. */
    method SubmitParticipant(participantId: string, age: string, gender: string, major: string,
                             language: string, creativeExp: string, now: string)
      requires Valid()
      modifies this
      ensures Valid()
      ensures Snapshot() == Step(old(Snapshot()), Participant(participantId, age, gender, major, language, creativeExp, now))
      ensures old(page) == Demographics ==>
        page == AiFamiliarity &&
        responses == old(responses) + ParticipantEntries(participantId, age, gender, major, language, creativeExp, now) &&
        responses["timestamp_start"] == Text(now)
      ensures old(page) != Demographics ==> page == old(page) && responses == old(responses)
      ensures textRound == old(textRound) && categoryOrder == old(categoryOrder)
    {
      ghost var s0 := Snapshot();
      InvPreserved(s0, Participant(participantId, age, gender, major, language, creativeExp, now));
      if page == Demographics {
        responses := responses + ParticipantEntries(participantId, age, gender, major, language, creativeExp, now);
        page := AiFamiliarity;
      }
    }

    /** "Next" on the AI-familiarity page: the five sliders are merged into
        the ledger under their statements and the text block starts. The
        source's reset of the round counter and the category order writes
        to the `st` module, so neither field is assigned here. */
    method SubmitFamiliarity(ratings: seq<int>)
      requires Valid()
      requires |ratings| == |FamiliarityQuestions| && forall i :: 0 <= i < |ratings| ==> IsRating(ratings[i])
      modifies this
      ensures Valid() && Snapshot() == Step(old(Snapshot()), Familiarity(ratings))
      ensures old(page) == AiFamiliarity ==>
        page == TextTasks && responses == old(responses) + FamiliarityEntries(ratings)
      ensures old(page) != AiFamiliarity ==> page == old(page) && responses == old(responses)
      ensures textRound == old(textRound) && categoryOrder == old(categoryOrder)
    {
      ghost var s0 := Snapshot();
      InvPreserved(s0, Familiarity(ratings));
      if page == AiFamiliarity {
        responses := responses + FamiliarityEntries(ratings);
        page := TextTasks;
      }
    }

    /** One run of a text round. The category order is drawn (as `sample`)
        only while it is empty, and `sample` is ignored on every later run;
        the round's category and condition are picked by the counter; the
        text is written under the category's key on every run; the counter
        advances only when the text is not blank and "Next" was pressed.
        Returns whether the AI examples are on screen. */
    method RenderTextRound(sample: seq<string>, text: string, next: bool) returns (shown: bool)
      requires Valid() && IsCategorySample(sample)
      modifies this
      ensures Valid() && Snapshot() == Step(old(Snapshot()), TextRoundRender(sample, text, next))
      ensures page == old(page)
      ensures old(page) == TextTasks && old(textRound) < TextRounds ==>
        categoryOrder == (if old(categoryOrder) == [] then sample else old(categoryOrder)) &&
        responses == old(responses)[ResponseKey(categoryOrder[old(textRound)]) := Text(text)] &&
        textRound == (if next && !IsBlank(text) then old(textRound) + 1 else old(textRound)) &&
        shown == ExamplesShown(RoundConditions[old(textRound)], text)
      ensures !(old(page) == TextTasks && old(textRound) < TextRounds) ==>
        textRound == old(textRound) && categoryOrder == old(categoryOrder) && responses == old(responses) && !shown
    {
      ghost var s0 := Snapshot();
      InvPreserved(s0, TextRoundRender(sample, text, next));
      shown := false;
      if page == TextTasks && textRound < TextRounds {
        if categoryOrder == [] {
          categoryOrder := sample;
        }
        var category := categoryOrder[textRound];
        var condition := RoundConditions[textRound];
        var answered := !IsBlank(text);
        match condition {
          case NoAI =>
          case AIFirst => shown := true;
          case HumanFirst => shown := answered;
        }
        responses := responses[ResponseKey(category) := Text(text)];
        if answered && next {
          textRound := textRound + 1;
        }
      }
    }

    /** One run of the reflection that closes the text block: its three
        sliders are written on every run, "Next" opens the image block. */
    method RenderReflection(trust: int, original: int, fixation: int, next: bool)
      requires Valid() && IsRating(trust) && IsRating(original) && IsRating(fixation)
      modifies this
      ensures Valid() && Snapshot() == Step(old(Snapshot()), ReflectionRender(trust, original, fixation, next))
      ensures old(page) == TextTasks && old(textRound) >= TextRounds ==>
        responses == ReflectionEntries(old(responses), trust, original, fixation) &&
        page == (if next then ImageTasks else TextTasks)
      ensures !(old(page) == TextTasks && old(textRound) >= TextRounds) ==>
        page == old(page) && responses == old(responses)
      ensures textRound == old(textRound) && categoryOrder == old(categoryOrder)
    {
      ghost var s0 := Snapshot();
      InvPreserved(s0, ReflectionRender(trust, original, fixation, next));
      if page == TextTasks && textRound >= TextRounds {
        responses := responses["overall_trust" := Rating(trust)];
        responses := responses["overall_original" := Rating(original)];
        responses := responses["overall_fixation" := Rating(fixation)];
        if next {
          page := ImageTasks;
        }
      }
    }

    /** The four ledger writes for one image on the image page: its
        caption, then its trust, originality and fixation sliders. With the
        sliders in 1..5 the invariant is kept. */
    method WriteImageAnswer(img: string, a: ImageAnswer)
      requires Valid() && page == ImageTasks
      requires IsRating(a.trust) && IsRating(a.original) && IsRating(a.fixation)
      modifies this
      ensures Valid()
      ensures responses == WriteImage(old(responses), img, a)
      ensures page == old(page) && textRound == old(textRound) && categoryOrder == old(categoryOrder)
    {
      responses := responses[CaptionKey(img) := Text(a.caption)];
      responses := responses[TrustKey(img) := Rating(a.trust)];
      responses := responses[OriginalKey(img) := Rating(a.original)];
      responses := responses[FixationKey(img) := Rating(a.fixation)];
    }

    /** The loop over the eight images, each writing its four keys; the
        invariant holds after every image. */
    method WriteImageBlock(answers: seq<ImageAnswer>)
      requires Valid() && page == ImageTasks && IsImageAnswers(answers)
      modifies this
      ensures Valid()
      ensures responses == old(responses) + ImageEntries(answers, |ImageFiles|)
      ensures page == old(page) && textRound == old(textRound) && categoryOrder == old(categoryOrder)
    {
      for i := 0 to |ImageFiles|
        invariant Valid()
        invariant responses == old(responses) + ImageEntries(answers, i)
        invariant page == old(page) && textRound == old(textRound) && categoryOrder == old(categoryOrder)
      {
        UnionWriteImage(old(responses), ImageEntries(answers, i), ImageFiles[i], answers[i]);
        WriteImageAnswer(ImageFiles[i], answers[i]);
      }
    }

    /** One run of the image page. The condition drawn on this run decides
        only whether the AI captions are shown; for each of the eight images
        the caption and the three sliders are written; "Finish" adds the end
        timestamp and moves to `Done`. Returns whether the AI captions are
        on screen. */
    method RenderImages(cond: Condition, answers: seq<ImageAnswer>, finish: bool, now: string) returns (shown: bool)
      requires Valid() && IsImageAnswers(answers)
      modifies this
      ensures Valid() && Snapshot() == Step(old(Snapshot()), ImageRender(cond, answers, finish, now))
      ensures old(page) == ImageTasks ==>
        var written := old(responses) + ImageEntries(answers, |ImageFiles|);
        responses == (if finish then written["timestamp_end" := Text(now)] else written) &&
        page == (if finish then Done else ImageTasks) &&
        shown == (cond != NoAI)
      ensures old(page) != ImageTasks ==> page == old(page) && responses == old(responses) && !shown
      ensures textRound == old(textRound) && categoryOrder == old(categoryOrder)
    {
      ghost var s0 := Snapshot();
      InvPreserved(s0, ImageRender(cond, answers, finish, now));
      shown := false;
      if page == ImageTasks {
        // AI-first shows the examples above each caption box, Human-first
        // below it, No-AI not at all; the caption box is the same
        shown := cond != NoAI;
        WriteImageBlock(answers);
        if finish {
          responses := responses["timestamp_end" := Text(now)];
          page := Done;
        }
      }
    }
  }

  /** Writing one image's answers after merging two ledgers is merging with
      the writes applied to the second. */
  lemma UnionWriteImage(a: map<string, Value>, b: map<string, Value>, img: string, ans: ImageAnswer)
    ensures WriteImage(a + b, img, ans) == a + WriteImage(b, img, ans)
  {
    var b1 := b[CaptionKey(img) := Text(ans.caption)];
    var b2 := b1[TrustKey(img) := Rating(ans.trust)];
    var b3 := b2[OriginalKey(img) := Rating(ans.original)];
    UnionUpdate(a, b, CaptionKey(img), Text(ans.caption));
    UnionUpdate(a, b1, TrustKey(img), Rating(ans.trust));
    UnionUpdate(a, b2, OriginalKey(img), Rating(ans.original));
    UnionUpdate(a, b3, FixationKey(img), Rating(ans.fixation));
  }

  /** Writing a key after merging two ledgers is merging with the write
      applied to the second. */
  lemma UnionUpdate(a: map<string, Value>, b: map<string, Value>, k: string, v: Value)
    ensures (a + b)[k := v] == a + b[k := v]
  {
  }
}
