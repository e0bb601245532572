/** The vocabulary of the survey: its pages, its experimental conditions,
    the values kept in the response ledger, the fixed catalogues whose keys
    name ledger fields, and the ledger entries each page writes. */
module Survey {

  /** `st.session_state.page`, in the order the survey visits the pages. */
  datatype Page = Intro | Demographics | AiFamiliarity | TextTasks | ImageTasks | Done

  /** Position of a page along the survey. */
  function Rank(p: Page): nat
  {
    match p
    case Intro => 0
    case Demographics => 1
    case AiFamiliarity => 2
    case TextTasks => 3
    case ImageTasks => 4
    case Done => 5
  }

  /** The page a "next" button leads to; `Done` has none. */
  function Successor(p: Page): (q: Page)
    requires p != Done
    ensures Rank(q) == Rank(p) + 1
  {
    match p
    case Intro => Demographics
    case Demographics => AiFamiliarity
    case AiFamiliarity => TextTasks
    case TextTasks => ImageTasks
    case ImageTasks => Done
  }

  /** The experimental arms "No-AI", "AI-first" and "Human-first". */
  datatype Condition = NoAI | AIFirst | HumanFirst

  /** A ledger value: the text of a text field or select box, or the
      position of a 1-5 slider. */
  datatype Value = Text(text: string) | Rating(score: int)

  /** The brief keys of the text block, in their dictionary order. */
  const Categories: seq<string> := ["Science & Technology", "Culture & Sports", "Health & Wellness"]

  /** The number of text rounds. */
  const TextRounds: nat := 3

  /** The condition of text round `i` is `RoundConditions[i]`. */
  const RoundConditions: seq<Condition> := [NoAI, AIFirst, HumanFirst]

  /** The image files of the image block, in the order they are shown. */
  const ImageFiles: seq<string> := [
    "image1.jpg", "image2.jpg", "image3.jpg", "image4.jpg",
    "image5.jpg", "image6.jpg", "image7.jpg", "image8.jpg"
  ]

  /** The AI-familiarity statements; each one is the ledger key of its own
      slider. */
  const FamiliarityQuestions: seq<string> := [
    "I regularly use AI tools (ChatGPT, Grammarly, etc.) for creative or academic work.",
    "I feel confident evaluating AI-generated outputs.",
    "I find AI tools helpful for improving my writing or design ideas.",
    "I rely on AI suggestions more than my own ideas.",
    "I trust AI systems to provide unbiased suggestions."
  ]

  /** A slider position: every slider of the survey runs from 1 to 5. */
  predicate IsRating(n: int)
  {
    1 <= n <= 5
  }

  /** What `random.sample(list(briefs.keys()), 3)` can return: three
      distinct brief keys. */
  predicate IsCategorySample(order: seq<string>)
  {
    |order| == TextRounds &&
    (forall i :: 0 <= i < |order| ==> order[i] in Categories) &&
    (forall i, j :: 0 <= i < j < |order| ==> order[i] != order[j])
  }

  /** The ledger key of a text round's answer. */
  function ResponseKey(category: string): string
  {
    category + "_response"
  }

  /** The four ledger keys of one image. */
  function CaptionKey(img: string): string { img + "_caption" }
  function TrustKey(img: string): string { img + "_trust" }
  function OriginalKey(img: string): string { img + "_original" }
  function FixationKey(img: string): string { img + "_fixation" }

  /** The widget values of one image on one render of the image page. */
  datatype ImageAnswer = ImageAnswer(caption: string, trust: int, original: int, fixation: int)

  /** One answer per image, with every slider in range. */
  predicate IsImageAnswers(answers: seq<ImageAnswer>)
  {
    |answers| == |ImageFiles| &&
    forall j :: 0 <= j < |answers| ==>
      IsRating(answers[j].trust) && IsRating(answers[j].original) && IsRating(answers[j].fixation)
  }

  /** Every rating a ledger holds is a slider position. */
  predicate RatingsInRange(ledger: map<string, Value>)
  {
    forall k :: k in ledger && ledger[k].Rating? ==> IsRating(ledger[k].score)
  }

  /** The dictionary handed to `responses.update` when the participant
      page is submitted. */
  function ParticipantEntries(participantId: string, age: string, gender: string, major: string,
                              language: string, creativeExp: string, now: string): (m: map<string, Value>)
    ensures m.Keys == {"participant_id", "age", "gender", "major", "language", "creative_exp", "timestamp_start"}
    ensures m["participant_id"] == Text(participantId) && m["age"] == Text(age) && m["gender"] == Text(gender)
    ensures m["major"] == Text(major) && m["language"] == Text(language) && m["creative_exp"] == Text(creativeExp)
    ensures m["timestamp_start"] == Text(now) && RatingsInRange(m)
  {
    map[
      "participant_id" := Text(participantId),
      "age" := Text(age),
      "gender" := Text(gender),
      "major" := Text(major),
      "language" := Text(language),
      "creative_exp" := Text(creativeExp),
      "timestamp_start" := Text(now)
    ]
  }

  /** The `likerts` dictionary: each familiarity statement mapped to its
      slider. */
  function FamiliarityEntries(ratings: seq<int>): (m: map<string, Value>)
    requires |ratings| == |FamiliarityQuestions|
    requires forall i :: 0 <= i < |ratings| ==> IsRating(ratings[i])
    ensures m.Keys == set i | 0 <= i < |FamiliarityQuestions| :: FamiliarityQuestions[i]
    ensures forall i :: 0 <= i < |FamiliarityQuestions| ==> m[FamiliarityQuestions[i]] == Rating(ratings[i])
    ensures RatingsInRange(m)
  {
    map[
      FamiliarityQuestions[0] := Rating(ratings[0]),
      FamiliarityQuestions[1] := Rating(ratings[1]),
      FamiliarityQuestions[2] := Rating(ratings[2]),
      FamiliarityQuestions[3] := Rating(ratings[3]),
      FamiliarityQuestions[4] := Rating(ratings[4])
    ]
  }

  /** The keys the image loop writes for the first `n` images. */
  function ImageKeys(n: nat): set<string>
    requires n <= |ImageFiles|
  {
    if n == 0 then {}
    else
      var img := ImageFiles[n - 1];
      ImageKeys(n - 1) + {CaptionKey(img), TrustKey(img), OriginalKey(img), FixationKey(img)}
  }

  /** The four writes the image loop makes for one image, in its order:
      caption, trust, originality, fixation. They add the image's four keys
      and, when its sliders are in range, keep every rating in range. */
  function WriteImage(ledger: map<string, Value>, img: string, a: ImageAnswer): (r: map<string, Value>)
    ensures r.Keys == ledger.Keys + {CaptionKey(img), TrustKey(img), OriginalKey(img), FixationKey(img)}
    ensures RatingsInRange(ledger) && IsRating(a.trust) && IsRating(a.original) && IsRating(a.fixation) ==>
      RatingsInRange(r)
  {
    ledger
      [CaptionKey(img) := Text(a.caption)]
      [TrustKey(img) := Rating(a.trust)]
      [OriginalKey(img) := Rating(a.original)]
      [FixationKey(img) := Rating(a.fixation)]
  }

  /** The writes the image loop makes for the first `n` images. */
  function ImageEntries(answers: seq<ImageAnswer>, n: nat): (m: map<string, Value>)
    requires IsImageAnswers(answers) && n <= |ImageFiles|
    ensures m.Keys == ImageKeys(n)
    ensures RatingsInRange(m)
  {
    if n == 0 then map[]
    else WriteImage(ImageEntries(answers, n - 1), ImageFiles[n - 1], answers[n - 1])
  }

  /** The record written when the image block is finished: both timestamps
      and, for every image, its caption and its three ratings. */
  predicate CompleteRecord(ledger: map<string, Value>)
  {
    "timestamp_start" in ledger && "timestamp_end" in ledger &&
    forall j :: 0 <= j < |ImageFiles| ==>
      CaptionKey(ImageFiles[j]) in ledger && ledger[CaptionKey(ImageFiles[j])].Text? &&
      TrustKey(ImageFiles[j]) in ledger && ledger[TrustKey(ImageFiles[j])].Rating? &&
      OriginalKey(ImageFiles[j]) in ledger && ledger[OriginalKey(ImageFiles[j])].Rating? &&
      FixationKey(ImageFiles[j]) in ledger && ledger[FixationKey(ImageFiles[j])].Rating?
  }

  /** The image files are all ten characters long and differ at their
      sixth character. */
  lemma ImageFilesDistinct()
    ensures forall j :: 0 <= j < |ImageFiles| ==> |ImageFiles[j]| == 10
    ensures forall i, j :: 0 <= i < |ImageFiles| && 0 <= j < |ImageFiles| && i != j ==>
      ImageFiles[i][5] != ImageFiles[j][5]
  {
  }

  /** No two images share a key, and within one image the four keys
      differ. */
  lemma ImageKeysDistinct(i: nat, j: nat)
    requires i < |ImageFiles| && j < |ImageFiles|
    ensures CaptionKey(ImageFiles[i]) != TrustKey(ImageFiles[j])
    ensures CaptionKey(ImageFiles[i]) != OriginalKey(ImageFiles[j])
    ensures CaptionKey(ImageFiles[i]) != FixationKey(ImageFiles[j])
    ensures TrustKey(ImageFiles[i]) != OriginalKey(ImageFiles[j])
    ensures TrustKey(ImageFiles[i]) != FixationKey(ImageFiles[j])
    ensures OriginalKey(ImageFiles[i]) != FixationKey(ImageFiles[j])
    ensures i != j ==>
      CaptionKey(ImageFiles[i]) != CaptionKey(ImageFiles[j]) &&
      TrustKey(ImageFiles[i]) != TrustKey(ImageFiles[j]) &&
      OriginalKey(ImageFiles[i]) != OriginalKey(ImageFiles[j]) &&
      FixationKey(ImageFiles[i]) != FixationKey(ImageFiles[j])
  {
    ImageFilesDistinct();
    var a, b := ImageFiles[i], ImageFiles[j];
    var suffixes := ["_caption", "_trust", "_original", "_fixation"];
    // keys with different suffixes differ right after the underscore,
    // keys of different images differ in the image's number
    forall p, q | 0 <= p < 4 && 0 <= q < 4 && (p != q || i != j)
      ensures a + suffixes[p] != b + suffixes[q]
    {
      if p != q {
        assert (a + suffixes[p])[11] == suffixes[p][1];
        assert (b + suffixes[q])[11] == suffixes[q][1];
      } else {
        assert (a + suffixes[p])[5] == a[5];
        assert (b + suffixes[q])[5] == b[5];
      }
    }
    assert CaptionKey(a) == a + suffixes[0] && TrustKey(a) == a + suffixes[1];
    assert OriginalKey(a) == a + suffixes[2] && FixationKey(a) == a + suffixes[3];
    assert CaptionKey(b) == b + suffixes[0] && TrustKey(b) == b + suffixes[1];
    assert OriginalKey(b) == b + suffixes[2] && FixationKey(b) == b + suffixes[3];
  }

  /** The keys of image `j` are among the keys written for `n > j` images. */
  lemma {:induction false} ImageKeysHave(n: nat, j: nat)
    requires n <= |ImageFiles| && j < n
    ensures CaptionKey(ImageFiles[j]) in ImageKeys(n) && TrustKey(ImageFiles[j]) in ImageKeys(n)
    ensures OriginalKey(ImageFiles[j]) in ImageKeys(n) && FixationKey(ImageFiles[j]) in ImageKeys(n)
  {
    if j < n - 1 {
      ImageKeysHave(n - 1, j);
    }
  }

  /** The writes for one image leave every other key as it was. */
  lemma WriteImageOther(ledger: map<string, Value>, img: string, a: ImageAnswer, k: string)
    requires k != CaptionKey(img) && k != TrustKey(img) && k != OriginalKey(img) && k != FixationKey(img)
    ensures (k in WriteImage(ledger, img, a)) == (k in ledger)
    ensures k in ledger ==> WriteImage(ledger, img, a)[k] == ledger[k]
  {
  }

  /** The writes for one image store its four widget values. */
  lemma WriteImageOwn(ledger: map<string, Value>, j: nat, a: ImageAnswer)
    requires j < |ImageFiles|
    ensures WriteImage(ledger, ImageFiles[j], a)[CaptionKey(ImageFiles[j])] == Text(a.caption)
    ensures WriteImage(ledger, ImageFiles[j], a)[TrustKey(ImageFiles[j])] == Rating(a.trust)
    ensures WriteImage(ledger, ImageFiles[j], a)[OriginalKey(ImageFiles[j])] == Rating(a.original)
    ensures WriteImage(ledger, ImageFiles[j], a)[FixationKey(ImageFiles[j])] == Rating(a.fixation)
  {
    ImageKeysDistinct(j, j);
  }

  /** After the loop has handled the first `n` images, image `j < n` holds
      exactly what its widgets held: a later image never overwrites an
      earlier one's keys. */
  lemma {:induction false} ImageEntriesLookup(answers: seq<ImageAnswer>, n: nat, j: nat)
    requires IsImageAnswers(answers) && n <= |ImageFiles| && j < n
    ensures CaptionKey(ImageFiles[j]) in ImageEntries(answers, n)
    ensures TrustKey(ImageFiles[j]) in ImageEntries(answers, n)
    ensures OriginalKey(ImageFiles[j]) in ImageEntries(answers, n)
    ensures FixationKey(ImageFiles[j]) in ImageEntries(answers, n)
    ensures ImageEntries(answers, n)[CaptionKey(ImageFiles[j])] == Text(answers[j].caption)
    ensures ImageEntries(answers, n)[TrustKey(ImageFiles[j])] == Rating(answers[j].trust)
    ensures ImageEntries(answers, n)[OriginalKey(ImageFiles[j])] == Rating(answers[j].original)
    ensures ImageEntries(answers, n)[FixationKey(ImageFiles[j])] == Rating(answers[j].fixation)
  {
    ImageKeysHave(n, j);
    var prev := ImageEntries(answers, n - 1);
    var img := ImageFiles[n - 1];
    if j == n - 1 {
      WriteImageOwn(prev, j, answers[j]);
    } else {
      ImageEntriesLookup(answers, n - 1, j);
      ImageKeysDistinct(j, n - 1);
      ImageKeysDistinct(n - 1, j);
      WriteImageOther(prev, img, answers[n - 1], CaptionKey(ImageFiles[j]));
      WriteImageOther(prev, img, answers[n - 1], TrustKey(ImageFiles[j]));
      WriteImageOther(prev, img, answers[n - 1], OriginalKey(ImageFiles[j]));
      WriteImageOther(prev, img, answers[n - 1], FixationKey(ImageFiles[j]));
    }
  }

  /** No image key is either timestamp's key. */
  lemma ImageKeysAreNotTimestamps(n: nat)
    requires n <= |ImageFiles|
    ensures "timestamp_end" !in ImageKeys(n) && "timestamp_start" !in ImageKeys(n)
  {
    if n > 0 {
      ImageKeysAreNotTimestamps(n - 1);
      var img := ImageFiles[n - 1];
      assert CaptionKey(img)[0] == 'i' && TrustKey(img)[0] == 'i';
      assert OriginalKey(img)[0] == 'i' && FixationKey(img)[0] == 'i';
      assert "timestamp_end"[0] == 't' && "timestamp_start"[0] == 't';
    }
  }

  /** Writing the image block after a ledger that already held the start
      timestamp, then the end timestamp, leaves a complete record. */
  lemma FinishedLedgerComplete(ledger: map<string, Value>, answers: seq<ImageAnswer>, now: string)
    requires IsImageAnswers(answers) && "timestamp_start" in ledger
    ensures CompleteRecord((ledger + ImageEntries(answers, |ImageFiles|))["timestamp_end" := Text(now)])
  {
    var n := |ImageFiles|;
    var m := ImageEntries(answers, n);
    var r := (ledger + m)["timestamp_end" := Text(now)];
    ImageKeysAreNotTimestamps(n);
    forall j | 0 <= j < n
      ensures CaptionKey(ImageFiles[j]) in r && r[CaptionKey(ImageFiles[j])] == Text(answers[j].caption)
      ensures TrustKey(ImageFiles[j]) in r && r[TrustKey(ImageFiles[j])] == Rating(answers[j].trust)
      ensures OriginalKey(ImageFiles[j]) in r && r[OriginalKey(ImageFiles[j])] == Rating(answers[j].original)
      ensures FixationKey(ImageFiles[j]) in r && r[FixationKey(ImageFiles[j])] == Rating(answers[j].fixation)
    {
      ImageEntriesLookup(answers, n, j);
      ImageKeysHave(n, j);
    }
  }
}
