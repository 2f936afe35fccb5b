/** The scoring engine (`analyzeAnswers`) and the outcome selector
    (`getPoetryResult`) of the result screen, plus the two report fields
    derived from the analysis. All of it is pure. */
module ResultScreen {
  import opened GameTypes
  import JsStrings

  // ---------------------------------------------------------------------------
  // Tag sets

  const TrustIndicators: set<string> :=
    {"deep_trust", "feels_safe", "open_communicative", "lasting_bond"}
  const DistrustIndicators: set<string> :=
    {"guarded", "self_protective", "detached", "emotionally_distant"}
  const AttachmentIndicators: set<string> :=
    {"deeply_attached", "lasting_bond", "deepening", "comfort_warmth"}
  const PositiveIndicators: set<string> :=
    {"positive_energy", "comfort_warmth", "feels_safe", "deep_trust"}
  const NegativeIndicators: set<string> :=
    {"anxious_uncertain", "chaotic_intense", "bittersweet", "self_protective"}

  // ---------------------------------------------------------------------------
  // Categories of the analysis

  datatype TrustLevel = High | Mixed | Guarded
  datatype Attachment = Strong | Moderate
  datatype EmotionalTone = Positive | Complex | Conflicted
  datatype Comfort = VeryComfortable | SomewhatComfortable | Uncomfortable
  datatype Importance = VeryImportant | ModeratelyImportant | Peripheral

  datatype Analysis = Analysis(
    trustLevel: TrustLevel,
    attachment: Attachment,
    emotionalTone: EmotionalTone,
    comfortInSilence: Comfort,
    importance: Importance,
    rawMemory: string,
    emotionWord: string,
    unspokenThought: string,
    hiddenValues: seq<string>)

  // ---------------------------------------------------------------------------
  // Extracting the hidden tags

  /** An answer passes the `a.hiddenMeaning` filter: it has a non-empty tag. */
  predicate Tagged(a: Answer) {
    a.hiddenMeaning.Some? && a.hiddenMeaning.value != ""
  }

  /** The hidden tags of the answers, in answer order; untagged answers are skipped. */
  function HiddenValues(answers: seq<Answer>): (hv: seq<string>)
    ensures |hv| <= |answers|
    ensures forall v :: v in hv ==> v != ""
    ensures forall v :: v in hv <==>
      exists i :: 0 <= i < |answers| && Tagged(answers[i]) && answers[i].hiddenMeaning.value == v
  {
    if answers == [] then []
    else
      var rest := HiddenValues(answers[1..]);
      assert forall i :: 1 <= i < |answers| ==> answers[i] == answers[1..][i - 1];
      (if Tagged(answers[0]) then [answers[0].hiddenMeaning.value] else []) + rest
  }

  /** The extraction distributes over concatenation, so it keeps the order
      of the answers: it is the subsequence of their tags. */
  lemma {:induction false} HiddenValuesAppend(xs: seq<Answer>, ys: seq<Answer>)
    ensures HiddenValues(xs + ys) == HiddenValues(xs) + HiddenValues(ys)
  {
    if xs == [] {
      assert xs + ys == ys;
    } else {
      var head := if Tagged(xs[0]) then [xs[0].hiddenMeaning.value] else [];
      assert (xs + ys)[0] == xs[0] && (xs + ys)[1..] == xs[1..] + ys;
      assert HiddenValues(xs + ys) == head + HiddenValues(xs[1..] + ys);
      assert HiddenValues(xs) == head + HiddenValues(xs[1..]);
      HiddenValuesAppend(xs[1..], ys);
      assert head + (HiddenValues(xs[1..]) + HiddenValues(ys))
          == (head + HiddenValues(xs[1..])) + HiddenValues(ys);
    }
  }

  /** One more answer adds its tag at the end if it has one, and nothing otherwise. */
  lemma HiddenValuesSnoc(xs: seq<Answer>, a: Answer)
    ensures HiddenValues(xs + [a]) ==
      HiddenValues(xs) + (if Tagged(a) then [a.hiddenMeaning.value] else [])
  {
    HiddenValuesAppend(xs, [a]);
  }

  /** Without any tagged answer there are no hidden values. */
  lemma NoTagsNoHiddenValues(answers: seq<Answer>)
    requires forall i :: 0 <= i < |answers| ==> !Tagged(answers[i])
    ensures HiddenValues(answers) == []
  {
  }

  // ---------------------------------------------------------------------------
  // Counting

  /** How many entries of `xs` lie in `tags` (`xs.filter(v => tags.includes(v)).length`). */
  function CountIn(xs: seq<string>, tags: set<string>): (n: nat)
    ensures n <= |xs|
    ensures n == 0 <==> forall i :: 0 <= i < |xs| ==> xs[i] !in tags
  {
    if xs == [] then 0
    else
      assert forall i :: 1 <= i < |xs| ==> xs[i] == xs[1..][i - 1];
      (if xs[0] in tags then 1 else 0) + CountIn(xs[1..], tags)
  }

  lemma {:induction false} CountInAppend(xs: seq<string>, ys: seq<string>, tags: set<string>)
    ensures CountIn(xs + ys, tags) == CountIn(xs, tags) + CountIn(ys, tags)
  {
    if xs == [] {
      assert xs + ys == ys;
    } else {
      assert (xs + ys)[1..] == xs[1..] + ys;
      CountInAppend(xs[1..], ys, tags);
    }
  }

  // ---------------------------------------------------------------------------
  // Looking answers up by question id

  /** `answers.find(a => a.questionId === id)`: the first answer to that question, if any. */
  function Find(answers: seq<Answer>, id: string): (r: Option<Answer>)
    ensures r.None? <==> forall i :: 0 <= i < |answers| ==> answers[i].questionId != id
    ensures r.Some? ==> r.value.questionId == id
    ensures r.Some? ==> exists i :: (0 <= i < |answers| && answers[i] == r.value
      && forall j :: 0 <= j < i ==> answers[j].questionId != id)
  {
    if answers == [] then None
    else if answers[0].questionId == id then Some(answers[0])
    else
      var r := Find(answers[1..], id);
      assert forall i :: 1 <= i < |answers| ==> answers[i] == answers[1..][i - 1];
      assert r.Some? ==> exists i :: (1 <= i < |answers| && answers[i] == r.value
        && forall j :: 0 <= j < i ==> answers[j].questionId != id)
      by {
        if r.Some? {
          var i :| 0 <= i < |answers[1..]| && answers[1..][i] == r.value
            && forall j :: 0 <= j < i ==> answers[1..][j].questionId != id;
          assert answers[i + 1] == r.value;
        }
      }
      r
  }

  /** `answers.find(...)?.value as number || 5`: the number answered to that
      question. An absent answer, a zero and a string all give the default 5,
      so the score is never the falsy 0. */
  function ScaleScore(answers: seq<Answer>, id: string): (score: int)
    ensures score != 0
    ensures Find(answers, id).None? ==> score == 5
    ensures Find(answers, id).Some? && Find(answers, id).value.value.Num? ==>
      score == (if Find(answers, id).value.value.n == 0 then 5 else Find(answers, id).value.value.n)
  {
    match Find(answers, id)
    case Some(Answer(_, Num(n), _)) => if n == 0 then 5 else n
    case _ => 5
  }

  /** `answers.find(...)?.value as string || ''`: the text answered to that
      question, or the empty string when there is none. */
  function TextAnswer(answers: seq<Answer>, id: string): (text: string)
    ensures Find(answers, id).None? ==> text == ""
    ensures Find(answers, id).Some? && Find(answers, id).value.value.Str? ==>
      text == Find(answers, id).value.value.s
  {
    match Find(answers, id)
    case Some(Answer(_, Str(s), _)) => s
    case _ => ""
  }

  // ---------------------------------------------------------------------------
  // Buckets

  /** Higher counts of trust than distrust tags mean high trust, a tie mixed. */
  function TrustOf(trust: nat, distrust: nat): (t: TrustLevel)
    ensures t == High <==> trust > distrust
    ensures t == Mixed <==> trust == distrust
    ensures t == Guarded <==> trust < distrust
  {
    if trust > distrust then High else if trust == distrust then Mixed else Guarded
  }

  function AttachmentOf(attachment: nat): (a: Attachment)
    ensures a == Strong <==> attachment >= 2
  {
    if attachment >= 2 then Strong else Moderate
  }

  function ToneOf(positive: nat, negative: nat): (t: EmotionalTone)
    ensures t == Positive <==> positive > negative
    ensures t == Complex <==> positive == negative
    ensures t == Conflicted <==> positive < negative
  {
    if positive > negative then Positive else if positive == negative then Complex else Conflicted
  }

  function ComfortOf(score: int): (c: Comfort)
    ensures c == VeryComfortable <==> 7 <= score
    ensures c == SomewhatComfortable <==> 4 <= score < 7
    ensures c == Uncomfortable <==> score < 4
  {
    if score >= 7 then VeryComfortable else if score >= 4 then SomewhatComfortable else Uncomfortable
  }

  function ImportanceOf(score: int): (i: Importance)
    ensures i == VeryImportant <==> 8 <= score
    ensures i == ModeratelyImportant <==> 5 <= score < 8
    ensures i == Peripheral <==> score < 5
  {
    if score >= 8 then VeryImportant else if score >= 5 then ModeratelyImportant else Peripheral
  }

  // ---------------------------------------------------------------------------
  // The scoring engine

  /** `analyzeAnswers`: trust, attachment and tone compare the tag-set counts
      of the hidden values; the scale and text fields read the first answer to
      their question (see the lemmas below). */
  function AnalyzeAnswers(answers: seq<Answer>): (a: Analysis)
    ensures a.hiddenValues == HiddenValues(answers)
    ensures var hv := HiddenValues(answers);
      && (a.trustLevel == High <==> CountIn(hv, TrustIndicators) > CountIn(hv, DistrustIndicators))
      && (a.trustLevel == Mixed <==> CountIn(hv, TrustIndicators) == CountIn(hv, DistrustIndicators))
      && (a.trustLevel == Guarded <==> CountIn(hv, TrustIndicators) < CountIn(hv, DistrustIndicators))
      && (a.attachment == Strong <==> CountIn(hv, AttachmentIndicators) >= 2)
      && (a.emotionalTone == Positive <==> CountIn(hv, PositiveIndicators) > CountIn(hv, NegativeIndicators))
      && (a.emotionalTone == Complex <==> CountIn(hv, PositiveIndicators) == CountIn(hv, NegativeIndicators))
      && (a.emotionalTone == Conflicted <==> CountIn(hv, PositiveIndicators) < CountIn(hv, NegativeIndicators))
  {
    var hv := HiddenValues(answers);
    Analysis(
      TrustOf(CountIn(hv, TrustIndicators), CountIn(hv, DistrustIndicators)),
      AttachmentOf(CountIn(hv, AttachmentIndicators)),
      ToneOf(CountIn(hv, PositiveIndicators), CountIn(hv, NegativeIndicators)),
      ComfortOf(ScaleScore(answers, "silence_together")),
      ImportanceOf(ScaleScore(answers, "final_truth")),
      TextAnswer(answers, "first_memory"),
      TextAnswer(answers, "one_word"),
      TextAnswer(answers, "unsaid"),
      hv)
  }

  /** With no tagged answer at all the reading is neutral: mixed trust,
      moderate attachment, complex tone. */
  lemma NoTagsNeutral(answers: seq<Answer>)
    requires forall i :: 0 <= i < |answers| ==> !Tagged(answers[i])
    ensures AnalyzeAnswers(answers).hiddenValues == []
    ensures AnalyzeAnswers(answers).trustLevel == Mixed
    ensures AnalyzeAnswers(answers).attachment == Moderate
    ensures AnalyzeAnswers(answers).emotionalTone == Complex
  {
    NoTagsNoHiddenValues(answers);
  }

  /** A scale question nobody answered reads as the default 5: somewhat
      comfortable for `silence_together`, moderately important for
      `final_truth`, whatever the other answers are. */
  lemma MissingScaleDefaults(answers: seq<Answer>, id: string)
    requires id in {"silence_together", "final_truth"}
    requires forall i :: 0 <= i < |answers| ==> answers[i].questionId != id
    ensures var a := AnalyzeAnswers(answers);
      if id == "silence_together" then a.comfortInSilence == SomewhatComfortable
      else a.importance == ModeratelyImportant
  {
  }

  /** Each scale bucket reads the first answer to its question: its number,
      or the default 5 when that number is the falsy 0. */
  lemma ScaleFromFirstAnswer(answers: seq<Answer>, id: string, i: nat)
    requires id in {"silence_together", "final_truth"}
    requires i < |answers| && answers[i].questionId == id
    requires forall k :: 0 <= k < i ==> answers[k].questionId != id
    requires answers[i].value.Num?
    ensures var a := AnalyzeAnswers(answers);
      var score := if answers[i].value.n == 0 then 5 else answers[i].value.n;
      if id == "silence_together" then a.comfortInSilence == ComfortOf(score)
      else a.importance == ImportanceOf(score)
  {
    FindIsFirst(answers, id, i);
  }

  /** `Find` returns the answer at the first position with the id. */
  lemma FindIsFirst(answers: seq<Answer>, id: string, i: nat)
    requires i < |answers| && answers[i].questionId == id
    requires forall k :: 0 <= k < i ==> answers[k].questionId != id
    ensures Find(answers, id) == Some(answers[i])
  {
    var r := Find(answers, id);
    var i' :| 0 <= i' < |answers| && answers[i'] == r.value
      && forall j :: 0 <= j < i' ==> answers[j].questionId != id;
  }

  /** The three text fields carry the first answer to their question verbatim. */
  lemma TextFromFirstAnswer(answers: seq<Answer>, id: string, i: nat)
    requires id in {"first_memory", "one_word", "unsaid"}
    requires i < |answers| && answers[i].questionId == id
    requires forall k :: 0 <= k < i ==> answers[k].questionId != id
    requires answers[i].value.Str?
    ensures var a := AnalyzeAnswers(answers);
      (if id == "first_memory" then a.rawMemory
       else if id == "one_word" then a.emotionWord
       else a.unspokenThought) == answers[i].value.s
  {
    FindIsFirst(answers, id, i);
  }

  /** A text question nobody answered leaves its own field empty, whatever
      the other answers are. */
  lemma MissingTextEmpty(answers: seq<Answer>, id: string)
    requires id in {"first_memory", "one_word", "unsaid"}
    requires forall i :: 0 <= i < |answers| ==> answers[i].questionId != id
    ensures var a := AnalyzeAnswers(answers);
      (if id == "first_memory" then a.rawMemory
       else if id == "one_word" then a.emotionWord
       else a.unspokenThought) == ""
  {
  }

  // ---------------------------------------------------------------------------
  // The outcome selector

  datatype PoetryResult = PoetryResult(title: string, poem: seq<string>)

  const TheAnchor := PoetryResult("The Anchor", [
    "Some souls arrive like anchors in the storm,",
    "Holding fast when all else drifts away.",
    "In you, a harbor takes its quiet form—",
    "The kind of presence that makes wanderers stay."])

  const TheDistantStar := PoetryResult("The Distant Star", [
    "You shine from distances I cannot name,",
    "A light I watch but rarely try to hold.",
    "Perhaps the beauty lies within the frame—",
    "Some stories are more felt than they are told."])

  const TheThornAndRose := PoetryResult("The Thorn and Rose", [
    "Beauty wrapped in edges, soft and sharp,",
    "A melody in minor keys that sings.",
    "You've carved your name across my inner map—",
    "The kind of mark that only loving brings."])

  const TheUnfinishedLetter := PoetryResult("The Unfinished Letter", [
    "Between the lines of what we say and mean,",
    "There lives a conversation yet unspoken.",
    "Perhaps in time the spaces in-between",
    "Will fill with words that heal what once was broken."])

  const TheQuietThread := PoetryResult("The Quiet Thread", [
    "Not every bond announces its own weight,",
    "Some threads are woven softly, sight unseen.",
    "In ordinary moments, something great—",
    "A gentle presence, steady and serene."])

  const Outcomes: seq<PoetryResult> :=
    [TheAnchor, TheDistantStar, TheThornAndRose, TheUnfinishedLetter, TheQuietThread]

  /** The four conditions of the decision list, in priority order. */
  predicate AnchorRule(a: Analysis) {
    a.attachment == Strong && a.trustLevel == High && a.importance == VeryImportant
  }
  predicate DistantStarRule(a: Analysis) {
    a.emotionalTone == Conflicted || a.trustLevel == Guarded
  }
  predicate ThornAndRoseRule(a: Analysis) {
    a.attachment == Strong && a.emotionalTone == Complex
  }
  predicate UnfinishedLetterRule(a: Analysis) {
    a.trustLevel == Mixed
  }

  /** `getPoetryResult`: first matching rule wins, the quiet thread otherwise. */
  function GetPoetryResult(a: Analysis): (r: PoetryResult)
    ensures r in Outcomes && |r.poem| == 4
  {
    if AnchorRule(a) then TheAnchor
    else if DistantStarRule(a) then TheDistantStar
    else if ThornAndRoseRule(a) then TheThornAndRose
    else if UnfinishedLetterRule(a) then TheUnfinishedLetter
    else TheQuietThread
  }

  /** A rule of a decision list: a condition and the outcome it selects. */
  datatype Rule = Rule(holds: Analysis -> bool, outcome: PoetryResult)

  /** Reference semantics of a decision list: the outcome of the first rule
      whose condition holds, or the default. */
  function FirstMatch(rules: seq<Rule>, default: PoetryResult, a: Analysis): (r: PoetryResult)
    ensures r == default || exists k :: 0 <= k < |rules| && rules[k].outcome == r
  {
    if rules == [] then default
    else if rules[0].holds(a) then rules[0].outcome
    else
      var r := FirstMatch(rules[1..], default, a);
      assert forall k :: 1 <= k < |rules| ==> rules[k] == rules[1..][k - 1];
      r
  }

  /** A decision list answers with the rule at position k exactly when it is
      the first whose condition holds. */
  lemma {:induction false} FirstMatchAt(rules: seq<Rule>, default: PoetryResult, a: Analysis, k: nat)
    requires k < |rules| && rules[k].holds(a)
    requires forall j :: 0 <= j < k ==> !rules[j].holds(a)
    ensures FirstMatch(rules, default, a) == rules[k].outcome
  {
    if k > 0 {
      assert !rules[0].holds(a);
      FirstMatchAt(rules[1..], default, a, k - 1);
    }
  }

  lemma {:induction false} FirstMatchNone(rules: seq<Rule>, default: PoetryResult, a: Analysis)
    requires forall j :: 0 <= j < |rules| ==> !rules[j].holds(a)
    ensures FirstMatch(rules, default, a) == default
  {
    if rules != [] {
      assert !rules[0].holds(a);
      FirstMatchNone(rules[1..], default, a);
    }
  }

  const Rules: seq<Rule> := [
    Rule(AnchorRule, TheAnchor),
    Rule(DistantStarRule, TheDistantStar),
    Rule(ThornAndRoseRule, TheThornAndRose),
    Rule(UnfinishedLetterRule, TheUnfinishedLetter)]

  /** The selector is the decision list `Rules` with the quiet thread as default. */
  lemma PoetryResultIsDecisionList(a: Analysis)
    ensures GetPoetryResult(a) == FirstMatch(Rules, TheQuietThread, a)
  {
    if AnchorRule(a) {
      FirstMatchAt(Rules, TheQuietThread, a, 0);
    } else if DistantStarRule(a) {
      FirstMatchAt(Rules, TheQuietThread, a, 1);
    } else if ThornAndRoseRule(a) {
      FirstMatchAt(Rules, TheQuietThread, a, 2);
    } else if UnfinishedLetterRule(a) {
      FirstMatchAt(Rules, TheQuietThread, a, 3);
    } else {
      FirstMatchNone(Rules, TheQuietThread, a);
    }
  }

  /** Rule precedence: an analysis meeting both the anchor and the distant-star
      conditions is read as the anchor. */
  lemma AnchorBeatsDistantStar(a: Analysis)
    requires AnchorRule(a) && DistantStarRule(a)
    ensures GetPoetryResult(a) == TheAnchor
  {
  }

  /** Guarded trust always reads as the distant star. */
  lemma GuardedIsDistantStar(a: Analysis)
    requires a.trustLevel == Guarded
    ensures GetPoetryResult(a) == TheDistantStar
  {
  }

  /** Each title is chosen exactly when its rule is the first that holds. */
  lemma PoetryTitles(a: Analysis)
    ensures GetPoetryResult(a).title == "The Anchor" <==> AnchorRule(a)
    ensures GetPoetryResult(a).title == "The Distant Star" <==> !AnchorRule(a) && DistantStarRule(a)
    ensures GetPoetryResult(a).title == "The Thorn and Rose" <==>
      !AnchorRule(a) && !DistantStarRule(a) && ThornAndRoseRule(a)
    ensures GetPoetryResult(a).title == "The Unfinished Letter" <==>
      !AnchorRule(a) && !DistantStarRule(a) && !ThornAndRoseRule(a) && UnfinishedLetterRule(a)
    ensures GetPoetryResult(a).title == "The Quiet Thread" <==>
      !AnchorRule(a) && !DistantStarRule(a) && !ThornAndRoseRule(a) && !UnfinishedLetterRule(a)
  {
  }

  // ---------------------------------------------------------------------------
  // Report fields derived from the analysis

  /** `emotionalDistance`: "close" for strong attachment, "moderate" otherwise. */
  function EmotionalDistance(a: Analysis): (d: string)
    ensures d == "close" <==> a.attachment == Strong
    ensures d == "close" || d == "moderate"
  {
    if a.attachment == Strong then "close" else "moderate"
  }

  /** `perception`: the hidden values joined with ", ". */
  function Perception(a: Analysis): string {
    JsStrings.Join(a.hiddenValues, ", ")
  }

  /** The perception is empty exactly when no answer carried a tag. */
  lemma PerceptionEmptyIff(answers: seq<Answer>)
    ensures Perception(AnalyzeAnswers(answers)) == "" <==>
      forall i :: 0 <= i < |answers| ==> !Tagged(answers[i])
  {
    var hv := HiddenValues(answers);
    assert forall k :: 0 <= k < |hv| ==> hv[k] in hv;
    JsStrings.JoinEmptyIff(hv, ", ");
    forall i | 0 <= i < |answers| && Tagged(answers[i])
      ensures answers[i].hiddenMeaning.value in hv
    {
    }
    if hv != [] {
      NoTagsNoHiddenValuesConverse(answers);
    }
  }

  lemma NoTagsNoHiddenValuesConverse(answers: seq<Answer>)
    requires HiddenValues(answers) != []
    ensures exists i :: 0 <= i < |answers| && Tagged(answers[i])
  {
    assert HiddenValues(answers)[0] in HiddenValues(answers);
  }
}
