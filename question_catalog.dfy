/** The fixed, ordered catalog of twelve questions (src/data/questions.ts).
    The flow controller depends on its length; scoring depends on its ids and
    on the hidden tags of its choice options. */
module QuestionCatalog {
  import opened GameTypes

  const Catalog: seq<Question> := [
    Question("first_memory", Text,
      "Close your eyes for a moment.",
      Some("What scene plays when you think of the person who sent you here?"),
      None, None),
    Question("color", Choice,
      "Every soul carries a shade.",
      Some("When this person crosses your mind, which color bleeds through?"),
      Some([
        ChoiceOption("a", "Warm amber — like late afternoon light", "comfort_warmth"),
        ChoiceOption("b", "Deep blue — calm but unknowable depths", "mysterious_distant"),
        ChoiceOption("c", "Soft grey — familiar, steady, quiet", "stable_predictable"),
        ChoiceOption("d", "Flickering gold — bright but hard to hold", "intense_unstable")]),
      None),
    Question("room_scenario", Choice,
      "Imagine a room full of noise and strangers.",
      Some("You spot them across the crowd. What happens inside you?"),
      Some([
        ChoiceOption("a", "Relief washes over — finally, someone real", "feels_safe"),
        ChoiceOption("b", "A flicker of nerves — will they notice me?", "seeks_approval"),
        ChoiceOption("c", "Curiosity — I wonder what they're thinking", "intrigued_uncertain"),
        ChoiceOption("d", "Nothing changes — just another face", "emotionally_distant")]),
      None),
    Question("secret", Choice,
      "Secrets are heavy things.",
      Some("If you had something you've never told anyone, would you tell them?"),
      Some([
        ChoiceOption("a", "Yes — they would hold it gently", "deep_trust"),
        ChoiceOption("b", "Maybe — but I'd test the waters first", "cautious_trust"),
        ChoiceOption("c", "No — some doors should stay closed with them", "guarded"),
        ChoiceOption("d", "I'm not sure — I haven't thought about it", "undefined_bond")]),
      None),
    Question("silence_together", Scale,
      "Picture sitting beside them in complete silence.",
      Some("How does that silence feel?"),
      None,
      Some(ScaleLabels("Awkward, needing to fill it", "Peaceful, nothing needed"))),
    Question("weather_mood", Choice,
      "Their presence is like weather.",
      Some("Which forecast feels truest?"),
      Some([
        ChoiceOption("a", "Sunshine breaking through clouds — uplifting", "positive_energy"),
        ChoiceOption("b", "Gentle rain — soothing but melancholic", "bittersweet"),
        ChoiceOption("c", "Unpredictable storms — exciting but exhausting", "chaotic_intense"),
        ChoiceOption("d", "Still air before a storm — uncertain tension", "anxious_uncertain")]),
      None),
    Question("hurt_scenario", Choice,
      "Even the closest souls sometimes wound each other.",
      Some("If they hurt you unintentionally, what would you do?"),
      Some([
        ChoiceOption("a", "Tell them directly — they deserve honesty", "open_communicative"),
        ChoiceOption("b", "Wait and see if they notice on their own", "passive_expectant"),
        ChoiceOption("c", "Let it go — it's not worth the disruption", "avoidant"),
        ChoiceOption("d", "Distance myself quietly — protection first", "self_protective")]),
      None),
    Question("one_word", Text,
      "Strip away all pretense.",
      Some("One word to describe how they make you feel."),
      None, None),
    Question("disappear", Choice,
      "Imagine waking up tomorrow and they're simply... gone.",
      Some("No explanation. No goodbye. What rises first?"),
      Some([
        ChoiceOption("a", "Panic — a hole I didn't know existed", "deeply_attached"),
        ChoiceOption("b", "Sadness — but life would continue", "moderate_attachment"),
        ChoiceOption("c", "Confusion — more questions than grief", "uncertain_bond"),
        ChoiceOption("d", "Acceptance — people come and go", "detached")]),
      None),
    Question("unsaid", Text,
      "There's always something left unspoken.",
      Some("What have you never said to them, but almost did?"),
      None, None),
    Question("future", Choice,
      "Time moves forward, carrying everyone.",
      Some("In five years, where do you see them in your life?"),
      Some([
        ChoiceOption("a", "Still here — some threads don't break", "lasting_bond"),
        ChoiceOption("b", "Faded but remembered — like old photographs", "temporary_meaningful"),
        ChoiceOption("c", "Closer than now — we're still growing", "deepening"),
        ChoiceOption("d", "Honestly? I don't know — life is strange", "uncertain_future")]),
      None),
    Question("final_truth", Scale,
      "The heart knows things the mind refuses.",
      Some("How important are they to you, truly?"),
      None,
      Some(ScaleLabels("A passing presence", "Someone irreplaceable")))
  ]

  /** The catalog position of each question the rest of the program names. */
  const FirstMemory := 0
  const SilenceTogether := 4
  const OneWord := 7
  const Unsaid := 9
  const FinalTruth := 11

  /** A question carries the extra data its type needs and nothing else:
      options for a choice question, end labels for a scale question. */
  predicate WellShaped(q: Question) {
    match q.qtype
    case Choice => q.options.Some? && q.scaleLabels.None?
    case Text => q.options.None? && q.scaleLabels.None?
    case Scale => q.options.None? && q.scaleLabels.Some?
  }

  /** The options of a choice question are a..d, with four different tags. */
  predicate StandardOptions(opts: seq<ChoiceOption>) {
    && |opts| == 4
    && opts[0].id == "a" && opts[1].id == "b" && opts[2].id == "c" && opts[3].id == "d"
    && forall j, k :: 0 <= j < k < |opts| ==> opts[j].hiddenValue != opts[k].hiddenValue
  }

  /** All hidden tags of the catalog. */
  function CatalogTags(): set<string> {
    set i, k | 0 <= i < |Catalog| && Catalog[i].options.Some?
                 && 0 <= k < |Catalog[i].options.value|
               :: Catalog[i].options.value[k].hiddenValue
  }

  lemma CatalogSize()
    ensures |Catalog| == 12
  {
  }

  /** No two questions share an id. */
  lemma IdsDistinct()
    ensures forall i, j :: 0 <= i < j < |Catalog| ==> Catalog[i].id != Catalog[j].id
  {
    var ids := ["first_memory", "color", "room_scenario", "secret", "silence_together",
                "weather_mood", "hurt_scenario", "one_word", "disappear", "unsaid",
                "future", "final_truth"];
    assert forall i :: 0 <= i < |Catalog| ==> Catalog[i].id == ids[i];
    assert forall i, j :: 0 <= i < j < |ids| ==> ids[i] != ids[j];
  }

  /** Every question is well shaped. */
  lemma AllWellShaped()
    ensures forall i :: 0 <= i < |Catalog| ==> WellShaped(Catalog[i])
  {
  }

  /** Exactly the seven questions at positions 1, 2, 3, 5, 6, 8 and 10 are
      choice questions, and each offers options a..d with distinct tags. */
  lemma ChoiceQuestions()
    ensures forall i :: 0 <= i < |Catalog| ==>
      (Catalog[i].qtype == Choice <==> i in {1, 2, 3, 5, 6, 8, 10})
    ensures forall i :: 0 <= i < |Catalog| && Catalog[i].qtype == Choice ==>
      Catalog[i].options.Some? && StandardOptions(Catalog[i].options.value)
  {
  }

  /** The questions scoring looks up by id are where the constants say, with
      the types scoring expects of them. */
  lemma NamedQuestions()
    ensures Catalog[FirstMemory].id == "first_memory" && Catalog[FirstMemory].qtype == Text
    ensures Catalog[OneWord].id == "one_word" && Catalog[OneWord].qtype == Text
    ensures Catalog[Unsaid].id == "unsaid" && Catalog[Unsaid].qtype == Text
    ensures Catalog[SilenceTogether].id == "silence_together" && Catalog[SilenceTogether].qtype == Scale
    ensures Catalog[FinalTruth].id == "final_truth" && Catalog[FinalTruth].qtype == Scale
  {
  }
}
