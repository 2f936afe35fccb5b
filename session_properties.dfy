/** How the parts fit together: the catalog against the scoring sets, and the
    screens wired to the container's handlers (GameContainer.tsx passes
    `handleNameSubmit` to the name form and `handleAnswer` to the question
    screen). */
module SessionProperties {
  import opened GameTypes
  import opened QuestionCatalog
  import opened ResultScreen
  import opened GameContainer
  import opened QuestionScreen
  import opened NameEntry
  import JsStrings

  /** The tag of option `k` of the question at `i` is a catalog tag. */
  lemma TagInCatalog(i: nat, k: nat, tag: string)
    requires i < |Catalog| && Catalog[i].options.Some? && k < |Catalog[i].options.value|
    requires Catalog[i].options.value[k].hiddenValue == tag
    ensures tag in CatalogTags()
  {
  }

  lemma TrustTagsInCatalog()
    ensures TrustIndicators <= CatalogTags()
  {
    TagInCatalog(3, 0, "deep_trust");
    TagInCatalog(2, 0, "feels_safe");
    TagInCatalog(6, 0, "open_communicative");
    TagInCatalog(10, 0, "lasting_bond");
  }

  lemma DistrustTagsInCatalog()
    ensures DistrustIndicators <= CatalogTags()
  {
    TagInCatalog(3, 2, "guarded");
    TagInCatalog(6, 3, "self_protective");
    TagInCatalog(8, 3, "detached");
    TagInCatalog(2, 3, "emotionally_distant");
  }

  lemma AttachmentTagsInCatalog()
    ensures AttachmentIndicators <= CatalogTags()
  {
    TagInCatalog(8, 0, "deeply_attached");
    TagInCatalog(10, 0, "lasting_bond");
    TagInCatalog(10, 2, "deepening");
    TagInCatalog(1, 0, "comfort_warmth");
  }

  lemma PositiveTagsInCatalog()
    ensures PositiveIndicators <= CatalogTags()
  {
    TagInCatalog(5, 0, "positive_energy");
    TagInCatalog(1, 0, "comfort_warmth");
    TagInCatalog(2, 0, "feels_safe");
    TagInCatalog(3, 0, "deep_trust");
  }

  lemma NegativeTagsInCatalog()
    ensures NegativeIndicators <= CatalogTags()
  {
    TagInCatalog(5, 3, "anxious_uncertain");
    TagInCatalog(5, 2, "chaotic_intense");
    TagInCatalog(5, 1, "bittersweet");
    TagInCatalog(6, 3, "self_protective");
  }

  /** Every tag the scoring sets count is offered by some option of the catalog. */
  lemma ScoringTagsInCatalog()
    ensures TrustIndicators + DistrustIndicators + AttachmentIndicators
            + PositiveIndicators + NegativeIndicators <= CatalogTags()
  {
    TrustTagsInCatalog();
    DistrustTagsInCatalog();
    AttachmentTagsInCatalog();
    PositiveTagsInCatalog();
    NegativeTagsInCatalog();
  }

  // ---------------------------------------------------------------------------
  // The screens wired to the container

  /** The name form submitting into the game: a blank name changes nothing;
      otherwise the game takes the name step with the trimmed name, which
      keeps the invariant. */
  method SubmitNameForm(form: NameForm, game: Game)
    requires game.Valid() && game.gameState.currentPhase == Name
    modifies game
    ensures game.Valid()
    ensures JsStrings.AllWhitespace(form.name) ==> game.Snapshot() == old(game.Snapshot())
    ensures !JsStrings.AllWhitespace(form.name) ==>
      && game.Snapshot() == Step(old(game.Snapshot()), SubmitName(JsStrings.Trim(form.name)))
      && game.gameState.playerName == JsStrings.Trim(form.name)
      && game.gameState.currentPhase == Questions
  {
    var submitted := form.HandleSubmit();
    if submitted.Some? {
      game.HandleNameSubmit(submitted.value);
    }
  }

  /** The question screen for the current question answering into the game:
      a disabled continue button changes nothing; otherwise the game takes
      the answer step with the built answer, which keeps the invariant, and
      the input is reset. */
  method ContinueQuestion(input: QuestionInput, game: Game)
    requires game.Valid() && game.gameState.currentPhase == Questions
    requires input.question == game.CurrentQuestion()
    modifies input, game
    ensures game.Valid()
    ensures old(input.CanProceed()) ==>
      && game.Snapshot() == Step(old(game.Snapshot()), SubmitAnswer(BuildAnswer(input.question,
           old(input.selectedOption), old(input.textValue), old(input.scaleValue))))
      && input.selectedOption == None && input.textValue == "" && input.scaleValue == 5
    ensures !old(input.CanProceed()) ==>
      && game.Snapshot() == old(game.Snapshot())
      && input.selectedOption == old(input.selectedOption) && input.textValue == old(input.textValue)
      && input.scaleValue == old(input.scaleValue)
  {
    var sent := input.ClickContinue();
    if sent.Some? {
      assert sent.value.questionId == Catalog[game.gameState.currentQuestionIndex].id;
      game.HandleAnswer(sent.value);
    }
  }
}
