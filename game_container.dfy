/** The flow controller: the phase state machine of GameContainer.tsx.
    `Step` is the pure meaning of each handler on the pair (game state,
    cutscene counter); class `Game` holds that pair in fields and updates it
    in place, one method per handler. */
module GameContainer {
  import opened GameTypes
  import opened QuestionCatalog

  /** Question indices whose arrival shows a cutscene first. */
  const CutsceneIntervals: seq<nat> := [4, 8]

  const InitialState := GameState("", Intro, 0, [])

  /** Everything the container keeps: the game record and the cutscene counter. */
  datatype Session = Session(gameState: GameState, cutscenePhase: nat)

  const InitialSession := Session(InitialState, 0)

  /** The handlers, one event each; the two `Complete` events stand for the
      timers of the cutscene and loading screens firing. */
  datatype Event =
    | Start
    | SubmitName(name: string)
    | SubmitAnswer(answer: Answer)
    | CutsceneComplete
    | LoadingComplete
    | Restart

  /** Whether reaching `nextIndex` shows a cutscene first. */
  predicate ShowsCutscene(nextIndex: nat) {
    nextIndex in CutsceneIntervals && nextIndex < |Catalog|
  }

  /** What each handler does to the session. None of them checks the phase. */
  function Step(s: Session, e: Event): Session {
    var g := s.gameState;
    match e
    case Start => s.(gameState := g.(currentPhase := Name))
    case SubmitName(name) => s.(gameState := g.(playerName := name, currentPhase := Questions))
    case SubmitAnswer(answer) =>
      var newAnswers := g.answers + [answer];
      var nextIndex := g.currentQuestionIndex + 1;
      if ShowsCutscene(nextIndex) then
        Session(g.(answers := newAnswers, currentQuestionIndex := nextIndex, currentPhase := Cutscene),
                s.cutscenePhase + 1)
      else if nextIndex >= |Catalog| then
        s.(gameState := g.(answers := newAnswers, currentPhase := Loading))
      else
        s.(gameState := g.(answers := newAnswers, currentQuestionIndex := nextIndex))
    case CutsceneComplete => s.(gameState := g.(currentPhase := Questions))
    case LoadingComplete => s.(gameState := g.(currentPhase := Result))
    case Restart => InitialSession
  }

  /** An answer is appended as is; the name never changes; then exactly one of
      three things happens to phase, index and counter. */
  lemma AnswerTransition(s: Session, answer: Answer)
    ensures var r := Step(s, SubmitAnswer(answer));
      var next := s.gameState.currentQuestionIndex + 1;
      && r.gameState.answers == s.gameState.answers + [answer]
      && r.gameState.playerName == s.gameState.playerName
      && (ShowsCutscene(next) ==>
            r.gameState.currentPhase == Cutscene && r.gameState.currentQuestionIndex == next
            && r.cutscenePhase == s.cutscenePhase + 1)
      && (!ShowsCutscene(next) && next >= |Catalog| ==>
            r.gameState.currentPhase == Loading
            && r.gameState.currentQuestionIndex == s.gameState.currentQuestionIndex
            && r.cutscenePhase == s.cutscenePhase)
      && (!ShowsCutscene(next) && next < |Catalog| ==>
            r.gameState.currentPhase == s.gameState.currentPhase && r.gameState.currentQuestionIndex == next
            && r.cutscenePhase == s.cutscenePhase)
  {
  }

  /** The two timer events only change the phase. */
  lemma CompletionsOnlyMovePhase(s: Session)
    ensures Step(s, CutsceneComplete) == s.(gameState := s.gameState.(currentPhase := Questions))
    ensures Step(s, LoadingComplete) == s.(gameState := s.gameState.(currentPhase := Result))
  {
  }

  /** Restarting from anywhere gives back the initial session. */
  lemma RestartIsInitial(s: Session)
    ensures Step(s, Restart) == InitialSession
    ensures InitialSession.gameState == GameState("", Intro, 0, [])
    ensures InitialSession.cutscenePhase == 0
  {
  }

  // ---------------------------------------------------------------------------
  // The reachable states

  /** Which events can happen: each handler is wired to the screen of one
      phase, and the name screen only submits non-empty names. */
  predicate Enabled(s: Session, e: Event) {
    var g := s.gameState;
    match e
    case Start => g.currentPhase == Intro
    case SubmitName(name) => g.currentPhase == Name && name != ""
    case SubmitAnswer(a) =>
      && g.currentPhase == Questions
      && g.currentQuestionIndex < |Catalog|
      && a.questionId == Catalog[g.currentQuestionIndex].id
    case CutsceneComplete => g.currentPhase == Cutscene
    case LoadingComplete => g.currentPhase == Loading
    case Restart => g.currentPhase == Result
  }

  /** How many cutscenes lie at or before question index `i`. */
  function CutscenesUpTo(i: nat): nat {
    CountReached(CutsceneIntervals, i)
  }

  function CountReached(ts: seq<nat>, i: nat): nat {
    if ts == [] then 0
    else (if ts[0] <= i && ts[0] < |Catalog| then 1 else 0) + CountReached(ts[1..], i)
  }

  /** The invariant of every reachable session. */
  predicate Inv(s: Session) {
    var g := s.gameState;
    && |g.answers| <= |Catalog|
    && (forall k :: 0 <= k < |g.answers| ==> g.answers[k].questionId == Catalog[k].id)
    && s.cutscenePhase == CutscenesUpTo(g.currentQuestionIndex)
    && match g.currentPhase
       case Intro | Name =>
         g.playerName == "" && g.currentQuestionIndex == 0 && g.answers == []
       case Questions =>
         g.playerName != "" && |g.answers| == g.currentQuestionIndex < |Catalog|
       case Cutscene =>
         && g.playerName != "" && |g.answers| == g.currentQuestionIndex < |Catalog|
         && g.currentQuestionIndex in CutsceneIntervals
       case Loading | Result =>
         g.playerName != "" && |g.answers| == |Catalog| && g.currentQuestionIndex == |Catalog| - 1
  }

  lemma InitialInv()
    ensures Inv(InitialSession)
  {
  }

  /** Every enabled event keeps the invariant. */
  lemma StepPreservesInv(s: Session, e: Event)
    requires Inv(s) && Enabled(s, e)
    ensures Inv(Step(s, e))
  {
    match e
    case SubmitAnswer(a) => AnswerPreservesInv(s, a);
    case _ =>
  }

  lemma AnswerPreservesInv(s: Session, a: Answer)
    requires Inv(s) && Enabled(s, SubmitAnswer(a))
    ensures Inv(Step(s, SubmitAnswer(a)))
  {
    var g := s.gameState;
    CatalogSize();
    CutscenesUpToNext(g.currentQuestionIndex);
    AnswerTransition(s, a);
    AppendInOrder(g.answers, a, seq(|Catalog|, k requires 0 <= k < |Catalog| => Catalog[k].id));
  }

  /** Appending the answer to the next id keeps the answers in id order. */
  lemma AppendInOrder(answers: seq<Answer>, a: Answer, ids: seq<string>)
    requires |answers| < |ids|
    requires forall k :: 0 <= k < |answers| ==> answers[k].questionId == ids[k]
    requires a.questionId == ids[|answers|]
    ensures forall k :: 0 <= k < |answers| + 1 ==> (answers + [a])[k].questionId == ids[k]
  {
  }

  /** While a question or cutscene is showing, the index is in range and the
      answers so far are exactly one per earlier question. */
  lemma QuestionIndexInRange(s: Session)
    requires Inv(s)
    requires s.gameState.currentPhase == Questions || s.gameState.currentPhase == Cutscene
    ensures s.gameState.currentQuestionIndex < |Catalog|
    ensures |s.gameState.answers| == s.gameState.currentQuestionIndex
  {
  }

  /** On entering loading, one answer per question has been collected, in
      catalog order. */
  lemma LoadingHasAllAnswers(s: Session)
    requires Inv(s)
    requires s.gameState.currentPhase == Loading || s.gameState.currentPhase == Result
    ensures |s.gameState.answers| == |Catalog|
    ensures forall k :: 0 <= k < |Catalog| ==> s.gameState.answers[k].questionId == Catalog[k].id
  {
  }

  // ---------------------------------------------------------------------------
  // Whole runs

  /** Answers a run of questions, letting each cutscene finish before the next
      answer. Whatever the phases, the run appends exactly its answers, in
      order, and keeps the name. */
  function PlayAnswers(s: Session, answers: seq<Answer>): (r: Session)
    ensures r.gameState.answers == s.gameState.answers + answers
    ensures r.gameState.playerName == s.gameState.playerName
    decreases |answers|
  {
    if answers == [] then
      assert s.gameState.answers + answers == s.gameState.answers;
      s
    else
      var t := Step(s, SubmitAnswer(answers[0]));
      var u := if t.gameState.currentPhase == Cutscene then Step(t, CutsceneComplete) else t;
      assert s.gameState.answers + answers == u.gameState.answers + answers[1..];
      PlayAnswers(u, answers[1..])
  }

  lemma CutscenesUpToNext(i: nat)
    ensures CutscenesUpTo(i + 1) == CutscenesUpTo(i) + (if ShowsCutscene(i + 1) then 1 else 0)
  {
    CutscenesUpToClosedForm(i);
    CutscenesUpToClosedForm(i + 1);
  }

  /** With twelve questions both cutscene indices count. */
  lemma CutscenesUpToClosedForm(i: nat)
    ensures CutscenesUpTo(i) == (if 4 <= i then 1 else 0) + (if 8 <= i then 1 else 0)
  {
    CatalogSize();
    var ts := CutsceneIntervals;
    assert ts[0] == 4 && ts[1..] == [8] && ts[1..][1..] == [];
    assert CountReached(ts[1..][1..], i) == 0;
    assert CountReached(ts[1..], i) == (if 8 <= i then 1 else 0);
  }

  /** Answering every remaining question from the questions phase ends in
      loading with those answers appended, the index on the last question and
      one cutscene counted per cutscene index passed. */
  lemma {:induction false} PlayToLoading(s: Session, answers: seq<Answer>)
    requires s.gameState.currentPhase == Questions
    requires answers != []
    requires s.gameState.currentQuestionIndex + |answers| == |Catalog|
    ensures var r := PlayAnswers(s, answers);
      && r.gameState == s.gameState.(currentPhase := Loading,
                                     currentQuestionIndex := |Catalog| - 1,
                                     answers := s.gameState.answers + answers)
      && r.cutscenePhase + CutscenesUpTo(s.gameState.currentQuestionIndex)
         == s.cutscenePhase + CutscenesUpTo(|Catalog| - 1)
    decreases |answers|
  {
    var g := s.gameState;
    var i := g.currentQuestionIndex;
    var t := Step(s, SubmitAnswer(answers[0]));
    CutscenesUpToNext(i);
    if |answers| == 1 {
      assert answers == [answers[0]];
    } else {
      var u := if t.gameState.currentPhase == Cutscene then Step(t, CutsceneComplete) else t;
      assert u.gameState == g.(currentQuestionIndex := i + 1, answers := g.answers + [answers[0]]);
      assert u.cutscenePhase + CutscenesUpTo(i) == s.cutscenePhase + CutscenesUpTo(i + 1);
      PlayToLoading(u, answers[1..]);
      assert g.answers + [answers[0]] + answers[1..] == g.answers + answers;
    }
  }

  /** Starting and naming the player opens the first question. */
  lemma StartAndName(name: string)
    ensures Step(Step(InitialSession, Start), SubmitName(name))
         == Session(GameState(name, Questions, 0, []), 0)
  {
  }

  /** A full game with the twelve-question catalog: from the first question,
      twelve answers pass through exactly two cutscenes and end in loading
      with all twelve answers kept in order. */
  lemma FullGame(s: Session, answers: seq<Answer>)
    requires s.gameState == GameState(s.gameState.playerName, Questions, 0, [])
    requires s.cutscenePhase == 0
    requires |answers| == 12
    ensures PlayAnswers(s, answers).gameState == GameState(s.gameState.playerName, Loading, 11, answers)
    ensures PlayAnswers(s, answers).cutscenePhase == 2
  {
    CatalogSize();
    CutscenesUpToClosedForm(0);
    CutscenesUpToClosedForm(11);
    PlayToLoading(s, answers);
    assert [] + answers == answers;
  }

  // ---------------------------------------------------------------------------
  // The container

  class Game {
    var gameState: GameState
    var cutscenePhase: nat

    function Snapshot(): Session
      reads this
    {
      Session(gameState, cutscenePhase)
    }

    predicate Valid()
      reads this
    {
      Inv(Snapshot())
    }

    constructor ()
      ensures Snapshot() == InitialSession
      ensures Valid()
    {
      gameState := GameState("", Intro, 0, []);
      cutscenePhase := 0;
    }

    /** `questions[currentQuestionIndex]`: the question on screen is the first
        one not yet answered. */
    function CurrentQuestion(): (q: Question)
      reads this
      requires Valid() && gameState.currentPhase == Questions
      ensures q == Catalog[|gameState.answers|]
    {
      Catalog[gameState.currentQuestionIndex]
    }

    method HandleStart()
      modifies this
      ensures Snapshot() == Step(old(Snapshot()), Start)
      ensures old(Valid() && Enabled(Snapshot(), Start)) ==> Valid()
    {
      ghost var before := Snapshot();
      gameState := gameState.(currentPhase := Name);
      if Inv(before) && Enabled(before, Start) { StepPreservesInv(before, Start); }
    }

    method HandleNameSubmit(name: string)
      modifies this
      ensures Snapshot() == Step(old(Snapshot()), SubmitName(name))
      ensures old(Valid() && Enabled(Snapshot(), SubmitName(name))) ==> Valid()
    {
      ghost var before := Snapshot();
      gameState := gameState.(playerName := name, currentPhase := Questions);
      if Inv(before) && Enabled(before, SubmitName(name)) { StepPreservesInv(before, SubmitName(name)); }
    }

    method HandleAnswer(answer: Answer)
      modifies this
      ensures Snapshot() == Step(old(Snapshot()), SubmitAnswer(answer))
      ensures old(Valid() && Enabled(Snapshot(), SubmitAnswer(answer))) ==> Valid()
    {
      ghost var before := Snapshot();
      var newAnswers := gameState.answers + [answer];
      var nextIndex := gameState.currentQuestionIndex + 1;
      if nextIndex in CutsceneIntervals && nextIndex < |Catalog| {
        cutscenePhase := cutscenePhase + 1;
        gameState := gameState.(answers := newAnswers, currentQuestionIndex := nextIndex,
                                currentPhase := Cutscene);
      } else if nextIndex >= |Catalog| {
        gameState := gameState.(answers := newAnswers, currentPhase := Loading);
      } else {
        gameState := gameState.(answers := newAnswers, currentQuestionIndex := nextIndex);
      }
      if Inv(before) && Enabled(before, SubmitAnswer(answer)) {
        StepPreservesInv(before, SubmitAnswer(answer));
      }
    }

    method HandleCutsceneComplete()
      modifies this
      ensures Snapshot() == Step(old(Snapshot()), CutsceneComplete)
      ensures old(Valid() && Enabled(Snapshot(), CutsceneComplete)) ==> Valid()
    {
      ghost var before := Snapshot();
      gameState := gameState.(currentPhase := Questions);
      if Inv(before) && Enabled(before, CutsceneComplete) { StepPreservesInv(before, CutsceneComplete); }
    }

    method HandleLoadingComplete()
      modifies this
      ensures Snapshot() == Step(old(Snapshot()), LoadingComplete)
      ensures old(Valid() && Enabled(Snapshot(), LoadingComplete)) ==> Valid()
    {
      ghost var before := Snapshot();
      gameState := gameState.(currentPhase := Result);
      if Inv(before) && Enabled(before, LoadingComplete) { StepPreservesInv(before, LoadingComplete); }
    }

    method HandleRestart()
      modifies this
      ensures Snapshot() == Step(old(Snapshot()), Restart)
      ensures Snapshot() == InitialSession && Valid()
    {
      gameState := GameState("", Intro, 0, []);
      cutscenePhase := 0;
    }
  }
}
