/** The question screen: its local input state (selected option, text,
    slider value), how it builds the `Answer` for the question on screen, and
    when its continue button lets the player proceed. */
module QuestionScreen {
  import opened GameTypes
  import JsStrings

  /** `options.find(o => o.id === id)`: the first option with that id. */
  function FindOption(opts: seq<ChoiceOption>, id: string): (r: Option<ChoiceOption>)
    ensures r.None? <==> forall k :: 0 <= k < |opts| ==> opts[k].id != id
    ensures r.Some? ==> exists k :: (0 <= k < |opts| && opts[k] == r.value && r.value.id == id
      && forall j :: 0 <= j < k ==> opts[j].id != id)
  {
    if opts == [] then None
    else if opts[0].id == id then Some(opts[0])
    else
      var r := FindOption(opts[1..], id);
      assert forall k :: 1 <= k < |opts| ==> opts[k] == opts[1..][k - 1];
      assert r.Some? ==> exists k :: (1 <= k < |opts| && opts[k] == r.value && r.value.id == id
        && forall j :: 0 <= j < k ==> opts[j].id != id)
      by {
        if r.Some? {
          var k :| 0 <= k < |opts[1..]| && opts[1..][k] == r.value && r.value.id == id
            && forall j :: 0 <= j < k ==> opts[1..][j].id != id;
          assert opts[k + 1] == r.value;
        }
      }
      r
  }

  /** The answer `handleSubmit` emits for question `q` from the input state:
      always tagged with the question's id; for a choice question the selected
      option id (or "") and that option's hidden tag when the id names one; for
      a text question the raw text; for a scale question the slider value. */
  function BuildAnswer(q: Question, selectedOption: Option<string>, textValue: string, scaleValue: int)
    : (a: Answer)
    ensures a.questionId == q.id
    ensures q.qtype == Choice ==>
      && a.value == Str(if selectedOption.Some? then selectedOption.value else "")
      && (a.hiddenMeaning.Some? <==>
            selectedOption.Some? && q.options.Some?
            && exists k :: 0 <= k < |q.options.value| && q.options.value[k].id == selectedOption.value)
      && (a.hiddenMeaning.Some? ==>
            exists k :: (0 <= k < |q.options.value| && q.options.value[k].id == selectedOption.value
              && q.options.value[k].hiddenValue == a.hiddenMeaning.value))
    ensures q.qtype == Text ==> a.value == Str(textValue) && a.hiddenMeaning.None?
    ensures q.qtype == Scale ==> a.value == Num(scaleValue) && a.hiddenMeaning.None?
  {
    match q.qtype
    case Choice =>
      var selected :=
        if q.options.Some? && selectedOption.Some? then FindOption(q.options.value, selectedOption.value)
        else None;
      Answer(q.id,
             Str(if selectedOption.Some? then selectedOption.value else ""),
             if selected.Some? then Some(selected.value.hiddenValue) else None)
    case Text => Answer(q.id, Str(textValue), None)
    case Scale => Answer(q.id, Num(scaleValue), None)
  }

  /** Picking the option at position `k`, when no earlier option shares its
      id, records that option's hidden tag. */
  lemma ChoiceAnswerCarriesTag(q: Question, k: nat, textValue: string, scaleValue: int)
    requires q.qtype == Choice && q.options.Some? && k < |q.options.value|
    requires forall j :: 0 <= j < k ==> q.options.value[j].id != q.options.value[k].id
    ensures BuildAnswer(q, Some(q.options.value[k].id), textValue, scaleValue)
      == Answer(q.id, Str(q.options.value[k].id), Some(q.options.value[k].hiddenValue))
  {
    var opts := q.options.value;
    var r := FindOption(opts, opts[k].id);
    var k' :| 0 <= k' < |opts| && opts[k'] == r.value && r.value.id == opts[k].id
      && forall j :: 0 <= j < k' ==> opts[j].id != opts[k].id;
    assert !(k' < k) && !(k < k');
  }

  class QuestionInput {
    const question: Question
    var selectedOption: Option<string>
    var textValue: string
    var scaleValue: int

    /** The slider keeps its value within 1..10. */
    predicate Valid()
      reads this
    {
      1 <= scaleValue <= 10
    }

    /** A fresh screen: nothing selected, no text, slider at 5. */
    constructor (q: Question)
      ensures question == q && selectedOption == None && textValue == "" && scaleValue == 5
      ensures Valid()
    {
      question := q;
      selectedOption := None;
      textValue := "";
      scaleValue := 5;
    }

    /** Clicking the option at position `k`. */
    method SelectOption(k: nat)
      requires question.options.Some? && k < |question.options.value|
      modifies this
      ensures selectedOption == Some(question.options.value[k].id)
      ensures textValue == old(textValue) && scaleValue == old(scaleValue)
      ensures old(Valid()) ==> Valid()
    {
      selectedOption := Some(question.options.value[k].id);
    }

    /** Typing into the text area. */
    method SetText(t: string)
      modifies this
      ensures textValue == t
      ensures selectedOption == old(selectedOption) && scaleValue == old(scaleValue)
      ensures old(Valid()) ==> Valid()
    {
      textValue := t;
    }

    /** Moving the slider, whose range is 1..10. */
    method SetScale(v: int)
      requires 1 <= v <= 10
      modifies this
      ensures scaleValue == v && Valid()
      ensures selectedOption == old(selectedOption) && textValue == old(textValue)
    {
      scaleValue := v;
    }

    /** `canProceed`: a choice needs a selection, a text needs a non-blank
        answer, a scale can always proceed. */
    function CanProceed(): (b: bool)
      reads this
      ensures question.qtype == Choice ==> (b <==> selectedOption.Some? && selectedOption.value != "")
      ensures question.qtype == Text ==> (b <==> !JsStrings.AllWhitespace(textValue))
      ensures question.qtype == Scale ==> b
    {
      || (question.qtype == Choice && selectedOption.Some? && selectedOption.value != "")
      || (question.qtype == Text && JsStrings.Trim(textValue) != "")
      || question.qtype == Scale
    }

    /** `handleSubmit`: emits the answer built from the current input, then
        clears the input back to its initial state. A scale answer carries a
        slider value, so it lies in 1..10. */
    method HandleSubmit() returns (answer: Answer)
      modifies this
      ensures answer == BuildAnswer(question, old(selectedOption), old(textValue), old(scaleValue))
      ensures question.qtype == Scale && old(Valid()) ==>
        answer.value.Num? && 1 <= answer.value.n <= 10
      ensures selectedOption == None && textValue == "" && scaleValue == 5 && Valid()
    {
      if question.qtype == Choice {
        var selected :=
          if question.options.Some? && selectedOption.Some?
          then FindOption(question.options.value, selectedOption.value)
          else None;
        answer := Answer(question.id,
                         Str(if selectedOption.Some? then selectedOption.value else ""),
                         if selected.Some? then Some(selected.value.hiddenValue) else None);
      } else if question.qtype == Text {
        answer := Answer(question.id, Str(textValue), None);
      } else {
        answer := Answer(question.id, Num(scaleValue), None);
      }
      selectedOption := None;
      textValue := "";
      scaleValue := 5;
    }

    /** Clicking continue: a disabled button does nothing; an enabled one submits. */
    method ClickContinue() returns (sent: Option<Answer>)
      modifies this
      ensures old(Valid()) ==> Valid()
      ensures old(CanProceed()) ==>
        && sent == Some(BuildAnswer(question, old(selectedOption), old(textValue), old(scaleValue)))
        && selectedOption == None && textValue == "" && scaleValue == 5
      ensures question.qtype == Scale && old(Valid()) && sent.Some? ==>
        sent.value.value.Num? && 1 <= sent.value.value.n <= 10
      ensures !old(CanProceed()) ==>
        && sent == None
        && selectedOption == old(selectedOption) && textValue == old(textValue)
        && scaleValue == old(scaleValue)
    {
      if CanProceed() {
        var answer := HandleSubmit();
        sent := Some(answer);
      } else {
        sent := None;
      }
    }
  }
}
