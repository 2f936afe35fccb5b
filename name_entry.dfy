/** The name form: its `name` field, the trim guard of its submit handler and
    the disabled state of its submit button. */
module NameEntry {
  import opened GameTypes
  import opened JsStrings

  class NameForm {
    var name: string

    constructor ()
      ensures name == ""
    {
      name := "";
    }

    /** Typing into the name field. */
    method SetName(v: string)
      modifies this
      ensures name == v
    {
      name := v;
    }

    /** `handleSubmit`: the name passed on to the game, if any. A blank name
        passes nothing on; otherwise the trimmed name, which is non-empty and
        has no surrounding whitespace. The form itself is left as it is. */
    method HandleSubmit() returns (submitted: Option<string>)
      ensures submitted.None? <==> AllWhitespace(name)
      ensures submitted.Some? ==>
        submitted.value == Trim(name) && submitted.value != "" && Trimmed(submitted.value)
    {
      var trimmed := Trim(name);
      if trimmed != "" {
        submitted := Some(trimmed);
      } else {
        submitted := None;
      }
    }

    /** The submit button is disabled exactly when the name is blank. */
    function SubmitDisabled(): (disabled: bool)
      reads this
      ensures disabled <==> AllWhitespace(name)
    {
      Trim(name) == ""
    }
  }
}
