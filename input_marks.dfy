/** The live field marks of l.js: `validateInput` gives an input's wrapper
    the class `valid` or `invalid`, or neither, from its trimmed value. */
module InputMarks {
  import opened Wrappers
  import opened Strings
  import opened EmailPatterns

  const ValidMark := "valid"
  const InvalidMark := "invalid"

  /** The mark for an input of type `inputType` holding `value`. */
  function Mark(inputType: string, value: string): (m: Option<string>)
    ensures inputType == "email" ==>
      (m == Some(ValidMark) <==> StrictEmail(Trim(value)))
      && (m == Some(InvalidMark) <==> Trim(value) != "" && !StrictEmail(Trim(value)))
      && (m == None <==> Trim(value) == "")
    ensures inputType == "password" ==>
      (m == Some(ValidMark) <==> Utf16Length(Trim(value)) >= 6)
      && (m == Some(InvalidMark) <==> 1 <= Utf16Length(Trim(value)) <= 5)
      && (m == None <==> Trim(value) == "")
    ensures inputType != "email" && inputType != "password" ==> m == None
  {
    var v := Trim(value);
    if inputType == "email" then
      if v != "" && StrictEmail(v) then Some(ValidMark)
      else if v != "" then Some(InvalidMark)
      else None
    else if inputType == "password" then
      if Utf16Length(v) >= 6 then Some(ValidMark)
      else if Utf16Length(v) > 0 then Some(InvalidMark)
      else None
    else None
  }

  /** An input's wrapper element and its class list. */
  class InputWrapper {
    var classes: set<string>

    constructor (initial: set<string>)
      ensures classes == initial
    {
      classes := initial;
    }

    /** `validateInput(input)`: both marks are removed first, then the new
        one, if any, is added; other classes stay. */
    method ValidateInput(inputType: string, value: string)
      modifies this
      ensures var m := Mark(inputType, value);
        classes == (old(classes) - {ValidMark, InvalidMark}) + (if m.Some? then {m.value} else {})
      ensures !(ValidMark in classes && InvalidMark in classes)
      ensures forall c :: c != ValidMark && c != InvalidMark ==> (c in classes <==> c in old(classes))
    {
      classes := classes - {ValidMark, InvalidMark};
      var m := Mark(inputType, value);
      if m.Some? {
        classes := classes + {m.value};
      }
    }
  }
}
