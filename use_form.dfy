/** The generic form-state holder (`useForm`): a record of named string, boolean or
    number fields, the initial values it starts from and returns to, and the
    `isSubmitting` flag held while the submit handler runs. */
module UseForm {
  import opened Types

  /** `string | boolean | number`; numbers are integers here. */
  datatype FieldValue = Text(s: string) | Flag(b: bool) | Number(n: int)

  /** What a change event carries from its target element. */
  datatype ChangeEvent = ChangeEvent(name: string, value: string, inputType: string, checked: bool)

  /** The value `handleChange` stores: the checked state of a checkbox, the text of
      any other input. */
  function ChangedValue(e: ChangeEvent): (v: FieldValue)
    ensures v.Flag? <==> e.inputType == "checkbox"
    ensures v.Flag? ==> v.b == e.checked
    ensures v.Text? ==> v.s == e.value
  {
    if e.inputType == "checkbox" then Flag(e.checked) else Text(e.value)
  }

  /** `{ ...prev, [name]: value }`. */
  function SetField(values: map<string, FieldValue>, name: string, value: FieldValue): map<string, FieldValue> {
    values[name := value]
  }

  /** Setting a field stores the value under its name, keeps every other key and its
      value, and adds no key but that one. */
  lemma SetFieldFrame(values: map<string, FieldValue>, name: string, value: FieldValue)
    ensures var r := SetField(values, name, value);
      && name in r && r[name] == value
      && r.Keys == values.Keys + {name}
      && (forall k | k in values && k != name :: k in r && r[k] == values[k])
  {
  }

  /** Setting a field twice keeps the later value; setting it to what it holds
      changes nothing. */
  lemma SetFieldOverwrites(values: map<string, FieldValue>, name: string, a: FieldValue, b: FieldValue)
    ensures SetField(SetField(values, name, a), name, b) == SetField(values, name, b)
    ensures name in values ==> SetField(values, name, values[name]) == values
  {
  }

  /** The hook's state. `hasOnSubmit` says whether a submit handler was passed;
      `running` counts handler calls that have not settled yet. */
  class Form {
    const initialValues: map<string, FieldValue>
    const hasOnSubmit: bool
    var formData: map<string, FieldValue>
    var isSubmitting: bool
    var running: nat

    constructor (initialValues: map<string, FieldValue>, hasOnSubmit: bool)
      ensures this.initialValues == initialValues && this.hasOnSubmit == hasOnSubmit
      ensures formData == initialValues && !isSubmitting && running == 0
    {
      this.initialValues := initialValues;
      this.hasOnSubmit := hasOnSubmit;
      formData := initialValues;
      isSubmitting := false;
      running := 0;
    }

    method HandleChange(e: ChangeEvent)
      modifies this`formData
      ensures formData == SetField(old(formData), e.name, ChangedValue(e))
    {
      formData := formData[e.name := if e.inputType == "checkbox" then Flag(e.checked) else Text(e.value)];
    }

    method UpdateField(name: string, value: FieldValue)
      modifies this`formData
      ensures formData == SetField(old(formData), name, value)
    {
      formData := formData[name := value];
    }

    method ResetForm()
      modifies this`formData
      ensures formData == initialValues
    {
      formData := initialValues;
    }

    /** The raw `setFormData` setter the hook hands out: the values are replaced
        wholesale. */
    method SetFormData(values: map<string, FieldValue>)
      modifies this`formData
      ensures formData == values
    {
      formData := values;
    }

    /** `handleSubmit` up to its `await`: with a handler, the flag goes up and the
        current values are what the handler receives; without one, nothing
        changes. */
    method HandleSubmit() returns (submitted: Option<map<string, FieldValue>>)
      modifies this`isSubmitting, this`running
      ensures hasOnSubmit ==> isSubmitting && running == old(running) + 1 && submitted == Some(formData)
      ensures !hasOnSubmit ==> isSubmitting == old(isSubmitting) && running == old(running) && submitted == None
    {
      if hasOnSubmit {
        isSubmitting := true;
        running := running + 1;
        submitted := Some(formData);
      } else {
        submitted := None;
      }
    }

    /** The handler's promise settled, resolved or rejected alike: the `finally`
        brings the flag down. */
    method SubmitSettled()
      requires running > 0
      modifies this`isSubmitting, this`running
      ensures !isSubmitting && running == old(running) - 1
    {
      isSubmitting := false;
      running := running - 1;
    }
  }
}
