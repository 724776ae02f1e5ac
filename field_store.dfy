/**
 * A page's `formData`: one entry per input, holding the raw string of a text
 * input or the boolean of a checkbox, and the `handleChange` rule that every
 * page uses to update it.
 */
module FieldStore {

  datatype FieldValue = Text(text: string) | Checked(checked: bool)

  type FormData = map<string, FieldValue>

  datatype Kind = TextInput | Checkbox

  /** The fixed key set of a form and which of its inputs are checkboxes. */
  type Schema = map<string, Kind>

  /** The part of `e.target` that `handleChange` reads. */
  datatype ChangeEvent = ChangeEvent(name: string, inputType: string, value: string, checked: bool)

  /** A form holds exactly its schema's keys, each with a value of the right kind. */
  predicate Conforms(form: FormData, schema: Schema) {
    && form.Keys == schema.Keys
    && forall k :: k in form ==> (form[k].Checked? <==> schema[k] == Checkbox)
  }

  /** An event raised by one of the rendered inputs of a form with this schema. */
  predicate Fits(e: ChangeEvent, schema: Schema) {
    e.name in schema && (e.inputType == "checkbox" <==> schema[e.name] == Checkbox)
  }

  /**
   * `setFormData({...formData, [name]: type === 'checkbox' ? checked : value})`:
   * only the named entry changes; a checkbox stores its `checked` flag and
   * any other input its `value`, verbatim.
   */
  function ApplyChange(form: FormData, e: ChangeEvent): (r: FormData)
    ensures r.Keys == form.Keys + {e.name}
    ensures e.inputType == "checkbox" ==> r[e.name] == Checked(e.checked)
    ensures e.inputType != "checkbox" ==> r[e.name] == Text(e.value)
    ensures forall k :: k in form && k != e.name ==> r[k] == form[k]
  {
    form[e.name := if e.inputType == "checkbox" then Checked(e.checked) else Text(e.value)]
  }

  /** Events from the form's own inputs keep the form's key set and kinds. */
  lemma ChangeConforms(form: FormData, schema: Schema, e: ChangeEvent)
    requires Conforms(form, schema) && Fits(e, schema)
    ensures Conforms(ApplyChange(form, e), schema)
  {
  }

  /** The `useState` initial form: every text input empty, every checkbox unticked. */
  function Initial(schema: Schema): (r: FormData)
    ensures Conforms(r, schema)
    ensures forall k :: k in schema && schema[k] == TextInput ==> r[k] == Text("")
    ensures forall k :: k in schema && schema[k] == Checkbox ==> r[k] == Checked(false)
  {
    map k | k in schema :: if schema[k] == Checkbox then Checked(false) else Text("")
  }

  /** Storing a string under a text input keeps the form conforming. */
  lemma SetTextConforms(form: FormData, schema: Schema, key: string, value: string)
    requires Conforms(form, schema) && key in schema && schema[key] == TextInput
    ensures Conforms(form[key := Text(value)], schema)
  {
  }

  /** `formData[name]` read as a string (empty when the entry is not text). */
  function TextOf(form: FormData, name: string): string {
    if name in form && form[name].Text? then form[name].text else ""
  }

  /** A change to one input leaves the text of every other input as it was. */
  lemma ChangeKeepsOtherText(form: FormData, e: ChangeEvent, name: string)
    requires name != e.name
    ensures TextOf(ApplyChange(form, e), name) == TextOf(form, name)
  {
  }

  /** Storing a value under one name leaves what every other name reads as it was. */
  lemma StoreKeepsOthers(form: FormData, name: string, value: FieldValue, other: string)
    requires other != name
    ensures TextOf(form[name := value], other) == TextOf(form, other)
    ensures FlagOf(form[name := value], other) == FlagOf(form, other)
  {
  }

  /** Storing text under a name is what reading that name gives back. */
  lemma TextOfStored(form: FormData, name: string, value: string)
    ensures TextOf(form[name := Text(value)], name) == value
  {
  }

  /** `formData[name]` read as a checkbox (false when the entry is not a checkbox). */
  function FlagOf(form: FormData, name: string): bool {
    name in form && form[name].Checked? && form[name].checked
  }
}
