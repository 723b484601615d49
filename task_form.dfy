/**
 * The task form dialog: it copies the task being edited (or starts blank),
 * clears a field's error when the field is edited, requires a non-blank
 * title and description, and submits either an update of the edited task or
 * a creation.
 */
module TaskFormComponent {
  import opened Wrappers
  import opened Constants
  import opened JsText
  import opened TaskStore

  datatype Field = TitleField | DescriptionField | ColumnField

  /** A new value for one field of the form. */
  datatype FieldValue = TitleValue(title: string) | DescriptionValue(description: string) | ColumnValue(column: Column)

  function FieldOf(v: FieldValue): Field {
    match v
    case TitleValue(_) => TitleField
    case DescriptionValue(_) => DescriptionField
    case ColumnValue(_) => ColumnField
  }

  /** `{...prev, [field]: value}`. */
  function Updated(d: TaskFormData, v: FieldValue): (r: TaskFormData)
    ensures v.TitleValue? ==> r.title == v.title
    ensures v.DescriptionValue? ==> r.description == v.description
    ensures v.ColumnValue? ==> r.column == v.column
    ensures FieldOf(v) != TitleField ==> r.title == d.title
    ensures FieldOf(v) != DescriptionField ==> r.description == d.description
    ensures FieldOf(v) != ColumnField ==> r.column == d.column
  {
    match v
    case TitleValue(t) => d.(title := t)
    case DescriptionValue(s) => d.(description := s)
    case ColumnValue(c) => d.(column := c)
  }

  /** The form of a new task. */
  function Blank(): TaskFormData {
    TaskFormData("", "", Backlog)
  }

  /** The form's contents when it opens: a copy of the edited task's fields, or blank. */
  function FormFor(editing: Option<Task>): (d: TaskFormData)
    ensures editing.Some? ==>
      d.title == editing.value.title && d.description == editing.value.description && d.column == editing.value.column
    ensures editing.None? ==> d.title == "" && d.description == "" && d.column == Backlog
  {
    if editing.Some? then TaskFormData(editing.value.title, editing.value.description, editing.value.column)
    else Blank()
  }

  const TitleRequired: string := "Title is required"
  const DescriptionRequired: string := "Description is required"

  /** A field shows an error when it has a non-empty message. */
  predicate HasError(errors: map<Field, string>, f: Field) {
    f in errors && errors[f] != ""
  }

  /** The errors recorded for a blank title and/or a blank description. */
  function BlankFieldErrors(blankTitle: bool, blankDescription: bool): (errors: map<Field, string>)
    ensures TitleField in errors <==> blankTitle
    ensures DescriptionField in errors <==> blankDescription
    ensures ColumnField !in errors
    ensures TitleField in errors ==> errors[TitleField] == TitleRequired
    ensures DescriptionField in errors ==> errors[DescriptionField] == DescriptionRequired
  {
    if blankTitle && blankDescription then map[TitleField := TitleRequired, DescriptionField := DescriptionRequired]
    else if blankTitle then map[TitleField := TitleRequired]
    else if blankDescription then map[DescriptionField := DescriptionRequired]
    else map[]
  }

  /** The errors `validateForm` records: one per blank (once trimmed) required field. */
  function RequiredErrors(d: TaskFormData): (errors: map<Field, string>)
    ensures HasError(errors, TitleField) <==> Trim(d.title) == []
    ensures HasError(errors, DescriptionField) <==> Trim(d.description) == []
    ensures !HasError(errors, ColumnField)
  {
    BlankFieldErrors(Trim(d.title) == [], Trim(d.description) == [])
  }

  /** The form is valid exactly when no error is recorded. */
  predicate IsValid(d: TaskFormData) {
    RequiredErrors(d) == map[]
  }

  /**
   * `validateForm` adds the errors one field at a time; the result is the
   * same map, and it is empty exactly when neither field is blank.
   */
  lemma StepwiseErrors(blankTitle: bool, blankDescription: bool)
    ensures var titleErrors: map<Field, string> := if blankTitle then map[TitleField := TitleRequired] else map[];
      var errors := if blankDescription then titleErrors[DescriptionField := DescriptionRequired] else titleErrors;
      errors == BlankFieldErrors(blankTitle, blankDescription) && (|errors| == 0 <==> !blankTitle && !blankDescription)
  {
    var titleErrors: map<Field, string> := if blankTitle then map[TitleField := TitleRequired] else map[];
    var errors := if blankDescription then titleErrors[DescriptionField := DescriptionRequired] else titleErrors;
    if blankTitle {
      assert TitleField in errors;
    }
    if blankDescription {
      assert DescriptionField in errors;
    }
    if !blankTitle && !blankDescription {
      assert errors == map[];
    }
  }

  lemma ValidIffFilled(d: TaskFormData)
    ensures IsValid(d) <==> Trim(d.title) != [] && Trim(d.description) != []
  {
    StepwiseErrors(Trim(d.title) == [], Trim(d.description) == []);
  }

  /** What a submit dispatches. */
  datatype Submission = CreateSubmission(data: TaskFormData) | UpdateSubmission(id: int, data: TaskFormData)

  /**
   * `handleSubmit`'s routing: nothing for an invalid form, otherwise an update
   * of the edited task or a creation, carrying the current form data.
   */
  function SubmitDecision(d: TaskFormData, editing: Option<Task>): (s: Option<Submission>)
    ensures s.Some? <==> Trim(d.title) != [] && Trim(d.description) != []
    ensures s.Some? ==> s.value.data == d
    ensures s.Some? && editing.Some? ==> s.value == UpdateSubmission(editing.value.id, d)
    ensures s.Some? && editing.None? ==> s.value == CreateSubmission(d)
  {
    ValidIffFilled(d);
    if !IsValid(d) then None
    else if editing.Some? then Some(UpdateSubmission(editing.value.id, d))
    else Some(CreateSubmission(d))
  }

  class TaskForm {
    const store: Store
    var formData: TaskFormData
    var errors: map<Field, string>

    constructor (store: Store)
      ensures this.store == store && formData == Blank() && errors == map[]
    {
      this.store := store;
      formData := Blank();
      errors := map[];
    }

    /** The effect run when the store's edited task or open flag changes. */
    method ResetFromStore()
      modifies this
      ensures formData == FormFor(store.editingTask) && errors == map[]
    {
      if store.editingTask.Some? {
        var t := store.editingTask.value;
        formData := TaskFormData(t.title, t.description, t.column);
      } else {
        formData := TaskFormData("", "", Backlog);
      }
      errors := map[];
    }

    /** `handleChange(field)`: the field takes the value, and its error, if shown, is emptied. */
    method HandleChange(value: FieldValue)
      modifies this
      ensures formData == Updated(old(formData), value)
      ensures HasError(old(errors), FieldOf(value)) ==> errors == old(errors)[FieldOf(value) := ""]
      ensures !HasError(old(errors), FieldOf(value)) ==> errors == old(errors)
      ensures !HasError(errors, FieldOf(value))
    {
      formData := Updated(formData, value);
      var field := FieldOf(value);
      if field in errors && errors[field] != "" {
        errors := errors[field := ""];
      }
    }

    /** `validateForm`: records the errors of the current data and says whether there are none. */
    method ValidateForm() returns (valid: bool)
      modifies this
      ensures formData == old(formData) && errors == RequiredErrors(formData)
      ensures valid <==> Trim(formData.title) != [] && Trim(formData.description) != []
    {
      var newErrors: map<Field, string> := map[];
      if Trim(formData.title) == [] {
        newErrors := newErrors[TitleField := TitleRequired];
      }
      if Trim(formData.description) == [] {
        newErrors := newErrors[DescriptionField := DescriptionRequired];
      }
      StepwiseErrors(Trim(formData.title) == [], Trim(formData.description) == []);
      errors := newErrors;
      valid := |newErrors| == 0;
    }

    /** `handleSubmit`: validates, then dispatches according to `SubmitDecision`. */
    method HandleSubmit() returns (sent: Option<Submission>)
      modifies this
      ensures formData == old(formData) && errors == RequiredErrors(formData)
      ensures sent == SubmitDecision(formData, store.editingTask)
    {
      var valid := ValidateForm();
      if !valid {
        return None;
      }
      if store.editingTask.Some? {
        sent := Some(UpdateSubmission(store.editingTask.value.id, formData));
      } else {
        sent := Some(CreateSubmission(formData));
      }
    }

    /** `handleClose`: the dialog closes only when no creation or update is in flight. */
    method HandleClose(creating: bool, updating: bool)
      requires store.Valid()
      modifies store
      ensures store.Valid()
      ensures !creating && !updating ==> store.State() == FormClosed(old(store.State()))
      ensures creating || updating ==> store.State() == old(store.State())
    {
      if !creating && !updating {
        store.CloseTaskForm();
      }
    }
  }
}
