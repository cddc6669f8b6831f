/** The state of the task form: the data being edited and the error shown
    under each field, with the edit-mode initialisation, `validateForm`,
    `handleChange` and the guard in `handleSubmit`. */
module TaskForm {
  import opened Common
  import opened Text
  import opened Tasks

  /** The form's data. `dueDate` is `null` until a day is picked. */
  datatype FormData = FormData(
    title: string,
    description: string,
    categoryId: string,
    priority: string,
    dueDate: Option<int>)

  datatype Field = Title | Description | CategoryId | Priority | DueDate

  /** A value `handleChange` may store: the text of an input or select, or
      the day of the date picker. */
  datatype FieldValue = Text(text: string) | Day(day: Option<int>)

  /** A text field gets text, the due date gets a day. */
  predicate Fits(f: Field, v: FieldValue) {
    if f == DueDate then v.Day? else v.Text?
  }

  /** The initial `formData`. */
  function InitialFormData(): (fd: FormData)
    ensures fd.title == "" && fd.description == "" && fd.categoryId == ""
    ensures fd.priority == "medium" && fd.dueDate.None?
  {
    FormData("", "", "", "medium", None)
  }

  /** The data of a task being edited: a missing description becomes `""`. */
  function FromTask(t: Task): (fd: FormData)
    ensures fd.title == t.title && fd.categoryId == t.categoryId && fd.priority == t.priority
    ensures fd.dueDate == t.dueDate
    ensures Truthy(t.description) ==> fd.description == t.description.value
    ensures !Truthy(t.description) ==> fd.description == ""
  {
    FormData(t.title, Or(t.description, ""), t.categoryId, t.priority, t.dueDate)
  }

  function Get(fd: FormData, f: Field): FieldValue {
    match f
    case Title => Text(fd.title)
    case Description => Text(fd.description)
    case CategoryId => Text(fd.categoryId)
    case Priority => Text(fd.priority)
    case DueDate => Day(fd.dueDate)
  }

  /** `{ ...prev, [field]: value }`. */
  function Set(fd: FormData, f: Field, v: FieldValue): FormData
    requires Fits(f, v)
  {
    match f
    case Title => fd.(title := v.text)
    case Description => fd.(description := v.text)
    case CategoryId => fd.(categoryId := v.text)
    case Priority => fd.(priority := v.text)
    case DueDate => fd.(dueDate := v.day)
  }

  /** Setting a field changes that field to the value and no other field. */
  lemma SetGet(fd: FormData, f: Field, v: FieldValue, g: Field)
    requires Fits(f, v)
    ensures Get(Set(fd, f, v), f) == v
    ensures g != f ==> Get(Set(fd, f, v), g) == Get(fd, g)
  {
  }

  /** The errors `validateForm` records: a title error exactly when the
      trimmed title is empty, a category error exactly when no category is
      chosen, and nothing else. */
  function Validate(fd: FormData): (errs: map<Field, string>)
    ensures Title in errs <==> Blank(fd.title)
    ensures CategoryId in errs <==> fd.categoryId == ""
    ensures forall f :: f in errs ==> f == Title || f == CategoryId
    ensures Title in errs ==> errs[Title] == "Title is required"
    ensures CategoryId in errs ==> errs[CategoryId] == "Category is required"
  {
    var withTitle := if Blank(fd.title) then map[Title := "Title is required"] else map[];
    if fd.categoryId == "" then withTitle[CategoryId := "Category is required"] else withTitle
  }

  /** A fresh form is never valid: both required fields are empty. */
  lemma InitialFormIsInvalid()
    ensures Title in Validate(InitialFormData()) && CategoryId in Validate(InitialFormData())
  {
  }

  /** Typing a non-blank title and choosing a category is enough. */
  lemma FilledFormIsValid(fd: FormData, title: string, category: string)
    requires !Blank(title) && category != ""
    ensures Validate(Set(Set(fd, Title, Text(title)), CategoryId, Text(category))) == map[]
  {
    var errs := Validate(Set(Set(fd, Title, Text(title)), CategoryId, Text(category)));
    assert errs.Keys == {};
  }

  class Form {
    var formData: FormData
    var errors: map<Field, string>

    /** A new form: the initial data and no errors. */
    constructor ()
      ensures formData == InitialFormData() && errors == map[]
    {
      formData := InitialFormData();
      errors := map[];
    }

    /** The edit-mode effect, run when a task is given. */
    method InitFromTask(t: Task)
      modifies this
      ensures formData == FromTask(t) && errors == old(errors)
    {
      formData := FromTask(t);
    }

    /** `validateForm()`: replaces the errors and reports whether there are
        none. */
    method ValidateForm() returns (ok: bool)
      modifies this
      ensures errors == Validate(formData) && formData == old(formData)
      ensures ok <==> errors == map[]
      ensures ok <==> !Blank(formData.title) && formData.categoryId != ""
    {
      errors := Validate(formData);
      ok := |errors.Keys| == 0;
      if !ok {
        assert errors.Keys != {};
      }
    }

    /** `handleChange(field, value)`: the field takes the value and its
        error, if one is shown, is cleared to `""`; nothing else changes. */
    method HandleChange(f: Field, v: FieldValue)
      requires Fits(f, v)
      modifies this
      ensures formData == Set(old(formData), f, v)
      ensures f in old(errors) && old(errors)[f] != "" ==> errors == old(errors)[f := ""]
      ensures !(f in old(errors) && old(errors)[f] != "") ==> errors == old(errors)
      ensures errors.Keys == old(errors).Keys
      ensures forall g :: g in errors && g != f ==> errors[g] == old(errors)[g]
    {
      formData := Set(formData, f, v);
      if f in errors && errors[f] != "" {
        errors := errors[f := ""];
      }
    }

    /** `handleSubmit()`: validates, and hands the data to `onSave` only
        when validation passed. `saved` is what `onSave` receives. */
    method HandleSubmit() returns (saved: Option<FormData>)
      modifies this
      ensures errors == Validate(formData) && formData == old(formData)
      ensures saved.None? <==> errors != map[]
      ensures saved.Some? ==> saved.value == formData
    {
      var ok := ValidateForm();
      if !ok {
        return None;
      }
      saved := Some(formData);
    }
  }
}
