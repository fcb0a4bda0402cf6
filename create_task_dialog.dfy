/** `components/tasks/create-task-dialog.tsx`: the new-task form's text rule, the request
    body it builds, and the submit flow through the `post` wrapper. The dialog's `open` flag
    belongs to the parent, whose `onOpenChange` callback the dialog calls; it is held here as
    a field of the dialog. */
module CreateTaskDialog {
  import opened Wrappers
  import opened Js
  import opened Http
  import UseApi

  datatype Field = TaskText | DueAt | GroupId

  /** The three inputs, as typed: the task text, the `datetime-local` value and the value of
      the selected group option ("" for none). */
  datatype TaskForm = TaskForm(text: string, dueAt: string, groupId: string)

  const EMPTY_FORM: TaskForm := TaskForm("", "", "")

  const TEXT_REQUIRED: string := "Task text is required"
  const TEXT_TOO_LONG: string := "Task text must be less than 255 characters"
  const MAX_TEXT: nat := 255

  function Get(f: TaskForm, k: Field): string {
    match k
    case TaskText => f.text
    case DueAt => f.dueAt
    case GroupId => f.groupId
  }

  /** `{ ...prev, [field]: value }` */
  function WithField(f: TaskForm, k: Field, v: string): (r: TaskForm)
    ensures Get(r, k) == v
    ensures forall j :: j != k ==> Get(r, j) == Get(f, j)
  {
    match k
    case TaskText => f.(text := v)
    case DueAt => f.(dueAt := v)
    case GroupId => f.(groupId := v)
  }

  /** The text rule: required, then at most 255 code units measured on the text as typed. */
  function TextError(t: string): (r: Option<string>)
    ensures r.None? <==> !IsBlank(t) && Utf16Length(t) <= MAX_TEXT
    ensures IsBlank(t) ==> r == Some(TEXT_REQUIRED)
    ensures !IsBlank(t) && Utf16Length(t) > MAX_TEXT ==> r == Some(TEXT_TOO_LONG)
  {
    if IsBlank(t) then Some(TEXT_REQUIRED)
    else if Utf16Length(t) > MAX_TEXT then Some(TEXT_TOO_LONG)
    else None
  }

  /** The `newErrors` record `validateForm` builds: only the text is checked. */
  function FormErrors(f: TaskForm): (m: map<Field, string>)
    ensures m.Keys <= {TaskText}
    ensures TaskText in m <==> TextError(f.text).Some?
    ensures TaskText in m ==> m[TaskText] == TextError(f.text).value
  {
    match TextError(f.text)
    case None => map[]
    case Some(message) => map[TaskText := message]
  }

  /** A text of exactly 255 code units is accepted, one of 256 is refused. */
  lemma TextLengthBoundary(t: string)
    requires !IsBlank(t)
    ensures Utf16Length(t) == MAX_TEXT ==> FormErrors(TaskForm(t, "", "")) == map[]
    ensures Utf16Length(t) == MAX_TEXT + 1 ==> FormErrors(TaskForm(t, "", "")) == map[TaskText := TEXT_TOO_LONG]
  {
  }

  /** The body of `POST /api/task/`. A date left empty and no group are `null`; a group is
      the parsed option value, where an unparseable one (`NaN`) is also sent as `null`,
      because that is how JSON encodes `NaN`. */
  datatype TaskPayload = TaskPayload(text: string, dueAt: Option<string>, groupId: Option<int>)

  /** `{ text: text.trim(), due_at: due_at || null, group_id: group_id ? parseInt(group_id) : null }` */
  function Payload(f: TaskForm): (p: TaskPayload)
    ensures p.text == Trim(f.text)
    ensures p.dueAt == if f.dueAt == "" then None else Some(f.dueAt)
    ensures p.groupId == if f.groupId == "" then None else ParseInt(f.groupId)
  {
    TaskPayload(Trim(f.text), if f.dueAt == "" then None else Some(f.dueAt),
                if f.groupId == "" then None else ParseInt(f.groupId))
  }

  /** A form that passes validation sends a text that is non-empty, already trimmed and
      within the limit. */
  lemma ValidFormSendsCleanText(f: TaskForm)
    requires FormErrors(f) == map[]
    ensures var t := Payload(f).text;
      t != "" && Trim(t) == t && Utf16Length(t) <= MAX_TEXT
  {
    assert TaskText !in FormErrors(f);
    TrimIdempotent(f.text);
    Utf16LengthOfTrim(f.text);
  }

  /** Choosing the option for group `n` sends `n`. */
  lemma GroupOptionSendsItsId(f: TaskForm, n: int)
    ensures Payload(f.(groupId := NumberText(n))).groupId == Some(n)
  {
    ParseIntNumberText(n);
    assert NumberText(n) != "" by {
      if n < 0 { assert NumberText(n)[0] == '-'; } else { assert DecimalText(n) != []; }
    }
  }

  /** The toast the dialog itself shows after a request was sent. */
  datatype DialogToast = TaskCreated | DemoMode

  /** The outcome of a submit: nothing sent, or the body sent, the notice the `post` wrapper
      showed and the dialog's own toast. */
  datatype SubmitOutcome =
    | NotSent
    | Sent(payload: TaskPayload, wrapperNotice: Option<Notice>, toast: DialogToast)

  class CreateTaskDialog {
    var form: TaskForm
    var errors: map<Field, string>
    var isLoading: bool
    var open: bool

    constructor (open: bool)
      ensures form == EMPTY_FORM && errors == map[] && !isLoading && this.open == open
    {
      form := EMPTY_FORM;
      errors := map[];
      isLoading := false;
      this.open := open;
    }

    /** `validateForm()` */
    method ValidateForm() returns (valid: bool)
      modifies this`errors
      ensures errors == FormErrors(form)
      ensures valid <==> errors == map[]
    {
      var newErrors: map<Field, string> := map[];
      if IsBlank(form.text) {
        newErrors := newErrors[TaskText := TEXT_REQUIRED];
      } else if Utf16Length(form.text) > MAX_TEXT {
        newErrors := newErrors[TaskText := TEXT_TOO_LONG];
      }
      errors := newErrors;
      valid := |newErrors.Keys| == 0;
      if !valid {
        assert newErrors != map[];
      }
    }

    /** `handleInputChange(field)`, used by the text and date inputs: set the field, and blank
        its error if it had a non-empty one. */
    method HandleInputChange(field: Field, value: string)
      modifies this`form, this`errors
      ensures form == WithField(old(form), field, value)
      ensures field in old(errors) && old(errors)[field] != "" ==> errors == old(errors)[field := ""]
      ensures !(field in old(errors) && old(errors)[field] != "") ==> errors == old(errors)
    {
      form := WithField(form, field, value);
      if field in errors && errors[field] != "" {
        errors := errors[field := ""];
      }
    }

    /** The group select sets its field and leaves the errors alone. */
    method SelectGroup(value: string)
      modifies this`form
      ensures form == old(form).(groupId := value)
    {
      form := form.(groupId := value);
    }

    /** `disabled={isLoading || !formData.text.trim()}` */
    predicate SubmitDisabled(): (r: bool)
      reads this
      ensures isLoading ==> r
      ensures !r ==> !IsBlank(form.text)
      ensures !isLoading && !IsBlank(form.text) ==> !r
    {
      isLoading || IsBlank(form.text)
    }

    /** `handleSubmit`, with `reply` the outcome of the request should it be sent. On success the
        form is reset and the dialog closed; on failure the form and the dialog stay as they
        are and the dialog shows its "Demo Mode" toast. */
    method HandleSubmit(reply: Result<(), Thrown>) returns (outcome: SubmitOutcome)
      modifies this
      ensures outcome == NotSent <==> FormErrors(old(form)) != map[]
      ensures outcome == NotSent ==>
                form == old(form) && errors == FormErrors(form) && isLoading == old(isLoading) && open == old(open)
      ensures outcome.Sent? ==> !isLoading && outcome.payload == Payload(old(form))
                                && outcome.wrapperNotice == UseApi.Call(reply).0
      ensures outcome.Sent? && reply.Ok? ==>
                outcome.toast == TaskCreated && form == EMPTY_FORM && errors == map[] && !open
      ensures outcome.Sent? && reply.Err? ==>
                outcome.toast == DemoMode && form == old(form) && errors == map[] && open == old(open)
    {
      var valid := ValidateForm();
      if !valid {
        return NotSent;
      }
      isLoading := true;
      var payload := Payload(form);
      var notice, result := UseApi.Call(reply).0, UseApi.Call(reply).1;
      match result {
        case Ok(_) =>
          outcome := Sent(payload, notice, TaskCreated);
          form := EMPTY_FORM;
          errors := map[];
          open := false;
        case Err(_) =>
          outcome := Sent(payload, notice, DemoMode);
      }
      isLoading := false;
    }
  }

  /** An enabled button means the text is present, so a click is refused only for length. */
  lemma EnabledSubmitPassesPresence(d: CreateTaskDialog)
    requires !d.SubmitDisabled()
    ensures TaskText in FormErrors(d.form) ==> FormErrors(d.form)[TaskText] == TEXT_TOO_LONG
  {
  }
}
