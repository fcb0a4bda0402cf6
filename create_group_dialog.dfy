/** `components/groups/create-group-dialog.tsx`: the new-group form's name rule, the request
    body it builds, and the submit flow through the group store. As in the task dialog, the
    parent's `open` flag is held as a field of the dialog. */
module CreateGroupDialog {
  import opened Wrappers
  import opened Js
  import opened Types
  import opened Http
  import GroupProvider
  import UseApi

  datatype Field = Name | Description

  datatype GroupForm = GroupForm(name: string, description: string)

  const EMPTY_FORM: GroupForm := GroupForm("", "")

  const NAME_REQUIRED: string := "Group name is required"
  const NAME_TOO_SHORT: string := "Group name must be at least 3 characters"
  const NAME_TOO_LONG: string := "Group name must be less than 100 characters"
  const MIN_NAME: nat := 3
  const MAX_NAME: nat := 100

  function Get(f: GroupForm, k: Field): string {
    match k
    case Name => f.name
    case Description => f.description
  }

  /** `{ ...prev, [field]: value }` */
  function WithField(f: GroupForm, k: Field, v: string): (r: GroupForm)
    ensures Get(r, k) == v
    ensures forall j :: j != k ==> Get(r, j) == Get(f, j)
  {
    match k
    case Name => f.(name := v)
    case Description => f.(description := v)
  }

  /** The name rule: required, then at least 3, then at most 100 code units measured on the
      name as typed. */
  function NameError(n: string): (r: Option<string>)
    ensures r.None? <==> !IsBlank(n) && MIN_NAME <= Utf16Length(n) <= MAX_NAME
    ensures IsBlank(n) ==> r == Some(NAME_REQUIRED)
    ensures !IsBlank(n) && Utf16Length(n) < MIN_NAME ==> r == Some(NAME_TOO_SHORT)
    ensures !IsBlank(n) && Utf16Length(n) > MAX_NAME ==> r == Some(NAME_TOO_LONG)
  {
    if IsBlank(n) then Some(NAME_REQUIRED)
    else if Utf16Length(n) < MIN_NAME then Some(NAME_TOO_SHORT)
    else if Utf16Length(n) > MAX_NAME then Some(NAME_TOO_LONG)
    else None
  }

  /** The `newErrors` record `validateForm` builds: only the name is checked. */
  function FormErrors(f: GroupForm): (m: map<Field, string>)
    ensures m.Keys <= {Name}
    ensures Name in m <==> NameError(f.name).Some?
    ensures Name in m ==> m[Name] == NameError(f.name).value
  {
    match NameError(f.name)
    case None => map[]
    case Some(message) => map[Name := message]
  }

  /** Because the length is taken before trimming, surrounding spaces count towards it: "  a"
      passes the length rule though its trimmed name is one character. */
  lemma UntrimmedLengthCounts()
    ensures FormErrors(GroupForm("  a", "")) == map[]
    ensures Trim("  a") == "a"
  {
    assert "  a"[1..] == " a" && " a"[1..] == "a" && "a"[1..] == "";
    assert !IsSpace('a');
    assert TrimStart("  a") == "a";
    assert "a"[..0] == "";
    assert TrimEnd("a") == "a";
  }

  /** The group `create_group` is handed: `{ name: name.trim(), description: description.trim() || undefined }`. */
  datatype GroupPayload = GroupPayload(name: string, description: Option<string>)

  function Payload(f: GroupForm): (p: GroupPayload)
    ensures p.name == Trim(f.name)
    ensures p.description.None? <==> IsBlank(f.description)
    ensures p.description.Some? ==> p.description.value == Trim(f.description)
  {
    GroupPayload(Trim(f.name), if IsBlank(f.description) then None else Some(Trim(f.description)))
  }

  /** A form that passes validation hands over a non-empty trimmed name no longer than the
      limit, and a description that is absent or non-empty and trimmed. */
  lemma ValidFormSendsCleanFields(f: GroupForm)
    requires FormErrors(f) == map[]
    ensures var p := Payload(f);
      && p.name != "" && Trim(p.name) == p.name && Utf16Length(p.name) <= MAX_NAME
      && (p.description.Some? ==> p.description.value != "" && Trim(p.description.value) == p.description.value)
  {
    assert Name !in FormErrors(f);
    TrimIdempotent(f.name);
    TrimIdempotent(f.description);
    Utf16LengthOfTrim(f.name);
  }

  /** The outcome of a submit: nothing sent, or the group handed to the store together with the
      notice the store's `post` wrapper showed. The dialog's "Success" toast follows every
      sent submit. */
  datatype SubmitOutcome =
    | NotSent
    | Sent(payload: GroupPayload, wrapperNotice: Option<Notice>)

  class CreateGroupDialog {
    var form: GroupForm
    var errors: map<Field, string>
    var isLoading: bool
    var open: bool

    constructor (open: bool)
      ensures form == EMPTY_FORM && errors == map[] && !isLoading && this.open == open
    {
      form := EMPTY_FORM;
      errors := map[];
      isLoading := false;
      this.open := open;
    }

    /** `validateForm()` */
    method ValidateForm() returns (valid: bool)
      modifies this`errors
      ensures errors == FormErrors(form)
      ensures valid <==> errors == map[]
    {
      var newErrors: map<Field, string> := map[];
      if IsBlank(form.name) {
        newErrors := newErrors[Name := NAME_REQUIRED];
      } else if Utf16Length(form.name) < MIN_NAME {
        newErrors := newErrors[Name := NAME_TOO_SHORT];
      } else if Utf16Length(form.name) > MAX_NAME {
        newErrors := newErrors[Name := NAME_TOO_LONG];
      }
      errors := newErrors;
      valid := |newErrors.Keys| == 0;
      if !valid {
        assert newErrors != map[];
      }
    }

    /** `handleInputChange(field)`: set the field, and blank its error if it had a non-empty one. */
    method HandleInputChange(field: Field, value: string)
      modifies this`form, this`errors
      ensures form == WithField(old(form), field, value)
      ensures field in old(errors) && old(errors)[field] != "" ==> errors == old(errors)[field := ""]
      ensures !(field in old(errors) && old(errors)[field] != "") ==> errors == old(errors)
    {
      form := WithField(form, field, value);
      if field in errors && errors[field] != "" {
        errors := errors[field := ""];
      }
    }

    /** `disabled={isLoading || !formData.name.trim()}` */
    predicate SubmitDisabled(): (r: bool)
      reads this
      ensures isLoading ==> r
      ensures !r ==> !IsBlank(form.name)
      ensures !isLoading && !IsBlank(form.name) ==> !r
    {
      isLoading || IsBlank(form.name)
    }

    /** `handleSubmit`, with `raw` the outcome of `POST /api/group/` should it be sent. The
        store records a failure in its own `error` and does not rethrow, so every sent submit
        takes the success branch: the form is reset and the dialog closed even when the group
        was not created. */
    method HandleSubmit(store: GroupProvider.GroupProvider, raw: Result<Group, Thrown>)
      returns (outcome: SubmitOutcome)
      modifies this, store
      ensures outcome == NotSent <==> FormErrors(old(form)) != map[]
      ensures outcome == NotSent ==>
                form == old(form) && errors == FormErrors(form) && isLoading == old(isLoading)
                && open == old(open) && store.groups == old(store.groups) && store.error == old(store.error)
      ensures outcome.Sent? ==>
                && outcome.payload == Payload(old(form))
                && form == EMPTY_FORM && errors == map[] && !open && !isLoading
                && outcome.wrapperNotice == UseApi.Call(raw).0
                && store.groups == (if raw.Ok? then GroupProvider.Appended(old(store.groups), raw.value)
                                    else old(store.groups))
                && store.error == (if raw.Ok? then None
                                   else Some(MessageOrFallback(UseApi.Call(raw).1.error, GroupProvider.CREATE_FAILED)))
                && !store.isLoading
    {
      var valid := ValidateForm();
      if !valid {
        return NotSent;
      }
      isLoading := true;
      var payload := Payload(form);
      var notice := store.CreateGroup(raw);
      outcome := Sent(payload, notice);
      form := EMPTY_FORM;
      errors := map[];
      open := false;
      isLoading := false;
    }
  }
}
