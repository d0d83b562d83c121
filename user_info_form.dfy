/** src/components/UserInfoForm.tsx: the name and e-mail inputs, the submit
    guard and the submit button's disabled state. */
module UserInfoForm {
  import opened Wrappers
  import JsString

  /** The `{ name, email }` object handed to `onSubmit`. */
  datatype UserInfo = UserInfo(name: string, email: string)

  /** What `handleSubmit` passes to `onSubmit` for the current input values:
      nothing unless the trimmed name is non-empty, and then both values trimmed. */
  function Submission(name: string, email: string): (r: Option<UserInfo>)
    ensures r.Some? <==> exists i :: 0 <= i < |name| && !JsString.IsTrimmable(name[i])
    ensures r.Some? ==> r.value == UserInfo(JsString.Trim(name), JsString.Trim(email))
    ensures r.Some? ==> r.value.name != "" && JsString.IsTrimmed(r.value.name) && JsString.IsTrimmed(r.value.email)
  {
    var trimmed := JsString.Trim(name);
    if trimmed != "" then Some(UserInfo(trimmed, JsString.Trim(email))) else None
  }

  /** `disabled={!name.trim()}`. */
  function Disabled(name: string): (r: bool)
    ensures r <==> forall i :: 0 <= i < |name| ==> JsString.IsTrimmable(name[i])
  {
    JsString.Trim(name) == ""
  }

  /** The button is disabled exactly when submitting would do nothing. */
  lemma DisabledIffNoSubmission(name: string, email: string)
    ensures Disabled(name) <==> Submission(name, email).None?
  {
  }

  /** Trimming the submitted values again changes nothing. */
  lemma SubmittedValuesStable(name: string, email: string)
    requires Submission(name, email).Some?
    ensures JsString.Trim(Submission(name, email).value.name) == Submission(name, email).value.name
    ensures JsString.Trim(Submission(name, email).value.email) == Submission(name, email).value.email
  {
    JsString.TrimIdempotent(name);
    JsString.TrimIdempotent(email);
  }

  /** The e-mail is optional: whether anything is submitted depends on the
      name alone, and an empty e-mail is passed on as the empty string. */
  lemma EmailIsOptional(name: string, email: string)
    ensures Submission(name, email).Some? <==> Submission(name, "").Some?
    ensures Submission(name, "").Some? ==> Submission(name, "").value.email == ""
  {
  }

  /** The form's two state variables. */
  class Form {
    var name: string
    var email: string

    /** `useState('')` for both inputs. */
    constructor ()
      ensures name == "" && email == ""
    {
      name := "";
      email := "";
    }

    /** `onChange={(e) => setName(e.target.value)}`. */
    method SetName(value: string)
      modifies this`name
      ensures name == value && email == old(email)
    {
      name := value;
    }

    /** `onChange={(e) => setEmail(e.target.value)}`. */
    method SetEmail(value: string)
      modifies this`email
      ensures email == value && name == old(name)
    {
      email := value;
    }

    /** `handleSubmit`: the values `onSubmit` receives, if it is called. The
        form's own state is not changed. */
    method HandleSubmit() returns (submitted: Option<UserInfo>)
      ensures submitted == Submission(name, email)
      ensures submitted.Some? <==> !SubmitDisabled()
    {
      submitted := Submission(name, email);
    }

    /** The submit button's `disabled` attribute. */
    function SubmitDisabled(): (r: bool)
      reads this
      ensures r == Disabled(name)
      ensures r <==> forall i :: 0 <= i < |name| ==> JsString.IsTrimmable(name[i])
    {
      Disabled(name)
    }
  }
}
