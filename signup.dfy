/** The sign-up form: a Student or Lecture tab, five fields, a chain of
    checks, and a multipart payload posted to the backend. */
module SignUp {
  import opened Common

  /** A form value: typed text, the first file of a file input, or
      `undefined` (a file input whose list is empty). */
  datatype Value = Text(text: string) | FileValue(fileName: string) | Undefined

  /** JavaScript truthiness: the empty string and `undefined` are false,
      a file object is true. */
  predicate IsSet(v: Value) {
    match v
    case Text(t) => t != ""
    case FileValue(_) => true
    case Undefined => false
  }

  datatype FieldName = FirstName | LastName | EmailField | Password | ConfirmPassword

  datatype SignUpForm = SignUpForm(firstName: Value, lastName: Value, email: Value, password: Value, confirmPassword: Value)

  datatype Tab = Tab(id: int, tabName: string, accountType: string)

  /** The two tabs; the second is labelled "Lecture" but creates tutors. */
  const Tabs: seq<Tab> := [Tab(1, "Student", "Student"), Tab(2, "Lecture", "Tutor")]

  /** The multipart body: (name, value) pairs in `append` order. */
  type Payload = seq<(string, Value)>

  function Get(form: SignUpForm, name: FieldName): Value {
    match name
    case FirstName => form.firstName
    case LastName => form.lastName
    case EmailField => form.email
    case Password => form.password
    case ConfirmPassword => form.confirmPassword
  }

  /** `[name]: files ? files[0] : value`. */
  function NewValue(value: string, files: Option<seq<string>>): (v: Value)
    ensures files.None? ==> v == Text(value)
    ensures files.Some? && files.value != [] ==> v == FileValue(files.value[0])
    ensures files.Some? && files.value == [] ==> v == Undefined
  {
    match files
    case None => Text(value)
    case Some(list) => if list != [] then FileValue(list[0]) else Undefined
  }

  function WithField(form: SignUpForm, name: FieldName, v: Value): SignUpForm {
    match name
    case FirstName => form.(firstName := v)
    case LastName => form.(lastName := v)
    case EmailField => form.(email := v)
    case Password => form.(password := v)
    case ConfirmPassword => form.(confirmPassword := v)
  }

  /** handleChange sets the named field and no other. */
  lemma WithFieldFrame(form: SignUpForm, name: FieldName, v: Value)
    ensures Get(WithField(form, name, v), name) == v
    ensures forall other :: other != name ==> Get(WithField(form, name, v), other) == Get(form, other)
  {
  }

  /** The checks of handleSubmit: every field set (first), then the two
      passwords equal. */
  function SignUpGuard(form: SignUpForm): (e: Option<string>)
    ensures e == Some("All fields are required.") <==> exists name :: !IsSet(Get(form, name))
    ensures e == Some("Passwords do not match.") <==>
      (forall name :: IsSet(Get(form, name))) && form.password != form.confirmPassword
    ensures e == None <==> (forall name :: IsSet(Get(form, name))) && form.password == form.confirmPassword
  {
    if !IsSet(form.firstName) || !IsSet(form.lastName) || !IsSet(form.email) || !IsSet(form.password) || !IsSet(form.confirmPassword) then
      assert !IsSet(Get(form, FirstName)) || !IsSet(Get(form, LastName)) || !IsSet(Get(form, EmailField))
        || !IsSet(Get(form, Password)) || !IsSet(Get(form, ConfirmPassword));
      Some("All fields are required.")
    else if form.password != form.confirmPassword then Some("Passwords do not match.")
    else None
  }

  /** The payload built with `append`: the four fields and the account type,
      never the confirmation. */
  method BuildPayload(form: SignUpForm, accountType: string) returns (payload: Payload)
    ensures payload == [("firstName", form.firstName), ("lastName", form.lastName), ("email", form.email),
                        ("password", form.password), ("accountType", Text(accountType))]
    ensures forall i :: 0 <= i < |payload| ==> payload[i].0 != "confirmPassword"
    ensures exists i :: 0 <= i < |payload| && payload[i] == ("accountType", Text(accountType))
  {
    payload := [];
    payload := payload + [("firstName", form.firstName)];
    payload := payload + [("lastName", form.lastName)];
    payload := payload + [("email", form.email)];
    payload := payload + [("password", form.password)];
    payload := payload + [("accountType", Text(accountType))];
    assert payload[4] == ("accountType", Text(accountType));
  }

  /** The "Lecture" tab selects the account type "Tutor", the default. */
  lemma LectureTabIsTutor()
    ensures Tabs[1].tabName == "Lecture" && Tabs[1].accountType == "Tutor"
    ensures forall t :: t in Tabs ==> t.accountType == "Student" || t.accountType == "Tutor"
  {
  }

  class SignUpPage {
    var field: string
    var form: SignUpForm
    var loading: bool
    var error: Option<string>
    var successMessage: Option<string>
    /** The pending `setTimeout` that clears the message and goes home. */
    var redirectPending: bool

    constructor()
      ensures field == "Tutor"
      ensures form == SignUpForm(Text(""), Text(""), Text(""), Text(""), Text(""))
      ensures !loading && error == None && successMessage == None && !redirectPending
    {
      field := "Tutor";
      form := SignUpForm(Text(""), Text(""), Text(""), Text(""), Text(""));
      loading := false;
      error := None;
      successMessage := None;
      redirectPending := false;
    }

    method SelectTab(tab: Tab)
      modifies this
      ensures field == tab.accountType
      ensures form == old(form) && loading == old(loading) && error == old(error)
      ensures successMessage == old(successMessage) && redirectPending == old(redirectPending)
    {
      field := tab.accountType;
    }

    method HandleChange(name: FieldName, value: string, files: Option<seq<string>>)
      modifies this
      ensures form == WithField(old(form), name, NewValue(value, files))
      ensures field == old(field) && loading == old(loading) && error == old(error)
      ensures successMessage == old(successMessage) && redirectPending == old(redirectPending)
    {
      form := WithField(form, name, NewValue(value, files));
    }

    /** handleSubmit: a failed check sets its message and sends nothing;
        otherwise the payload is posted and `loading` ends false whatever
        the outcome. */
    method HandleSubmit(response: Response<()>) returns (sent: Option<Payload>)
      modifies this
      ensures SignUpGuard(old(form)).Some? ==>
        sent == None && error == SignUpGuard(old(form)) && loading == old(loading)
        && successMessage == old(successMessage) && redirectPending == old(redirectPending)
      ensures SignUpGuard(old(form)).None? ==>
        sent.Some? && !loading
        && sent.value == [("firstName", form.firstName), ("lastName", form.lastName), ("email", form.email),
                          ("password", form.password), ("accountType", Text(field))]
      ensures sent.Some? && response.Ok? ==>
        error == None && successMessage == Some("Signup successful! Redirecting to home...") && redirectPending
      ensures sent.Some? && response.Failed? ==>
        error == Some(OrElse(response.serverMessage, "An error occurred during signup."))
        && successMessage == old(successMessage) && redirectPending == old(redirectPending)
      ensures field == old(field) && form == old(form)
    {
      var guard := SignUpGuard(form);
      if guard.Some? {
        error := guard;
        return None;
      }
      var payload := BuildPayload(form, field);
      loading := true;
      error := None;
      sent := Some(payload);
      match response {
        case Ok(_) =>
          successMessage := Some("Signup successful! Redirecting to home...");
          redirectPending := true;
        case Failed(serverMessage) =>
          error := Some(OrElse(serverMessage, "An error occurred during signup."));
      }
      loading := false;
    }

    /** The delayed callback: the message is cleared and the page leaves for
        the home route. */
    method RedirectFires()
      requires redirectPending
      modifies this
      ensures successMessage == None && !redirectPending
      ensures field == old(field) && form == old(form) && loading == old(loading) && error == old(error)
    {
      successMessage := None;
      redirectPending := false;
    }
  }
}
