/** The edit-user page (src/pages/EditUser.tsx): the fetched user filling
    the form, per-field validation with an optional PIN, the whole-form
    check, field edits and the PUT payload that drops an empty PIN. */
module EditUser {
  import opened Wrappers
  import AddUser
  import Forms

  /** The keys of the form data, in `Object.keys` order. */
  const Fields: seq<string> := ["username", "email", "phone", "pin"]

  /** The values each field accepts: the add-user rules for username, e-mail
      and phone; an empty PIN or one of exactly four characters. */
  ghost predicate Accepts(name: string, value: string) {
    if name == "username" || name == "email" || name == "phone" then AddUser.Accepts(name, value)
    else if name == "pin" then value == "" || |value| == 4
    else true
  }

  /** `validateField` of this page. Its username, e-mail and phone cases are
      those of the add-user page, messages included. */
  function ValidateField(name: string, value: string): (msg: string)
    ensures msg == "" <==> Accepts(name, value)
    ensures name == "username" || name == "email" || name == "phone" ==> msg == AddUser.ValidateField(name, value)
  {
    if name == "username" || name == "email" || name == "phone" then AddUser.ValidateField(name, value)
    else if name == "pin" then (if value != "" && |value| != 4 then "PIN must be exactly 4 characters" else "")
    else ""
  }

  /** An empty PIN passes; a non-empty one must have exactly four characters. */
  lemma OptionalPinRule(value: string)
    ensures ValidateField("pin", "") == ""
    ensures value != "" ==> (ValidateField("pin", value) == "" <==> |value| == 4)
    ensures value != "" && |value| != 4 ==> ValidateField("pin", value) == "PIN must be exactly 4 characters"
  {
  }

  /** The errors `validateForm` stores for some form data. */
  function FormErrors(form: map<string, string>): map<string, string>
    requires forall f | f in Fields :: f in form
  {
    Forms.ErrorsOf(Fields, form, ValidateField)
  }

  /** The stored errors name exactly the failing fields, each with its own message. */
  lemma FormErrorsAreFailingFields(form: map<string, string>)
    requires forall f | f in Fields :: f in form
    ensures forall f :: f in FormErrors(form) <==> f in Fields && !Accepts(f, form[f])
    ensures forall f | f in FormErrors(form) :: FormErrors(form)[f] == ValidateField(f, form[f])
  {
  }

  /** The user record GET /users/:id returns. */
  datatype User = User(id: int, username: string, email: string, phone: string, pin: Option<string>)

  /** The form data filled from a fetched user: a missing PIN becomes "". */
  function FormFromUser(user: User): (form: map<string, string>)
    ensures form.Keys == set f | f in Fields
    ensures form["username"] == user.username && form["email"] == user.email && form["phone"] == user.phone
    ensures form["pin"] == "" <==> user.pin.None? || user.pin == Some("")
    ensures user.pin.Some? ==> form["pin"] == user.pin.value
  {
    map["username" := user.username, "email" := user.email, "phone" := user.phone, "pin" := user.pin.GetOr("")]
  }

  /** The PUT body: the form data, without the `pin` key when the PIN is
      missing or empty. No other key is added, removed or changed. */
  function UpdatePayload(form: map<string, string>): (payload: map<string, string>)
    ensures forall k :: k in payload <==> k in form && (k == "pin" ==> form[k] != "")
    ensures forall k | k in payload :: payload[k] == form[k]
  {
    if "pin" !in form || form["pin"] == "" then form - {"pin"} else form
  }

  /** Saving a fetched user unchanged sends its username, e-mail and phone,
      and its PIN only when it has a non-empty one. */
  lemma FetchedUserPayload(user: User)
    ensures var p := UpdatePayload(FormFromUser(user));
      && p["username"] == user.username && p["email"] == user.email && p["phone"] == user.phone
      && ("pin" in p <==> user.pin.Some? && user.pin.value != "")
      && ("pin" in p ==> p["pin"] == user.pin.value)
  {
  }

  class EditUserForm {
    var formData: map<string, string>
    var errors: map<string, string>

    /** Every field has a value. */
    ghost predicate Valid()
      reads this
    {
      forall f | f in Fields :: f in formData
    }

    constructor ()
      ensures Valid()
      ensures formData == map["username" := "", "email" := "", "phone" := "", "pin" := ""]
      ensures errors == map[]
    {
      formData := map["username" := "", "email" := "", "phone" := "", "pin" := ""];
      errors := map[];
    }

    /** The user details response replaces the form data. */
    method ReceiveUser(user: User)
      modifies this`formData
      ensures Valid()
      ensures formData == FormFromUser(user)
    {
      formData := FormFromUser(user);
    }

    /** `handleChange`: set the named field and its own error entry; nothing else changes. */
    method HandleChange(name: string, value: string)
      requires Valid()
      modifies this`formData, this`errors
      ensures Valid()
      ensures formData == old(formData)[name := value]
      ensures errors == old(errors)[name := ValidateField(name, value)]
    {
      formData := formData[name := value];
      var error := ValidateField(name, value);
      errors := errors[name := error];
    }

    /** `validateForm`: store the errors of every field and report whether there were none. */
    method ValidateForm() returns (isValid: bool)
      requires Valid()
      modifies this`errors
      ensures errors == FormErrors(formData)
      ensures isValid <==> errors == map[]
      ensures isValid <==> forall f | f in Fields :: Accepts(f, formData[f])
    {
      var newErrors;
      isValid, newErrors := Forms.CollectErrors(Fields, formData, ValidateField);
      errors := newErrors;
    }

    /** `handleSubmit`: an invalid form stores its errors and sends nothing; a
        valid one sends the payload built from the form data. */
    method HandleSubmit() returns (sent: Option<map<string, string>>)
      requires Valid()
      modifies this`errors
      ensures errors == FormErrors(formData)
      ensures sent.Some? <==> forall f | f in Fields :: Accepts(f, formData[f])
      ensures sent.Some? ==> sent.value == UpdatePayload(formData)
    {
      var isValid := ValidateForm();
      if !isValid {
        return None;
      }
      var payload := formData;
      if "pin" !in payload || payload["pin"] == "" {
        payload := payload - {"pin"};
      }
      sent := Some(payload);
    }
  }
}
