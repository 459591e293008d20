/** The add-user page (src/pages/AddUser.tsx): per-field validation, the
    whole-form check, field edits, the ADMIN role lookup and the guards in
    front of POST /users. */
module AddUser {
  import opened Wrappers
  import opened FieldRules
  import Forms

  /** The keys of the form data, in `Object.keys` order. */
  const Fields: seq<string> := ["username", "email", "phone", "pin", "password", "walletId", "apiKey"]

  /** The values each field accepts. */
  ghost predicate Accepts(name: string, value: string) {
    if name == "username" then 3 <= |value| <= 100
    else if name == "email" then MatchesEmailRegex(value)
    else if name == "phone" then 5 <= |value| <= 30
    else if name == "pin" then |value| == 4
    else if name == "password" then 5 <= |value| <= 100
    else if name == "walletId" then 10 <= |value| <= 50
    else if name == "apiKey" then 10 <= |value| <= 50
    else true
  }

  /** `validateField`: the empty string when the value is acceptable, and the
      field's message otherwise. */
  function ValidateField(name: string, value: string): (msg: string)
    ensures msg == "" <==> Accepts(name, value)
  {
    EmailRuleMatchesRegex(value);
    if name == "username" then
      LengthMessage(value, 3, 100, "Username must be at least 3 characters", "Username must be less than 100 characters")
    else if name == "email" then
      (if IsValidEmail(value) then "" else "Please enter a valid email address")
    else if name == "phone" then
      LengthMessage(value, 5, 30, "Phone number must be at least 5 characters", "Phone number must be less than 30 characters")
    else if name == "pin" then
      (if |value| != 4 then "PIN must be exactly 4 characters" else "")
    else if name == "password" then
      LengthMessage(value, 5, 100, "Password must be at least 5 characters", "Password must be less than 100 characters")
    else if name == "walletId" then
      LengthMessage(value, 10, 50, "Wallet ID must be at least 10 characters", "Wallet ID must be less than 50 characters")
    else if name == "apiKey" then
      LengthMessage(value, 10, 50, "API Key must be at least 10 characters", "API Key must be less than 50 characters")
    else ""
  }

  /** Usernames: 3 to 100 characters. A 100-character name passes although
      the message speaks of "less than 100", and a short name always gets
      the too-short message. */
  lemma UsernameRule(value: string)
    ensures ValidateField("username", value) == "" <==> 3 <= |value| <= 100
    ensures |value| == 100 ==> ValidateField("username", value) == ""
    ensures |value| < 3 ==> ValidateField("username", value) == "Username must be at least 3 characters"
    ensures |value| > 100 ==> ValidateField("username", value) == "Username must be less than 100 characters"
  {
  }

  /** Phones: 5 to 30 characters; passwords: 5 to 100 characters. */
  lemma PhoneAndPasswordRules(value: string)
    ensures ValidateField("phone", value) == "" <==> 5 <= |value| <= 30
    ensures ValidateField("password", value) == "" <==> 5 <= |value| <= 100
    ensures |value| < 5 ==> ValidateField("phone", value) == "Phone number must be at least 5 characters"
    ensures |value| < 5 ==> ValidateField("password", value) == "Password must be at least 5 characters"
  {
  }

  /** PINs: exactly four characters of any kind. */
  lemma PinRule(value: string)
    ensures ValidateField("pin", value) == "" <==> |value| == 4
    ensures ValidateField("pin", "abcd") == ""
  {
  }

  /** Wallet ids and API keys: 10 to 50 characters. */
  lemma WalletIdAndApiKeyRules(value: string)
    ensures ValidateField("walletId", value) == "" <==> 10 <= |value| <= 50
    ensures ValidateField("apiKey", value) == "" <==> 10 <= |value| <= 50
  {
  }

  /** E-mails: the pattern, and no other field or unknown name is rejected
      for reasons of its own. */
  lemma EmailAndUnknownFields(name: string, value: string)
    ensures ValidateField("email", value) == "" <==> IsValidEmail(value)
    ensures ValidateField("email", value) != "" ==> ValidateField("email", value) == "Please enter a valid email address"
    ensures name !in Fields ==> ValidateField(name, value) == ""
  {
    EmailRuleMatchesRegex(value);
  }

  /** The errors `validateForm` stores for some form data. */
  function FormErrors(form: map<string, string>): map<string, string>
    requires forall f | f in Fields :: f in form
  {
    Forms.ErrorsOf(Fields, form, ValidateField)
  }

  /** The stored errors name exactly the failing fields, each with its own message. */
  lemma FormErrorsAreFailingFields(form: map<string, string>)
    requires forall f | f in Fields :: f in form
    ensures forall f :: f in FormErrors(form) <==> f in Fields && !Accepts(f, form[f])
    ensures forall f | f in FormErrors(form) :: FormErrors(form)[f] == ValidateField(f, form[f])
  {
  }

  datatype Role = Role(id: int, name: string)

  /** Position of the first role named "ADMIN" (`Array.prototype.find`), or
      the length of the list when there is none. */
  function FirstAdmin(roles: seq<Role>): (k: nat)
    ensures k <= |roles|
    ensures k < |roles| ==> roles[k].name == "ADMIN"
    ensures forall m | 0 <= m < k :: roles[m].name != "ADMIN"
  {
    if roles == [] then 0
    else if roles[0].name == "ADMIN" then 0
    else 1 + FirstAdmin(roles[1..])
  }

  /** The id the page keeps from the role list: that of the first ADMIN role. */
  function AdminRoleId(roles: seq<Role>): (id: Option<int>)
    ensures id.None? <==> forall m | 0 <= m < |roles| :: roles[m].name != "ADMIN"
    ensures id.Some? ==> exists k | 0 <= k < |roles| ::
      roles[k].name == "ADMIN" && roles[k].id == id.value && forall m | 0 <= m < k :: roles[m].name != "ADMIN"
  {
    var k := FirstAdmin(roles);
    if k < |roles| then Some(roles[k].id) else None
  }

  /** The guard `!adminRoleId`: a missing id and the id 0 both stop the submit. */
  predicate RoleIdUsable(id: Option<int>) {
    id.Some? && id.value != 0
  }

  /** The body of POST /users: the form data and the role id. */
  datatype NewUserRequest = NewUserRequest(fields: map<string, string>, roleId: int)

  /** The initial form data: every field empty. */
  function EmptyForm(): (form: map<string, string>)
    ensures form.Keys == set f | f in Fields
    ensures forall f | f in form :: form[f] == ""
  {
    map f | f in Fields :: ""
  }

  class AddUserForm {
    var formData: map<string, string>
    var errors: map<string, string>
    var adminRoleId: Option<int>

    /** Every field has a value. */
    ghost predicate Valid()
      reads this
    {
      forall f | f in Fields :: f in formData
    }

    constructor ()
      ensures Valid()
      ensures formData == EmptyForm() && errors == map[] && adminRoleId == None
    {
      formData := EmptyForm();
      errors := map[];
      adminRoleId := None;
    }

    /** The roles response: keep the first ADMIN id, if any; otherwise leave
        the id as it was. */
    method ReceiveRoles(roles: seq<Role>)
      modifies this`adminRoleId
      ensures adminRoleId == if AdminRoleId(roles).Some? then AdminRoleId(roles) else old(adminRoleId)
    {
      var admin := AdminRoleId(roles);
      if admin.Some? {
        adminRoleId := admin;
      }
    }

    /** `handleChange`: set the named field and its own error entry; nothing else changes. */
    method HandleChange(name: string, value: string)
      requires Valid()
      modifies this`formData, this`errors
      ensures Valid()
      ensures formData == old(formData)[name := value]
      ensures errors == old(errors)[name := ValidateField(name, value)]
    {
      formData := formData[name := value];
      var error := ValidateField(name, value);
      errors := errors[name := error];
    }

    /** `validateForm`: store the errors of every field and report whether there were none. */
    method ValidateForm() returns (isValid: bool)
      requires Valid()
      modifies this`errors
      ensures errors == FormErrors(formData)
      ensures isValid <==> errors == map[]
      ensures isValid <==> forall f | f in Fields :: Accepts(f, formData[f])
    {
      var newErrors;
      isValid, newErrors := Forms.CollectErrors(Fields, formData, ValidateField);
      errors := newErrors;
    }

    /** `handleSubmit`: the request sent, if any. Without a usable role id
        nothing is validated and nothing is sent; an invalid form stores its
        errors and sends nothing; a valid one posts the form data with the id. */
    method HandleSubmit() returns (sent: Option<NewUserRequest>)
      requires Valid()
      modifies this`errors
      ensures !RoleIdUsable(adminRoleId) ==> sent == None && errors == old(errors)
      ensures RoleIdUsable(adminRoleId) ==> errors == FormErrors(formData)
      ensures sent.Some? <==> RoleIdUsable(adminRoleId) && forall f | f in Fields :: Accepts(f, formData[f])
      ensures sent.Some? ==> sent.value == NewUserRequest(formData, adminRoleId.value)
    {
      if !RoleIdUsable(adminRoleId) {
        return None;
      }
      var isValid := ValidateForm();
      if !isValid {
        return None;
      }
      sent := Some(NewUserRequest(formData, adminRoleId.value));
    }
  }
}
