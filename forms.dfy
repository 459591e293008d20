/** The whole-form check shared by the add-user and edit-user pages
    (`validateForm` in src/pages/AddUser.tsx and src/pages/EditUser.tsx):
    run the field validator over every key of the form data, collect the
    non-empty messages and report whether there were none. */
module Forms {

  /** The errors object a check produces: every field whose value the
      validator rejects, mapped to its message. */
  function ErrorsOf(fields: seq<string>, form: map<string, string>, validate: (string, string) -> string): (errors: map<string, string>)
    requires forall f | f in fields :: f in form
  {
    map f | f in fields && validate(f, form[f]) != "" :: validate(f, form[f])
  }

  /** The `forEach` loop of `validateForm`: `isValid` starts true and is
      cleared by the first failing field; `newErrors` gathers the messages. */
  method CollectErrors(fields: seq<string>, form: map<string, string>, validate: (string, string) -> string)
    returns (isValid: bool, newErrors: map<string, string>)
    requires forall f | f in fields :: f in form
    ensures newErrors == ErrorsOf(fields, form, validate)
    ensures isValid <==> forall f | f in fields :: validate(f, form[f]) == ""
    ensures isValid <==> newErrors == map[]
  {
    newErrors := map[];
    isValid := true;
    for i := 0 to |fields|
      invariant newErrors == ErrorsOf(fields[..i], form, validate)
      invariant isValid <==> forall f | f in fields[..i] :: validate(f, form[f]) == ""
    {
      var key := fields[i];
      var error := validate(key, form[key]);
      if error != "" {
        newErrors := newErrors[key := error];
        isValid := false;
      }
      assert fields[..i + 1] == fields[..i] + [key];
    }
    assert fields[..|fields|] == fields;
    if !isValid {
      var f :| f in fields && validate(f, form[f]) != "";
      assert f in newErrors;
    }
  }
}
