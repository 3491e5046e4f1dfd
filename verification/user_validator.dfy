/** The Singup validator of validator/userValidator/validator.go, which
    guards the signup route of controllers/userControllers/user.auth.go:
    the same four field checks as the auth validator, with its own
    messages, and a 422 reply carrying the map when any check fails. */
module UserSignupValidator {
  import opened Common
  import opened Text
  import opened Models
  import opened Patterns

  const NameMessage: string := "Name must be at least 5 characters long"
  const EmailMessage: string := "Invalid email format"
  const MobileMessage: string := "Invalid mobile number format"
  const PasswordMessage: string := "Password must be at least 8 characters long"

  /** The four rules together, judged on the parsed struct. */
  ghost predicate Accepts(body: User)
  {
    ByteLen(TrimSpace(body.name)) >= 5 && EmailShape(body.email)
    && IsValidMobile(body.mobile) && ByteLen(TrimSpace(body.password)) >= 8
  }

  /** None lets the request through to the handler; otherwise the 422
      reply, whose payload is the map of failing fields. */
  method Signup(body: User) returns (errors: map<string, string>, rejection: Option<Reply<map<string, string>>>)
    ensures errors.Keys <= {"name", "email", "mobile", "password"}
    ensures "name" in errors <==> ByteLen(TrimSpace(body.name)) < 5
    ensures "email" in errors <==> !EmailShape(body.email)
    ensures "mobile" in errors <==> !IsValidMobile(body.mobile)
    ensures "password" in errors <==> ByteLen(TrimSpace(body.password)) < 8
    ensures "name" in errors ==> errors["name"] == NameMessage
    ensures "email" in errors ==> errors["email"] == EmailMessage
    ensures "mobile" in errors ==> errors["mobile"] == MobileMessage
    ensures "password" in errors ==> errors["password"] == PasswordMessage
    ensures rejection.None? <==> Accepts(body)
    ensures rejection.Some? ==>
              rejection.value == Reply(StatusUnprocessableEntity, false, "Validation failed", Some(errors))
  {
    errors := map[];
    if ByteLen(TrimSpace(body.name)) < 5 {
      errors := errors["name" := NameMessage];
    }
    if body.email == "" || !IsValidEmail(body.email) {
      errors := errors["email" := EmailMessage];
    }
    if body.mobile == "" || !IsValidMobile(body.mobile) {
      errors := errors["mobile" := MobileMessage];
    }
    if ByteLen(TrimSpace(body.password)) < 8 {
      errors := errors["password" := PasswordMessage];
    }
    EmailIff(body.email);
    if |errors| > 0 {
      rejection := Some(Reply(StatusUnprocessableEntity, false, "Validation failed", Some(errors)));
    } else {
      assert errors.Keys == {};
      rejection := None;
    }
  }

  /** The handler the route builds once, around one `&models.User{}`: every
      request on the route parses into that same struct, so a key a body
      leaves out keeps the value an earlier request put there. A body that
      does not parse (None) is answered 400 and leaves the struct as it was. */
  class SignupRoute {
    var model: User

    constructor()
      ensures model == ZeroUser
    {
      model := ZeroUser;
    }

    method Handle(body: Option<UserPatch>) returns (errors: map<string, string>, rejection: Option<Reply<map<string, string>>>)
      modifies this
      ensures body.None? ==> model == old(model) && errors == map[]
      ensures body.None? ==> rejection == Some(Reply(StatusBadRequest, false, "Invalid request body", None))
      ensures body.Some? ==> model == Merge(old(model), body.value)
      ensures errors.Keys <= {"name", "email", "mobile", "password"}
      ensures body.Some? ==> ("name" in errors <==> ByteLen(TrimSpace(model.name)) < 5)
      ensures body.Some? ==> ("email" in errors <==> !EmailShape(model.email))
      ensures body.Some? ==> ("mobile" in errors <==> !IsValidMobile(model.mobile))
      ensures body.Some? ==> ("password" in errors <==> ByteLen(TrimSpace(model.password)) < 8)
      ensures rejection.None? <==> body.Some? && Accepts(model)
      ensures body.Some? && rejection.Some? ==>
                rejection.value == Reply(StatusUnprocessableEntity, false, "Validation failed", Some(errors))
    {
      if body.None? {
        errors := map[];
        rejection := Some(Reply(StatusBadRequest, false, "Invalid request body", None));
        return;
      }
      model := Merge(model, body.value);
      errors, rejection := Signup(model);
    }
  }

  /** A body with only an email and a mobile passes once an earlier request
      on the route left a passing name and password in the struct: the
      verdict is taken on the earlier name and password. The struct is put
      in Locals but no controller reads it; the controller parses the body
      again into a fresh struct, so it sees the body's own empty name and
      password. */
  lemma {:induction false} EarlierFieldsCarryOver(model: User, patch: UserPatch)
    requires Accepts(model)
    requires patch.name.None? && patch.password.None?
    requires patch.email.Some? && EmailShape(patch.email.value)
    requires patch.mobile.Some? && IsValidMobile(patch.mobile.value)
    ensures Accepts(Merge(model, patch))
    ensures Merge(model, patch).name == model.name
    ensures Merge(model, patch).password == model.password
  {
  }

  /** A body carrying all four keys is judged on its own: the verdict is the
      same whatever the struct held before. */
  lemma {:induction false} FullBodyIgnoresHistory(a: User, b: User, patch: UserPatch)
    requires patch.name.Some? && patch.email.Some? && patch.mobile.Some? && patch.password.Some?
    ensures Accepts(Merge(a, patch)) <==> Accepts(Merge(b, patch))
  {
  }
}
