/** UserValidator of validator/validator.go, which guards the CreateUser
    route: two length checks, the name reported under the key "first_name",
    and a 422 reply carrying the map when either fails. */
module ModelValidator {
  import opened Common
  import opened Text
  import opened Models

  const FirstNameMessage: string := "First name must be at least 5 characters long"
  const PasswordMessage: string := "Password must be at least 8 characters long"

  /** Both rules together, judged on the parsed struct. */
  predicate Accepts(body: User)
  {
    ByteLen(TrimSpace(body.name)) >= 5 && ByteLen(TrimSpace(body.password)) >= 8
  }

  method UserValidator(body: User) returns (errors: map<string, string>, rejection: Option<Reply<map<string, string>>>)
    ensures errors.Keys <= {"first_name", "password"}
    ensures "first_name" in errors <==> ByteLen(TrimSpace(body.name)) < 5
    ensures "password" in errors <==> ByteLen(TrimSpace(body.password)) < 8
    ensures "first_name" in errors ==> errors["first_name"] == FirstNameMessage
    ensures "password" in errors ==> errors["password"] == PasswordMessage
    ensures rejection.None? <==> Accepts(body)
    ensures rejection.Some? ==>
              rejection.value == Reply(StatusUnprocessableEntity, false, "Validation failed", Some(errors))
  {
    errors := map[];
    if ByteLen(TrimSpace(body.name)) < 5 {
      errors := errors["first_name" := FirstNameMessage];
    }
    if ByteLen(TrimSpace(body.password)) < 8 {
      errors := errors["password" := PasswordMessage];
    }
    if |errors| > 0 {
      rejection := Some(Reply(StatusUnprocessableEntity, false, "Validation failed", Some(errors)));
    } else {
      assert errors.Keys == {};
      rejection := None;
    }
  }

  /** The handler the route builds once, around one `&models.User{}` that
      every request parses into; a body that does not parse (None) is
      answered 400 and leaves the struct as it was. */
  class CreateUserRoute {
    var model: User

    constructor()
      ensures model == ZeroUser
    {
      model := ZeroUser;
    }

    method Handle(body: Option<UserPatch>) returns (errors: map<string, string>, rejection: Option<Reply<map<string, string>>>)
      modifies this
      ensures body.None? ==> model == old(model) && errors == map[]
      ensures body.None? ==> rejection == Some(Reply(StatusBadRequest, false, "Invalid request body", None))
      ensures body.Some? ==> model == Merge(old(model), body.value)
      ensures errors.Keys <= {"first_name", "password"}
      ensures body.Some? ==> ("first_name" in errors <==> ByteLen(TrimSpace(model.name)) < 5)
      ensures body.Some? ==> ("password" in errors <==> ByteLen(TrimSpace(model.password)) < 8)
      ensures rejection.None? <==> body.Some? && Accepts(model)
      ensures body.Some? && rejection.Some? ==>
                rejection.value == Reply(StatusUnprocessableEntity, false, "Validation failed", Some(errors))
    {
      if body.None? {
        errors := map[];
        rejection := Some(Reply(StatusBadRequest, false, "Invalid request body", None));
        return;
      }
      model := Merge(model, body.value);
      errors, rejection := UserValidator(model);
    }
  }

  /** Once a request has left a passing name and password in the struct,
      every later parsable body that omits both keys passes the validator
      too, on the earlier values (CreateUser itself parses the body again). */
  lemma {:induction false} PassingFieldsPersist(model: User, patch: UserPatch)
    requires Accepts(model)
    requires patch.name.None? && patch.password.None?
    ensures Accepts(Merge(model, patch))
    ensures Merge(model, patch).password == model.password
  {
  }

  /** On a fresh route an empty body fails both rules. */
  lemma {:induction false} FreshRouteRejectsEmptyBody()
    ensures !Accepts(Merge(ZeroUser, UserPatch(None, None, None, None)))
  {
    assert TrimSpace("") == "";
  }
}
