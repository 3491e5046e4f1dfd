/** The request validators of validators/auth/validator.go. Each builds a
    map from field name to message, one independent check per field, and
    lets the request through exactly when the map stays empty. Lengths are
    Go's `len`: bytes of the UTF-8 encoding, after strings.TrimSpace. */
module AuthValidator {
  import opened Text
  import opened Models
  import opened Patterns

  const NameMessage: string := "Name must be at least 5 characters long!"
  const EmailMessage: string := "Invalid email!"
  const MobileMessage: string := "Invalid mobile number!"
  const PasswordMessage: string := "Password must be at least 8 characters long!"
  const CredentialsMessage: string := "Either email or mobile number is required!"

  method Signup(body: User) returns (errors: map<string, string>, proceed: bool)
    ensures errors.Keys <= {"name", "email", "mobile", "password"}
    ensures "name" in errors <==> ByteLen(TrimSpace(body.name)) < 5
    ensures "email" in errors <==> !EmailShape(body.email)
    ensures "mobile" in errors <==> !IsValidMobile(body.mobile)
    ensures "password" in errors <==> ByteLen(TrimSpace(body.password)) < 8
    ensures "name" in errors ==> errors["name"] == NameMessage
    ensures "email" in errors ==> errors["email"] == EmailMessage
    ensures "mobile" in errors ==> errors["mobile"] == MobileMessage
    ensures "password" in errors ==> errors["password"] == PasswordMessage
    ensures proceed <==> |errors| == 0
    ensures proceed <==>
              ByteLen(TrimSpace(body.name)) >= 5 && EmailShape(body.email)
              && IsValidMobile(body.mobile) && ByteLen(TrimSpace(body.password)) >= 8
  {
    errors := map[];
    if ByteLen(TrimSpace(body.name)) < 5 {
      errors := errors["name" := NameMessage];
    }
    if body.email == "" || !IsValidEmail(body.email) {
      errors := errors["email" := EmailMessage];
    }
    if body.mobile == "" || !IsValidMobile(body.mobile) {
      errors := errors["mobile" := MobileMessage];
    }
    if ByteLen(TrimSpace(body.password)) < 8 {
      errors := errors["password" := PasswordMessage];
    }
    EmailIff(body.email);
    proceed := |errors| == 0;
    if !proceed {
      assert errors.Keys != {};
    }
  }

  method Login(body: User) returns (errors: map<string, string>, proceed: bool)
    ensures errors.Keys <= {"credentials", "email", "mobile", "password"}
    ensures "credentials" in errors <==> body.email == "" && body.mobile == ""
    ensures "email" in errors <==> body.email != "" && !EmailShape(body.email)
    ensures "mobile" in errors <==> body.mobile != "" && !IsValidMobile(body.mobile)
    ensures "password" in errors <==> ByteLen(TrimSpace(body.password)) < 8
    ensures "credentials" in errors ==> errors["credentials"] == CredentialsMessage
    ensures "email" in errors ==> errors["email"] == EmailMessage
    ensures "mobile" in errors ==> errors["mobile"] == MobileMessage
    ensures "password" in errors ==> errors["password"] == PasswordMessage
    ensures proceed <==> |errors| == 0
  {
    errors := map[];
    if body.email == "" && body.mobile == "" {
      errors := errors["credentials" := CredentialsMessage];
    } else {
      if body.email != "" && !IsValidEmail(body.email) {
        errors := errors["email" := EmailMessage];
      }
      if body.mobile != "" && !IsValidMobile(body.mobile) {
        errors := errors["mobile" := MobileMessage];
      }
    }
    if ByteLen(TrimSpace(body.password)) < 8 {
      errors := errors["password" := PasswordMessage];
    }
    EmailIff(body.email);
    proceed := |errors| == 0;
    if !proceed {
      assert errors.Keys != {};
    }
  }

  /** The length checks count bytes, not characters: three accented letters
      take six bytes and pass the five-character name check. */
  lemma NameLengthCountsBytes()
    ensures ByteLen(TrimSpace("ééé")) == 6
  {
    var s := "ééé";
    assert !IsSpace(s[0]) && !IsSpace(s[2]);
    assert TrimSpace(s) == s;
    assert Utf8Width('é') == 2;
  }
}
