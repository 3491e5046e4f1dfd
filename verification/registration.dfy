/** The conflict checks every Signup handler makes before it creates a user
    (controllers/auth/auth.go, controllers/auth/user.auth.go and
    controllers/userControllers/user.auth.go): "email = ?" first, then
    "mobile = ?", over every user row, deleted rows included. */
module Registration {
  import opened Models

  datatype Conflict = NoConflict | EmailTaken | MobileTaken

  function SignupConflict(users: seq<User>, email: string, mobile: string): (c: Conflict)
    ensures c == EmailTaken <==> exists j :: 0 <= j < |users| && users[j].email == email
    ensures c == MobileTaken <==>
              (forall j :: 0 <= j < |users| ==> users[j].email != email)
              && exists j :: 0 <= j < |users| && users[j].mobile == mobile
    ensures c == NoConflict <==>
              forall j :: 0 <= j < |users| ==> users[j].email != email && users[j].mobile != mobile
  {
    if FindUser(users, EmailIs(email)).Some? then EmailTaken
    else if FindUser(users, MobileIs(mobile)).Some? then MobileTaken
    else NoConflict
  }

  /** No two user rows share an email, and no two share a mobile number. */
  ghost predicate UniqueContacts(users: seq<User>)
  {
    forall i, j :: 0 <= i < j < |users| ==>
      users[i].email != users[j].email && users[i].mobile != users[j].mobile
  }

  /** A row admitted by the conflict checks keeps emails and mobile numbers
      unique, whatever its other columns hold. */
  lemma NoConflictKeepsUnique(users: seq<User>, u: User)
    requires UniqueContacts(users)
    requires SignupConflict(users, u.email, u.mobile) == NoConflict
    ensures UniqueContacts(users + [u])
  {
  }
}
