# CredBull user service: authentication core in Dafny

This project models the authentication core of the CredBull user service,
a Go web service built on Fiber and gorm.

- **Signup.** An email conflict check comes first, then a mobile conflict
  check. The user then gets a referral code of six symbols from `A-Z0-9`,
  redrawn until no user row holds it, and a bcrypt hash of the password.
- **Login with the lockout policy.** The gates are: lookup of an undeleted
  row, email verified, mobile verified, a temporary block, the 15-minute
  decay of the failure counter, then the password.
  - A wrong password counts as a failure.
  - The third failure blocks the account for one minute.
  - A right password clears the count and the block flag.
- **Plain login of the second auth controller.** It has the same gates with
  no lockout.
- **Login by first name of the user controller.**
- **The one-time-password life cycle.**
  - A six-digit code is issued to an email address or mobile number. It
    lives five minutes.
  - The row is stored only once the SMS and the email went out.
  - Verification finds the first unused, undeleted row with the channel's
    address and the code. An expired code is rejected and left unused.
  - A live code is marked used and verifies the channel. The forgot-password
    variant returns a signed token instead.
- **Password reset.**
- **Adding a bank account.** It is refused to a user who has one, and for an
  account number already on file. The new row is linked back from the user
  row.
- **The checks that precede the Aadhaar OTP request.**
- **The request validators.** Each builds a map from field to message, and
  the request goes on exactly when the map is empty:
  - the email, mobile and IFSC regular expressions;
  - `strconv.Atoi`;
  - `strings.TrimSpace`, `strings.ToLower` and byte-counting `len`.
- **The generator of the six-digit OTP.**
- **The Authorization-header checks of the JWT middleware, and the claims
  of the issued token.**

## Modules

- **Store.** The database is the `Database` class. Its fields are one
  sequence per table, in primary-key order, so row `i` has key `i + 1`.
  gorm's `First` is the lowest matching index (`Models.First`). `Create`
  appends under the next key and `Save` rewrites a row in place.
- **Controllers.** Each handler is a module-level method that takes the
  store as a parameter `db: Database` and names the tables it may change in
  its `modifies` clause. Its contract gives the reply and the new tables in
  full.
- **Validator routes.** The two validators in validator/ are built once per
  route around one shared `&models.User{}`. Each is a class whose `model`
  field is that struct, and every request merges its body into it
  (`Models.Merge`).
- **Pure specifications.** The contracts are stated against pure functions,
  and the policy's properties are lemmas about those functions:
  - `Lockout.Attempt` and `Lockout.PlainAttempt`;
  - `OtpFlow.LocateChallenge`;
  - `Registration.SignupConflict`;
  - `Referral.Candidate` and `Utils.OtpCode`.
- **Outside inputs.** Everything the Go code obtains from outside is a
  parameter:
  - the clock, as `now` in seconds;
  - bcrypt, as `hash` and `compare`;
  - the token signer, as `sign`;
  - the random draws, as oracle sequences;
  - the SMS and email senders, whose outcomes are booleans.

## Model

| member | source | states |
|---|---|---|
| Text.ByteLen | validators/auth/validator.go:35 | `len` of a string counts UTF-8 bytes: at least one and at most four per character, exactly one per character for ASCII |
| Text.TrimSpace | validators/auth/validator.go:35 | strings.TrimSpace removes a leading and a trailing run of Unicode white space and nothing else: the result is a slice of the input, flanked by white space only, neither starting nor ending with white space, and equal to the input when there is nothing to trim |
| Text.ToLower | validators/userValidator/userProfile.go:67-68 | keeps the length and lowers character by character: A-Z, U+0130 to 'i' and U+212A to 'k' (the only characters strings.ToLower maps into ASCII letters), every other character unchanged |
| Patterns.EmailIff | validators/auth/validator.go:13-16 | the single-pass scanner (first '@', last '.') accepts exactly the language of `^[a-zA-Z0-9._%+-]+@[a-zA-Z0-9.-]+\.[a-zA-Z]{2,}$` |
| Patterns.EmailNeedsSixCharacters | validators/auth/validator.go:13-16 | every accepted email has an '@' and at least six characters |
| Patterns.IfscLengthImplied | validators/userValidator/userProfile.go:17-20 | a string matching `^[A-Za-z]{4}0[A-Za-z0-9]{6}$` trims to itself and is eleven bytes long |
| Patterns.ShortNumericNeverOverflows | validators/userValidator/userProfile.go:12-15 | for at most eighteen characters, strconv.Atoi succeeds exactly on an optional sign followed by at least one digit |
| Patterns.SignedNumeric | validators/userValidator/userProfile.go:12-15 | a leading '+' never changes strconv.Atoi's verdict, and a number it accepts is accepted with a leading '-' too |
| Patterns.MobileOfNumber | validators/auth/validator.go:19-22 | every number below 10^10, written with ten digits and its leading zeros, matches `^\d{10}$` and reads back as that number |
| Patterns.NumberOfMobile | validator/userValidator/validator.go:16-19 | every string `^\d{10}$` matches is the ten-digit rendering of a number below 10^10, has nothing to trim and is ten bytes long |
| Patterns.EmailScannerSound | validator/userValidator/validator.go:11-14 | whatever isValidEmail accepts is a non-empty local part of `[a-zA-Z0-9._%+-]`, an '@', a non-empty domain of `[a-zA-Z0-9.-]`, a '.', and two or more letters |
| Patterns.EmailScannerComplete | validators/auth/validator.go:13-16 | every string of that shape is accepted |
| Patterns.IfscFromParts | validators/userValidator/userProfile.go:17-20 | four letters, then '0', then six letters or digits always match `^[A-Za-z]{4}0[A-Za-z0-9]{6}$` |
| Patterns.IfscToParts | validators/userValidator/userProfile.go:17-20 | every match splits into four letters, '0' and six letters or digits |
| Models.Sanitized | controllers/auth/auth.go:199-201 | the returned row has blank password and profile image and agrees with the stored row everywhere else |
| Models.First | controllers/auth/auth.go:112 | gorm First: the lowest index satisfying the query, or None exactly when no row does |
| Models.FindUser | controllers/auth/auth.go:111-115 | the user row the `Where(...).First` lookup loads: the first matching row, None when none matches |
| Models.FirstAppend | controllers/auth/auth.go:278 | appending a row changes First's answer only when no earlier row matched |
| Models.SameQueryColumns | controllers/auth/auth.go:347 | saving a row without changing the columns a query tests leaves the row that query loads unchanged |
| Models.ChannelOf | controllers/auth/auth.go:111-115 | the lookup is by email exactly when an email is given, by mobile number otherwise |
| Models.FindOtp | controllers/auth/auth.go:310 | the OTP row loaded is the first unused, undeleted row with the channel's address and the code |
| Models.FindBank | controllers/userControllers/userProfile.go:45-47 | an account-number lookup finds a row exactly when some bank row has that number |
| Store.Database.CreateUser | controllers/auth/auth.go:86 | Create appends the row under the next key and keeps keys equal to positions |
| Store.Database.SaveUser | controllers/auth/auth.go:162 | Save rewrites the row with the record's key and nothing else |
| Store.Database.CreateOtp | controllers/auth/auth.go:278 | Create appends the OTP row under the next key |
| Store.Database.SaveOtp | controllers/auth/auth.go:335 | Save rewrites the OTP row with the record's key and nothing else |
| Store.Database.CreateBank | controllers/userControllers/userProfile.go:63 | Create appends the bank row under the next key |
| Utils.OtpCode | utils/utils.go:13-15 | the code of six draws has six characters, all decimal digits |
| Utils.DrawsRoundTrip | utils/utils.go:14 | distinct draw sequences give distinct codes: the draws are recovered from the code |
| Utils.EveryCodeReachable | utils/utils.go:14 | every six-digit string, leading zeros included, is the code of some draws |
| Utils.GenerateOtp | utils/utils.go:10-17 | the loop appending one digit per draw returns six decimal digits, the code of the draws |
| Jwt.CheckAuthorization | middleware/jwt.go:33-50 | an empty header and a header without the "Bearer " prefix get their 401 replies; otherwise the token is the header with the prefix removed, and the prefix followed by the token gives the header back |
| Jwt.BearerRoundTrip | middleware/jwt.go:42-50 | a header built from any token yields that token |
| Jwt.NewClaims | middleware/jwt.go:17-21 | the claims carry the user id and first name and expire 24 hours after issue |
| Referral.Symbol | controllers/auth/auth.go:21 | every symbol of the alphabet is a capital letter or a digit |
| Referral.CharsetSymbols | controllers/auth/auth.go:21 | the 36-character alphabet string is the 26 capitals followed by the 10 digits |
| Referral.SymbolIndex | controllers/auth/auth.go:44 | every capital and digit sits at one index of the alphabet |
| Referral.Candidate | controllers/auth/auth.go:33-48 | six drawn indices spell a code of six symbols from `A-Z0-9` |
| Referral.CodeDrawRoundTrip | controllers/auth/auth.go:36-45 | draws and codes correspond one to one: every code of the pattern is reachable and distinct draws give distinct codes |
| Referral.DrawCode | controllers/userControllers/user.auth.go:16-36 | filling the six-byte buffer returns the code the draw spells |
| Referral.GenerateUniqueCode | controllers/auth/auth.go:20-55 | the retry loop returns a six-symbol code that no user row, deleted or not, holds, namely the first such candidate among the draws |
| Referral.CodeInUse | controllers/auth/auth.go:25-29 | checkReferralCodeExists holds exactly when some user row, deleted or not, has the code |
| Referral.FreshCodeKeepsDistinct | controllers/auth/auth.go:50-53 | adding a row whose code no row holds keeps referral codes unique across the table |
| Registration.SignupConflict | controllers/auth/auth.go:63-75 | email taken exactly when some row has the email; mobile taken exactly when no row has the email and some row has the mobile; no conflict exactly when no row has either |
| Registration.NoConflictKeepsUnique | controllers/auth/auth.go:63-75 | a row admitted by the two checks keeps emails and mobile numbers unique |
| Lockout.StartingCount | controllers/auth/auth.go:135-140 | the count the password check starts from is zero exactly when there were no failures or the last one lies more than fifteen minutes back |
| Lockout.Attempt | controllers/auth/auth.go:121-173 | gate order and outcome of one attempt (each outcome as an if-and-only-if); the first three denials leave the row unchanged; a wrong password counts one failure at `now` and blocks for a minute from the third; success clears count and flag and keeps BlockedUntil; only the five lockout columns change |
| Lockout.AttemptKeepsConsistent | controllers/auth/auth.go:142-165 | an attempt keeps the lockout columns in agreement (a count implies a recorded failure, three failures imply a block ending a minute after the last) |
| Lockout.Replay | controllers/auth/auth.go:96-213 | any sequence of attempts changes only the lockout columns |
| Lockout.ReplayKeepsConsistent | controllers/auth/auth.go:142-165 | no sequence of attempts breaks that agreement |
| Lockout.CountedFailuresBlock | controllers/auth/auth.go:130-133 | with three recorded failures, any password is refused as blocked until a minute after the last failure, and the row stays as it is |
| Lockout.ThreeStrikes | controllers/auth/auth.go:142-165 | three wrong passwords within the decay window block the account at the third; the right password is refused during the following minute and admitted from its end, with the count cleared |
| Lockout.ReblockWithinWindow | controllers/auth/auth.go:130-165 | after the block has run out but within fifteen minutes of the last failure, one further wrong password blocks again |
| Lockout.DecayForgivesFailures | controllers/auth/auth.go:135-165 | after fifteen quiet minutes a wrong password counts from one again and does not block |
| Lockout.PlainAttempt | controllers/auth/user.auth.go:127-140 | email gate, then mobile gate, then password; never a block; only success changes the row, and only its LastLogin |
| Lockout.PlainFailuresLeaveNoTrace | controllers/auth/user.auth.go:135-137 | any number of wrong passwords leaves the row as it was, and the right password is then admitted |
| OtpFlow.IssuedOtp | controllers/auth/auth.go:250-261 | the issued row is unused and undeleted, carries the drawn code, is live at issue + 5 minutes and expired one second later |
| OtpFlow.MarkVerified | controllers/auth/auth.go:339-344 | verification sets the flag of the request's channel and leaves every other column, including the other flag, alone |
| OtpFlow.DispatchFailure | controllers/auth/auth.go:263-275 | dispatch succeeds exactly when every given channel delivered; the SMS failure is reported before the email failure |
| OtpFlow.LocateChallenge | controllers/auth/auth.go:297-331 | unknown user exactly when no active row has the address; no code exactly when no row is redeemable; otherwise the first redeemable row, expired exactly when ExpiresAt < now |
| OtpFlow.IssuedOtpRedeemable | controllers/auth/auth.go:254-261 | an issued row is redeemable by the channel and code of the request that issued it |
| OtpFlow.IssueThenVerify | controllers/auth/auth.go:247-331 | right after issue (no other row answering the code) verification lands on the new row, live up to five minutes after issue and expired after |
| OtpFlow.ConsumedCodeIsGone | controllers/auth/auth.go:333-344 | once a live code is consumed, no later verification lands on that row, and if it was the only row for the code the code is rejected |
| OtpFlow.VerifiedChannelStaysVerified | controllers/auth/auth.go:229-245 | after verification the same lookup finds the same row, now verified on that channel, so SendOTP refuses it |
| AuthController.Register | controllers/auth/auth.go:77-89 | on a successful hash the body is stored under the next key with the hash and a fresh `A-Z0-9` code held by no earlier row; otherwise nothing is stored; unique contacts and codes are preserved |
| AuthController.Signup | controllers/auth/auth.go:57-94 | email conflict, then mobile conflict, then hash failure, each with its reply and no write; on success the stored row holds the hash and a fresh referral code and the reply shows the row with a blank password; unique emails, mobiles and codes are preserved |
| AuthController.LoginReply | controllers/auth/auth.go:121-212 | every denial is a 401; success exactly when admitted and the token is signed, with the sanitised row and that token |
| AuthController.LoginGates | controllers/auth/auth.go:121-173 | the gates, decay and password check as written leave the row exactly as Lockout.Attempt says and return its outcome |
| AuthController.Login | controllers/auth/auth.go:96-213 | unknown or deleted user gives 401 "Invalid credentials!" with no write; otherwise the row is saved as Lockout.Attempt leaves it and the reply is the one for its outcome |
| AuthController.IssueOtp | controllers/auth/auth.go:247-282 | a dispatch failure gives its 500 reply and stores nothing; otherwise exactly the issued row is appended |
| AuthController.SendOtp | controllers/auth/auth.go:215-283 | unknown user and already verified channel are refused with their replies; otherwise as IssueOtp with the verification description |
| AuthController.ForgotPasswordSendOtp | controllers/auth/auth.go:354-416 | as SendOtp without the verified check, with its own messages and the forgot-password description |
| AuthController.LoadChallenge | controllers/auth/auth.go:297-331 | the handler's branching lookups compute LocateChallenge |
| AuthController.VerifyOtp | controllers/auth/auth.go:285-352 | each failed lookup and an expired code give their 401 and change nothing; a live code is marked used and its channel verified, nothing else changes |
| AuthController.ForgotPasswordVerifyOtp | controllers/auth/auth.go:418-482 | as VerifyOtp up to marking the code used; then the signed token, or a 500 with the code already consumed |
| AuthController.ResetPassword | controllers/auth/auth.go:484-523 | an unknown or deleted caller and a hash failure are refused with no write; otherwise only the caller's password column becomes the hash |
| AuthUserController.Signup | controllers/auth/user.auth.go:54-92 | as AuthController.Signup; the reply also drops the KYC association |
| AuthUserController.Login | controllers/auth/user.auth.go:94-158 | empty password, then missing email and mobile, give their 400 with no write; lookup as in Login; the row is saved as Lockout.PlainAttempt leaves it, with no counting or blocking |
| UserController.Signup | controllers/userControllers/user.auth.go:40-100 | conflicts and hash failure as in the other signups with their own messages; the stored code is the single draw's, unchecked; unique contacts are preserved |
| UserController.UncheckedCodeCanRepeat | controllers/userControllers/user.auth.go:16-36 | a draw that spells a code already held is stored anyway, breaking code uniqueness |
| UserController.LoginUser | controllers/userControllers/user.auth.go:102-153 | 400 without name or password; an unknown first name and a wrong password get the identical 401; a signing failure a 500; success returns the stored row and the token; nothing is written |
| ProfileController.NewBank | controllers/userControllers/userProfile.go:52-60 | the new bank row carries exactly the request fields and the caller's id, except that an empty account type is stored as the column default "savings" (models/bankDetails.model.go:15) |
| ProfileController.AddBankAccount | controllers/userControllers/userProfile.go:15-77 | missing user, existing link and known account number are refused in that order with no write; otherwise the bank row is appended and the user row linked to it; link validity and distinct account numbers are preserved |
| ProfileController.LinkKeepsLinksValid | controllers/userControllers/userProfile.go:63-73 | appending the caller's bank row and linking the caller to it keeps every user's link pointing at a bank row of that user |
| ProfileController.AadhaarPrecheck | controllers/userControllers/userProfile.go:91-107 | missing user 404, existing KYC record 409, known Aadhaar number 409, in that order; the outgoing request is made exactly when all three pass |
| AuthValidator.Signup | validators/auth/validator.go:25-63 | name, email, mobile and password errors each exactly when their own rule fails, with their messages; the request proceeds exactly when none fails |
| AuthValidator.Login | validators/auth/validator.go:66-100 | a credentials error exactly when both email and mobile are empty, otherwise format errors only for the non-empty ones; password error on trimmed length; proceeds exactly when the map is empty |
| AuthValidator.NameLengthCountsBytes | validators/auth/validator.go:35-37 | the length rule counts bytes: three accented letters count six |
| BankValidator.AddBankAccount | validators/userValidator/userProfile.go:22-80 | each of the six fields is flagged exactly when its own rule fails (names under three trimmed bytes, optional branch and type only when given, IFSC exactly when the pattern fails, account number on length or Atoi), with that rule's message; proceeds exactly when nothing is flagged |
| BankValidator.PutSix | validators/userValidator/userProfile.go:37-70 | the six checks write six distinct keys: each key holds its own check's outcome and the map is empty exactly when all pass |
| BankValidator.IfscRule | validators/userValidator/userProfile.go:57-59 | the IFSC entry is there exactly when the pattern fails: the length check adds nothing |
| BankValidator.AccountNumberRule | validators/userValidator/userProfile.go:45-49 | a bad length always gets the length message; otherwise the numeric message is given exactly when the number is not an optional sign followed by digits |
| BankValidator.AccountTypeIgnoresCase | validators/userValidator/userProfile.go:67-70 | "SAVINGS", "Current" and "SAVİNGS" are accepted account types, "saving" is not |
| UserSignupValidator.Signup | validator/userValidator/validator.go:21-68 | the four rules of the auth validator with this file's messages; a 422 "Validation failed" carrying the map exactly when some rule fails |
| ModelValidator.UserValidator | validator/validator.go:11-45 | first_name and password errors each exactly when their own trimmed length is short, independently; a 422 carrying the map exactly when either fails |
| Models.Merge | validator/userValidator/validator.go:24 | BodyParser into an existing struct: each key the body carries replaces its field, each key it leaves out keeps the old value, and every other column is unchanged |
| UserSignupValidator.SignupRoute.constructor | routers/userRoutes/auth.router.go:15 | the route's handler starts from one zero-valued `models.User` |
| UserSignupValidator.SignupRoute.Handle | validator/userValidator/validator.go:21-68 | an unparsable body gives 400 "Invalid request body" and leaves the struct as it was; otherwise the struct becomes the merge of the old struct and the body, and the four rules are judged on that merged struct, with the 422 exactly when one fails |
| UserSignupValidator.EarlierFieldsCarryOver | validator/userValidator/validator.go:24-52 | a body with only a valid email and mobile passes after an earlier request left a passing name and password; the verdict is taken on the earlier name and password |
| UserSignupValidator.FullBodyIgnoresHistory | validator/userValidator/validator.go:24-52 | a body carrying all four keys gets the same verdict whatever the struct held before |
| ModelValidator.CreateUserRoute.constructor | routers/user.go:15 | the route's handler starts from one zero-valued `models.User` |
| ModelValidator.CreateUserRoute.Handle | validator/validator.go:11-45 | an unparsable body gives 400 and leaves the struct as it was; otherwise the struct becomes the merge, and the two rules are judged on it, with the 422 exactly when one fails |
| ModelValidator.PassingFieldsPersist | validator/validator.go:14-29 | once the struct holds a passing name and password, every later body that omits both keys passes, with the earlier password |
| ModelValidator.FreshRouteRejectsEmptyBody | validator/validator.go:14-29 | on a fresh route an empty body fails both rules |

## Left out

- HTTP plumbing is left out: BodyParser failures (except in the two route classes of validator/), the JSON encoding of replies, routing and the server setup. Each controller receives the parsed body fields as parameters. `middleware.JsonResponse`, which the controllers call, is missing from middleware/ (only middleware/jwt.go is there) and is not part of this model. A reply is modelled as its status, success flag, message and payload.
- The handlers that call the missing `middleware.ValidationErrorResponse` (validators/auth/validator.go and validators/userValidator/userProfile.go) are modelled as returning the error map and whether the request proceeds. ValidationErrorResponse is not part of this model.
- Database write failures are left out: `Create` and `Save` always succeed. The 500 replies "Failed to Signup user!", "Failed to Create OTP!", "Failed to update OTP status!", "Failed to update password!", "Failed to add bank account!" and similar are not modelled.
- The LoginTracking row and the log lines that Login writes after a successful password check (controllers/auth/auth.go:175-197) are best-effort side effects and are left out.
- bcrypt is represented by the parameters `hash` and `compare`, so its salt and cost are not modelled. JWT signing is the parameter `sign`. Token verification (jwt.Parse, the HMAC method check and the expiry check) in JWTMiddleware is not modelled beyond the header checks.
- The SMS and email senders (utils.SendOTPToMobile, utils.SendOTPEmail) are not part of this model. Only their success or failure is an input.
- Randomness comes from oracle sequences: six indices below 36 per referral draw, and six values below 10 for the OTP. The draws never fail: the `log.Fatal` that ends the process when crypto/rand fails (controllers/auth/auth.go:40, controllers/auth/user.auth.go:37, controllers/userControllers/user.auth.go:28) is not modelled.
- Referral.GenerateUniqueCode: the Go loop draws until it finds a fresh code and never returns if none comes. The model requires the oracle to contain a fresh candidate, so non-termination is not modelled.
- Time is one integer `now` per request, in seconds. Go reads the clock several times within one handler, and those readings may differ by microseconds.
- Concurrency is not modelled: the failure counter and the referral check-then-insert can race between requests, and the model is sequential.
- AuthController.Signup, AuthUserController.Signup, UserController.Signup: the stored row's id is the next key, and an id supplied in the body is not kept. The other body fields are stored as given. CreatedAt, UpdatedAt and the gorm soft-delete column are not modelled, and deletion is the explicit is_deleted flag.
- The user record carries the columns the controllers use (verification flags, lockout columns, referral code, is_deleted, bank link). models/user.model.go declares only a few of them, so the record shape follows controllers/auth/auth.go.
- The UserKYC and AadharDetails tables are modelled only through the two columns SendAdharOtp queries: the owners' user ids and the Aadhaar numbers. The HTTP call to the Aadhaar service (controllers/userControllers/userProfile.go:109-147) is not modelled.
- The caller's user id, which ResetPassword, AddBankAccount and SendAdharOtp read from the request context, is a parameter. JWTMiddleware never stores it there, so as the routes are wired the type assertion `c.Locals("userId").(uint)` (controllers/auth/auth.go:486, controllers/userControllers/userProfile.go:17 and :81) panics on the missing value, and these three handlers never reach the logic the model gives them. The model describes them as they would behave with the id present.
- Sdfa, controllers/user.go and controllers/userControllers/amlcontroler.go are plain CRUD and are not part of this model.
- AuthController.Login, AuthController.ForgotPasswordVerifyOtp, AuthUserController.Login: controllers/auth/auth.go:204, controllers/auth/auth.go:473 and controllers/auth/user.auth.go:150 call GenerateJWT with three arguments (id, name, role), while middleware/jwt.go:15 declares two. The model signs the claims GenerateJWT builds from the id and the name, so the role is not in the token.
- Text.ToLower: lowers only A-Z, U+0130 (to 'i') and U+212A (to 'k'); every other character, such as 'É', is left unchanged, where Go's strings.ToLower lowers all of Unicode. The only use compares the result with the ASCII words "savings" and "current", and for that comparison these are the only characters that matter, so the verdict of BankValidator.AddBankAccount is exact.
- UserSignupValidator.SignupRoute.Handle, ModelValidator.CreateUserRoute.Handle: a body is modelled by the four validated keys only. Other keys (role, profile image and so on) also carry over in the shared struct to later requests, and what the struct holds after a body that fails to parse halfway is not modelled (the struct is left as it was).
- Go strings are byte strings and Dafny strings are sequences of Unicode scalar values. Invalid UTF-8 input is not modelled. The regular expressions are ASCII-only, so they agree on valid input.

## Behaviour of the code worth knowing

These are places where the code differs from what a reader would assume. The model follows the code.

- The OTP row is created only after dispatch succeeds. A failed SMS or email leaves no row.
- An expired block is never cleared before the password check. A success resets IsBlocked but leaves BlockedUntil as it was. After a block runs out, one wrong password within fifteen minutes of the last failure blocks again (Lockout.ReblockWithinWindow).
- An OTP at exactly its ExpiresAt is still accepted: it is expired only when ExpiresAt < now.
- The signup conflict checks consult deleted rows too. They have no is_deleted filter, unlike the login lookups.
- In SendOTP and ForgotPasswordSendOTP, the user lookup goes by email whenever an email is given, but the SMS still goes out whenever a mobile number is given.
- ForgotPasswordVerifyOTP marks the code used before it signs the token, so a signing failure still consumes the code.
- strconv.Atoi accepts a leading sign, so "+123456789012" passes the account-number rule.
- The signup and create-user validators parse every request into the same struct, so a key a body leaves out keeps the value an earlier request gave it. A body with only a valid email and mobile passes once an earlier request supplied a passing name and password (UserSignupValidator.EarlierFieldsCarryOver). The carried-over values decide only the verdict: the validators put the struct in Locals("validatedUser") (validator/userValidator/validator.go:64, validator/validator.go:41), but no controller reads that key. controllers/userControllers/user.auth.go:42-43 and controllers/user.go:13-14 parse the body again into a fresh struct. So the signup controller stores the body's own empty name and the hash of the empty password, and CreateUser answers 400 for a body without a name.
- LoginUser returns the stored row with its password hash. It looks up by the `first_name` column, and the Name field stands for that column here.
- UserController.Signup does not check its referral code against the table (UserController.UncheckedCodeCanRepeat).
