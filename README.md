# User accounts and login sessions — a Dafny model

This project models the user controller of an Express/Mongoose back end
(`src/controllers/user.controller.js`): registration of a user, login with
issuance of an access/refresh token pair, and logout. The users collection is
an abstract store: a map from user id to a record holding username, email,
full name, avatar URL, cover-image URL, password and an optional refresh
token. The refresh token is the only session state the handlers change.

Every reply is a value: an `ApiError` (HTTP status and message) or a success
(status, payload, message), with the statuses and messages of the source
(400, 402, 404, 409, 500; 200 and 201 on success).

Layout:

- `wrappers.dfy` — `Option`.
- `api.dfy` — `ApiError`, `Result`, `Response` (the source's `ApiError` and `ApiResponse`).
- `js_string.dfy` — the JavaScript string operations the controller uses: `trim` with the
  exact ECMAScript whitespace set, `.length` in UTF-16 code units (for strings of Unicode scalar values), `toLowerCase` on ASCII letters.
- `user_store.dfy` — the user record, the client view without password and token, the store
  value with its invariant, and `findOne` on `$or: [{username}, {email}]`.
- `user_controller.dfy` — the `isEmpty` check and the validation chain (pure functions); one
  `...Outcome` function per handler that gives the reply and the new store; and the class
  `Users`, whose fields are the store and whose methods (`RegisterUser`, `LogInUser`,
  `LogOutUser`, `GenerateTokens`) update them step by step and are proved to agree with
  those functions.
- `session_properties.dfy` — properties across several calls: logout is idempotent and undoes
  a login, a user keeps only its latest refresh token, a newly registered user can log in,
  and the consequences of looking up the raw username.

The collaborators are inputs. Token minting (JWT signing) is an input `TokenPair`. The password check
(`isPasswordCorrect`, bcrypt) is a function parameter `PasswordCheck`. Each upload is an
input `Upload(localPath, url)`: the path multer stored, and the URL the upload service
answered with. The authenticated user's id for logout is a parameter.

Login requires a `username` even when an email is given; an email alone is
refused with 400. "No such user" (404) and "wrong password" (402) are distinct
replies. The controller has no refresh endpoint and no password change.

## Model

| member | source | states |
|---|---|---|
| `JsString.IsWhitespace` | src/controllers/user.controller.js:40 | the characters `trim()` removes: exactly ECMAScript's WhiteSpace code points (tab, vertical tab, form feed, space, U+00A0, U+FEFF and the space separators U+1680, U+2000-U+200A, U+202F, U+205F, U+3000) and LineTerminator code points (LF, CR, U+2028, U+2029) |
| `JsString.TrimStart` | src/controllers/user.controller.js:40 | the result is a suffix of the input, everything dropped is whitespace, and it starts with a non-whitespace character |
| `JsString.TrimEnd` | src/controllers/user.controller.js:40 | the result is a prefix of the input, everything dropped is whitespace, and it ends with a non-whitespace character |
| `JsString.Trim` | src/controllers/user.controller.js:40 | `trim()` is the middle part of the input with only whitespace before and after it; it is empty if and only if the input is all whitespace, and a non-empty result has non-whitespace ends |
| `JsString.Utf16Length` | src/controllers/user.controller.js:53 | `.length` is the number of code points plus the number of code points above U+FFFF (each a surrogate pair); hence between the number of code points and twice it, and equal to it exactly when none lies above U+FFFF |
| `JsString.AstralIndicesOfInit` | src/controllers/user.controller.js:53 | the code points above U+FFFF of a string are those of all but its last character, plus the last one when it is above U+FFFF |
| `JsString.ToLowerChar` | src/controllers/user.controller.js:87 | the lower-cased character is never an ASCII capital; capitals move by 32, everything else is unchanged |
| `JsString.ToLower` | src/controllers/user.controller.js:87 | lower-casing keeps the length and maps each character on its own |
| `JsString.ToLowerIdempotent` | src/controllers/user.controller.js:87 | lower-casing twice equals lower-casing once; a string without capitals is its own lower case |
| `UserStore.View` | src/controllers/user.controller.js:94-96 | the `.select("-password -refreshToken")` projection (also at lines 138-139): the record's id, username, email, full name, avatar and cover image, without password and refresh token |
| `UserStore.ViewHidesOnlySecrets` | src/controllers/user.controller.js:94-96 | two records of the same id have the same view if and only if they differ at most in password and refresh token |
| `UserStore.Matches` | src/controllers/user.controller.js:59-61 | the filter `$or: [{ username }, { email }]` (also at lines 127-129) on one record: its username equals the given username, or its email equals the given email, compared exactly; an absent field matches nothing |
| `UserStore.FindFrom` | src/controllers/user.controller.js:59-61 | the first record in an id range matching username or email; None exactly when no record in the range matches |
| `UserStore.FindOne` | src/controllers/user.controller.js:127-129 | `findOne` on username or email returns a matching record with no older match, and returns nothing exactly when no stored record matches |
| `UserController.Truthy` | src/controllers/user.controller.js:124 | JavaScript truthiness of a request field, as tested by `!username` here and by `!value` and `!avatarLocalPath` at lines 40 and 70: present and not the empty string |
| `UserController.IsEmpty` | src/controllers/user.controller.js:39-41 | a field is empty if and only if it is absent or all whitespace (the empty string included) |
| `UserController.Uploaded` | src/controllers/user.controller.js:68-81 | an upload yields a URL exactly when the local path is present and non-empty and the service returned one |
| `UserController.CoverUrl` | src/controllers/user.controller.js:91 | the stored cover image: the uploaded cover URL, or the empty string when there is no cover path or its upload failed |
| `UserController.ValidateRegistration` | src/controllers/user.controller.js:42-55 | validation passes if and only if all four fields are non-blank, the email contains "@" and the password has at least 6 UTF-16 units; every failure is 400; a blank field wins over a bad email, and a bad email wins over a short password |
| `UserController.NewUser` | src/controllers/user.controller.js:86-93 | the object handed to `User.create`: the username lower-cased (its own lower case, same length), email, full name and password as given, the avatar URL, the cover URL or "", and no refresh token |
| `UserController.CreateOutcome` | src/controllers/user.controller.js:58-107 | after validation: any stored username or email equal to the raw input gives 409, then a missing avatar path or upload gives 400; each failure leaves the store unchanged; success is 201 and adds exactly one record under a fresh id with the lower-cased username, the cover URL or "", and no refresh token; no other record changes; the reply is the record without password and token |
| `UserController.RegisterOutcome` | src/controllers/user.controller.js:22-109 | registration preserves the store invariant; any failure (only 400 or 409) leaves the store unchanged; a validation error is returned before any lookup; otherwise the duplicate and avatar checks decide |
| `UserController.SetRefreshToken` | src/controllers/user.controller.js:14-15 | writing one user's refresh token changes that field of that record only |
| `UserController.IssueTokens` | src/controllers/user.controller.js:8-20 | the token helper fails with 500 exactly when the user is missing, and then changes nothing; otherwise it returns the minted pair and stores its refresh half on that user only |
| `UserController.LogInOutcome` | src/controllers/user.controller.js:111-158 | login fails, in this order, with 400 without a username (even with an email), 404 when nothing matches, 402 when the password check fails, and then leaves the store unchanged; it succeeds exactly otherwise, with 200, the matched user's view and the minted tokens, and the store differs only in that user's refresh token, which is the one returned |
| `UserController.LogOutOutcome` | src/controllers/user.controller.js:160-184 | logout always answers 200, clears the given user's refresh token whether or not one was set, and leaves every other record and the set of ids unchanged |
| `UserController.Users.GenerateTokens` | src/controllers/user.controller.js:8-20 | the method's reply and new fields are those of `IssueTokens` on the old fields; the store invariant is kept |
| `UserController.Users.RegisterUser` | src/controllers/user.controller.js:22-109 | the method's reply and new fields are those of `RegisterOutcome` on the old fields; the store invariant is kept |
| `UserController.Users.CreateUser` | src/controllers/user.controller.js:58-107 | the method's reply and new fields are those of `CreateOutcome` on the old fields |
| `UserController.Users.LogInUser` | src/controllers/user.controller.js:111-158 | the method's reply and new fields are those of `LogInOutcome` on the old fields; the store invariant is kept |
| `UserController.Users.LogOutUser` | src/controllers/user.controller.js:160-184 | the method's reply and new fields are those of `LogOutOutcome` on the old fields |
| `SessionProperties.LogOutIdempotent` | src/controllers/user.controller.js:162-172 | logging out twice gives the same store and reply as logging out once |
| `SessionProperties.LogInThenLogOut` | src/controllers/user.controller.js:160-172 | a successful login followed by a logout of that user leaves the original store with only that user's token cleared, and exactly the original store when the user had no session |
| `SessionProperties.LogInTwiceKeepsOnlyLatestToken` | src/controllers/user.controller.js:11-16 | after two successful logins the matched user holds only the second refresh token; every other record is untouched |
| `SessionProperties.RegisteredUserIsFound` | src/controllers/user.controller.js:127-129 | after a registration whose username has no capitals, a lookup by that username finds the new record |
| `SessionProperties.RegisterThenLogIn` | src/controllers/user.controller.js:86-136 | after a successful registration (past validation) with a non-empty username without capitals, a login with that username and a password `isPasswordCorrect` accepts succeeds, returns the same view the registration returned, and stores the new refresh token on the new record |
| `SessionProperties.CaseVariantUsernameIsAdmitted` | src/controllers/user.controller.js:59-87 | because duplicates are looked up by the raw username and stored lower-cased, a capitalised variant of a stored username with a new email passes the duplicate check and, given an avatar, registers successfully, and two records then share a username |
| `SessionProperties.LowerNamesKept` | src/controllers/user.controller.js:86-87 | registration, login and logout each keep every stored username equal to its own lower case |
| `SessionProperties.LogInWithCapitalsFindsNoUser` | src/controllers/user.controller.js:124-130 | on any store of lower-case usernames, a login by a non-empty username containing a capital and without an email is a 404 and changes nothing, whatever the password |
| `SessionProperties.LogInIsCaseSensitive` | src/controllers/user.controller.js:127-130 | an instance of the above: with "alice" stored, a login as "Alice" without an email is a 404 and changes nothing |

## Left out

- Uploading to the image service (`src/utils/Cloudinary.js`): network I/O and deleting the temporary file. Only its result enters the model, as the `url` of an `Upload` input. A response without a `url` is not modelled.
- Process start-up (`src/index.js`): environment loading and the database connection.
- Express plumbing: `asyncHandler`, `res.status().json()`, and cookies. Login sets cookies named `accesstoken`/`refreshtoken`, while logout clears `accessToken`/`refreshToken`. The names differ in case, so the cookies set at login are not cleared. This happens in the transport layer, outside the model.
- JWT signing and expiry: the freshly minted pair is an input; no signature or expiry semantics are modelled.
- Password hashing and verification live in `src/models/user.models.js`, which is not part of this model. The stored password is the value handed to the store. The password check is a total boolean function. A password check that throws (for instance on an absent password) is not modelled.
- Mongoose query semantics are fixed by assumption. `findOne` returns the oldest matching record. A field absent from the request matches no record. Username comparison is exact and case-sensitive.
- UserController.LogOutOutcome: the clearing of the refresh token rests on the assumption that `$set: { refreshToken: undefined }` removes the field. Mongoose 6 and later strip undefined keys from updates, and with such a version the update at lines 162-172 changes nothing and the session survives logout. The library version is not part of this model.
- Schema constraints in `src/models/user.models.js` (unique indexes, a lowercase setter, pre-save hooks): that file is not part of this model. That is why `CaseVariantUsernameIsAdmitted` can hold.
- The 500 reply when the just-created record cannot be read back (lines 99-103): the modelled store never loses a record it has just stored, so this path cannot occur.
- Failures of the database itself (a failed `save` or `create`). The token helper's 500 is modelled only for a missing user.
- Request fields that are neither absent nor strings (numbers, objects): a field is absent or a string.
- The identity of the logged-in user comes from authentication middleware that is not part of this model. It is a parameter of logout, and a missing user on the request is not modelled.
- Concurrency between requests: the handlers run one at a time in the model.
- JsString.ToLower, JsString.ToLowerChar: lower-case only the ASCII letters A-Z, where `toLowerCase` applies the full Unicode case mapping.
- Strings are sequences of Unicode scalar values. A request field holding an unpaired surrogate (which a JSON body such as `"\ud800"` can produce) has no counterpart, so `trim` and `.length` (lines 40 and 53) are modelled only for well-formed UTF-16.
