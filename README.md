# ShareShelf core, modelled in Dafny

ShareShelf is a web application where students share, rent and sell study
resources. This project models its core in Dafny and proves properties of
that model.

**Backend**
- JWT session handling: 15-minute access tokens and 7-day rotating refresh tokens, with refresh tokens kept in a store.
- The session gate that every protected route passes through.
- Sign-up, sign-in and sign-out.
- The schema rules, virtuals, hooks and instance methods of the `User` and `Resource` models.

**Frontend**
- The sign-in/sign-up form: its validation and its handlers.
- The resource upload form: its state handlers and the multipart payload it sends.
- The search bar: suggestions, the search filter and the filter state.
- The Resources page: its category filter, comparator sort and category counts.

Each source file becomes one Dafny module:

| module | file | models |
|---|---|---|
| `Wrappers` | `wrappers.dfy` | `Option` and `Result` |
| `Jwt` | `jwt.dfy` | Signed tokens, abstractly. A token is an access token, a refresh token or a string that verifies under neither secret. Verification checks the secret and `now < exp`. |
| `Http` | `http.dfy` | Cookie options, cookie operations and responses |
| `TokenService` | `token_service.dfy` | `Backend/utils/tokenService.js`. The store is a map from token to record. `Issue` and `Rotate` are its transitions, and the `CredentialStore` class is the stateful form the controllers call. |
| `UserModel` | `user_model.dfy` | `Backend/models/User.js`: the collection (`UserCollection`) and one document (`UserDocument`) with its virtuals, hooks and methods |
| `AuthMiddleware` | `auth_middleware.dfy` | `Backend/middleware/authMiddleware.js` |
| `AuthController` | `auth_controller.dfy` | `Backend/controllers/authController.js`: `signup`, `signin`, `signout` |
| `ResourceModel` | `resource_model.dfy` | `Backend/models/Resource.js`: validation, the pre-save hook, `findAvailable` |
| `AuthForm` | `auth_form.dfy` | `Frontend/src/components/AuthForm/AuthForm.jsx` |
| `UploadForm` | `upload_form.dfy` | `Frontend/src/components/UploadForm/ResourceUploadForm.jsx` |
| `SearchBar` | `search_bar.dfy` | `Frontend/src/components/ResourceSearchBar.jsx` |
| `ResourcesPage` | `resources_page.dfy` | `Frontend/src/pages/Resources.jsx` |
| `Text` | `text.dfy` | The string helpers the modules share: decimal rendering, `toLowerCase`, `includes`, `trim` and the UTF-16 `length` |

## How the environment is modelled

- Code that updates objects in place becomes a class whose methods carry
  `modifies` clauses. This covers the refresh-token collection, the users
  collection, a user document, a resource document and the two forms'
  component state. Each method's `ensures` ties the new state to a pure
  function of the old state, and the lemmas state the properties of that
  function.
- Whatever the program does not control becomes a parameter:
  - the clock (`now`, in seconds);
  - `NODE_ENV` (`production`);
  - whether `RefreshToken.create` succeeds (`persistOk`);
  - the id Mongo generates (`newId`);
  - bcrypt (`hash`);
  - the two validation regexes (`isEmail`, `isPhone`).
- JavaScript `Number`s that count become `int`/`nat`, prices and ratings
  become `real`, and strings are `seq<char>` of Unicode scalar values.
  Where the code compares a string's `length`, the model counts UTF-16 code
  units (`Text.Utf16Length`), as JavaScript and Mongoose do.

## Behaviour of the code worth noting

- **Sign-up response.** The sign-up response's user object contains the password hash (`Backend/controllers/authController.js:39-48`). Only `__v` is removed.
- **Sign-out without a cookie.** Sign-out with no refresh cookie answers 400 "No token found" (`Backend/controllers/authController.js:97`).
- **Sign-in never checks the password.** The result of `comparePassword` is never used (`Backend/controllers/authController.js:64`). A wrong password still signs the user in. Only a missing password fails, with a 500, because bcrypt throws.
- **Session restore.** Sign-in's "session restored" path checks only that the refresh cookie verifies. It neither looks the token up in the store nor compares its user id with the account's.
- **Trimming.** The schema trims `username` and `contactNumber` before it validates and stores them (`Backend/models/User.js:28`, `:45`). The sign-up form checks the username as typed (`Frontend/src/components/AuthForm/AuthForm.jsx:39-46`), so it refuses " alice1", which the schema would store as "alice1".
- **Lengths.** The length rules of the form and the schema count UTF-16 code units, so three characters beyond U+FFFF already make a 6-unit password.
- **Same-second rotation.** Signing is deterministic: `iat` is in whole seconds. Rotating a refresh token in the same second it was issued therefore yields the very same token and records it again, so the old token stays usable. `TokenService.SingleUse` states single use under exactly the condition `now1 != prev.iat`.

## Model

| member | source | states |
|---|---|---|
| Jwt.AccessTokenLifetime | Backend/utils/tokenService.js:9-15 | An access token signed at `issued` verifies exactly while `now < issued + 15 min`, and it carries the user it was signed for |
| Jwt.RefreshTokenLifetime | Backend/utils/tokenService.js:17-21 | A refresh token verifies exactly while `now < issued + 7 days`, and it decodes to the user id it was signed for |
| Jwt.SignRefreshInjective | Backend/utils/tokenService.js:19-21 | Two refresh tokens are equal iff they were signed for the same user in the same second |
| Jwt.SecretsSeparate | Backend/utils/tokenService.js:5-6 | No token verifies both as an access token and as a refresh token |
| Http.CookieOptionsFor | Backend/middleware/authMiddleware.js:8-13 | Cookies are httpOnly, `sameSite` lax and path "/"; they are secure iff the environment is production |
| TokenService.VerifyAccessToken | Backend/utils/tokenService.js:35-37 | Decoding yields a user exactly for a token that verifies under the access secret and has not expired |
| TokenService.Issue | Backend/utils/tokenService.js:17-33 | A failed issue leaves the store unchanged; a successful one adds exactly the record of a new refresh token for the user; issuing keeps the store consistent with the tokens' claims |
| TokenService.Rotate | Backend/utils/tokenService.js:39-59 | A token that does not verify or is not stored changes nothing; a returned rotation carries the old token's non-empty user id and a token now stored for that user; only the new token can be added; consistency is kept |
| TokenService.IssueOutcome | Backend/utils/tokenService.js:17-33 | Issuing signs a 7-day refresh token for the user and stores a record with the user id and expiry; it fails with nothing stored when the write fails or the token is already stored |
| TokenService.IssueFailureStoresNothing | Backend/utils/tokenService.js:24-32 | A failed write gives an error and leaves the store unchanged |
| TokenService.RotateRejectsUnverified | Backend/utils/tokenService.js:39-41 | A token that does not verify as a refresh token is refused and the store is untouched |
| TokenService.RotateRejectsConsumed | Backend/utils/tokenService.js:44-45 | A token with no stored record (already rotated or signed out) is refused and the store is untouched |
| TokenService.RotateSuccess | Backend/utils/tokenService.js:39-59 | Rotating a stored, verifying token deletes its record, stores a fresh token for the same user and returns that user and token |
| TokenService.RotateFalsyUserIdConsumes | Backend/utils/tokenService.js:44-55 | With an empty user id the caller receives null, yet the old record is deleted; a successful write stores the new token's record, a failed one stores nothing, and no other record changes |
| TokenService.RotatePreservesConsistency | Backend/utils/tokenService.js:17-59 | Every stored record keeps its token's user id and expiry through issue and rotate |
| TokenService.SingleUse | Backend/utils/tokenService.js:44-51 | After a successful rotation in a later second than the token's issue, the same token can never be rotated again |
| TokenService.CredentialStore.constructor | Backend/utils/tokenService.js:24-28 | The store starts empty |
| TokenService.CredentialStore.FindOne | Backend/utils/tokenService.js:44 | Finds the record of a token exactly when one is stored |
| TokenService.CredentialStore.DeleteOne | Backend/utils/tokenService.js:48 | Removes exactly that token's record |
| TokenService.CredentialStore.Insert | Backend/utils/tokenService.js:24-28 | Stores the record iff the write succeeds and the token is not yet stored; otherwise nothing changes |
| TokenService.CredentialStore.CreateRotatingRefreshToken | Backend/utils/tokenService.js:17-33 | Result and new store are those of `Issue` on the old store |
| TokenService.CredentialStore.VerifyAndRotateRefreshToken | Backend/utils/tokenService.js:39-59 | Result and new store are those of `Rotate` on the old store |
| Text.NatToString | Backend/models/User.js:278-281 | Renders a number as a non-empty string of decimal digits with no leading zero |
| Text.NatToStringRoundTrip | Backend/models/User.js:278-281 | Reading the rendered digits back gives the number |
| Text.Lower | Frontend/src/components/ResourceSearchBar.jsx:128 | `toLowerCase` keeps the length and lowers each character |
| Text.ContainsIff | Frontend/src/components/ResourceSearchBar.jsx:128 | `includes` holds iff the needle occurs at some position |
| Text.JoinStartsWithFirst | Backend/models/User.js:283 | A joined list starts with its first part |
| Text.Trim | Backend/models/User.js:28 | `trim()` cuts only white space off the ends, and the result neither starts nor ends with white space |
| Text.TrimPadded | Backend/models/User.js:28 | Trimming white space padding off a string with non-blank ends gives the string back |
| Text.BlankIffTrimEmpty | Frontend/src/components/ResourceSearchBar.jsx:123 | `!s.trim()` holds iff trimming leaves nothing |
| Text.Utf16Length | Frontend/src/components/AuthForm/AuthForm.jsx:42-49 | `length` counts each character beyond U+FFFF twice, so it lies between the character count and twice it, and equals it for the Basic Multilingual Plane |
| UserModel.SchemaBounds | Backend/models/User.js:24-42 | An accepted user has a 3-30 character username of letters, digits and underscores, and a password of at least 6 UTF-16 code units (at least 3 characters) |
| UserModel.Normalized | Backend/models/User.js:24-50 | The schema's setters replace username and contact number by their trimmed forms and leave id, email, password and version alone |
| UserModel.NormalizedStripsPadding | Backend/models/User.js:24-35 | A valid username padded with white space is stored as the bare username, so it collides with an account that holds it |
| UserModel.PaddedUsernameExample | Backend/models/User.js:24-35 | " alice1" fails the username rules as given and passes them once trimmed |
| UserModel.QueryView | Backend/models/User.js:37-42 | A queried user has no password (`select: false`) and keeps its version |
| UserModel.FullObject | Backend/models/User.js:240-243 | `toObject()` of a created document carries the stored password hash and the version |
| UserModel.AccountByEmail | Backend/controllers/authController.js:59 | The lookup by email returns an account with that email, and returns none only when no account has it |
| UserModel.UserCollection.constructor | Backend/models/User.js:413 | The collection starts empty |
| UserModel.UserCollection.FindByEmail | Backend/controllers/authController.js:23 | Finds an account iff one has the email, and returns the stored account |
| UserModel.UserCollection.FindById | Backend/middleware/authMiddleware.js:36 | Finds the account stored under the id, if any |
| UserModel.UserCollection.Create | Backend/models/User.js:12-50 | Trims username and contact number, then creates exactly when the trimmed account validates and its id, email and trimmed username are all unused; the trimmed account is stored with the password hashed (pre-save hook at lines 287-299) |
| UserModel.CountUnread | Backend/models/User.js:262-264 | Unread count is at most the number of notifications |
| UserModel.MarkedOverdue | Backend/models/User.js:302-314 | The overdue hook keeps the number of borrows |
| UserModel.MarkedRead | Backend/models/User.js:343-350 | Marking keeps the number of notifications |
| UserModel.MembershipSpan | Backend/models/User.js:266-276 | Years and months (0..11) add up to the months between creation and now |
| UserModel.MemberSince | Backend/models/User.js:266-284 | The "member since" text is never empty |
| UserModel.MemberSinceExamples | Backend/models/User.js:278-283 | "0 month" in the month of creation, "2 years" for whole years, "1 year, 1 month" across a year boundary |
| UserModel.WithNotificationShape | Backend/models/User.js:326-340 | A new notification goes first, the previous ones follow in order, and at most 50 are kept |
| UserModel.WithNotificationUnread | Backend/models/User.js:326-340 | Below the cap, adding an unread notification raises the unread count by one |
| UserModel.MarkedReadPointwise | Backend/models/User.js:343-350 | A notification is marked read iff its id is listed; everything else about it stays |
| UserModel.MarkedReadIdempotent | Backend/models/User.js:343-350 | Marking the same ids twice changes nothing more |
| UserModel.MarkedReadUnread | Backend/models/User.js:343-350 | Marking never raises the unread count, and marking every id brings it to zero |
| UserModel.MarkedOverdueProperties | Backend/models/User.js:302-314 | A borrow becomes overdue iff it is borrowed, past due and not returned; the hook is idempotent and leaves nothing still overdue-eligible |
| UserModel.WithoutProperties | Backend/models/User.js:382-387 | Removal drops every copy of the id, keeps everything else in order, and changes nothing for an absent id |
| UserModel.UnreadIsZero | Backend/models/User.js:262-264 | The unread count is zero iff every notification is read |
| UserModel.WishlistStaysDuplicateFree | Backend/models/User.js:374-380 | Adding to a duplicate-free wishlist keeps it duplicate-free |
| UserModel.UserDocument.constructor | Backend/models/User.js:68-158 | A new user has no uploads, borrows, purchases, wishlist entries or notifications |
| UserModel.UserDocument.TotalUploads | Backend/models/User.js:247-249 | The `totalUploads` virtual is the number of uploaded resources |
| UserModel.UserDocument.TotalBorrows | Backend/models/User.js:252-254 | The `totalBorrows` virtual is the number of borrowed resources |
| UserModel.UserDocument.TotalPurchases | Backend/models/User.js:257-259 | The `totalPurchases` virtual is the number of purchased resources |
| UserModel.UserDocument.UnreadNotifications | Backend/models/User.js:262-264 | The virtual is at most the number of notifications, and zero iff all are read |
| UserModel.UserDocument.MarkOverdue | Backend/models/User.js:302-314 | The save hook updates the borrows as `MarkedOverdue` and nothing else |
| UserModel.UserDocument.AddNotification | Backend/models/User.js:326-340 | Notifications become `WithNotification` of the old list; the new one is first and unread; the save runs the overdue hook; uploads, purchases and the creation date are unchanged |
| UserModel.UserDocument.MarkNotificationsAsRead | Backend/models/User.js:343-350 | Notifications become `MarkedRead` of the old list; the save runs the overdue hook; uploads, purchases and the creation date are unchanged |
| UserModel.UserDocument.AddToWishlist | Backend/models/User.js:374-380 | The id ends up in the wishlist, appended only if it was absent; notifications unchanged and the save runs the overdue hook; uploads, purchases and the creation date are unchanged |
| UserModel.UserDocument.RemoveFromWishlist | Backend/models/User.js:382-387 | The wishlist becomes `Without` of the old one; notifications unchanged and the save runs the overdue hook; uploads, purchases and the creation date are unchanged |
| AuthMiddleware.FastPathUntouched | Backend/middleware/authMiddleware.js:17-22 | A verifying access token lets the request through as its user, with no cookies set and the store untouched |
| AuthMiddleware.Decide | Backend/middleware/authMiddleware.js:15-47 | The gate halts only with 401, 403 or 404; the fast path and the missing-cookie refusal leave the store alone; the slow path passes with two cookies and a user read without its password, the fast path with none |
| AuthMiddleware.NoRefreshCookie | Backend/middleware/authMiddleware.js:24-27 | With no usable access token and no refresh cookie: 403 "Please sign in again", store untouched |
| AuthMiddleware.SlowPathOutcomes | Backend/middleware/authMiddleware.js:28-45 | Failed rotation gives 401 with the store untouched; an unknown user gives 404 after the rotation; otherwise both cookies are re-issued and the user is let through |
| AuthMiddleware.PairSync | Backend/middleware/authMiddleware.js:34-45 | The re-issued access token carries the user of the rotated refresh token, and the new refresh token is the one now stored |
| AuthMiddleware.CookieOptionsFixed | Backend/middleware/authMiddleware.js:41-42 | Every cookie the gate sets uses the shared cookie options |
| AuthMiddleware.ExpiredAccessValidRefresh | Backend/middleware/authMiddleware.js:15-45 | An expired access token with a stored, verifying refresh token of a known user passes, and the old refresh token is consumed |
| AuthMiddleware.Authenticate | Backend/middleware/authMiddleware.js:15-47 | The gate's outcome and the new store are those of `Decide` |
| AuthController.NewAccount | Backend/controllers/authController.js:28-36 | The account `User.create` receives carries the body's email, username, password and contact number |
| AuthController.SignUpView | Backend/controllers/authController.js:38-39 | The sign-up snapshot keeps the stored password hash and drops only the version |
| AuthController.SignInView | Backend/controllers/authController.js:65-67 | The sign-in snapshot drops password and version |
| AuthController.SignUp | Backend/controllers/authController.js:18-53 | 400 for a taken email; 500 when creation fails; otherwise the hashed account is stored, a refresh token issued, and 201 sets refresh then access cookie (500 if issuing fails) |
| AuthController.SignIn | Backend/controllers/authController.js:55-92 | 400 for an unknown email; 500 for a missing password; a verifying refresh cookie restores the session (access cookie only, store untouched); a non-verifying one gives 500; else a refresh token is issued and both cookies set |
| AuthController.SignOutCases | Backend/controllers/authController.js:94-112 | 400 iff no refresh cookie; otherwise 200 clearing both cookies; a record is deleted iff the token verifies and is stored, and only that record |
| AuthController.SignOutOutcome | Backend/controllers/authController.js:94-112 | Sign-out answers 200 or 400, 400 iff there is no refresh cookie, and removes at most one record and adds none |
| AuthController.SignedOutTokenIsDead | Backend/controllers/authController.js:99-102 | After sign-out deletes a token it can never be rotated again |
| AuthController.SignOut | Backend/controllers/authController.js:94-112 | Response and new store are those of `SignOutOutcome` |
| ResourceModel.SaveOutcome | Backend/models/Resource.js:191-216 | A saved document passed validation and is the input with the holder cleared when available |
| ResourceModel.SaveAccepts | Backend/models/Resource.js:191-197 | Save succeeds iff the resource is valid and some price is above zero |
| ResourceModel.Validate | Backend/models/Resource.js:22-130 | A valid resource carries a license or a stock count, and a license whenever its format is not physical |
| ResourceModel.SavedAvailableHasNoHolder | Backend/models/Resource.js:199-202 | A saved available resource has no holder; nothing else changes |
| ResourceModel.SaveIdempotent | Backend/models/Resource.js:191-216 | Saving a saved document again gives the same document |
| ResourceModel.WithDefaults | Backend/models/Resource.js:84-130 | Defaults: prices and rating 0, rent period 7/90/30 days, "available", active, no holder |
| ResourceModel.DefaultsRejected | Backend/models/Resource.js:93-101 | A resource that keeps both default prices can never be saved |
| ResourceModel.ConditionalRequirements | Backend/models/Resource.js:40-83 | License is required for digital or both formats, license file for a licensed resource, stock for physical or both; each can be dropped outside its condition |
| ResourceModel.ValidBounds | Backend/models/Resource.js:22-130 | A saved resource has enumerated values from their sets, rating within 0..5, prices non-negative and one positive |
| ResourceModel.FindAvailable | Backend/models/Resource.js:218-222 | The query always asks for available, active resources |
| ResourceModel.FindAvailableMatches | Backend/models/Resource.js:218-222 | A resource matches iff it is available and active, and of the given type when a non-empty type is given |
| ResourceModel.ResourceDocument.constructor | Backend/models/Resource.js:224 | The document holds the given resource |
| ResourceModel.ResourceDocument.Save | Backend/models/Resource.js:191-216 | A refused save leaves the document as it was; an accepted one leaves it as `SaveOutcome` says |
| AuthForm.Set | Frontend/src/components/AuthForm/AuthForm.jsx:58-63 | Setting a field changes that field only |
| AuthForm.AllWordCharsIff | Frontend/src/components/AuthForm/AuthForm.jsx:39-46 | The character scan accepts iff every character is a letter, digit or underscore |
| AuthForm.ValidateUsernameMatchesSchema | Frontend/src/components/AuthForm/AuthForm.jsx:39-46 | The form's username check accepts exactly the usernames that meet the schema's rules as typed, and such a username is left unchanged by the schema's trim |
| AuthForm.ValidatePassword | Frontend/src/components/AuthForm/AuthForm.jsx:48-50 | Accepts iff the password has at least 6 UTF-16 code units, the schema's rule: any 6 characters pass, and fewer than 3 never do |
| AuthForm.FormRefusesPaddedUsername | Frontend/src/components/AuthForm/AuthForm.jsx:39-46 | The form refuses " alice1" while the schema, which trims first, accepts it |
| AuthForm.AstralPasswordAccepted | Frontend/src/components/AuthForm/AuthForm.jsx:48-50 | A password of three characters beyond U+FFFF is long enough |
| AuthForm.CollectErrors | Frontend/src/components/AuthForm/AuthForm.jsx:73-106 | The checks run in order on a fresh map and build exactly the error map `ComputeErrors` specifies |
| AuthForm.ErrorsByField | Frontend/src/components/AuthForm/AuthForm.jsx:73-109 | Each field's error is exactly the message its rule gives; sign-in mode reports only email and password |
| AuthForm.ErrorPrecedence | Frontend/src/components/AuthForm/AuthForm.jsx:76-104 | A missing value reports "required" ahead of any format error |
| AuthForm.AcceptedExactly | Frontend/src/components/AuthForm/AuthForm.jsx:73-109 | The form is accepted iff every field rule passes |
| AuthForm.AuthFormState.constructor | Frontend/src/components/AuthForm/AuthForm.jsx:17-31 | Starts in sign-in mode with an empty form, no errors and hidden passwords |
| AuthForm.AuthFormState.HandleInputChange | Frontend/src/components/AuthForm/AuthForm.jsx:58-71 | Sets the field, blanks that field's error only if it had one, changes nothing else |
| AuthForm.AuthFormState.ValidateForm | Frontend/src/components/AuthForm/AuthForm.jsx:73-109 | Errors become `ComputeErrors` of the form; the result is true iff there are none |
| AuthForm.AuthFormState.ToggleAuthMode | Frontend/src/components/AuthForm/AuthForm.jsx:156-172 | Flips the mode, empties form and errors, hides both passwords |
| AuthForm.AuthFormState.HandleSubmit | Frontend/src/components/AuthForm/AuthForm.jsx:111-154 | Sends nothing iff validation fails; otherwise posts the form to signup or signin by mode, then empties form and errors; the mode and both password toggles are unchanged |
| UploadForm.KeysOf | Frontend/src/components/UploadForm/ResourceUploadForm.jsx:126-135 | The keys of the form object in insertion order |
| UploadForm.PutProperties | Frontend/src/components/UploadForm/ResourceUploadForm.jsx:42-61 | A spread update sets the key, leaves other keys alone and appends a new key at the end |
| UploadForm.SubmitChecks | Frontend/src/components/UploadForm/ResourceUploadForm.jsx:116-124 | Submit is refused with the first alert without a type or format, and with the second for digital without a license; otherwise the payload is built |
| UploadForm.Submit | Frontend/src/components/UploadForm/ResourceUploadForm.jsx:112-124 | A submit that goes through has a type and a format and posts `Payload`; a refused one gives one of the two alerts |
| UploadForm.Payload | Frontend/src/components/UploadForm/ResourceUploadForm.jsx:126-158 | The payload ends with the specifications, the shipping info and the rent period, in that order, carrying the current specifications and shipping state |
| UploadForm.PartsWithKeyAppend | Frontend/src/components/UploadForm/ResourceUploadForm.jsx:115-158 | Parts appended later follow earlier ones under each key |
| UploadForm.PlainPartsContents | Frontend/src/components/UploadForm/ResourceUploadForm.jsx:126-135 | Every non-file field is appended as its string form, and nothing else is |
| UploadForm.PlainPartsSkipExcluded | Frontend/src/components/UploadForm/ResourceUploadForm.jsx:127-132 | The loop appends nothing under the four excluded keys |
| UploadForm.ImagePartsKeys | Frontend/src/components/UploadForm/ResourceUploadForm.jsx:145-147 | Every image is appended under "resourceImageURLs", in order |
| UploadForm.PartsWithKeyAbsent | Frontend/src/components/UploadForm/ResourceUploadForm.jsx:115-158 | No part is found under a key that none carries |
| UploadForm.FirstFilePartKeys | Frontend/src/components/UploadForm/ResourceUploadForm.jsx:137-143 | Only the first file of a non-empty list is appended, under its key |
| UploadForm.PayloadByKey | Frontend/src/components/UploadForm/ResourceUploadForm.jsx:126-156 | Under each of the three file keys (`licenseFile`, `coverImageURL`, `resourceImageURLs`) the payload holds exactly the file parts the handler appends |
| UploadForm.PayloadFiles | Frontend/src/components/UploadForm/ResourceUploadForm.jsx:137-158 | The payload holds the first license file under `licenseFile`, the first cover image under `coverImageURL`, and every image in order under `resourceImageURLs` |
| UploadForm.GetResourceTitleCases | Frontend/src/components/UploadForm/ResourceUploadForm.jsx:174-184 | Each of book, notes, research_paper, thesis and journal gets its own title; any other value gets "Resource Details"; the title is never empty |
| UploadForm.GetResourceTitle | Frontend/src/components/UploadForm/ResourceUploadForm.jsx:174-184 | The title is one of the table's titles and never empty |
| UploadForm.UploadFormState.constructor | Frontend/src/components/UploadForm/ResourceUploadForm.jsx:8-35 | Initial form, no specifications, panels hidden, shipping defaults "3-7 days" and "No return" |
| UploadForm.UploadFormState.HandleFormatSelect | Frontend/src/components/UploadForm/ResourceUploadForm.jsx:91-104 | Sets the format; the license panel opens for digital or both, else stock and pricing |
| UploadForm.UploadFormState.HandleResourceTypeSelect | Frontend/src/components/UploadForm/ResourceUploadForm.jsx:81-89 | Sets the type and clears the format; shows the format panel and resets the others |
| UploadForm.UploadFormState.HandleLicenseSelect | Frontend/src/components/UploadForm/ResourceUploadForm.jsx:106-110 | Sets the license and opens specifications and pricing |
| UploadForm.UploadFormState.HandleInputChange | Frontend/src/components/UploadForm/ResourceUploadForm.jsx:42-61 | Shipping fields go to their own state; "rentPeriod" becomes a 7/14 period with the value; any other key is set in the form |
| UploadForm.UploadFormState.HandleFileChange | Frontend/src/components/UploadForm/ResourceUploadForm.jsx:63-71 | The file list replaces the field's value; specifications, shipping state and every panel flag are unchanged |
| UploadForm.UploadFormState.HandleSpecificationChange | Frontend/src/components/UploadForm/ResourceUploadForm.jsx:73-79 | Sets one specification; the form, shipping state and every panel flag are unchanged |
| UploadForm.UploadFormState.HandleSubmit | Frontend/src/components/UploadForm/ResourceUploadForm.jsx:112-172 | The loops build exactly the payload `Submit` specifies |
| SearchBar.Take | Frontend/src/components/ResourceSearchBar.jsx:166 | `slice(0, n)` is a prefix of at most n elements, the whole list when short enough |
| SearchBar.TitleSuggestionsExact | Frontend/src/components/ResourceSearchBar.jsx:127-136 | Title suggestions are exactly the titles of the listed resources that contain the query, ignoring case, each with its resource |
| SearchBar.AuthorSuggestionsExact | Frontend/src/components/ResourceSearchBar.jsx:139-151 | Author suggestions are exactly "by " and the author, for each listed resource with an author that contains the query |
| SearchBar.SubjectSuggestionsExact | Frontend/src/components/ResourceSearchBar.jsx:154-164 | Subject suggestions are exactly the listed subjects that contain the query |
| SearchBar.TitleSuggestionsSplit | Frontend/src/components/ResourceSearchBar.jsx:127-136 | Title suggestions keep the order of the resource list |
| SearchBar.AuthorSuggestionsSplit | Frontend/src/components/ResourceSearchBar.jsx:139-151 | Author suggestions keep the order of the resource list |
| SearchBar.SubjectSuggestionsSplit | Frontend/src/components/ResourceSearchBar.jsx:154-164 | Subject suggestions keep the order of the subject list |
| SearchBar.SuggestionsProperties | Frontend/src/components/ResourceSearchBar.jsx:121-167 | A blank query gives none; otherwise the output is the first min(8, n) of the n matching titles, authors and subjects, in that order; titles before authors before subjects; each drawn from a matching source; with at most 8 matches every match is shown |
| SearchBar.Suggestions | Frontend/src/components/ResourceSearchBar.jsx:121-167 | At most 8 suggestions, and none for a blank query |
| SearchBar.GetSearchSuggestions | Frontend/src/components/ResourceSearchBar.jsx:121-167 | The three loops and the slice compute exactly `Suggestions` |
| SearchBar.HandleFilterChange | Frontend/src/components/ResourceSearchBar.jsx:196-201 | Only the named filter changes |
| SearchBar.HandlePriceRangeChange | Frontend/src/components/ResourceSearchBar.jsx:203-211 | Only the chosen bound of the price range changes |
| SearchBar.HandleYearRangeChange | Frontend/src/components/ResourceSearchBar.jsx:213-221 | Only the chosen bound of the year range changes |
| SearchBar.GetActiveFiltersCount | Frontend/src/components/ResourceSearchBar.jsx:236-247 | The counter is one per active filter, at most 8, and zero iff the filters are the cleared ones |
| SearchBar.ClearedFiltersInactive | Frontend/src/components/ResourceSearchBar.jsx:223-247 | After clearing no filter is active; setting one filter makes just it active |
| SearchBar.SearchResultsExact | Frontend/src/components/ResourceSearchBar.jsx:176-190 | Results are exactly the listed resources matching query, type and format; an empty query with no type or format filter keeps every resource |
| SearchBar.SearchResults | Frontend/src/components/ResourceSearchBar.jsx:176-190 | No more results than resources, each a listed resource matching the query and the filters |
| ResourcesPage.OfTypeExact | Frontend/src/pages/Resources.jsx:63-67 | The type filter keeps exactly the listings of that type, with their multiplicities |
| ResourcesPage.OfType | Frontend/src/pages/Resources.jsx:63-67 | The type filter keeps no more listings than there are, all of that type |
| ResourcesPage.SortOrders | Frontend/src/pages/Resources.jsx:76-83 | "price-low" orders by rising rent price, "price-high" by falling rent price, "rating" and "popular" by falling rating and views |
| ResourcesPage.EqualKeysSorted | Frontend/src/pages/Resources.jsx:72-85 | Any other sort key, "newest" and "oldest" included, sees every order as sorted |
| ResourcesPage.SwapKeepsKeyOrder | Frontend/src/pages/Resources.jsx:70-87 | Exchanging neighbours with different keys keeps the order within every key |
| ResourcesPage.StableOrderUnique | Frontend/src/pages/Resources.jsx:70-87 | Two sorted orders that keep the order within every key are equal: a stable sort has one result |
| ResourcesPage.Sort | Frontend/src/pages/Resources.jsx:70-87 | The in-place sort orders the array by the comparator, permutes it, keeps the order of the listings of every key (stable), and leaves an already ordered array untouched |
| ResourcesPage.FilterResources | Frontend/src/pages/Resources.jsx:60-89 | "all" sorts the page's own array in place; a type sorts a fresh array of that type and leaves the page's array alone; the result is a stable, sorted permutation of the selection |
| ResourcesPage.FilterButtons | Frontend/src/pages/Resources.jsx:94-122 | "all" shows the total, and each category button shows the size of its type filter |
| ResourcesPage.CategoryCountsBounded | Frontend/src/pages/Resources.jsx:94-122 | Category counts sum to at most the total, and to exactly the total when every listing has a listed category |

## Left out

- JWT cryptography: signatures, secrets and the encoded string form are abstract. A token that fails to verify is a `Forged` value.
- bcrypt hashing and comparison become the `hash` parameter. The salt and `comparePassword`'s boolean are not modelled, since the controller never reads that result.
- The email and phone regexes of the `User` schema and `AuthForm.jsx` become the `isEmail` and `isPhone` parameters.
- Backend/models/RefreshToken.js is not part of this model. Its schema is taken as a collection unique on `token`, with `userId` and `expiresAt`. A TTL index on `expiresAt` is not modelled either.
- Concurrency: two requests rotating the same refresh token at once are not modelled. Each handler runs atomically on the store.
- `updateUser` in `authController.js` is not modelled. It uploads an avatar and writes arbitrary fields: I/O with no invariant of the core.
- Email normalisation: the schema's `lowercase`/`trim` on `email` is not applied, so emails compare as given. The trim on `username` and `contactNumber` is modelled.
- Validation of user fields outside the ones the core reads is not modelled: location, bio, ratings, sub-documents and preferences.
- A rejection of `User.findById` in `authenticate` (Backend/middleware/authMiddleware.js:36) is not modelled. It happens inside the `catch` block, so it would escape the middleware unanswered. Ids are plain strings here, and a server-signed refresh token carries a stored user's id.
- Database failures other than `RefreshToken.create`'s are not modelled: `findOne`, `deleteOne`, `User.create`, `User.findById` and every `save()` are taken to succeed.
- AuthController.SignOutCases: a failing `findOne` or `deleteOne` would reach the `catch` at Backend/controllers/authController.js:107-111, answer 200 "Session expired, logged out" and leave the record stored. The model takes both calls to succeed, so a verified, stored token is always deleted.
- Jwt.SecretsSeparate: `ACCESS_TOKEN_SECRET` and `REFRESH_TOKEN_SECRET` are assumed to differ. With equal secrets a token could verify as both kinds.
- ResourceModel.SaveOutcome: the pre-save hook also sets `currentUser.dueDate` for a renter with `since`, by multiplying the `rentPeriod` object by a number. That yields an invalid date, and the branch is not modelled.
- ResourceModel.Validate: `required` on the `licenseFile` array is read as "non-empty". Some Mongoose versions accept an empty array there.
- Cloudinary uploads, the multer middleware, payments and `resourcesController.js` are outside this model.
- UploadForm.Payload: `JSON.stringify` of specifications, shipping info and rent period is kept as structured parts rather than serialised text.
- UploadForm.GetResourceTitle: keys inherited from `Object.prototype` (such as "constructor") are treated as unknown types.
- `toLowerCase` is modelled for ASCII letters only, so non-ASCII case folding is not captured.
- The network request after a form submit is an output value. Its result, the navigation, `alert`, `console` and the loading flags are not modelled.
- ResourcesPage.FilterResources: the result is computed by an insertion sort, not by the engine's algorithm. The contract states a sorted, stable permutation, and `StableOrderUnique` shows there is only one; comparison counts are not modelled.
- ResourcesPage.SortKey: "newest" and "oldest" compare `uploadedAt`, which the schema does not define. Both dates are invalid, and the comparator's NaN is read as 0.
- The search bar works on its built-in mock list. Its dropdown, keyboard handling, recent searches and the `alert` in `handleSearch` are not modelled; the alert's count is `|SearchResults(...)|`.
- Rendering (JSX), icons, colours and animation state of every component are not modelled.
