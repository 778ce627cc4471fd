# Kasragay backend: authentication and sessions in Dafny

This project models the authentication core of the Kasragay backend, a Go service
split into an HTTP gateway and a user service. It covers:

- **The `Auth` service** (`services/auth.go`): one-time codes (OTPs), sign-up, sign-in by code and by password,
  logout, token refresh, and resetting the password, phone or recovery email.
- **The repositories it drives**:
  - the Redis cache, which holds the JWT blacklist, the OTP codes and the admin sign-up keys;
  - the relational store of admins and clients;
  - the S3 avatar bucket;
  - the SMS and mail senders.
- **The gateway**: its bearer and URL authentication middleware, the route table with a rate limiter per route,
  and the header hand-off to the services behind it.
- **The abstract server**: its identity, host and content-type middleware, and `CanPass`.
- **The user service**: reading, editing and deleting one's own account.
- **The pure helpers** these rely on: the error type and its templates, the masking of emails and phones,
  the request validators, password hashing and the nullable-string helpers.

How the model works:

- Every Go `error` becomes an `Outcome`.
  - `Ok`: the call succeeded.
  - `Fail`: a structured `utils.Error`, with its application code, reasons and caller trail.
  - `Crash`: a Go runtime panic, such as a nil interface call, a failed type assertion or a slice out of range.
- The stores are classes whose fields the operations update in place:
  - `Cache.Cache`: a key → (value, expiry) map read against a logical clock;
  - `Relational.Relational`: one table per user type;
  - `Externals.ObjectStore`: the S3 avatar bucket;
  - `Externals.Outbox`: the SMS and mail senders;
  - `Jwts.Signer`: a registry of signed tokens.
- Each handler of `Auth` and `User` is a method, proved against:
  - the state it must leave behind in every one of these stores;
  - a ghost function that states the order of its checks.
- Randomness enters as parameters: the OTP draw, the key draws, fresh ids and bcrypt salts.
- Network faults are part of each store's state:
  - the cache fails a (command, key) pair, so a GET may succeed and the DEL or SET after it on the same key fail;
  - the relational store fails plain queries (`down`) apart from transactions (`txDown`), so an update may fail after
    the lookup before it succeeded;
  - the bucket and the SMS gateway are up or down as a whole.

Where the code and its evident intent disagree, the flows follow the code as written, and
the helpers they call say so in their names (`…AsWritten`) or their doc comments. The
corrected definition stands beside each one, with the intended property proved about it,
and a lemma states the difference (see "## Findings").

## Model

| member | source | states |
|---|---|---|
| Errors.NewErrorValue | internal/utils/error.go:122-131 | a new error has status "error", the given HTTP code, no app code, reasons or callers, and its message with trailing `!?.` trimmed |
| Errors.NewInternalValue | internal/utils/error.go:145-165 | an internal error has code 1000 and is flagged internal; its message is the error text, prefixed by the optional message and ": ", right-trimmed of punctuation |
| Errors.TrimKeepsClean | internal/utils/error.go:122-131 | trimming leaves a message that does not end in `!?.` unchanged |
| Errors.TemplateMessageClean | internal/utils/error.go:59-83 | every response template's message survives NewError's trim unchanged |
| Errors.TemplatesAsDeclared | internal/utils/error.go:59-83 | template c is NewError(code, message).WithAppCode(c) for the declared pair; its app code is the c-th of 998…1020 and it carries no reasons or callers |
| Errors.TemplatesDistinct | internal/utils/error.go:59-83 | the 23 response templates are pairwise distinct |
| Errors.FuncPipe | internal/utils/error.go:133-143 | nil stays nil; a utils.Error gains the caller at the front of its trail; any other error becomes an internal error whose trail is just that caller |
| Errors.Outcome.Forward | internal/utils/error.go:133-143 | a failure or panic passes through unchanged when re-typed for the caller's result |
| Errors.Pipe | internal/utils/error.go:133-143 | success and panics pass through; a failure keeps everything but gains the caller at the head of its trail |
| Errors.Error.FromValue | internal/utils/error.go:84-92 | an error object holds exactly the given value |
| Errors.Error.Clone | internal/utils/error.go:167-181 | the clone is a fresh object with the same value |
| Errors.Error.WithReason | internal/utils/error.go:185-188 | mutates the receiver to add the reason and returns the receiver itself |
| Errors.Error.WithAppCode | internal/utils/error.go:192-195 | mutates the receiver's app code and returns the receiver itself |
| Errors.Error.WithCaller | internal/utils/error.go:199-202 | mutates the receiver to prepend the caller and returns the receiver itself |
| Errors.NewError | internal/utils/error.go:122-131 | returns a fresh error object holding NewErrorValue(code, message) |
| Errors.CloneWithReason | internal/utils/error.go:167-188 | Clone().WithReason leaves the shared template untouched and returns a fresh error with the reason added |
| Errors.GetErrorResp | internal/utils/error.go:238-254 | the JSON body carries status, app code, message and reasons; it carries callers only in debug mode |
| Errors.CallersOnlyInDebug | internal/utils/error.go:238-254 | the "callers" key appears if and only if debug is on and the trail is non-empty |
| Errors.ToError | internal/utils/error.go:264-273 | rebuilding an error from its JSON body yields a non-internal error that serialises back to the same body |
| Errors.ToErrorRoundTrip | internal/utils/error.go:238-273 | a non-internal error survives a debug-mode serialise-and-rebuild unchanged |
| Errors.ToErrorDropsCallers | internal/utils/error.go:238-273 | outside debug mode, the round trip returns the error with an empty caller trail |
| Errors.ErrorHandler | internal/utils/error.go:204-227 | a non-internal app error keeps its status and body; fiber 404 becomes the not-found template; anything else becomes 500 with the internal-server template |
| Errors.InternalErrorsHidden | internal/utils/error.go:204-227 | an internal error reaches the client as 500 "internal server error" with no caller trail |
| Errors.HandleUtilsError | internal/utils/error.go:275-288 | internal errors become the 500 template; others keep code, app code and message, with the handler prepended to the trail in debug mode |
| Errors.HandleUnknownError | internal/utils/error.go:292-302 | an unknown error becomes 500 with the internal-server app code, naming the handler in debug mode |
| Errors.DebugFromEnv | internal/utils/error.go:17-29 | an empty DEBUG means off; otherwise DEBUG is parsed as a Go boolean, and a parse failure is fatal |
| GoStrings.TrimRight | internal/utils/error.go:122-131 | the result is the longest prefix of the input that does not end in a cut character |
| GoStrings.Before | internal/utils/funcs.go:186-195 | the result is the prefix of the input before the first occurrence of the separator |
| GoStrings.After | internal/utils/funcs.go:186-195 | the input is Before + separator + After when the separator occurs, and After is empty otherwise |
| GoStrings.ParseBool | internal/utils/error.go:17-29 | accepts exactly Go's strconv spellings of true and of false |
| GoStrings.Utf8Len | internal/utils/funcs.go:177-184 | a string's byte length lies between its rune count and four times it |
| GoStrings.Utf8LenAppend | internal/utils/funcs.go:177-184 | byte length is additive over concatenation |
| GoStrings.TrimSpace | internal/server/gateway/middlewares.go:46 | the result is no longer than the input and neither starts nor ends with white space |
| Funcs.RandomInt | internal/utils/funcs.go:34-36 | a draw maps into the inclusive range [min, max] |
| Funcs.RandomIntCovers | internal/utils/funcs.go:34-36 | every value of [min, max] is reachable by some draw |
| Funcs.HashPassword | internal/utils/funcs.go:38-47 | an empty password is stored as an empty hash, and a non-empty one never is |
| Funcs.VerifyPassword | internal/utils/funcs.go:49-55 | an empty candidate never verifies, and a hash verifies only candidates as long as its own peppered input |
| Funcs.HashVerifies | internal/utils/funcs.go:38-55 | a stored hash of p verifies a given password exactly when it equals p, for any salt |
| Funcs.EmptyHashNeverVerifies | internal/utils/funcs.go:38-55 | an account without a password cannot be entered by password |
| Funcs.GetenvAsMinuteDuration | internal/utils/funcs.go:57-70 | empty means the default, an error if required; a non-integer means the default plus an error; otherwise minutes × 60·10^9 nanoseconds, wrapped to int64 as Go's Duration product is |
| Funcs.WrapInt64 | internal/utils/funcs.go:69 | the result is an int64; it equals the input when the input fits, and the input minus 2^64 just above the range |
| Funcs.MinuteDurationExact | internal/utils/funcs.go:57-70 | up to 153722867 minutes either way the duration is exact |
| Funcs.MinuteDurationWraps | internal/utils/funcs.go:57-70 | 153722868 minutes overflow to a negative duration |
| Funcs.MaskEmail | internal/utils/funcs.go:186-195 | empty stays empty; it panics exactly when '@' is absent or first |
| Funcs.MaskEmailShape | internal/utils/funcs.go:186-195 | local@domain masks to the first one or two local characters + "...@" + domain |
| Funcs.MaskPhone | internal/utils/funcs.go:197-202 | empty stays empty; it panics on 1–5 characters; otherwise it keeps the first six characters and the last, with "...." between |
| Funcs.Index | internal/utils/funcs.go:177-184 | -1 exactly when the rune is absent; otherwise the byte offset of its first occurrence |
| Funcs.GetStringIfNotNull | internal/utils/funcs.go:204-209 | nil reads as "" and any other reference reads as its target |
| Funcs.StringSetNullIfEmpty | internal/utils/funcs.go:211-216 | "" is stored as nil and anything else as itself |
| Funcs.NullableRoundTrip | internal/utils/funcs.go:204-216 | storing then reading a string gives it back |
| Sets.Set.constructor | internal/utils/set.go:7-13 | the set holds exactly the given elements |
| Sets.Set.Contains | internal/utils/set.go:15-18 | membership in the set |
| Sets.Set.Add | internal/utils/set.go:20-24 | reports prior membership and adds the element |
| Sets.Set.Remove | internal/utils/set.go:26-30 | reports prior membership and removes the element |
| Sets.Set.ToSlice | internal/utils/set.go:32-38 | the slice lists every element exactly once |
| IoAuth.OtpTypesShape | internal/ports/io.auth.go:38-58 | there are six distinct OTP types, and the admin sign-up key is not one of them |
| IoAuth.EnumerationsShape | internal/ports/io.auth.go:7-23 | the user types are admin and client; the JWT types are access and refresh |
| IoAuth.Login.constructor | internal/ports/io.auth.go:150-153 | a login starts with its user and no token pair |
| Uuids.ToString | internal/ports/models.user.go:37-39 | the canonical form of an id is 36 ASCII characters |
| Uuids.LowerAllCanonical | internal/ports/models.user.go:37-39 | a canonical id is already lower case |
| Uuids.ParseToString | internal/server/middlewares.go:74-78 | parsing the canonical form of an id gives the id back |
| Uuids.ParseBareHex | internal/server/middlewares.go:74-78 | 32 bare hex digits parse, lower-cased |
| Uuids.HexDigits | internal/server/middlewares.go:74-78 | 32 characters parse exactly when all are hex digits |
| Uuids.Parse | internal/server/middlewares.go:74-78 | only inputs of length 32, 36, 38 or 45 can parse |
| Validations.NameValidator | internal/ports/validations.go:72-86 | an accepted name has at most 250 characters, each an Arabic or Latin letter, white space or a hyphen, and at least two when not empty |
| Validations.UsernameValidator | internal/ports/validations.go:88-103 | an accepted username has at most 64 characters; one without a newline is also accepted by the end-anchored reading |
| Validations.PasswordPattern | internal/ports/validations.go:157-164 | a match has 8 to 101 characters, a newline only at the end, an upper-case letter, a digit and a special character, where a final newline counts as the special character |
| Validations.PasswordValidator | internal/ports/validations.go:149-165 | every password the end-anchored reading accepts is accepted, and a password without a newline is accepted only if that reading accepts it; an accepted non-empty password has an upper-case letter, a digit and a special character |
| Validations.PasswordNewlineIsSpecial | internal/ports/validations.go:149-165 | "Passw0rd\n" is accepted although its only special character is the final newline, which the end-anchored reading rejects |
| Validations.PhoneValidator | internal/ports/validations.go:105-115 | an accepted phone is eleven characters, all digits |
| Validations.UserTypeValidator | internal/ports/validations.go:124-131 | accepts exactly "admin" and "client" |
| Validations.NonClientUserTypeValidator | internal/ports/validations.go:133-139 | accepts exactly "admin" |
| Validations.NonAdminUserTypeValidator | internal/ports/validations.go:141-147 | accepts exactly "client" |
| Validations.OtpTokenValidator | internal/ports/validations.go:167-177 | an accepted token is five ASCII characters |
| Validations.OtpKeyValidator | internal/ports/validations.go:183-196 | an accepted key is ASCII and either empty or eight characters long |
| Validations.OtpTypeValidator | internal/ports/validations.go:198-201 | the admin sign-up key type is never accepted as an OTP type |
| Validations.EmailValidator | internal/ports/validations.go:239-246 | an accepted address does not start with '@' and ends in a letter of its top-level label |
| Validations.AvatarObjectNameValidator | internal/ports/validations.go:229-237 | an accepted name is ".png" after one of the four spellings uuid.Parse takes (32, 36, 38 or 45 characters) |
| Validations.MethodOtpGetViolations | internal/ports/validations.go:255-277 | no violation exactly when the request picks one channel and gives only that channel's contact |
| Validations.SignupKeyGetViolations | internal/ports/validations.go:279-284 | no violation exactly when one of email and phone is given |
| Validations.SignupPostViolations | internal/ports/validations.go:286-291 | no violation exactly when one of email and phone is given |
| Validations.SigninPostViolations | internal/ports/validations.go:292-297 | no violation exactly when one of the two channels is chosen |
| Validations.ResetPasswordPostViolations | internal/ports/validations.go:299-304 | no violation exactly when one of the two channels is chosen |
| Validations.CheckPostRequestValid | internal/ports/io.auth.go:25-28 | a valid request names a known user type and a username of 1 to 64 characters |
| Validations.MethodOtpGetRequestValid | internal/ports/io.auth.go:60-68 | a valid request names a known user type and a client OTP type; by SMS it carries an 11-digit phone and no email, by mail a valid email and no phone |
| Validations.SignupKeyGetRequestValid | internal/ports/io.auth.go:79-83 | only an admin may ask for a sign-up key, naming exactly one contact |
| Validations.SignupPostRequestValid | internal/ports/io.auth.go:89-99 | a valid request names a known user type, one contact and a five-digit token; a password, if given, has an upper-case letter, a digit and a special character |
| Validations.SigninPostRequestValid | internal/ports/io.auth.go:101-107 | a valid request names a known user type, one channel and a five-digit token |
| Validations.SigninPasswordPostRequestValid | internal/ports/io.auth.go:109-113 | a valid request names a known user type and a password with an upper-case letter, a digit and a special character |
| Validations.ResetPasswordPostRequestValid | internal/ports/io.auth.go:115-122 | a valid request names a known user type, one channel, a five-digit token and a password with an upper-case letter, a digit and a special character |
| Validations.ResetPhonePostRequestValid | internal/ports/io.auth.go:124-129 | a valid request names a known user type, a five-digit token and an 11-digit phone |
| Validations.ResetEmailPostRequestValid | internal/ports/io.auth.go:131-136 | a valid request names a known user type, a five-digit token and an address with an '@' |
| Validations.ArabicNameLimit | internal/ports/validations.go:72-86 | a name in Arabic letters passes exactly when it has 2 to 125 letters, since its 250-byte cap counts two bytes per letter |
| Validations.ArabicLen | internal/ports/validations.go:72-86 | Arabic letters take two UTF-8 bytes each |
| Validations.SegmentsShape | internal/ports/validations.go:88-103 | the username pattern's body has no leading, trailing or doubled dot, no newline, and only letters, digits, `-`, `_` and dots |
| Validations.SegmentsRestShape | internal/ports/validations.go:88-103 | the same, for the pattern's repeated tail |
| Validations.UsernameAccepts | internal/ports/validations.go:88-103 | an accepted username has 3–64 bytes and is the pattern's body, possibly followed by one newline |
| Validations.UsernameTrailingNewline | internal/ports/validations.go:88-103 | "abc\n" is accepted although the pattern's body forbids newlines |
| Validations.SegmentsNoNewline | internal/ports/validations.go:88-103 | nothing ending in a newline matches the body |
| Validations.UsernameCorrectedShape | internal/ports/validations.go:88-103 | with an end-of-text anchor, accepted usernames have 3–64 characters, no edge or doubled dots and no newline |
| Validations.PasswordTrailingNewline | internal/ports/validations.go:149-165 | "Passw0rd!\n" is accepted, newline included |
| Validations.PasswordCorrectedNoNewline | internal/ports/validations.go:149-165 | with an end-of-text anchor, accepted passwords have 8–100 characters, an upper-case letter, a digit, a special character and no newline |
| Validations.PhoneAccepts | internal/ports/validations.go:105-115 | a phone is valid exactly when it is 11 digits starting with 0 |
| Validations.OtpTokenAccepts | internal/ports/validations.go:167-177 | an OTP is exactly five digits |
| Validations.OtpKeyAcceptsComma | internal/ports/validations.go:183-196 | the key class `)-_` is a range, so "aaaaaaa," is accepted |
| Validations.OtpKeyCorrectedNarrows | internal/ports/validations.go:183-196 | every key the literal-dash class accepts is accepted as written too |
| Validations.LastIndex | internal/ports/validations.go:239-246 | the last occurrence of a character, or -1 when absent |
| Validations.EmailValidMasks | internal/ports/validations.go:239-246 | a valid email splits as local@domain with a non-empty local part and exactly one '@', so MaskEmail cannot panic on it |
| Validations.AvatarObjectNameOfId | internal/ports/validations.go:229-237 | the object name of any id passes the avatar object-name validator |
| Validations.AvatarValidator | internal/ports/validations.go:212-227 | no avatar means no image; a data URI that decodes is an image; any other text is a bad request |
| Validations.SignupKeyOptional | internal/ports/io.auth.go:89-99 | sign-up validation does not depend on the key |
| Otp.DigitChar | internal/services/auth.go:406-408 | the digit character of d has value d |
| Otp.FormatDecimal | internal/services/auth.go:406-408 | the decimal digits of n, with no leading zero |
| Otp.FormatLength | internal/services/auth.go:406-408 | n between 10^(k-1) and 10^k has k digits |
| Otp.Format05d | internal/services/auth.go:406-408 | %05d gives digits whose value is n |
| Otp.LeadingZeros | internal/services/auth.go:406-408 | zero padding does not change the value |
| Otp.GenerateRandomOtp | internal/services/auth.go:406-408 | the code is a valid five-digit OTP whose value is 10000 + draw |
| Otp.OtpCodesCovered | internal/services/auth.go:406-408 | every code from 10000 to 99999 can be drawn |
| Otp.KeyRuns | internal/services/auth.go:410-417 | the key alphabet's runs are a–z, A–Z, 0–9 and the specials |
| Otp.KeyAlphabetChars | internal/services/auth.go:410-417 | every alphabet character is allowed by the key validator |
| Otp.GenerateRandomKey | internal/services/auth.go:410-417 | the loop builds the drawn key, and it passes both key validators |
| Jwts.RefreshClaims | internal/services/auth.go:538-574 | refresh claims have type refresh, no embedded token, and the given expiry |
| Jwts.AccessClaims | internal/services/auth.go:538-574 | access claims have type access, embed the refresh token, and carry the given expiry |
| Jwts.ExtendsTransitive | internal/services/auth.go:538-574 | the signer's registry only grows |
| Jwts.Signer.constructor | internal/services/auth.go:36-87 | the signer starts with nothing signed |
| Jwts.Signer.Sign | internal/services/auth.go:538-574 | signing is deterministic: known claims get their token back, and new claims get a token never issued before |
| Jwts.Signer.Verify | internal/services/auth.go:576-610 | a token verifies exactly when it was signed and has not expired, yielding its claims |
| Jwts.ParseClaims | internal/services/auth.go:576-610 | a bad signature or a wrong type is unauthorised; success parses the id and rebuilds the user and the token pair; an access token without a refresh claim panics |
| Jwts.AccessRoundTrip | internal/services/auth.go:538-610 | parsing minted access claims returns the user, without avatar, and both tokens |
| Jwts.RefreshRoundTrip | internal/services/auth.go:538-610 | parsing minted refresh claims returns the user and the refresh token |
| Jwts.TypesIsolated | internal/services/auth.go:595-600 | an access token never passes as refresh, nor the reverse |
| UserModels.UserModelFromUserType | internal/ports/models.user.go:41-50 | admin and client select their model; any other type panics |
| UserModels.NewRow | internal/ports/models.user.go:83-96 | a new row keeps its fields, stores empty contacts and passwords as NULL, and is live with both timestamps now |
| UserModels.GetAvatarUrl | internal/ports/models.user.go:37-39 | the avatar URL is prefix + user type + "/" + id + ".png" |
| UserModels.AvatarUrlObjectName | internal/ports/models.user.go:37-39 | the URL's last segment is a valid avatar object name |
| UserModels.ToUserAsWritten | internal/ports/models.user.go:148-160 | id, name and type are copied; admins keep their username and clients get ""; the avatar is set exactly when the row has one, and then it is the avatar URL |
| UserModels.ToUser | internal/ports/models.user.go:148-160 | as evidently intended: both models copy the username, and otherwise it is the as-written record |
| UserModels.ClientUsernameDropped | internal/ports/models.user.go:200-211 | the client conversion loses a non-empty username |
| UserModels.Deleted | internal/ports/models.user.go:162-188 | soft deletion flags the row and clears its email; it keeps phone, password, identity and creation time, and touches updatedAt |
| Cache.IoError | internal/repository/cache.go:46-118 | a Redis failure is internal and names the cache operation |
| Cache.SetThenGet | internal/repository/cache.go:65-83 | a value set with a TTL reads back until it expires, and reads as "" afterwards |
| Cache.SetOverwrites | internal/repository/cache.go:65-71 | a second SET replaces the first |
| Cache.OthersUnchanged | internal/repository/cache.go:65-118 | setting or deleting a key leaves every other key's reading unchanged |
| Cache.DeleteThenGet | internal/repository/cache.go:85-91 | a deleted key reads as "" |
| Cache.OtpKeysSeparate | internal/repository/cache.go:65-71 | OTP keys of one identity coincide exactly when the user type and the OTP type both agree |
| Cache.SignupKeysSeparate | internal/repository/cache.go:93-99 | sign-up key keys of one identity coincide exactly when the user types agree |
| Cache.CodesAndKeysSeparate | internal/repository/cache.go:65-99 | an OTP key never collides with a sign-up key key |
| Cache.Cache.constructor | internal/repository/cache.go:19-44 | the cache starts empty and reachable |
| Cache.Cache.Put | internal/repository/cache.go:65-71 | SET with a TTL, or an I/O error with nothing written |
| Cache.Cache.Del | internal/repository/cache.go:85-91 | DEL, or an I/O error with nothing removed |
| Cache.Cache.Read | internal/repository/cache.go:73-83 | GET reads the live value, or "" when the key is missing, or an I/O error |
| Cache.Cache.AddJwtToBlacklist | internal/repository/cache.go:46-52 | stores "true" under the token for the given lifetime |
| Cache.Cache.IsJwtInBlacklist | internal/repository/cache.go:54-63 | a token absent or expired is not blacklisted; a live key is blacklisted whatever it holds, since the scan into a bool never fails; an I/O fault is an error |
| Cache.Cache.SetOtpToken | internal/repository/cache.go:65-71 | stores the code under its (identity, user type, OTP type) key with the TTL |
| Cache.Cache.GetOtpToken | internal/repository/cache.go:73-83 | reads the code under that key, "" if none |
| Cache.Cache.DeleteOtpToken | internal/repository/cache.go:85-91 | removes that key |
| Cache.Cache.SetOtpKey | internal/repository/cache.go:93-99 | stores the sign-up key under its (identity, user type) key |
| Cache.Cache.GetOtpKey | internal/repository/cache.go:101-110 | reads that key, "" if none |
| Cache.Cache.DeleteOtpKey | internal/repository/cache.go:112-118 | removes that key |
| Relational.DbError | internal/repository/relational.go:126-433 | a driver error is internal and names the repository method |
| Relational.MaximumReference | internal/repository/relational.go:26-37 | the contact cap is 10 by default, else the parsed integer; an unparsable value is fatal |
| Relational.KindOf | internal/ports/models.user.go:41-50 | the table chosen for a user type answers to that type |
| Relational.Visible | internal/repository/relational.go:224-252 | a fetched row is reported deleted if flagged; otherwise it is returned when present |
| Relational.UsernameKey | internal/repository/relational.go:239-252 | the key of a row with that username, or none exists |
| Relational.ByUsername | internal/repository/relational.go:239-252 | the row with that username, present exactly when one exists |
| Relational.FindUsername | internal/repository/relational.go:283-310 | the username query; with unique usernames its answer is UsernameKey's |
| Relational.FindByUsername | internal/repository/relational.go:239-252 | the username query; with unique usernames its answer is ByUsername's |
| Relational.ByUsernameKey | internal/repository/relational.go:239-310 | lookup by username and lookup of its key agree |
| Relational.ByUsernameUnique | internal/repository/relational.go:173-206 | with unique usernames, a row is found by its own username |
| Relational.ExistsResponse | internal/repository/relational.go:126-156 | exist, deleted, and the has-email, has-phone and has-password flags of a live row |
| Relational.Relational.constructor | internal/repository/relational.go:44-82 | the store starts with empty tables, reachable, with the given cap and salt |
| Relational.Relational.Write | internal/repository/relational.go:173-410 | replaces one user type's table and leaves the other |
| Relational.Relational.UserExists | internal/repository/relational.go:126-156 | the check-post answer for the username's row; an unknown type panics; an unreachable database is an error |
| Relational.Relational.UserExistsById | internal/repository/relational.go:158-171 | whether the id exists and whether it is deleted |
| Relational.Relational.GetUserById | internal/repository/relational.go:224-237 | the row by id, split into found or deleted |
| Relational.Relational.GetUserByUsername | internal/repository/relational.go:239-252 | the row by username, split into found or deleted |
| Relational.Relational.AuthUserPassword | internal/repository/relational.go:208-222 | an unknown username or a wrong password is refused with its template; otherwise the account's as-written user record |
| Relational.Relational.CreateUser | internal/repository/relational.go:173-206 | refuses a taken username or id and adds exactly the new row, with the password hashed; it returns the as-written user record |
| Relational.Relational.UpdateUserPasswordById | internal/repository/relational.go:254-281 | an unreachable database fails at Begin; otherwise an unknown type panics, an unknown id is user-not-found, and a found row gets the new hash and a new update time, nothing else changing |
| Relational.Relational.UpdateUserPasswordByUsername | internal/repository/relational.go:283-310 | the same, by username |
| Relational.Relational.UpdateUserProfileById | internal/repository/relational.go:312-337 | an unreachable database fails at Begin; otherwise an unknown type panics, an unknown id is user-not-found, a username taken by another row violates uniqueness, and otherwise username, name and avatar flag are rewritten |
| Relational.Relational.DeleteUserById | internal/repository/relational.go:339-346 | an unreachable database fails at Begin with only DeleteUserById in the trail; otherwise an unknown type panics, an absent id changes nothing, and a present row is soft-deleted through its model's Delete |
| Relational.Relational.UpdateUserPhoneById | internal/repository/relational.go:348-378 | an unreachable database fails at Begin; otherwise an unknown type panics, a missing id is user-not-found, and a found row meets the table-less Count, which fails with "Table not set"; the store never changes |
| Relational.Relational.UpdateUserEmailById | internal/repository/relational.go:380-410 | the same over the email |
| Relational.ContactLimit | internal/repository/relational.go:412-433 | as written, the cap on either column fails for every contact with an internal "Table not set" error naming that column's check, whether or not the database is reachable |
| Relational.Relational.ContactLimitCorrected | internal/repository/relational.go:412-433 | as evidently intended: an unreachable database is connection lost; otherwise it passes exactly when the contact is on fewer than `limit` rows of both tables, and refuses with the column's taken-by-multiple error |
| Relational.Relational.CountOf | internal/repository/relational.go:412-433 | the count of the chosen column, over both tables |
| Relational.TakenByMultiple | internal/repository/relational.go:412-433 | the email or phone taken-by-multiple template, with the column's reason key |
| Relational.Relational.CheckUserEmailLimit | internal/repository/relational.go:412-422 | its answer is ContactLimit's for the email column |
| Relational.Relational.CheckUserPhoneLimit | internal/repository/relational.go:423-433 | its answer is ContactLimit's for the phone column |
| Relational.Relational.PhoneCount | internal/repository/relational.go:361-367 | zero exactly when no row of either table holds the phone |
| Relational.Relational.EmailCount | internal/repository/relational.go:393-399 | zero exactly when no row of either table holds the email |
| Relational.TablelessCountRefuses | internal/repository/relational.go:412-433 | wherever the intended cap passes a contact the cap as written refuses it, and the two never agree when the database is unreachable or the contact is under the limit |
| Externals.AvatarObjectsDistinct | internal/repository/s3.go:71-82 | avatar object names determine the user type and the id |
| Externals.RemoteError | internal/repository/s3.go:71-113 | a remote failure is internal and carries its callers |
| Externals.ObjectStore.constructor | internal/repository/s3.go:26-69 | the bucket starts empty and reachable |
| Externals.ObjectStore.UploadAvatar | internal/repository/s3.go:71-113 | puts the user's avatar object, or fails with nothing stored |
| Externals.ObjectStore.DeleteAvatar | internal/repository/s3.go:76-83 | removes the user's avatar object, or fails with nothing removed |
| Externals.RecoveryEmailHasNoTemplates | internal/services/telecom.go:129-136 | change-recovery-email has no SMS template, mail subject or mail body; every other OTP type has all three |
| Externals.Sprintf1 | internal/services/telecom.go:114-127 | a format with no verb gets Go's `%!(EXTRA string=…)` suffix |
| Externals.SprintfAtEnd | internal/services/telecom.go:114-127 | a trailing %s is replaced by the argument |
| Externals.NoVerbConcat | internal/services/telecom.go:114-127 | concatenating verb-free texts stays verb-free |
| Externals.HeaderNoVerb | internal/services/telecom.go:114-118 | the message header has no verb |
| Externals.TemplateShape | internal/services/telecom.go:114-127 | each SMS template is header + caption + %s |
| Externals.OtpMessagesCarryCode | internal/services/telecom.go:114-136 | each formatted SMS is header + caption + code |
| Externals.RecoveryEmailSms | internal/services/telecom.go:129-136 | formatting the missing template yields only Go's EXTRA marker around the code |
| Externals.Outbox.constructor | internal/services/telecom.go:23-48 | nothing has been sent yet |
| Externals.Outbox.SendSms | internal/services/telecom.go:50-83 | appends one SMS, or fails with nothing sent |
| Externals.Outbox.SendMail | internal/services/mailcom.go:71-110 | appends one mail |
| Ratelimiter.KeyKindOf | internal/services/ratelimiter.go:94-103 | IP and id give the combined key; one of them gives its own key; neither is fatal |
| Ratelimiter.Registry.constructor | internal/services/ratelimiter.go:37-57 | no stores yet |
| Ratelimiter.Registry.Handler | internal/services/ratelimiter.go:59-109 | a second store for the same route is fatal; otherwise it records the route's budget and keys it as requested |
| Ratelimiter.KeyOf | internal/services/ratelimiter.go:111-170 | a missing X-Forwarded-For or X-User-ID is an error; a key starts with the route prefix |
| Ratelimiter.IpKeysSeparate | internal/services/ratelimiter.go:111-128 | IP keys coincide exactly when the IPs do |
| Ratelimiter.CombinedKeysSeparate | internal/services/ratelimiter.go:149-170 | with ids of equal length, combined keys coincide exactly when both IP and id do |
| Ratelimiter.CombinedKeysCanCollide | internal/services/ratelimiter.go:168 | without a separator, IP "1" with id "23" shares a key with IP "12" and id "3" |
| Ratelimiter.ResponseWriter.constructor | internal/services/ratelimiter.go:225-229 | status 200, nothing written |
| Ratelimiter.ResponseWriter.WriteHeader | internal/services/ratelimiter.go:264-269 | only the first header write sets the status |
| Ratelimiter.ResponseWriter.Write | internal/services/ratelimiter.go:271-276 | appends the body, implicitly writing status 200 first |
| Ratelimiter.StatusError | internal/services/ratelimiter.go:238-249 | 429 becomes too-early with a body of at least 71 bytes and too-many-requests otherwise; 500 becomes internal; other statuses pass |
| Ratelimiter.StatusErrorKeepsStatus | internal/services/ratelimiter.go:238-249 | the mapped error keeps the HTTP status |
| Server.Ctx.constructor | internal/server/server.go:156-174 | a request context with its path and headers and no locals |
| Server.CanPassAsWritten | internal/server/server.go:156-174 | without a "phone" local, the type assertion panics |
| Server.CanPass | internal/server/server.go:156-174 | admins pass; others pass exactly when the target is their id or, when a phone is given, their phone; the refusal is unauthorised |
| Server.CanPassAgrees | internal/server/server.go:156-174 | with a phone local, the corrected and as-written checks agree |
| Server.LaterPhonesIgnored | internal/server/server.go:156-174 | only the first target phone matters |
| Server.BeforeSeparator | internal/server/middlewares.go:45-60 | the host name is the text before ':' |
| Server.HostAllowed | internal/server/middlewares.go:45-60 | no host is allowed by an empty list, and a host whose name is listed exactly is allowed |
| Server.PortIgnored | internal/server/middlewares.go:45-60 | the port does not affect host admission |
| Server.NoSeparator | internal/server/middlewares.go:45-60 | a host without a port is its own name |
| Server.AllowedHosts | internal/server/middlewares.go:45-60 | passes exactly when the host, without its port, equals an allowed host case-insensitively; otherwise 403 naming the host |
| Server.HealthPathOf | internal/server/middlewares.go:70-73 | /version/name/health is a health path |
| Server.ForwardedIdentity | internal/server/middlewares.go:74-88 | X-User-ID must parse, and X-User-Phone and X-User-UserType must be set; each miss is a bad request naming the header |
| Server.AuthMiddleware | internal/server/middlewares.go:61-93 | health paths pass untouched; otherwise it stores id, phone and type as locals or fails with the caller added |
| Server.Allowed | internal/server/server.go:156-174 | an admin or the target itself always passes; anyone else passes only by carrying the first target phone |
| Server.GatedCanPass | internal/server/server.go:156-174 | behind the service middleware, CanPass never panics and passes exactly as Allowed says |
| Server.ContentTypeCheck | internal/server/middlewares.go:95-103 | passes exactly for an accepted content type, and is 415 naming it otherwise |
| Gateway.BearerToken | internal/server/gateway/middlewares.go:42-47 | the token is no longer than the header and has no white space at either end |
| Gateway.BearerRoundTrip | internal/server/gateway/middlewares.go:42-47 | "Bearer " + t yields t for a trimmed token that does not contain "Bearer" |
| Gateway.GatedCanPassPanics | internal/server/gateway/middlewares.go:84-90 | the gateway sets no "phone" local, so CanPass as written panics there; the corrected one decides by type and id |
| Gateway.ForwardedRequestLacksPhone | internal/server/gateway/middlewares.go:84-86 | a gated request without X-User-Phone is refused by the services' middleware |
| Gateway.ForwardedIdentityWithClientPhone | internal/server/gateway/middlewares.go:84-86 | with a client-supplied phone header, the gated identity reaches the service |
| Gateway.GatedIdKey | internal/server/gateway/middlewares.go:84-86 | behind the gate, the id limiter keys on the token's user id |
| Gateway.GatedIdKeysSeparate | internal/server/gateway/middlewares.go:84-86 | two gated requests share an id key exactly when their users do |
| Gateway.ChainOrder | internal/server/gateway/routes.go:160-174 | authenticated routes run the first middleware, then the limiter, then the rest; others run the limiter first; the handler is always last |
| Gateway.RegisteredUpTo | internal/server/gateway/routes.go:32-144 | one registration per table row |
| Gateway.RegisteredAll | internal/server/gateway/routes.go:32-144 | one registration per table row |
| Gateway.GatewayServer.constructor | internal/server/gateway/server.go:11-32 | no routes yet |
| Gateway.GatewayServer.Parse | internal/server/gateway/middlewares.go:67-70 | ParseToken against the signer and the clock |
| Gateway.GatewayServer.Admit | internal/server/gateway/middlewares.go:71-83 | refuses non-admins on admin routes, blacklisted tokens and missing or deleted accounts, in that order |
| Gateway.GatewayServer.Gate | internal/server/gateway/middlewares.go:51-93 | on success sets X-User-ID, X-User-Username and X-User-UserType and the locals; on failure changes nothing and adds the caller |
| Gateway.GatewayServer.AuthBearerMiddleware | internal/server/gateway/middlewares.go:29-49 | a missing Authorization header is unauthorised; otherwise it gates the bearer token |
| Gateway.GatewayServer.AuthUrlMiddleware | internal/server/gateway/middlewares.go:12-27 | gates the :jwt path parameter |
| Gateway.GatewayServer.Register | internal/server/gateway/routes.go:146-192 | a route registers exactly when its method is known, an authenticated route brings its gate, it is keyed by address or id, and its route has no limiter store yet; its chain is ChainOrder's, with a budget of tokens×10 |
| Gateway.GatewayServer.RegisterAll | internal/server/gateway/routes.go:32-144 | distinct, registrable routes with fresh limiters all register, in order |
| Gateway.GatewayServer.RegisterV1 | internal/server/gateway/routes.go:32-144 | the v1 table registers completely on a fresh limiter |
| Gateway.LoggedOutTokenRefused | internal/server/gateway/middlewares.go:76-78 | a token blacklisted by logout never passes the gate while the entry lives |
| Gateway.GatePassSound | internal/server/gateway/middlewares.go:51-93 | a passing token was signed, is unexpired, of the right type, not blacklisted, admin where required, and names a live account |
| Gateway.DistinctJoin | internal/server/gateway/routes.go:32-144 | joining route groups keeps routes distinct |
| Gateway.V1RoutesRegistrable | internal/server/gateway/routes.go:32-144 | every v1 route is registrable |
| Gateway.V1RoutesDistinct | internal/server/gateway/routes.go:32-144 | no two v1 routes share a limiter store |
| Gateway.AllOfJoin | internal/server/gateway/routes.go:32-144 | a property of every route survives joining groups |
| Gateway.AllOfV1 | internal/server/gateway/routes.go:32-144 | a property of every group holds of the v1 table |
| Gateway.V1LimiterKeys | internal/server/gateway/routes.go:59-140 | an authenticated v1 route is limited by user id and any other by address; an authenticated route's first middleware is the bearer gate |
| Gateway.V1GateKinds | internal/server/gateway/routes.go:59-140 | only the two sign-up key routes demand an admin, and only /refresh takes a refresh token |
| Gateway.GateBeforeIdLimiter | internal/server/gateway/routes.go:160-166 | on id-keyed routes the bearer gate runs before the limiter that reads its header |
| AuthService.AuthSettings | internal/services/auth.go:36-87 | the service starts exactly when the secret, both integer expiries, the domain, the version and the support email are set, with lifetimes of minutes × 60·10^9 ns wrapped to int64; otherwise it is fatal |
| AuthService.AccountIdentity | internal/services/auth.go:450-455 | an account's OTP identity is its email when set, else its phone |
| AuthService.PhoneSigninMissesEmailCode | internal/services/auth.go:208-247 | for an account with both contacts, a code sent by phone is stored under the email, and sign-in by phone looks under the phone |
| AuthService.OtpTarget | internal/services/auth.go:420-468 | deleted, missing or already-existing accounts are refused per OTP type; the capacity check runs for sign-up; success masks the identity for the chosen channel |
| AuthService.MailToPhoneOnlyAccountPanics | internal/services/auth.go:457-465 | mailing a code to an account with only a phone panics in MaskEmail |
| AuthService.OtpTargetCorrected | internal/services/auth.go:420-468 | as OtpTarget, but a missing contact on the chosen channel is refused and the mask is of that contact |
| AuthService.MailToPhoneOnlyAccountRefused | internal/services/auth.go:457-465 | the corrected target refuses it as user-has-not-set-email |
| AuthService.SmsRecipientsCorrected | internal/services/auth.go:483 | an account's SMS goes to its own phone; a sign-up SMS goes to the requested phone |
| AuthService.MailRecipientCorrected | internal/services/auth.go:496 | as evidently intended: an account's code is mailed to its own email, and a sign-up code to the requested email |
| AuthService.CorrectedRecipientsHoldTheCode | internal/services/auth.go:436-500 | with the corrected recipients, a code that passes the checks is sent to exactly the contact it is stored under |
| AuthService.OtpReply | internal/services/auth.go:481-500 | SendOtp answers nil on the SMS path and the masked contact by mail |
| AuthService.KeySmsAsWritten | internal/services/auth.go:532-533 | the sign-up key SMS is the raw template, with the key never substituted |
| AuthService.KeySmsLacksKey | internal/services/auth.go:532-533 | every key produces the same SMS, ending in a literal %s |
| AuthService.KeySms | internal/services/auth.go:532-533 | the intended SMS is header + caption + key |
| AuthService.IssuedCodeIsChecked | internal/services/auth.go:208-247 | a code stored by SendOtp is found by the sign-in lookup on the matching channel until its TTL runs out |
| AuthService.MintedAccessParses | internal/services/auth.go:538-610 | a minted access token parses back to its user until expiry, then is unauthorised; it never parses as refresh |
| AuthService.MintedRefreshParses | internal/services/auth.go:538-610 | a minted refresh token parses back until expiry and never as access |
| AuthService.ForgedTokensRejected | internal/services/auth.go:576-610 | an unsigned token is unauthorised |
| AuthService.Auth.constructor | internal/services/auth.go:36-87 | wires the stores and the token lifetimes |
| AuthService.Auth.GenerateToken | internal/services/auth.go:538-574 | signs a refresh token and an access token embedding it, with their lifetimes, and stores both on the login |
| AuthService.Auth.Issue | internal/services/auth.go:538-574 | a fresh login for the user with a minted pair |
| AuthService.Auth.ParseToken | internal/services/auth.go:576-610 | returns a fresh login exactly when ParseClaims succeeds, with its user and tokens |
| AuthService.Auth.CheckPost | internal/services/auth.go:89-93 | the repository's exists answer, with the caller added to failures |
| AuthService.Auth.CheckById | internal/services/auth.go:95-98 | whether the id exists and whether it is deleted |
| AuthService.Auth.LogoutPost | internal/services/auth.go:273-282 | blacklists the access token for the access lifetime, then the refresh token for the refresh lifetime; it stops at the first failure and panics without tokens |
| AuthService.Auth.RefreshPost | internal/services/auth.go:284-295 | mints a new pair for the same user |
| AuthService.Auth.LookupByName | internal/services/auth.go:210-220 | a live account by username, or the deleted, not-found or database error |
| AuthService.Auth.LookupById | internal/services/auth.go:346-356 | a live account by id, or the deleted, not-found or database error |
| AuthService.Auth.ConsumeCode | internal/services/auth.go:228-237 | a matching code is deleted and accepted; a wrong or missing one is token-incorrect with nothing deleted; a DEL that fails after a matching GET is an internal error and leaves the code stored and usable |
| AuthService.Auth.SpendByName | internal/services/auth.go:210-237 | the lookup and then the code check under the channel's identity |
| AuthService.Auth.SpendById | internal/services/auth.go:346-366 | the lookup and then the code check under the account's phone or email |
| AuthService.Auth.SigninPost | internal/services/auth.go:208-247 | spends the code for a live account, then returns a fresh login with a minted pair; on failure nothing changes |
| AuthService.Auth.ConsumeKey | internal/services/auth.go:160-174 | an admin's sign-up key is deleted exactly when it matches and its DEL succeeds; otherwise nothing is deleted and the GET, mismatch or DEL failure is returned |
| AuthService.Auth.SpendSignupSecrets | internal/services/auth.go:160-185 | checks the key, for admins, then the sign-up code; each matching secret whose DEL succeeds is deleted, and a key spent before a failing code check stays spent |
| AuthService.Auth.CreateAccount | internal/services/auth.go:186-200 | validates the avatar, creates the row and uploads the avatar |
| AuthService.Auth.SignupPost | internal/services/auth.go:152-206 | spends the key and the code, adds exactly the new row, uploads the avatar and mints a login; without both secrets nothing else changes |
| AuthService.Auth.CreateAndIssue | internal/services/auth.go:186-206 | creates the account and mints its login |
| AuthService.Auth.SigninPasswordPost | internal/services/auth.go:249-271 | a login exactly when the password check passes |
| AuthService.Auth.PasswordSignin | internal/services/auth.go:249-262 | a sign-in succeeds only for a known type with the database up, a live account under that username, and a non-empty password that verifies against its hash, giving that account's user; it panics exactly for an unknown type |
| AuthService.Auth.CheckPassword | internal/services/auth.go:251-262 | the repository's password check |
| AuthService.Auth.ResetPasswordPost | internal/services/auth.go:297-341 | spends the code, rehashes the password of exactly that row and mints a login; when the update's transaction fails, the code is spent all the same, the password is unchanged and no token is minted |
| AuthService.Auth.RewriteAndIssue | internal/services/auth.go:331-340 | rehashes and mints, or, when the transaction fails, returns its error with nothing rehashed or minted |
| AuthService.Auth.RewritePassword | internal/services/auth.go:331-333 | on the row just read by name, a failed transaction changes nothing; otherwise only that row's password and update time change |
| AuthService.Auth.WritePhone | internal/services/auth.go:367-369 | on an account just found, the phone write fails at Begin or else with the table-less Count's error |
| AuthService.Auth.WriteEmail | internal/services/auth.go:397-399 | the same over the email |
| AuthService.Auth.ResetPhonePost | internal/services/auth.go:343-372 | a failed lookup or code check changes nothing; a correct code is deleted, then the write fails, at Begin or with the table-less Count's error, so the phone never changes |
| AuthService.Auth.ResetEmailPost | internal/services/auth.go:374-402 | the same over the email |
| AuthService.Auth.OtpChecks | internal/services/auth.go:420-468 | a success names a known type with the database up and the visible row under the username; for any code but sign-up it is that live account, and the code goes under the account's own contact |
| AuthService.Auth.CheckOtpTarget | internal/services/auth.go:420-468 | the lookup, the contact cap for a sign-up and the target checks, in the source's order; a success names a live account of a known type and the identity the code goes under |
| AuthService.Auth.StoreCode | internal/services/auth.go:469-480 | a failed GET is an error; a live code is too early; otherwise a fresh code is stored for two minutes, unless the SET fails, which stores nothing |
| AuthService.Auth.DeliverOtp | internal/services/auth.go:481-500 | texts the code to the phone in the request and answers nil; mails it to the looked-up user's email and answers the mask; panics by mail without a mail body or without a user |
| AuthService.Auth.SendOtp | internal/services/auth.go:419-501 | runs the checks, stores a fresh code and delivers it as DeliverOtp does; a failure at any step leaves later stores untouched |
| AuthService.Auth.MethodOtpGet | internal/services/auth.go:147-150 | SendOtp with the caller added; a stored code sent by SMS goes to the phone in the request |
| AuthService.Auth.SignupCodeNeverIssued | internal/services/auth.go:436-447 | a sign-up code's checks never pass: with the database up and no such user they fail with the table-less contact cap |
| AuthService.Auth.SmsCodeTakeover | internal/services/auth.go:419-487 | a sign-in code sent by SMS goes to whatever phone the request names; it is stored under the named account's contact, and SigninPost accepts it for that account whenever the DEL that spends it can run |
| AuthService.Auth.StoredSigninCodeSpends | internal/services/auth.go:208-247 | a sign-in code just stored under the account's identity reads back there, and is accepted for that account unless its DEL fails |
| AuthService.Auth.ContactCap | internal/services/auth.go:436-448 | as written, the sign-up contact cap fails for every contact with an internal error naming the email check when an email is given, else the phone check |
| AuthService.Auth.SendKey | internal/services/auth.go:503-536 | draws a key, then checks the contact cap, which as written always fails with an internal "Table not set" error, connected or not, so nothing is stored or sent |
| AuthService.Auth.StoreAndSendKey | internal/services/auth.go:509-534 | stores the key for 48 hours under the sign-up contact, then mails it, or texts the bare template when there is no email |
| AuthService.Auth.SignupKeyGet | internal/services/auth.go:115-118 | SendKey with the caller added: always the cap's internal failure, its trail starting with this handler |
| AuthService.Auth.TmpSignupKeyGet | internal/services/auth.go:100-113 | reads back the stored sign-up key |
| AuthService.Auth.TmpMethodOtpGet | internal/services/auth.go:120-145 | reads back the stored code for the request's target |
| UserService.CheckFetchAsWritten | internal/services/user.go:36-46 | deleted is refused; a missing row panics on the nil model |
| UserService.CheckFetch | internal/services/user.go:36-46 | never panics: a missing row is user-not-found naming the id, and otherwise it agrees with the code |
| UserService.MissingIdPanics | internal/services/user.go:73-81 | an unknown id panics as written and is user-not-found corrected |
| UserService.AccountAsWritten | internal/services/user.go:36-46 | an unknown type or a missing id panics; otherwise the live account by id, or its error |
| UserService.PutResponseAsWritten | internal/services/user.go:68-70 | the reply's avatar is always the avatar URL |
| UserService.PutResponse | internal/services/user.go:68-70 | the reply's avatar is the URL when an avatar was sent, and "" when it was cleared |
| UserService.PutResponseAgreesWithGet | internal/services/user.go:48-71 | the corrected reply's avatar is what a later UserGet shows |
| UserService.ClearedAvatarStillLinked | internal/services/user.go:68-70 | as written, clearing the avatar still replies with its URL |
| UserService.DeleteCodeStoredElsewhere | internal/services/user.go:87-99 | for an account with an email, the delete-account code is stored under the email but checked under the phone |
| UserService.Service.constructor | internal/services/user.go:20-34 | wires the stores |
| UserService.Service.Lookup | internal/services/user.go:36-46 | the account as written: a live row by id, its error, or a panic for a missing id |
| UserService.Service.UserGet | internal/services/user.go:36-46 | the as-written user record of a live account, exactly when it exists; a missing id panics; a client's username is "" |
| UserService.Service.UserPut | internal/services/user.go:48-71 | validates the avatar, uploads or deletes it, rewrites exactly that row's profile and replies with the avatar URL |
| UserService.Service.DropAvatar | internal/services/user.go:82-86 | deletes the avatar object when there is one |
| UserService.Service.Confirm | internal/services/user.go:87-99 | with the token check, spends the delete-account code under the phone; a failed GET, a mismatch or a failed DEL leaves the code stored |
| UserService.Service.UserDelete | internal/services/user.go:73-101 | a missing id panics; otherwise it drops the avatar, spends the code and soft-deletes exactly that row; each failure stops the later steps, so a failed soft delete leaves the avatar removed and the code spent |

## Left out

- Concurrency: NoReplySend's goroutine fan-out, contexts and timeouts. A send is one atomic append.
- Wall-clock time: a logical clock in seconds stands in. TTLs and JWT expiry are compared against it.
- JWT signing and HMAC: a registry signer stands in. A token verifies only if it was issued. Signature forgery and key rotation are not modelled.
- bcrypt: a stand-in digest that preserves "verifies if and only if equal". The 72-byte input limit and the cost factor are not modelled.
- math/rand: draws are parameters, each within the range the source draws from.
- Mail HTML bodies and templates: a mail records its recipients, subject, OTP type and code only.
- S3 GetAvatar and image handling: image decoding, resizing and PNG encoding are abstracted as the `decoded` parameter of AvatarValidator.
- Mongo, the post service and tags are not part of this model.
- HTTP plumbing is not modelled: the gateway handlers, the proxies, BodyParser and the Validate/validator wiring, LoggerMiddleware, Swagger and static files.
- The logger, the TUI and the cmd entry points are not modelled.
- StructToMap and ImageReader are not modelled.
- Relational.Relational.PhoneCount and EmailCount: counts over both tables, used only by the corrected cap, ContactLimitCorrected. As written the Count names no table and fails (see "## Findings"). So CheckUserEmailLimit, CheckUserPhoneLimit, UpdateUserPhoneById, UpdateUserEmailById, SendKey, SignupKeyGet, ResetPhonePost, ResetEmailPost and sign-up SendOtp never succeed in this model.
- Relational.TableNotSet: gorm's error text is abridged. Its full wording, which names the Go type it could not parse, is not reproduced.
- Server.HostAllowed and AllowedHosts: EqualFold folds ASCII letters only. Go's strings.EqualFold also uses Unicode simple folding, so a host spelled with the Kelvin sign (U+212A) for 'k' passes in Go but not here.
- Validations.PasswordPattern, PasswordValidator, PasswordCorrectedNoNewline and PasswordTrailingNewline: regexp2's `\w` follows Unicode categories. The model counts every non-ASCII character as a word character, so "Passw0rd€" has a special character in Go but not here.
- AuthService.Auth.constructor: takes the token lifetimes in whole minutes. A duration AuthSettings wrapped (above 153722867 minutes) is not carried into token expiry.
- AuthService.Auth.SmsCodeTakeover: states that SigninPost's code check accepts the texted code; the login itself then follows from SigninPost's contract.
- Funcs.MaskEmail and Funcs.MaskPhone: slice by characters, not bytes. Non-ASCII input may split differently in Go.
- Caller tags use package names. internal/services/callers.go, which defines the packageCaller constants, is not part of this model.
- Redis store creation failure and the go-limiter token bucket itself are not modelled. The Registry records each route's budget.
- The TODO_DELETE table drops and first-user seeding are not modelled.
- Telecom's test-number shortcut in `send` is not modelled.
- NewAbstractServer's environment checks are not modelled.
- Server.CanPass: an explicit empty, non-nil phone slice is treated like no phone.
- Relational driver errors other than an unreachable database and unique-key violations are not modelled.
- Cache.Cache, Relational.Relational, Externals.ObjectStore and Externals.Outbox: faults stay fixed while one flow runs. Within a flow, two calls of the same kind fail or succeed together: two GETs on one key, two plain queries, two transactions, two bucket calls or two SMS sends. No flow states what happens when a fault starts between two such calls.
- Jwts.ParseClaims: only the id's UUID parse is modelled. JSON decoding of the other claims and its failures are not.

## Findings

| source | as written | input that shows it | evidently intended | confidence | as-written member | corrected member |
|---|---|---|---|---|---|---|
| internal/services/auth.go:483 | an account's OTP is texted to `req.PhoneNumber`, the phone named in the request | sign-in by phone for user U, naming the requester's own phone | text the account's own phone | high, not executed | AuthService.Auth.SmsCodeTakeover | AuthService.CorrectedRecipientsHoldTheCode |
| internal/ports/validations.go:183-196 | the key class contains `)-_`, which is a range | "aaaaaaa," | a literal `-` | high, not executed | Validations.OtpKeyAcceptsComma | Validations.OtpKeyCorrectedNarrows |
| internal/ports/validations.go:88-103 | `$` also matches before a final newline | username "abc\n" | reject newlines | medium, not executed | Validations.UsernameTrailingNewline | Validations.UsernameCorrectedShape |
| internal/ports/validations.go:149-165 | `$` also matches before a final newline, and in each lookahead `[\W_]` may match that newline | password "Passw0rd\n", whose only special character is the newline | reject newlines | medium, not executed | Validations.PasswordNewlineIsSpecial | Validations.PasswordCorrectedNoNewline |
| internal/services/auth.go:496 | the sign-up mail dereferences the looked-up user, which is nil for sign-up; reached only once the contact cap passes | sign-up OTP requested by email, with a passing cap | mail the requested email | medium, not executed | AuthService.Auth.DeliverOtp | AuthService.CorrectedRecipientsHoldTheCode |
| internal/services/auth.go:457-465 | a mail OTP for an account without an email masks its phone as an email | sign-in by email for an account with only a phone | refuse with user-has-not-set-email | high, not executed | AuthService.MailToPhoneOnlyAccountPanics | AuthService.MailToPhoneOnlyAccountRefused |
| internal/server/server.go:158-160 | CanPass asserts a "phone" local that the gateway gate never sets | a client calling /auth/reset-phone through the gateway | decide by type and id when no phone is set | medium, not executed | Gateway.GatedCanPassPanics | Server.CanPass |
| internal/services/user.go:38-45 | a missing id leaves the model nil, and its methods are still called | UserGet for an unknown id | user-not-found | high, not executed | UserService.MissingIdPanics | UserService.CheckFetch |
| internal/services/auth.go:532 | the key SMS template is sent without formatting in the key; reached only once the contact cap passes | sign-up key request by phone, with a passing cap | format the key into the template | medium, not executed | AuthService.KeySmsLacksKey | AuthService.KeySms |
| internal/ports/models.user.go:200-211 | ClientUserModel.ToUser omits the username | any client sign-in | copy the username, as the admin conversion does | high, not executed | UserModels.ClientUsernameDropped | UserModels.ToUser |
| internal/services/user.go:68-70 | UserPut always replies with the avatar URL | a profile update clearing the avatar | reply "" when the avatar was cleared | medium, not executed | UserService.ClearedAvatarStillLinked | UserService.PutResponseAgreesWithGet |
| internal/repository/relational.go:412-433 | `Where(...).Count(&count)` names no model or table, so gorm fails with "Table not set" while parsing the statement, before any connection is used; the same query sits at lines 361 and 393 | any sign-up key request or sign-up OTP, connected or not; any phone or email reset whose row is found | count over the user tables | medium, not executed | Relational.TablelessCountRefuses | Relational.Relational.ContactLimitCorrected |
