# Lecture-management admin UI: grade upload, SMS placeholders, auth store

A Dafny model of the three pieces of real logic in the lecture-management
Vue front end. The rest of the front end is REST glue, routing and theming.

- **Grade-image upload** (`src/api/grade.ts`, module `GradeUpload`).
  `uploadGradeImage` runs three remote steps in order. It requests a
  pre-signed URL, PUTs the file to S3, then creates the grade record. A
  single catch block rewrites any failure into one of three stage errors.
  It picks the stage from the JavaScript truthiness of two locals,
  `preSignedUrl` and `uploadedFileUrl`. The model is a method with those
  mutable locals. Each remote call's answer is a parameter, and the method
  also returns the list of remote calls it issued.
- **SMS template placeholders** (`src/utils/smsForm.ts`, module `SmsForm`).
  The global regex `/\$\$[^$]+\$\$/g` is modelled as a left-to-right scan.
  It tries a match at each position, resumes after a match and otherwise
  advances by one. A template is rejected when an extracted token is not
  the `value` of an allowed placeholder.
- **Auth store** (`src/stores/auth.ts`, module `Auth`). A class with the
  `token`, `authType` and `isAuthenticated` refs and a `map` standing for
  `localStorage` (keys `lmtk` and `lmtk_a_t`). `login` takes the backend's
  reply as a parameter and returns the route it navigates to.
- Module `Js` holds the JavaScript value rules the others share: nullable
  strings, truthiness, and `Number.prototype.toString()` on integers n with
  |n| < 10^21.

The model follows the code. The code has no compensation step: a failed
upload never revokes the pre-signed URL and never deletes the S3 object.
It also has no filename parsing and no batch coordinator, and the model
adds none of these. The stage blamed for a failure is read from the
locals, not from the step that failed. So a failure after a response with
an empty `signedUrl` is reported as the pre-signed URL failure, even when
the S3 or DB step is the one that threw. A DB failure after an ok S3
response with an empty `url` is reported as the S3 failure.

## Model

| member | source | states |
|---|---|---|
| `GradeUpload.UploadGradeImage` | src/api/grade.ts:16-55 | Calls issued are a prefix of presign, PUT, createGrade, and nothing else. createGrade runs exactly when presign succeeded and S3 answered ok, and it gets `params` unchanged. Success exactly when all three steps succeed, returning createGrade's response. Every failure becomes one stage error carrying the file name, and the final `throw error` is never reached. The stage is presign when `preSignedUrl` is falsy, S3 when it is truthy and `uploadedFileUrl` is falsy, and DB when both are truthy. |
| `GradeUpload.ErrorMessage` | src/api/grade.ts:39-51 | The thrown message starts with the stage's prefix, and the file name follows it. |
| `GradeUpload.ErrorMessageInjective` | src/api/grade.ts:39-51 | Two equal messages name the same stage and the same file. |
| `SmsForm.NextDollar` | src/utils/smsForm.ts:4 | Returns the first `$` at or after a position, or the end; everything skipped is not `$`. |
| `SmsForm.MatchAt` | src/utils/smsForm.ts:4 | A match found at position i ends after i, and the matched text is a `$$<non-$>+$$` token. |
| `SmsForm.TokenMatchesAt` | src/utils/smsForm.ts:4 | Conversely, a token occurring at i is exactly the match the regex finds at i. |
| `SmsForm.Scan` | src/utils/smsForm.ts:14 | Every span is a token inside the string, and spans are in order and do not overlap. |
| `SmsForm.MatchAll` | src/utils/smsForm.ts:14 | The extracted tokens are the scanned spans' text, and each is a token. |
| `SmsForm.ScanCoversOccurrence` | src/utils/smsForm.ts:14 | Every token occurrence starts inside some matched span, so the scan skips no token. |
| `SmsForm.MatchAllEmptyIffTokenFree` | src/utils/smsForm.ts:14 | Nothing is extracted exactly when no substring is a token. |
| `SmsForm.MatchesInOrderWithoutOverlap` | src/utils/smsForm.ts:14 | Any earlier match ends at or before any later match starts. |
| `SmsForm.InvalidOf` | src/utils/smsForm.ts:17-19 | A token is reported invalid exactly when it was used and no placeholder's `value` equals it. |
| `SmsForm.InvalidOfAppend` | src/utils/smsForm.ts:17-22 | The invalid list keeps the order of occurrence: filtering a concatenation concatenates the filtered parts. |
| `SmsForm.InvalidOfCounts` | src/utils/smsForm.ts:17-22 | Each invalid token appears as often as it is used, so duplicates are kept; allowed tokens never appear. |
| `SmsForm.ValidateSmsFormPlaceholders` | src/utils/smsForm.ts:12-24 | Passes exactly when every extracted token is some placeholder's `value`. Otherwise the message is the fixed prefix followed by the invalid tokens joined by ", ". |
| `SmsForm.AllowedIffValue` | src/utils/smsForm.ts:18 | A token is allowed exactly when it is among the list's `value` fields. |
| `SmsForm.InvalidOfSameValues` | src/utils/smsForm.ts:17-19 | Two lists with the same `value` set report the same invalid tokens. |
| `SmsForm.OnlyValuesMatter` | src/utils/smsForm.ts:18 | Two lists with the same `value` set give the same outcome, whatever their other fields hold. |
| `SmsForm.MoreAllowedKeepsPass` | src/utils/smsForm.ts:17-19 | Growing the set of allowed values never turns a pass into a failure. |
| `SmsForm.AppendingAllowedKeepsPass` | src/utils/smsForm.ts:17-19 | Appending entries to the allowed list keeps a passing template passing. |
| `SmsForm.TokenFreeAlwaysPasses` | src/utils/smsForm.ts:14-23 | A template containing no token passes against any list. |
| `SmsForm.EmptyListPassesIffTokenFree` | src/utils/smsForm.ts:14-21 | With an empty list, a template passes exactly when it contains no token. |
| `Auth.AuthStore.constructor` | src/stores/auth.ts:14-16 | The refs are read from storage, and `isAuthenticated` is true exactly when the stored `lmtk` is present and non-empty. The store starts consistent. |
| `Auth.AuthStore.SetToken` | src/stores/auth.ts:19-23 | Sets `token`, sets `isAuthenticated` to true and writes `lmtk`; `authType` is unchanged. The store is consistent afterwards exactly when the token is non-empty. |
| `Auth.AuthStore.SetAuthType` | src/stores/auth.ts:25-28 | Writes the decimal text of the number to the ref and to `lmtk_a_t`, and that text reads back as the number. The other refs are unchanged and consistency is kept. |
| `Js.IntToStringRoundTrip` | src/stores/auth.ts:25-28 | The decimal text written for an integer reads back as that integer. |
| `Auth.AuthStore.Login` | src/stores/auth.ts:31-75 | Accepts exactly a 2xx reply with a payload whose type is 0, 1 or 2 and whose token is truthy. On acceptance, type 0 routes to "/admin" and 1 or 2 to "/grades", and both the type and the token are stored. Otherwise no route is chosen and nothing changes. A 404 returns nothing. A rejected payload rethrows its message, a payload without `data` rethrows the destructuring error, and a non-404 HTTP error or a missing response rethrows the request error. Consistency is kept. |
| `Auth.AuthStore.Logout` | src/stores/auth.ts:78-83 | Clears `token` and `isAuthenticated` and removes both storage keys, but keeps the `authType` ref. |

## Left out

- Auth.AuthStore.SetAuthType: writes plain decimal text for any integer, while JavaScript switches to exponent notation from 10^21 (and integers above 2^53 are not exact numbers). Only 0, 1 and 2 reach it, because it is not exported and `login` calls it only after the account-type test.
- HTTP transport: the axios requests, `fetch`, the request and response interceptors of `src/utils/axios.ts` and the 10 s timeout. Their results are parameters of the model.
- The response interceptor's removal of `lmtk` on an `AU-403` reply changes `localStorage` behind the store's back. It is not modelled, so the store's consistency statements assume no other writer.
- `alert`, `console.log` and `router.push` as effects. Only the chosen route is returned.
- The file's bytes. `File` keeps only its name and MIME type.
- `IResponse` (`src/types/common/response`) is not part of this model; `ApiResponse` stands for it opaquely.
- Auth.AuthStore.Login: the payload's `authType` is an integer. A non-number value, such as the string "0", fails the `includes` check in the source like any other unknown value, and the model only covers that case through out-of-range integers. A non-string `accessToken` is likewise not modelled.
- Strings are sequences of Unicode scalar values, while JavaScript strings are UTF-16 code units. `$` is a single code unit that never occurs inside a surrogate pair, so the tokens found are the same.
- The CRUD wrappers (`validateGradeImage`, `fetchGrades`, `deleteGrade` and the other API files), routing, app bootstrap, theme and type declarations carry no logic of their own.
