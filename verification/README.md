# Application-form validator

This project models the client-side validation schema of the candidate application form
(`website/front/src/lib/schemas/application.schema.ts`). The schema is written with Zod. It gives
each key of the submitted record a rule:

- bounded strings of 1 to 50 characters;
- a region select that must not be empty;
- two phone numbers;
- two free-text fields limited to 100 space-separated words;
- yes/no enums;
- two required uploads and five optional ones;
- a terms-agreement flag that must be true;
- a record-level refinement that always passes.

The same file builds the form's default values.

The model is pure. Modules:

- `Wrappers`: the `Option` type used for undefined fields.
- `JsString`: `String.prototype.split` with a one-character separator, and `Array.prototype.join`. It proves that they are inverse, and that a split has one piece more than the string has separators.
- `ApplicationSchema`: the constants, the data model and one function per Zod rule. `RuleOf` is the schema's key-to-rule table and `ValueOf` gives a submission's value under a key. `Apply` runs a rule on a value. `Validate` returns the whole list of (field, issue) errors.
- `ApplicationProperties`: `Accepts`, a direct reading of every field's rule (`FieldRule`). It proves that `Validate` returns no error exactly when `Accepts` holds, together with the boundary and edge-case lemmas.
- `ApplicationDefaults`: `getApplicationDefaultValues` and what the schema says about its result.

An issue is `Issue(code, message)`. `code` is the kind of Zod issue: invalid type, too small, too big, invalid enum value or custom refinement. `message` is `Some(text)` when the schema supplies the text itself. It is `None` when Zod's own default text for that code applies; the model does not reproduce that text.

The Zod behaviour the model relies on:

- `z.string()` given `undefined` raises a single invalid-type issue and runs none of its checks. Otherwise every `.min`, `.max` and `.refine` check runs, and each failure adds its own issue. So errors are collected, not fail-fast.
- `.optional()` accepts `undefined`.
- `.default(false)` substitutes `false` before the refinement runs.
- `z.any()` accepts every value.

`isValidPhoneNumber` comes from a library. It is a parameter `isValidPhone: string -> bool` of every member that needs it, so nothing is assumed about it.

Points where the code's behaviour is easy to misread:

- The word limit splits on the single character `' '`, not on whitespace. Consecutive, leading or trailing spaces therefore add pieces, and tabs or newlines do not separate words.
- Only the first file of a list has its type and size checked.
- An empty file list is truthy, so it fails all three upload refinements.

## Model

| member | source | states |
|---|---|---|
| JsString.Split | website/front/src/lib/schemas/application.schema.ts:29 | `split(' ')` always yields at least one piece, and no piece contains the separator |
| JsString.SplitCount | website/front/src/lib/schemas/application.schema.ts:29 | the number of pieces is the number of separator occurrences plus one, so every extra space adds a piece |
| JsString.JoinSplit | website/front/src/lib/schemas/application.schema.ts:29 | joining the pieces with the separator gives the original text back |
| JsString.SplitJoin | website/front/src/lib/schemas/application.schema.ts:29 | splitting a join of separator-free pieces (empty ones included) gives exactly those pieces back |
| ApplicationSchema.IsAcceptedType | website/front/src/lib/schemas/application.schema.ts:5 | membership in the accepted list is membership in the five distinct types png, jpeg, jpg, webp and pdf; the duplicate png entry changes nothing |
| ApplicationSchema.RequiredFileIssues | website/front/src/lib/schemas/application.schema.ts:4-9 | an absent list raises only "Ce fichier est obligatoire."; that message appears exactly when the list does not have length 1; the type message exactly when a list is given whose first file is missing or has no accepted type; the size message exactly when a list is given whose first file is missing, has no size or is over 15728640 bytes; no issue exactly when there is one file whose type is accepted and whose size is at most 15728640 bytes |
| ApplicationSchema.BoundedStringIssues | website/front/src/lib/schemas/application.schema.ts:16-38 | no issue exactly when the string is defined and 1 to 50 characters long; otherwise exactly one issue: invalid type when undefined, too small when empty, too big when longer than 50 |
| ApplicationSchema.SelectIssues | website/front/src/lib/schemas/application.schema.ts:21 | the region passes exactly when it is defined and non-empty, with no upper bound; the empty string raises "Please select an option" |
| ApplicationSchema.PhoneIssues | website/front/src/lib/schemas/application.schema.ts:22-25 | a phone number passes exactly when it is defined and the phone check accepts it; a rejected number raises the field's own message |
| ApplicationSchema.WordLimitIssues | website/front/src/lib/schemas/application.schema.ts:27-32 | an undefined or empty text passes; any other passes exactly when it holds fewer than 100 spaces (at most 100 pieces); a failure is the single custom issue with the field's message |
| ApplicationSchema.DateIssues | website/front/src/lib/schemas/application.schema.ts:18 | the date passes exactly when it is a date; an absent date raises "A date of birth is required." |
| ApplicationSchema.RequiredEnumIssues | website/front/src/lib/schemas/application.schema.ts:42-44 | passes exactly on "yes" or "no"; an absent value raises "Please select an option." |
| ApplicationSchema.OptionalEnumIssues | website/front/src/lib/schemas/application.schema.ts:45 | passes exactly when absent, "yes" or "no" |
| ApplicationSchema.TermsIssues | website/front/src/lib/schemas/application.schema.ts:63 | passes exactly on true; any value other than true, including an absent one (which defaults to false), raises exactly the terms message |
| ApplicationSchema.Position | website/front/src/lib/schemas/application.schema.ts:14-63 | every key of the object has a position below 30, and the key at that position is itself |
| ApplicationSchema.IssuesFrom | website/front/src/lib/schemas/application.schema.ts:14-63 | the collected errors of the keys from a position on are exactly the pairs of such a key with one of its own issues |
| ApplicationSchema.Validate | website/front/src/lib/schemas/application.schema.ts:14-70 | a (field, issue) pair is reported exactly when that issue is one the field's rule raises: all fields' issues are collected, nothing else is added |
| ApplicationProperties.NoErrorsIffNoFieldIssues | website/front/src/lib/schemas/application.schema.ts:14-70 | the error list is empty exactly when no field raises an issue |
| ApplicationProperties.FieldIssuesIffRule | website/front/src/lib/schemas/application.schema.ts:14-63 | each field raises no issue exactly when its rule, read directly from the schema, holds |
| ApplicationProperties.ValidIffAccepts | website/front/src/lib/schemas/application.schema.ts:14-70 | a submission has no errors exactly when it satisfies the conjunction of all per-field rules |
| ApplicationProperties.AbsentFieldIssues | website/front/src/lib/schemas/application.schema.ts:14-63 | leaving a field undefined passes exactly for specialConditions, physicsRanking, previousCompetitions, olympiadsTrainingSelection, comments and the five optional uploads; a missing termsAgreement fails |
| ApplicationProperties.UnconstrainedFieldsPass | website/front/src/lib/schemas/application.schema.ts:12 | physicsRanking, previousCompetitions and the five optional uploads never raise an issue, whatever their value |
| ApplicationProperties.RefinementAddsNothing | website/front/src/lib/schemas/application.schema.ts:64-70 | the refinement's message is never reported; olympiadsTrainingSelection is reported only for a value other than "yes" or "no" |
| ApplicationProperties.EmptyFirstNameOnlyError | website/front/src/lib/schemas/application.schema.ts:16 | emptying firstName in an otherwise acceptable submission gives an error list that is exactly the single too-small issue on firstName |
| ApplicationProperties.FileSizeBoundary | website/front/src/lib/schemas/application.schema.ts:4-9 | a single accepted file of 15728640 bytes passes; one of 15728641 bytes raises only the size issue |
| ApplicationProperties.UnlistedTypeFails | website/front/src/lib/schemas/application.schema.ts:8 | a first file whose type is not accepted always raises the type issue |
| ApplicationProperties.OnlyFirstFileChecked | website/front/src/lib/schemas/application.schema.ts:7-9 | two lists of the same length with the same first file raise the same issues |
| ApplicationProperties.EmptyFileListIssues | website/front/src/lib/schemas/application.schema.ts:7-9 | an empty list raises the required, type and size issues, in that order |
| ApplicationProperties.HundredWordsPass | website/front/src/lib/schemas/application.schema.ts:27-32 | a text of exactly 100 space-separated pieces passes the word limit |
| ApplicationProperties.HundredOneWordsFail | website/front/src/lib/schemas/application.schema.ts:46-51 | a text of 101 space-separated pieces fails with the field's message, even when the pieces are empty (100 spaces) |
| ApplicationDefaults.OrEmpty | website/front/src/lib/schemas/application.schema.ts:73-74 | the fallback to "" for a falsy name is empty exactly for an undefined or empty value, and is the value itself otherwise |
| ApplicationDefaults.DefaultValues | website/front/src/lib/schemas/application.schema.ts:72-107 | the defaults leave exactly the uploads and olympiadsTrainingSelection undefined; termsAgreement is false; dateOfBirth is a non-date (the empty string); every other text field is ""; each name is the user's name when that is non-empty and "" otherwise |
| ApplicationDefaults.DefaultFieldIssues | website/front/src/lib/schemas/application.schema.ts:72-107 | apart from the names and phone numbers, a default field passes exactly when the schema makes it optional |
| ApplicationDefaults.DefaultNameIssues | website/front/src/lib/schemas/application.schema.ts:73-74 | a default name passes exactly when the user supplied one of 1 to 50 characters |
| ApplicationDefaults.DefaultPhoneIssues | website/front/src/lib/schemas/application.schema.ts:79-82 | the default phone numbers pass exactly when the phone check accepts the empty string |
| ApplicationDefaults.DefaultsNeverValidate | website/front/src/lib/schemas/application.schema.ts:106 | the default record never validates: it always carries the terms-agreement error |

## Left out

- The internals of `isValidPhoneNumber` (react-phone-number-input). This is a foreign library, so it is a parameter of the model.
- Date parsing and `Date` semantics. The date of birth is only absent, a date, or some other value. An invalid `Date` object is not distinguished.
- Zod's default message texts, and the exact order in which Zod reports issues. The model keeps the issue kinds and the schema's own messages, and reports fields in declaration order.
- The parsed output value: stripping unknown keys and filling in the `false` default. `Validate` returns only the errors.
- Field values of kinds other than those the form produces, such as a truthy non-list value in an upload field or a non-string in a text field. A `Submission` cannot hold such a value: `ValueOf` always gives each field the kind its rule expects, so the invalid-type branches `Apply` has for a mismatched kind are never reached from `Validate`. Under `z.any()` a truthy non-list upload would fail the type and size refinements; the model does not capture that.
- `userData` values other than an optional record of two optional strings. For example, a truthy non-string `firstName` would be copied as it is.
- String length is counted in `char`s. A Dafny `char` is a Unicode scalar value, whereas JavaScript counts UTF-16 code units. Characters outside the Basic Multilingual Plane therefore count once here, but twice in JavaScript.
- `website/admin/src/app/home/page.tsx` (static navigation links) and `api/src/main-cli.ts` (CLI bootstrap). Neither has behaviour to verify.
- The per-document link resolution in `website/admin/src/app/home/applications/[id]/files-table.tsx`. It is asynchronous network I/O against a signing service.
