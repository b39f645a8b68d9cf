# PennyWise backend core in Dafny

This project models the request logic of the PennyWise expense tracker's backend: the three route files under `Backend/src/routes/`.

- **Expense routes** (`expense.ts`) validate an expense payload against an ordered list of rules per field and act on an owner-scoped expense collection:
  - list (GET);
  - create (POST);
  - update (PUT);
  - delete (DELETE).
- **Auth routes** (`auth.ts`) validate signup and signin payloads. They then insert into, or check credentials against, a user collection whose email is unique.
- **Insight routes** (`insights.ts`) fold a user's expenses into totals:
  - The AI analysis route takes the 100 newest expenses and computes:
    - totals per month and year;
    - totals per category;
    - the grand total;
    - each category's percentage;
    - the timespan.
  - The statistics route uses all the user's expenses and computes:
    - the current month's total;
    - totals per category and per month name;
    - the highest and the lowest expense.

## Modules

| Module | What it models |
|---|---|
| `JsonValue` | Body field values, JavaScript truthiness for the handlers' `!field` pre-checks, and the validation library's type-mismatch message. |
| `Text` | The character classes and the `trim` and `toLowerCase` functions the rules use. |
| `Validation` | One object-schema field: a type, then an ordered list of checks. Every check runs and only a type mismatch stops the field. Issues come in field order, then check order. |
| `NumericLiteral` | When `Number(s)` is NaN: the StringNumericLiteral grammar of ECMA-262, section 7.1.4.1.1. |
| `ExpenseSchema` | The expense payload rules. The description's numeric rule appears both as written and corrected (see Findings). |
| `ExpenseStore` | The expense collection: a class holding a `map` from id to record, with one method per route. |
| `AuthSchema` | The signup and signin rules, including a recognizer for the email format. |
| `CredentialStore` | The user collection: a class holding a `map` keyed by email. It also has a stand-in for the password hash and the signed token's claims. |
| `Calendar` | The UTC month and year of a millisecond timestamp, and its long month name. |
| `Grouping` | The insight routes' shared computations: per-key totals (the `acc[key] = (acc[key] || 0) + amount` loops), the sum of a map's values, and percentages. |
| `Sorting` | A stable descending sort, with its first-maximum and last-minimum consequences. |
| `Insights` | `prepareExpenseData`, the AI analysis route without text generation, and the statistics route. |

### Stand-ins

- `PasswordHash(salt, secret)` stands in for the bcrypt hash. Checking a password against it succeeds for exactly the password that was hashed. The random salt is a parameter.
- A token is modelled by its claims: user id, time issued, and expiry 24 hours later.
- The request clock (`now`) is a parameter.
- The Mongo collections are the classes' maps.
- `ExpenseModel.find(...).sort({ createdAt: -1 }).limit(100)` is the stable sort followed by a prefix of at most 100 expenses.

### Where the specification and the code disagree

The model follows the code in these cases:

- PUT answers a failed parse with every issue, not just the first.
- PUT stores the category as supplied, without lowercasing it.

The description rule is the exception. As written it accepts only numbers, although the specification calls descriptions "non-numeric". The rule as written is modelled by `ExpenseSchema.IssuesAsWritten`. The expense routes (`ExpenseStore.Parse`, `Post` and `Put`) use the corrected rule instead (see Findings).

## Model

| member | source | states |
|---|---|---|
| `Validation.Failing` | Backend/src/routes/expense.ts:23-35 | The issues of one field are messages of its failing checks: there are none exactly when every check holds, and each one belongs to a check that fails. `FailingReportsEveryFailure` states the complete list. |
| `Validation.FailedIndices` | Backend/src/routes/expense.ts:23-35 | The positions of failing checks, strictly ascending, each one a check that fails. |
| `Validation.FailedIndicesComplete` | Backend/src/routes/expense.ts:23-35 | Every check that fails has its position in `FailedIndices`. |
| `Validation.FailingReportsEveryFailure` | Backend/src/routes/expense.ts:23-35 | A field reports every check it fails, in declaration order, and nothing else: there are as many issues as failing checks, and the j-th issue is the message of the j-th failing check. |
| `Validation.FailingStartsWithFirstFailure` | Backend/src/routes/expense.ts:23-35 | The first issue of a field is the message of its first failing check, in declaration order. |
| `Validation.StringField` | Backend/src/routes/expense.ts:23-24 | A string field has no issue exactly when it holds a string that passes every check. A value of another type gives exactly one issue, the type issue. A string gives the messages of its failing checks. |
| `Validation.NumberField` | Backend/src/routes/expense.ts:7-8 | A number field has no issue exactly when it holds a number that passes every check. A value of another type gives exactly one issue, the type issue. A number gives the messages of its failing checks. |
| `Validation.Reported` | Backend/src/routes/expense.ts:67-71 | The reported message is the first issue, or "Invalid input" when that issue is empty. It is never empty. |
| `JsonValue.Truthy` | Backend/src/routes/expense.ts:60 | Definition of JavaScript truthiness for the `!field` pre-checks: absent, null, false, 0 and "" are falsy, everything else is truthy. `ExpenseStore.MissingFieldIsInvalid` uses it. |
| `JsonValue.TypeIssue` | Backend/src/routes/expense.ts:7-8 | The type issue is "Required" exactly when the field is missing. |
| `Text.TrimStart` | Backend/src/routes/expense.ts:27 | The result is a suffix of the input, everything it drops is white space, and it does not start with white space. |
| `Text.TrimEnd` | Backend/src/routes/expense.ts:27 | The result is a prefix of the input, everything it drops is white space, and it does not end with white space. |
| `Text.Trim` | Backend/src/routes/expense.ts:27 | The result is `TrimEnd` of `TrimStart` of the input: the input with its leading and trailing white space removed. It neither starts nor ends with white space, and it is empty exactly when the input is all white space. |
| `Text.ToLower` | Backend/src/routes/expense.ts:19 | Lowercasing keeps the length and lowercases each character in place: an ASCII capital letter becomes its lowercase letter, and any other character is unchanged. |
| `NumericLiteral.IsNaNNumber` | Backend/src/routes/expense.ts:29 | Definition of `isNaN(Number(s))`: the trimmed string is neither empty nor a StringNumericLiteral of ECMA-262. `DigitsAreNumeric` and `WordsAreNotNumeric` state its consequences. |
| `NumericLiteral.DigitsAreNumeric` | Backend/src/routes/expense.ts:29 | A string that is a run of digits after trimming converts to a number. |
| `NumericLiteral.WordsAreNotNumeric` | Backend/src/routes/expense.ts:29 | A string whose trimmed form starts with a letter converts to NaN, unless it is "Infinity". |
| `ExpenseSchema.NumberRuleAsWritten` | Backend/src/routes/expense.ts:28-31 | Definition of the numeric refinement as written: `Number(d)` is not NaN and the trimmed string is not all digits. This is the as-written half of the Findings row. |
| `ExpenseSchema.IssuesAsWritten` | Backend/src/routes/expense.ts:6-36 | Definition of every issue the schema as written reports, amount then category then description. `IssuesAsWrittenEmptyIffValid` and `LunchIsRefusedAsWritten` state its meaning. |
| `ExpenseSchema.Issues` | Backend/src/routes/expense.ts:6-36 | The same schema with the corrected numeric rule, which the expense routes use. `IssuesEmptyIffValid` states its meaning. |
| `ExpenseSchema.AmountIssuesEmpty` | Backend/src/routes/expense.ts:7-11 | The amount has no issue exactly when it is a number with 0 < amount <= 1,000,000. |
| `ExpenseSchema.CategoryIssuesEmpty` | Backend/src/routes/expense.ts:12-22 | The category has no issue exactly when it is a string of length 1 to 20 whose lowercase form is one of the five categories. |
| `ExpenseSchema.DescriptionIssuesEmpty` | Backend/src/routes/expense.ts:23-35 | The description has no issue exactly when all of these hold: it is a string of length 1 to 100, it is not blank after trimming, it passes the numeric rule, and it uses only the allowed characters. |
| `ExpenseSchema.IssuesEmptyIffValid` | Backend/src/routes/expense.ts:6-36 | With the corrected numeric rule, the schema reports no issue exactly for payloads whose three fields are valid and whose description is not a number. |
| `ExpenseSchema.IssuesAsWrittenEmptyIffValid` | Backend/src/routes/expense.ts:6-36 | With the rule as written, the schema reports no issue exactly when the fields are valid and the description is a number that is not all digits. |
| `ExpenseSchema.NumberRuleRejectsExactlyNumbers` | Backend/src/routes/expense.ts:28-31 | The corrected rule passes exactly the descriptions that `Number()` turns into NaN. |
| `ExpenseSchema.WordDescriptionRefusedAsWritten` | Backend/src/routes/expense.ts:28-31 | Take a valid amount and category, and a description made of letters only (other than "Infinity"). The schema as written gives exactly one issue: "Description cannot be a number". |
| `ExpenseSchema.WordDescriptionAccepted` | Backend/src/routes/expense.ts:28-31 | The corrected schema accepts those payloads. |
| `ExpenseSchema.LunchIsRefusedAsWritten` | Backend/src/routes/expense.ts:28-31 | As written, the payload (250, "Food", "Lunch") is refused with "Description cannot be a number". |
| `ExpenseSchema.LunchIsAccepted` | Backend/src/routes/expense.ts:28-31 | The corrected schema accepts (250, "Food", "Lunch"). |
| `ExpenseSchema.ReportsFirstFieldIssue` | Backend/src/routes/expense.ts:67-71 | The first issue comes from the first field that has one, in the order amount, category, description. |
| `ExpenseStore.MissingField` | Backend/src/routes/expense.ts:60-65 | Definition of the POST pre-check: some field is falsy. `MissingFieldIsInvalid` states that it never changes the outcome. |
| `ExpenseStore.MissingFieldIsInvalid` | Backend/src/routes/expense.ts:60-67 | The falsy-field pre-check refuses only payloads the schema refuses too. It changes the message, never the outcome. |
| `ExpenseStore.Parse` | Backend/src/routes/expense.ts:67-73 | A parse is accepted exactly for valid payloads, and then carries their three fields. Otherwise it carries every issue, and there is at least one. It uses the corrected description rule (see Findings). |
| `ExpenseStore.OwnedBy` | Backend/src/routes/expense.ts:40-42 | The result is exactly the records whose owner is the caller, unchanged. |
| `ExpenseStore.UpdatedIn` | Backend/src/routes/expense.ts:104-114 | Only the record matching both the id and the caller changes: its amount, category, description and update time. Every record keeps its owner and creation time. The set of ids is unchanged. |
| `ExpenseStore.DeletedFrom` | Backend/src/routes/expense.ts:128-131 | Only the record matching both the id and the caller is removed. Every other record stays as it was. |
| `ExpenseStore.UpdateIsolated` | Backend/src/routes/expense.ts:104-114 | An update by one user leaves every other user's records as they were. |
| `ExpenseStore.DeleteIsolated` | Backend/src/routes/expense.ts:128-131 | A delete by one user leaves every other user's records as they were. |
| `ExpenseStore.CreateIsolated` | Backend/src/routes/expense.ts:75-80 | Adding a record owned by the caller, under a new id, leaves every other user's records as they were. |
| `ExpenseStore.ExpenseCollection.List` | Backend/src/routes/expense.ts:37-46 | The response is 200 and lists exactly the caller's records. |
| `ExpenseStore.ExpenseCollection.Post` | Backend/src/routes/expense.ts:53-92 | A missing field gives 400 with the "required" message. Otherwise a failed parse gives 400 with its first issue, or "Invalid input" if that issue is empty. Both leave the table unchanged. Otherwise the response is 201 and exactly one record is added under a new id: the category is lowercased and the owner is the caller. |
| `ExpenseStore.ExpenseCollection.Put` | Backend/src/routes/expense.ts:93-124 | A failed parse gives 400 with every issue and changes nothing. Otherwise the table becomes `UpdatedIn` of the old table, and the response is 203 with 1 or 0 matched records. |
| `ExpenseStore.ExpenseCollection.Delete` | Backend/src/routes/expense.ts:125-140 | The table becomes `DeletedFrom` of the old table, and the response is 200 whether or not a record matched. |
| `AuthSchema.IsEmail` | Backend/src/routes/auth.ts:20 | Definition of the email format: a local part, an `@`, then dot-separated labels and a top-level name, with no two dots in a row. `EmailIssuesEmpty`, `EmailHasNoSpace` and `LabelsThenTopLevelChars` state its consequences. |
| `AuthSchema.StrongPassword` | Backend/src/routes/auth.ts:27-30 | Definition of the password pattern: only letters, digits and `@$!%*?&`, with at least one upper-case letter, one lower-case letter, one digit and one special character. `SigninAcceptsWeakPasswords` uses it. |
| `AuthSchema.SignupIssues` | Backend/src/routes/auth.ts:9-31 | Definition of every signup issue, name then email then password. `SignupIssuesEmptyIffValid` states its meaning. |
| `AuthSchema.SigninIssues` | Backend/src/routes/auth.ts:32-42 | Definition of every signin issue, email then password. `SigninIssuesEmptyIffValid` states its meaning. |
| `AuthSchema.SignupMissingField` | Backend/src/routes/auth.ts:49-54 | Definition of the signup pre-check: name, email or password is falsy. `CredentialStore.SignupMissingFieldIsInvalid` states that it never changes the outcome. |
| `AuthSchema.SigninMissingField` | Backend/src/routes/auth.ts:96-101 | Definition of the signin pre-check: email or password is falsy. `CredentialStore.SigninMissingFieldIsInvalid` states that it never changes the outcome. |
| `AuthSchema.NameIssuesEmpty` | Backend/src/routes/auth.ts:10-17 | The name has no issue exactly when it is a string of 2 to 50 letters and white space. |
| `AuthSchema.EmailIssuesEmpty` | Backend/src/routes/auth.ts:18-22 | The email has no issue exactly when it has the email format, at most 100 characters and no space. |
| `AuthSchema.SignupPasswordIssuesEmpty` | Backend/src/routes/auth.ts:23-30 | The signup password has no issue exactly when it is 8 to 14 characters long and has the required character mix. |
| `AuthSchema.SigninPasswordIssuesEmpty` | Backend/src/routes/auth.ts:38-41 | The signin password has no issue exactly when it is 8 to 14 characters long. |
| `AuthSchema.SignupIssuesEmptyIffValid` | Backend/src/routes/auth.ts:9-31 | The signup schema reports no issue exactly when name, email and password are all valid. |
| `AuthSchema.SigninIssuesEmptyIffValid` | Backend/src/routes/auth.ts:32-42 | The signin schema reports no issue exactly when email and password are valid. |
| `AuthSchema.SignupReportsFirstFieldIssue` | Backend/src/routes/auth.ts:56-62 | The first signup issue comes from the first field that has one, in the order name, email, password. |
| `AuthSchema.SigninReportsFirstFieldIssue` | Backend/src/routes/auth.ts:103-109 | The first signin issue comes from the first field that has one, in the order email, password. |
| `AuthSchema.LabelsThenTopLevelChars` | Backend/src/routes/auth.ts:20 | An email domain has only letters, digits, hyphens and dots. |
| `AuthSchema.EmailHasNoSpace` | Backend/src/routes/auth.ts:20-22 | A string with the email format has no space. |
| `AuthSchema.SpaceIssueNeverFirst` | Backend/src/routes/auth.ts:18-22 | "Email cannot contain spaces" is never the first email issue, because a string with a space already fails the format check. |
| `AuthSchema.SignupPasswordPassesSignin` | Backend/src/routes/auth.ts:23-41 | Every password signup accepts is accepted by signin. |
| `AuthSchema.SigninAcceptsWeakPasswords` | Backend/src/routes/auth.ts:38-41 | Eight lowercase letters pass the signin rule but not the signup rule. |
| `CredentialStore.Hash` | Backend/src/routes/auth.ts:72 | A hash always verifies against the password that was hashed. |
| `CredentialStore.VerifyExactlyThePassword` | Backend/src/routes/auth.ts:119-122 | With any salt, a hash verifies against exactly one password: the one that was hashed. |
| `CredentialStore.SignupMissingFieldIsInvalid` | Backend/src/routes/auth.ts:49-54 | The signup pre-check refuses only payloads the schema refuses too. |
| `CredentialStore.SigninMissingFieldIsInvalid` | Backend/src/routes/auth.ts:96-101 | The signin pre-check refuses only payloads the schema refuses too. |
| `CredentialStore.ParseSignup` | Backend/src/routes/auth.ts:56-62 | A parse is accepted exactly for valid signup payloads. Otherwise it carries every issue, and there is at least one. |
| `CredentialStore.ParseSignin` | Backend/src/routes/auth.ts:103-109 | A parse is accepted exactly for valid signin payloads. Otherwise it carries every issue, and there is at least one. |
| `CredentialStore.Authenticate` | Backend/src/routes/auth.ts:111-137 | A token is issued exactly when the email is registered and the password verifies. It carries that user's id and expires 24 hours after issue. Every other case gives the same 401 "Invalid email or password". |
| `CredentialStore.FailuresLookAlike` | Backend/src/routes/auth.ts:111-128 | An unknown email and a wrong password give the identical 401 response. |
| `CredentialStore.TokenLastsOneDay` | Backend/src/routes/auth.ts:130-132 | An issued token is stamped with the request time and lasts exactly 86400 seconds. |
| `CredentialStore.UserCollection.Signup` | Backend/src/routes/auth.ts:43-91 | Each failure gives its response and changes nothing: 400 for a missing field, 400 with the first issue for a failed parse, 409 for a registered email. Otherwise the response is 201 and exactly one user is added under the email: the next id, the name, the email and the hash of the password. Ids stay distinct. |
| `CredentialStore.UserCollection.Signin` | Backend/src/routes/auth.ts:92-145 | A missing field gives 400 with the "required" message, and a failed parse gives 400 with its first issue. Otherwise the response is `Authenticate` over the stored users. The method reads the users and changes nothing. |
| `CredentialStore.SignupCredentialsPassSignin` | Backend/src/routes/auth.ts:9-42 | The email and password of an accepted signup pass the signin pre-check and schema. |
| `Calendar.MonthYearOf` | Backend/src/routes/insights.ts:98-101 | A timestamp falls in a month numbered 1 to 12 of some year, using the UTC proleptic Gregorian calendar. |
| `Calendar.MonthYearRepeatsEvery400Years` | Backend/src/routes/insights.ts:98-101 | A timestamp exactly one 400-year cycle later is in the same month, 400 years later. |
| `Grouping.Matching` | Backend/src/routes/insights.ts:190-196 | The filter keeps exactly the elements that have the given key: each one as often as it occurs in the input, and nothing else. |
| `Grouping.Grouped` | Backend/src/routes/insights.ts:105-111 | Definition of the per-key totals, added record by record. `GroupedMeaning` states what each entry is. |
| `Grouping.GroupSum` | Backend/src/routes/insights.ts:105-111 | The accumulation loop computes `Grouped`: each record's amount is added to its key's entry, and a new key starts from 0. |
| `Grouping.GroupedMeaning` | Backend/src/routes/insights.ts:105-111 | A key has a total exactly when some record has that key. That total is the sum of the amounts of the records with that key. |
| `Grouping.GroupedKeys` | Backend/src/routes/insights.ts:105-111 | The keys of the totals are exactly the keys that occur. |
| `Grouping.GroupedTotal` | Backend/src/routes/insights.ts:96-113 | The per-key totals add up to the sum of all amounts, for any key. |
| `Grouping.SumValues` | Backend/src/routes/insights.ts:113 | The loop over the map's values computes their sum. |
| `Grouping.Percent` | Backend/src/routes/insights.ts:116 | A percentage is finite exactly when the total is not zero. It then satisfies percentage * total = amount * 100. Dividing by zero gives NaN or an infinity. |
| `Grouping.Percentages` | Backend/src/routes/insights.ts:114-117 | The loop gives one percentage for each key of the totals, and no other. |
| `Grouping.PercentagesSumToHundred` | Backend/src/routes/insights.ts:113-117 | When the total is the sum of the totals and not zero, the percentages add up to 100. |
| `Grouping.MatchingSameSelection` | Backend/src/routes/insights.ts:212-218 | Two ways of keying that select the same records select the same subsequence. |
| `Sorting.SortDesc` | Backend/src/routes/insights.ts:220-222 | The sort is a permutation of its input and is in descending order of the key. |
| `Sorting.FirstMaxIndex` | Backend/src/routes/insights.ts:223 | The index holds a largest key, and every earlier index holds a smaller key. |
| `Sorting.LastMinIndex` | Backend/src/routes/insights.ts:224 | The index holds a smallest key, and every later index holds a larger key. |
| `Sorting.SortHead` | Backend/src/routes/insights.ts:220-223 | The head of the stable sort is the first element with the largest key. |
| `Sorting.SortLast` | Backend/src/routes/insights.ts:220-224 | The last element of the stable sort is the last element with the smallest key. |
| `Sorting.TopOfSort` | Backend/src/routes/insights.ts:52-54 | A prefix of the sort and the rest partition the input, with the prefix in order. No left-out element has a larger key than a kept one. |
| `Insights.Newest` | Backend/src/routes/insights.ts:52-54 | Definition of the selection: the first min(n, 100) expenses of the stable sort, newest first. `NewestSelection` states its meaning. |
| `Insights.NewestSelection` | Backend/src/routes/insights.ts:52-54 | The selection has exactly min(n, 100) of the user's n expenses, newest first. It is a sub-multiset of the user's expenses, and every expense left out is no newer than any one selected. |
| `Insights.PrepareExpenseData` | Backend/src/routes/insights.ts:95-128 | The month-year totals are `Grouped` by (month, year). The total is the sum of all amounts and also the sum of the month-year totals. The percentages have exactly the categories that occur, each that category's total over the total, times 100. The timespan runs from the last expense's creation time to the first's. |
| `Insights.CategoryPercentagesSumToHundred` | Backend/src/routes/insights.ts:113-117 | When the total is not zero, the category percentages add up to 100. |
| `Insights.PositiveTotal` | Backend/src/routes/insights.ts:113 | If every amount is positive, as the expense schema demands, a non-empty list has a positive total. |
| `Insights.AiAnalysis` | Backend/src/routes/insights.ts:50-62 | The response is 404 "No expenses found" exactly when the user has no expenses. Otherwise it analyses the newest selection: its total, month-year totals, the categories that occur with each one's total over the total times 100, and the timespan from its last to its first element, with start <= end. |
| `Insights.CurrentMonthExpenses` | Backend/src/routes/insights.ts:189-196 | Definition of the filter: the expenses whose month and year are now's. `Grouping.Matching` states what it keeps. |
| `Insights.ComputeStatistics` | Backend/src/routes/insights.ts:177-232 | The response is 404 "No expenses found" exactly when there are no expenses. The current-month total is the sum over the expenses in now's month and year, counting a missing amount as 0. Spending per category ("uncategorized" when missing) and per month name are `Grouped`. The highest expense is the first with the largest amount and the lowest is the last with the smallest, so every amount lies between theirs. |
| `Insights.MonthNameNamesMonth` | Backend/src/routes/insights.ts:213-215 | Each month has its own long name. |
| `Insights.MonthNameTotalIsCurrentMonth` | Backend/src/routes/insights.ts:189-218 | If no expense bears this month's name in another year, the month-name total for now's month equals the current-month total. |

## Left out

- The generative-text client, the prompt template and the response text (`insights.ts` lines 24-45, 64-84 and 130-175). These are an external call; the model returns the structured analysis only.
- Insights.PrepareExpenseData: percentages are exact quotients, not the one-decimal strings of `toFixed(1)`. Amounts are exact reals, not binary floating point, so the order of addition does not matter in the model.
- Insights.PrepareExpenseData: the month-year key is the pair (month, year), not the locale string "January 2024" that `toLocaleString` builds. The two determine each other.
- Insights.ComputeStatistics: the month-name key is the English long month name. The `"default"` locale is assumed to be English.
- Calendar.MonthYearOf: months and years are taken in UTC. The server's time zone is not modelled.
- Insights.AiAnalysis: the expenses are assumed to carry an amount and a category (the `Expenses` interface the route casts to). Documents missing them, which would give NaN or an "undefined" key, are not modelled.
- Insights.NewestSelection: among expenses with equal creation times, the store's order is taken to be the input order (one admissible order). Mongo does not specify it.
- The statistics route's `find` order is the order of its input sequence.
- CredentialStore.Verify: the hash is transparent. One-wayness and bcrypt's cost factor are not modelled, and bcrypt's 72-byte limit is not reached because passwords have at most 14 characters.
- CredentialStore.Authenticate: the token is its claims only. The signature and `JWT_SECRET` are not modelled, and neither is the middleware that verifies tokens (`Backend/src/middlewares/index.ts` is not part of this model).
- AuthSchema.IsEmail: the email format follows the recent email pattern of the validation library; the library's version is not pinned in the repository's route files.
- Lengths count characters (`seq<char>`), not UTF-16 code units.
- The error paths of the `catch` blocks, which database failures and a malformed id (`CastError`) reach, and the logging. POST, the auth routes and the insight routes answer these with 500. GET, PUT and DELETE (`expense.ts` lines 47-51, 119-123 and 135-139) set no status, so Express answers 200 with the error object as `message`.
- Express wiring, CORS, the Mongo connection and the model declarations (`Backend/src/index.ts` and `Backend/src/models/index.ts` are not part of this model). The uniqueness of email is captured by keying the user map on email.
- The exact text of PUT's 400 body: `error.message` is the issue list serialised by the library. The model returns the list of messages.
- ExpenseStore.Parse: the description's numeric rule is the corrected one, so POST and PUT accept ordinary words such as "Lunch" that the code as written refuses. `ExpenseSchema.IssuesAsWritten` models the rule as written (see Findings).
- ExpenseStore.ExpenseCollection.Put: the update result is modelled by its matched count only.

## Findings

| source | as written | input that shows it | evidently intended | confidence | as-written member | corrected member |
|---|---|---|---|---|---|---|
| Backend/src/routes/expense.ts:28-31 | The description check passes only when `Number(val)` is NOT NaN and the trimmed value is not all digits. So it accepts numeric strings such as "1e5" and refuses every ordinary word. | `{ amount: 250, category: "Food", description: "Lunch" }` is refused with "Description cannot be a number". | Refuse descriptions that are numbers and accept ordinary text, as the message says. | high (not executed) | `ExpenseSchema.LunchIsRefusedAsWritten` | `ExpenseSchema.NumberRuleRejectsExactlyNumbers` |

Both rules are modelled:
- `NumberRuleAsWritten` and `IssuesAsWritten` follow the source.
- `NumberRule` and `Issues` are the corrected rule and schema. The expense routes in `ExpenseStore` use them.

Related lemmas:
- `ExpenseSchema.WordDescriptionRefusedAsWritten` and `ExpenseSchema.WordDescriptionAccepted` generalise the example to every description made only of letters.
- `ExpenseSchema.IssuesEmptyIffValid` characterises the corrected schema.
