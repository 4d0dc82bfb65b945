# Tree-planting web application: report validator, report request and auth gate

This project models the two parts of the tree-planting organisation's
SvelteKit web application that make decisions of their own. The rest of the
application only passes data between the browser, the Flask API and
PostgreSQL.

* **The admin query-reports page.** It has a fixed table of nine report tasks.
  Its form schema checks each field (a task id is required, the year range,
  positive sizes). A hand-written `superRefine` validator then adds issues for
  the selected task:
  * a "required" issue for a task's missing or blank parameter;
  * for custom report 4, one issue per missing size field, in order, followed
    by the min ≤ max checks.

  Each "required" message names its field in title case (`min_height` →
  "Min Height"). The `runQuery` action then works as follows:
  * an invalid form is answered with 400 before anything is fetched;
  * it looks up the task and builds `API_ROUTE + endpoint`, adding a query
    string when there is one;
  * it fetches that URL and turns the JSON answer into table rows, headers or
    an error.
* **The server hook `handle`.** It reads the `auth_token` cookie and decodes
  the JWT through `verifyAuthToken`, which accepts only a payload object
  carrying all eight user claims. It then either stores the user in
  `locals.user` or deletes the cookie, and finally calls `resolve` exactly once.

Modules:
* `Js` holds JSON values and the JavaScript built-ins the code relies on:
  * truthiness;
  * property lookup on parsed objects, where the last duplicate key wins;
  * `Object.keys`;
  * `trim` with ECMAScript's whitespace set;
  * `\w`, `toUpperCase` and decimal rendering.
* `QueryReports` holds:
  * the task table and the form data;
  * the schema's field checks;
  * the validator, both as a specification (`RefineIssues`) and as the
    imperative callback that appends to a refinement context (`SuperRefine`
    and its branches);
  * the title-casing of field names;
  * the properties of all of these.
* `QueryRequest` holds:
  * `URLSearchParams.set` and `toString`;
  * the query parameters of each task;
  * the URL;
  * the interpretation of the API response;
  * the `runQuery` action as a method.
* `AuthHooks` holds `verifyAuthToken`, the request state that `handle`
  changes (a class), and `handle` itself.

The modelled code's parameters and oracles:
* `jwt.verify` is an oracle `string -> Decoded`: it either throws or returns a
  JSON payload.
* `fetch` is a function from the URL to a response (status, status text,
  body that parses or not).
* The configured `API_ROUTE` is a parameter, and so is the year read from the
  clock when the page module was loaded, which fixes the schema's latest year.
* Rendering a form value into the query string (`String(v)` and
  form-urlencoding) is a parameter `show` of `EncodeQuery` and `Href`.

## Model

| member | source | states |
|---|---|---|
| Js.Lookup | WebApp/src/hooks.server.ts:42-51 | `obj[k]` is undefined exactly when no member is named k; otherwise it is the value of the last member named k |
| Js.HasKey | WebApp/src/hooks.server.ts:33-40 | `'k' in decoded`: some member of the object is named k (a definition) |
| Js.LookupLast | WebApp/src/hooks.server.ts:42-51 | a member that no later member shares its name with is the one property access finds |
| Js.Keys | WebApp/src/routes/admin/query-reports/+page.server.ts:241 | the keys of an object are exactly its member names, each listed once |
| Js.FirstIndex | WebApp/src/routes/admin/query-reports/+page.server.ts:241 | the first position of a name is a member carrying it, with no earlier member carrying it |
| Js.KeysInFirstOrder | WebApp/src/routes/admin/query-reports/+page.server.ts:241 | the keys are listed in the order of each name's first occurrence |
| Js.ObjectKeys | WebApp/src/routes/admin/query-reports/+page.server.ts:241 | `Object.keys` throws exactly on null; an object gives its distinct member names; an array gives the index keys of its length and a string those of its length in UTF-16 code units; a number or boolean gives none |
| Js.IndexKeys | WebApp/src/routes/admin/query-reports/+page.server.ts:241 | the index keys of a length-n value are n keys, key i is the decimal rendering of i and reads back as i |
| Js.Utf16Length | WebApp/src/routes/admin/query-reports/+page.server.ts:241 | a string's UTF-16 length counts one unit per character up to U+FFFF and two above, so it lies between the character count and twice that, and equals the character count when no character is above U+FFFF |
| Js.DigitChar | WebApp/src/routes/admin/query-reports/+page.server.ts:230 | a digit below ten is shown as the decimal digit character of that value |
| Js.NatToDecimal | WebApp/src/routes/admin/query-reports/+page.server.ts:230 | a status code is printed as a non-empty string of digits with no leading zero |
| Js.DecimalRoundTrip | WebApp/src/routes/admin/query-reports/+page.server.ts:230 | reading back the printed number gives the number |
| Js.TrimStart | WebApp/src/routes/admin/query-reports/+page.server.ts:99 | the result is the suffix of the input that starts at its first non-whitespace character |
| Js.TrimEnd | WebApp/src/routes/admin/query-reports/+page.server.ts:99 | the result is the prefix of the input that ends at its last non-whitespace character |
| Js.IsJsWhitespace | WebApp/src/routes/admin/query-reports/+page.server.ts:99 | the characters `trim` removes: ECMAScript's WhiteSpace and LineTerminator code points (a definition) |
| Js.TrimNonEmpty | WebApp/src/routes/admin/query-reports/+page.server.ts:99-105 | `s.trim().length > 0` holds exactly when s has a non-whitespace character |
| Js.UpperAscii | WebApp/src/routes/admin/query-reports/+page.server.ts:111 | upper-casing a `\w` character changes only a-z, each to its capital, and keeps it a `\w` character |
| Js.IsWordChar | WebApp/src/routes/admin/query-reports/+page.server.ts:111 | the regular-expression class `\w`: ASCII letters, digits and `_` (a definition) |
| Js.Truthy | WebApp/src/hooks.server.ts:50 | `Boolean(v)` on JSON: false exactly for null, false, 0 and the empty string (a definition, used by VerifyAuthToken and FailureThrown) |
| Js.Trim | WebApp/src/routes/admin/query-reports/+page.server.ts:99 | `trim` gives a contiguous piece of the input with only whitespace cut off either side, and the piece neither starts nor ends with whitespace |
| Js.DecimalValue | WebApp/src/routes/admin/query-reports/+page.server.ts:230 | the number a string of decimal digits denotes; DecimalRoundTrip reads NatToDecimal back with it |
| QueryReports.FindTask | WebApp/src/routes/admin/query-reports/+page.server.ts:90 | `queryTasks.find` gives a task of the table with that id, or none exactly when no task has that id |
| QueryReports.FindIn | WebApp/src/routes/admin/query-reports/+page.server.ts:197 | the task found is the first with the id |
| QueryReports.TaskParameters | WebApp/src/routes/admin/query-reports/+page.server.ts:8-59 | the `queryTasks` table: task2 asks for a neighborhood, custom reports 1 and 2 for a year, custom report 3 for a common name, and no other task has a single parameter |
| QueryReports.CustomReportEndpoints | WebApp/src/routes/admin/query-reports/+page.server.ts:30-58 | each custom report of the table is served at `/` followed by its id |
| QueryReports.Field | WebApp/src/routes/admin/query-reports/+page.server.ts:95 | a number field never reads as text and a text field never reads as a number |
| QueryReports.SpaceUnderscores | WebApp/src/routes/admin/query-reports/+page.server.ts:110 | each underscore becomes a space and every other character is kept in place |
| QueryReports.ParamLabel | WebApp/src/routes/admin/query-reports/+page.server.ts:109-111 | the label of a field name: underscores spaced, then each word start upper-cased (a definition; ParamLabelAt states it position by position) |
| QueryReports.CapitalizeWords | WebApp/src/routes/admin/query-reports/+page.server.ts:111 | the `\b\w` replacement keeps the length |
| QueryReports.CapitalizeWordsAt | WebApp/src/routes/admin/query-reports/+page.server.ts:111 | a character is upper-cased exactly when a word starts at it, that is, it is `\w` and the character before it is not |
| QueryReports.ParamLabelAt | WebApp/src/routes/admin/query-reports/+page.server.ts:109-111 | a label has the field name's length; position by position it is the spaced name, upper-cased at each word start; an underscore always becomes a space |
| QueryReports.CapitalizeAppend | WebApp/src/routes/admin/query-reports/+page.server.ts:111 | title-casing a concatenation title-cases the second part according to the last character of the first |
| QueryReports.CapitalizeWord | WebApp/src/routes/admin/query-reports/+page.server.ts:111 | inside a word nothing changes; at a word start only the first letter is upper-cased |
| QueryReports.OneWordLabel | WebApp/src/routes/admin/query-reports/+page.server.ts:109-111 | a one-word field name is labelled by capitalising its first letter |
| QueryReports.SpacedTwoWords | WebApp/src/routes/admin/query-reports/+page.server.ts:110 | spacing a two-word snake_case name turns its one underscore into a space |
| QueryReports.TwoWordLabel | WebApp/src/routes/admin/query-reports/+page.server.ts:109-111 | a two-word name `a_b` is labelled "A B" |
| QueryReports.SecondWordLabel | WebApp/src/routes/admin/query-reports/+page.server.ts:111 | after a word, a space followed by a plain word is title-cased as the space and the word with its first letter upper-cased |
| QueryReports.SizeLabels | WebApp/src/routes/admin/query-reports/+page.server.ts:127 | the size fields are labelled "Min Height", "Max Height", "Min Width", "Max Width" |
| QueryReports.MinHeightLabel | WebApp/src/routes/admin/query-reports/+page.server.ts:127 | `min_height` is labelled "Min Height" |
| QueryReports.MaxHeightLabel | WebApp/src/routes/admin/query-reports/+page.server.ts:127 | `max_height` is labelled "Max Height" |
| QueryReports.MinWidthLabel | WebApp/src/routes/admin/query-reports/+page.server.ts:127 | `min_width` is labelled "Min Width" |
| QueryReports.MaxWidthLabel | WebApp/src/routes/admin/query-reports/+page.server.ts:127 | `max_width` is labelled "Max Width" |
| QueryReports.TaskParamLabels | WebApp/src/routes/admin/query-reports/+page.server.ts:109-111 | the single parameters are labelled "Common Name", "Neighborhood", "Year" |
| QueryReports.CommonNameLabel | WebApp/src/routes/admin/query-reports/+page.server.ts:109-111 | `common_name` is labelled "Common Name" |
| QueryReports.NeighborhoodLabel | WebApp/src/routes/admin/query-reports/+page.server.ts:109-111 | `neighborhood` is labelled "Neighborhood" |
| QueryReports.MessageText | WebApp/src/routes/admin/query-reports/+page.server.ts:114 | the text of an issue: a fixed message as is, a required message as "<label> is required for <task name>." (a definition) |
| QueryReports.ParamSatisfied | WebApp/src/routes/admin/query-reports/+page.server.ts:97-107 | the `switch` on the parameter: a neighborhood or common name must be a string that is not empty after trimming, a year must be defined, and any other name fails (a definition) |
| QueryReports.ParamIssues | WebApp/src/routes/admin/query-reports/+page.server.ts:94-117 | a single-parameter task adds one required issue at its parameter exactly when the value is not acceptable (a definition; CheckParam is proved against it) |
| QueryReports.Exceeds | WebApp/src/routes/admin/query-reports/+page.server.ts:137-144 | JavaScript's `a > b` on two form values: false unless both are numbers (a definition) |
| QueryReports.CrossIssues | WebApp/src/routes/admin/query-reports/+page.server.ts:136-151 | the min/max checks: an issue at min_height when min_height > max_height, then one at min_width when min_width > max_width (a definition) |
| QueryReports.MinHeightRequiredText | WebApp/src/routes/admin/query-reports/+page.server.ts:127-130 | the required-issue message for min_height reads "Min Height is required for <task name>." |
| QueryReports.RequiredIssue | WebApp/src/routes/admin/query-reports/+page.server.ts:112-116 | the "required" issue for a field: path `[field]` and the required message naming the field and the task (a definition) |
| QueryReports.YearIssues | WebApp/src/routes/admin/query-reports/+page.server.ts:65-70 | the year checks give no issue exactly when the year is whole and from 1900 to next year; at most three issues, all at `["year"]` |
| QueryReports.PositiveIssue | WebApp/src/routes/admin/query-reports/+page.server.ts:72-87 | a size gives no issue exactly when it is absent or positive, and otherwise one issue at its own path with its message |
| QueryReports.SchemaIssues | WebApp/src/routes/admin/query-reports/+page.server.ts:61-88 | the field checks pass exactly when a task id is given, a given year is whole and from 1900 to next year, and every given size is positive |
| QueryReports.MissingIssues | WebApp/src/routes/admin/query-reports/+page.server.ts:121-134 | the missing-field issues are empty exactly when every listed field is defined, and each is at the path of one listed field |
| QueryReports.SizeIssues | WebApp/src/routes/admin/query-reports/+page.server.ts:120-151 | every custom-report-4 issue is at the path of one size field |
| QueryReports.TaskIssues | WebApp/src/routes/admin/query-reports/+page.server.ts:93-152 | every issue of a task is at the path of its own parameter or of a size field |
| QueryReports.RefineIssues | WebApp/src/routes/admin/query-reports/+page.server.ts:89-153 | an id naming no task gets no issue, and every issue is at the path of a field the selected task uses |
| QueryReports.FormValid | WebApp/src/routes/admin/query-reports/+page.server.ts:193 | `form.valid`: neither the field checks nor the validator report an issue (a definition) |
| QueryReports.TaskIdsUnique | WebApp/src/routes/admin/query-reports/+page.server.ts:8-59 | no two tasks of the table share an id |
| QueryReports.ParameterlessTasks | WebApp/src/routes/admin/query-reports/+page.server.ts:8-59 | exactly task1, task3, task4 and custom-report-5 have neither a parameter nor the custom-report-4 id |
| QueryReports.NoIssuesWithoutParameters | WebApp/src/routes/admin/query-reports/+page.server.ts:89-94 | an id naming no task, or naming task1, task3, task4 or custom-report-5, gets no validator issue |
| QueryReports.BlankIsUnsatisfied | WebApp/src/routes/admin/query-reports/+page.server.ts:97-100 | for any task name, a neighborhood or common-name value gets no issue exactly when it is present and not all whitespace |
| QueryReports.NeighborhoodRequired | WebApp/src/routes/admin/query-reports/+page.server.ts:94-117 | task2 gets exactly one issue (path `["neighborhood"]`, required message for its name) when the neighborhood is missing or blank, and none otherwise |
| QueryReports.CommonNameRequired | WebApp/src/routes/admin/query-reports/+page.server.ts:104-117 | custom-report-3 gets exactly one `["common_name"]` issue when the common name is missing or blank, and none otherwise |
| QueryReports.YearRequired | WebApp/src/routes/admin/query-reports/+page.server.ts:101-117 | custom reports 1 and 2 get exactly one `["year"]` issue, with their own task name, when the year is missing, and none otherwise |
| QueryReports.YearParamIssues | WebApp/src/routes/admin/query-reports/+page.server.ts:101-117 | the year check of a single-parameter task adds one required issue at `["year"]` exactly when the year is missing |
| QueryReports.MissingIssuesOfFour | WebApp/src/routes/admin/query-reports/+page.server.ts:121-134 | over a four-field list, the missing-field issues are those of each field in list order, and all are defined exactly when each is |
| QueryReports.MissingIssue | WebApp/src/routes/admin/query-reports/+page.server.ts:124-133 | one pass of the loop body: an undefined value gives one required issue at its field, a defined one none (a definition) |
| QueryReports.AllDefined | WebApp/src/routes/admin/query-reports/+page.server.ts:122-126 | the final value of `allParamsValid`: every listed field is defined (a definition) |
| QueryReports.SizeIssuesInOrder | WebApp/src/routes/admin/query-reports/+page.server.ts:120-151 | custom report 4 gets one required issue per missing size, in the order min_height, max_height, min_width, max_width, each at its own path; after them come the min/max checks, and only when all four are present |
| QueryReports.SizeFields | WebApp/src/routes/admin/query-reports/+page.server.ts:124 | `data[param]` on a size name reads that size field |
| QueryReports.SizeComparisons | WebApp/src/routes/admin/query-reports/+page.server.ts:136-151 | with all sizes present, the issues are: one at min_height exactly when min_height > max_height, then one at min_width exactly when min_width > max_width; equal values pass |
| QueryReports.ValidSizeForm | WebApp/src/routes/admin/query-reports/+page.server.ts:72-87 | in a valid custom-report-4 form all four sizes are present and positive, min_height ≤ max_height and min_width ≤ max_width |
| QueryReports.UnknownTaskIsValid | WebApp/src/routes/admin/query-reports/+page.server.ts:89-91 | for an id naming no task, the form is valid exactly when the field checks pass |
| QueryReports.RefinementCtx.AddIssue | WebApp/src/routes/admin/query-reports/+page.server.ts:112-116 | `ctx.addIssue` appends the issue and keeps the earlier ones |
| QueryReports.SuperRefine | WebApp/src/routes/admin/query-reports/+page.server.ts:89-153 | the callback appends to the context exactly the issues of the validator's specification, in order |
| QueryReports.CheckParam | WebApp/src/routes/admin/query-reports/+page.server.ts:94-117 | the switch on the parameter and the `isValid` flag add one required issue exactly when the value is not acceptable |
| QueryReports.CheckSizes | WebApp/src/routes/admin/query-reports/+page.server.ts:120-151 | the custom-report-4 branch appends the missing-size issues, then the comparisons only if none was missing |
| QueryReports.CheckPresent | WebApp/src/routes/admin/query-reports/+page.server.ts:121-134 | the loop appends one required issue per undefined field in list order; `allParamsValid` ends true exactly when every field is defined |
| QueryRequest.WithoutKey | WebApp/src/routes/admin/query-reports/+page.server.ts:213 | removing the pairs named k leaves none named k |
| QueryRequest.WithoutAbsentKey | WebApp/src/routes/admin/query-reports/+page.server.ts:213 | removing a name that does not occur leaves the pairs unchanged |
| QueryRequest.CountAppend | WebApp/src/routes/admin/query-reports/+page.server.ts:213 | counting and removing a name distribute over concatenation |
| QueryRequest.SetParam | WebApp/src/routes/admin/query-reports/+page.server.ts:213-220 | after `set(k, v)` exactly one pair is named k and it carries v; the pairs with other names are unchanged and in order; a new name is appended at the end |
| QueryRequest.ReplaceFirst | WebApp/src/routes/admin/query-reports/+page.server.ts:213 | setting a name that occurs leaves one pair with that name, carrying the new value, and keeps the other pairs |
| QueryRequest.NewKey | WebApp/src/routes/admin/query-reports/+page.server.ts:217-220 | a name no pair carries has count zero |
| QueryRequest.QueryParams | WebApp/src/routes/admin/query-reports/+page.server.ts:208-221 | at most four pairs, each carrying the form value of its own name; a single-parameter task sends only its parameter, and a task without parameters other than custom report 4 sends none |
| QueryRequest.EncodeQuery | WebApp/src/routes/admin/query-reports/+page.server.ts:223 | the query string is empty exactly when there are no pairs |
| QueryRequest.RequestFor | WebApp/src/routes/admin/query-reports/+page.server.ts:207-221 | the request of a task: the path `API_ROUTE + endpoint` and the task's query pairs (a definition) |
| QueryRequest.Href | WebApp/src/routes/admin/query-reports/+page.server.ts:207-226 | the URL starts with `API_ROUTE + endpoint` |
| QueryRequest.BuildUrl | WebApp/src/routes/admin/query-reports/+page.server.ts:207-226 | the `apiUrl` built with `+=` is exactly Href of the path and the query pairs |
| QueryRequest.HrefShape | WebApp/src/routes/admin/query-reports/+page.server.ts:207-226 | the URL is the bare `API_ROUTE + endpoint` exactly when there are no query pairs; otherwise it is that path, `?` and the encoded pairs |
| QueryRequest.SingleParamQuery | WebApp/src/routes/admin/query-reports/+page.server.ts:210-214 | a single-parameter task sends at most one pair, and it sends its field's value under the field's name exactly when the field is defined |
| QueryRequest.ParameterlessUrl | WebApp/src/routes/admin/query-reports/+page.server.ts:207-226 | task1, task3, task4 and custom-report-5 fetch `API_ROUTE + endpoint` with no query string |
| QueryRequest.SizeQuery | WebApp/src/routes/admin/query-reports/+page.server.ts:215-221 | for a valid custom-report-4 form all four sizes are sent, in order, each as a positive number |
| QueryRequest.BuildQuery | WebApp/src/routes/admin/query-reports/+page.server.ts:208-221 | the `set` calls build exactly the task's query pairs |
| QueryRequest.Ok | WebApp/src/routes/admin/query-reports/+page.server.ts:229 | `response.ok`: a status from 200 to 299 (a definition) |
| QueryRequest.ErrorMember | WebApp/src/routes/admin/query-reports/+page.server.ts:231-232 | reading `errorJson.error` throws exactly on null; on an object it is present exactly when a member is named `error`; on anything else it is undefined |
| QueryRequest.DefaultErrorText | WebApp/src/routes/admin/query-reports/+page.server.ts:230 | the default message `API Error <status>: <statusText>` (a definition; DefaultTextShowsStatus states its shape) |
| QueryRequest.FailureThrown | WebApp/src/routes/admin/query-reports/+page.server.ts:229-234 | a failed request throws one of: SyntaxError on a body that is not JSON; TypeError on a null body; the body's `error` member when it is truthy; and exactly the `API Error <status>: <statusText>` text in every other case |
| QueryRequest.DefaultTextShowsStatus | WebApp/src/routes/admin/query-reports/+page.server.ts:230 | the default error text is "API Error ", then the status code as digits with no leading zero that read back as the status, then ": " and the status text |
| QueryRequest.Interprets | WebApp/src/routes/admin/query-reports/+page.server.ts:229-246 | how a response becomes the outcome: failures throw, a non-JSON body throws a SyntaxError, an array gives rows and its first row's keys, anything else an empty report with the unexpected-format message (a definition; ReadResponse and RunQuery are proved against it) |
| QueryRequest.ReadResponse | WebApp/src/routes/admin/query-reports/+page.server.ts:229-252 | see Interprets: a JSON array becomes the results, with the first element's keys as headers (none for an empty array, a TypeError for a null first element); any other JSON value leaves results and headers empty and sets `apiError`; failures throw |
| QueryRequest.RunQuery | WebApp/src/routes/admin/query-reports/+page.server.ts:190-253 | an invalid form gives `fail(400)` and nothing else does, and nothing is fetched then; a valid form naming no task gives 400 "Invalid task selected."; otherwise the URL built with `+=` is exactly Href of the task's request, it is fetched, and its response is interpreted as above, with the task's name |
| AuthHooks.HasUserShape | WebApp/src/hooks.server.ts:30-41 | the payload is an object and has each of the eight claims (a definition; VerifyAuthToken is proved against it) |
| AuthHooks.VerifyAuthToken | WebApp/src/hooks.server.ts:26-61 | a user comes back exactly when `jwt.verify` did not throw and returned an object with all eight claims; its fields are the values under userId, email, firstName, lastName, street, zipCode and neighborhood, and `isVolunteer` is the truthiness of that claim |
| AuthHooks.UserPayload | WebApp/src/routes/register/+page.server.ts:78-87 | the payload the sign-in and registration pages sign, in their member order, followed by further claims (a definition) |
| AuthHooks.VerifyUserPayload | WebApp/src/routes/login/+page.server.ts:76-85 | a payload built as the sign-in and registration pages build it, in their member order, with any further claims that do not reuse the eight names, verifies to that same user |
| AuthHooks.PayloadVerifies | WebApp/src/routes/register/+page.server.ts:78-87 | any payload whose first eight members are the user's claims in the signing order, and whose later members have other names, verifies to that user |
| AuthHooks.ClaimAt | WebApp/src/hooks.server.ts:42-51 | in such a payload, claim i is present and is read from member i |
| AuthHooks.UserFromClaims | WebApp/src/hooks.server.ts:42-51 | a payload whose eight claims hold a user's values (a boolean under `isVolunteer`) verifies to that user |
| AuthHooks.RequestEvent.DeleteAuthCookie | WebApp/src/hooks.server.ts:15 | `cookies.delete('auth_token', {path})` removes the cookie and records the deletion with its path; nothing else changes |
| AuthHooks.RequestEvent.Resolve | WebApp/src/hooks.server.ts:22 | `resolve(event)` is recorded with the `locals.user`, the cookie and the deletions it sees; nothing else changes |
| AuthHooks.RequestEvent.Handle | WebApp/src/hooks.server.ts:5-24 | `locals.user` ends as the verified user when a non-empty cookie verifies, and null otherwise (it is reset first); the cookie is deleted with path `/` exactly when a non-empty cookie failed verification; with no cookie, an empty one, or a verified one, the cookie and the deletions are untouched; `resolve` runs exactly once and sees the final user, cookie and deletions |

## Left out

- Reading the request and the cookie jar, the `console` logging, and `superValidate`'s own form object are not modelled. Only the decisions are modelled.
- Zod's coercion of the posted strings into numbers (`z.coerce.number`) is not modelled, and neither is its "must be a number" error for text that does not coerce. The form is taken after coercion, and NaN cannot occur.
- Which zod issues are reported when the field checks and the validator both fail is not modelled. Zod may skip `superRefine` after a field-check failure. The model states only that a form is valid exactly when both lists are empty, and that answer is the same either way.
- Zod issue codes (`z.ZodIssueCode.custom`) are not modelled. Issues carry only a path and a message.
- QueryReports.MinHeightRequiredText: the fully spelled message is proved for `min_height` only. Every other field has its label proved separately (SizeLabels, TaskParamLabels), and MessageText joins a label to the task name.
- `String(value)` and form-urlencoding of query values are the `show` parameter of QueryRequest.EncodeQuery. The keys in use need no encoding.
- The value of `API_ROUTE` (from `$lib/constants`) is not part of this model. It is a parameter.
- `fetch` and the year read when the page module was loaded are parameters. Network failures that make `fetch` itself throw are not modelled.
- The order of `Object.keys` for objects with integer-like keys (engines list those first, in ascending order) is not modelled. Js.Keys gives first-occurrence order, which is what engines do for all other keys.
- JSON numbers are the exact reals of the text. The rounding of `JSON.parse` to doubles is not modelled, including overflow to ±Infinity and underflow to 0. So Js.Truthy of an underflowing number such as `1e-325` is true in the model, where `Boolean` gives false.
- JSON strings holding unpaired surrogates are not modelled: a Dafny `string` holds only Unicode scalar values. Js.Utf16Length counts each character above U+FFFF as a surrogate pair.
- The `load` function of the query-reports page is a network round trip and is not modelled: the membership check, the neighborhoods and the tree names.
- Cookie attributes other than name and path are not modelled.
- The outer `try`/`catch` of `handle` is not modelled as a separate path. `verifyAuthToken` already catches every exception from `jwt.verify`, and nothing else in that `try` can throw.
- Real JWT signature checking and expiry are behind the `verify` oracle.
- The Flask API, `get_tree_request_status`, the other pages' actions and `WebApp/src/lib/utils.ts` are not part of this model.
