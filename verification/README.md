# Bulk import and identity completion of the Supabase CRM, in Dafny

This project models three pieces of the CRM:

- **The bulk-import workflows.** These are the two background functions `bulk-import-purchases` and `bulk-import-customers`, each with its failure wrapper.
  - The purchase workflow groups parsed CSV rows into one purchase per transaction number. It checks that every referenced user and SKU exists, then calls the atomic insert procedure.
  - The customer workflow hands the normalised rows to the upsert procedure.
  - Both record their progress on a `bulk_import_batches` row: `pending`, then `processing`, then `completed`, `validation_failed` or `failed`.
- **The customer upload route's row normaliser.** `normalizeCustomerRow` trims and lower-cases keys and trims values. The route stages the normalised rows together with a `pending` batch.
- **The decision logic of the identity-completion endpoint** `bff-auth-complete`:
  - phone-number normalisation and the phone verification parameter check;
  - choosing an account by LINE id or by phone;
  - which credentials are written to an account;
  - which verification step the user is sent to;
  - the persona-aware profile-template filters;
  - the `next_step`, `profile_complete`, `missing` and `missing_data` of the response.

Modules, one file each:

| file | module | models |
|---|---|---|
| `js_text.dfy` | `JsText` | The JavaScript semantics the core relies on: nullish values, truthiness, `trim`, `toLowerCase`, `Array.prototype.filter`, and the decimal rendering of counts. |
| `purchase_grouping.dfy` | `PurchaseGrouping` | The group-by-transaction step. |
| `reference_validation.dfy` | `ReferenceValidation` | The validate-data step. |
| `batch_record.dfy` | `BatchRecord` | The batch row, as a class whose methods are the status updates. |
| `import_workflows.dfy` | `ImportWorkflows` | Both workflows and their failure wrappers. |
| `customer_rows.dfy` | `CustomerRows` | `normalizeCustomerRow` and the staging done by the upload route. |
| `phone_numbers.dfy` | `PhoneNumbers` | `normalizeTel`. |
| `profile_template.dfy` | `ProfileTemplate` | `filterFieldsByPersona`, `filterToMissingOnly`, `extractFullFormData` and the persona injection. |
| `completion_decisions.dfy` | `CompletionDecisions` | The handler's decision branches. |

The database, the clock and the workflow runner are not part of the model.

- **Queries and procedures** are function parameters: `lookupUsers`, `lookupSkus`, `insertPurchases` and `upsertCustomers`. The model states what each step does with whatever they answer.
- **Timestamps** are natural-number parameters.
- **A thrown error** is the `Failure` arm of a `Result`.
- **Imperative code stays imperative:**
  - The grouping loop, the row-normalising loop and the loops of `filterToMissingOnly` are methods with loop invariants.
  - Each method is proved equal to a recursive specification function.
  - The lemmas state their properties about that function.

## Model

Below, `bff` stands for `supabase/functions/bff-auth-complete/index.ts`.

| member | source | states |
|---|---|---|
| PurchaseGrouping.GroupByTransaction | supabase-functions/inngest-bulk-import-serve/index.ts:62-102 | The grouping loop builds exactly the dictionary `Grouped(rows)`. It holds one purchase per distinct transaction key of the input. |
| PurchaseGrouping.GroupedKeys | supabase-functions/inngest-bulk-import-serve/index.ts:65-68 | The keys of the grouped dictionary are exactly the transaction keys that occur in the rows. A missing column groups under "undefined". |
| PurchaseGrouping.GroupedPurchase | supabase-functions/inngest-bulk-import-serve/index.ts:68-98 | A purchase's header is built from the first row with its key. Its items are the items of all rows with that key, in input order. |
| PurchaseGrouping.ItemsForAbsentKey | supabase-functions/inngest-bulk-import-serve/index.ts:65-99 | A key that no row carries collects no items. |
| PurchaseGrouping.GroupedItemTotal | supabase-functions/inngest-bulk-import-serve/index.ts:91-101 | In insertion order the keys are distinct and cover every purchase. Across all purchases there is one line item per input row. |
| PurchaseGrouping.NewHeaderDefaults | supabase-functions/inngest-bulk-import-serve/index.ts:69-87 | Each header value is tied to its column. For every `||`, a present, non-empty cell is used, and otherwise the default applies: status completed, payment paid, record type credit, processing queue, source admin, and null store, reference and notes. Discount and tax are parsed from `discount_amount` and `tax_amount`, or default to 0. `earn_currency` is false only for the text "false". Total and final amount both come from `final_amount`. |
| PurchaseGrouping.LineItemDefaults | supabase-functions/inngest-bulk-import-serve/index.ts:91-98 | `sku_id`, quantity, unit price and line total come from their own cells. Item discount and item tax are parsed from `item_discount_amount` and `item_tax_amount` when present, and otherwise default to 0. |
| PurchaseGrouping.AsWrittenAgrees | supabase-functions/inngest-bulk-import-serve/index.ts:64-101 | When no transaction number names an inherited `Object.prototype` member, the loop as written produces exactly `Grouped(rows)`. |
| PurchaseGrouping.InheritedKeyThrows | supabase-functions/inngest-bulk-import-serve/index.ts:64-98 | A single row with transaction number "constructor" makes the loop as written throw. The intended grouping yields one purchase for it. |
| ReferenceValidation.CheckReferences | supabase-functions/inngest-bulk-import-serve/index.ts:105-137 | User ids are checked before SKU ids. A null query result throws. A count mismatch throws with the expected and found counts. The step passes exactly when both counts match. |
| ReferenceValidation.ReferencesValidIff | supabase-functions/inngest-bulk-import-serve/index.ts:106-134 | Against a store that answers faithfully, the step passes if and only if every referenced user id and SKU id exists. |
| ReferenceValidation.MissingUserReportedFirst | supabase-functions/inngest-bulk-import-serve/index.ts:112-122 | A missing user id is reported, with its counts, before the SKUs are looked at. The found count is strictly smaller than the expected count. |
| ReferenceValidation.FoundAllIff | supabase-functions/inngest-bulk-import-serve/index.ts:114-121 | The query never returns more rows than ids were asked for. It returns as many if and only if every id exists. |
| JsText.NatToStringValue | supabase-functions/inngest-bulk-import-serve/index.ts:119-121 | The decimal text a count is rendered with in an error message reads back as that count. |
| BatchRecord.Batch.constructor | crm-bulk-import/src/routes/import.ts:67-78 | The upload route creates a `pending` batch of the given import type and row count, with every result field empty. |
| BatchRecord.Batch.MarkProcessing | supabase-functions/inngest-bulk-import-serve/index.ts:33-42 | Writes `processing` and the start time. Every other field is left unchanged. |
| BatchRecord.Batch.MarkPurchasesCompleted | supabase-functions/inngest-bulk-import-serve/index.ts:166-177 | Writes `completed`, the purchase and item counts and the completion time. Every other field is left unchanged. |
| BatchRecord.Batch.MarkCustomersCompleted | supabase-functions/inngest-bulk-import-serve/index.ts:312-322 | Writes `completed`, the imported-user count and the completion time. Every other field is left unchanged. |
| BatchRecord.Batch.MarkValidationFailed | supabase-functions/inngest-bulk-import-serve/index.ts:271-292 | Writes `validation_failed`, the row errors, the total error count and the completion time. Every other field is left unchanged. |
| BatchRecord.Batch.MarkFailed | supabase-functions/inngest-bulk-import-serve/index.ts:207-214 | Writes `failed`, the error message and the completion time. Every other field is left unchanged. |
| ImportWorkflows.Message | supabase-functions/inngest-bulk-import-serve/index.ts:55-257 | Each thrown message is the fixed headline of its kind of error followed by what the template interpolates: the JSON error list, the expected and found counts, the procedure's message. The V8 TypeError texts stand for the reads of `.length` on null and `.success` on undefined. |
| ImportWorkflows.MessageNamesKind | supabase-functions/inngest-bulk-import-serve/index.ts:55-257 | The kind of error can be read back from its message, so errors of different kinds never share a message. |
| ImportWorkflows.InsertOutcome | supabase-functions/inngest-bulk-import-serve/index.ts:140-163 | A procedure error throws "Database insert failed". A missing result row throws a TypeError. `success: false` throws "Transaction failed". Otherwise the two counts are returned, and that happens exactly when the first row reports success. |
| ImportWorkflows.PurchaseImportOutcome | supabase-functions/inngest-bulk-import-serve/index.ts:44-177 | Parse errors throw their list. Otherwise a failed reference check throws its error, and then the insert procedure decides: its error is thrown as the atomic-insert step reads it, or the summary carries the batch id and the purchase and item counts of the procedure's first row. |
| ImportWorkflows.BulkImportPurchases | supabase-functions/inngest-bulk-import-serve/index.ts:23-195 | The workflow returns or throws `PurchaseImportOutcome`. The batch gets `processing` and its start time. On success it gets `completed`, the procedure's purchase and item counts, and the completion time. On failure it stays `processing` with its counts and completion time unchanged. The error message, validation errors, metadata and user count are never touched. |
| ImportWorkflows.BulkImportPurchasesWithErrorHandling | supabase-functions/inngest-bulk-import-serve/index.ts:199-218 | Exactly two statuses are written: `processing`, then `completed` or `failed`. Success records the procedure's purchase and item counts and the completion time. A failure records the message of the error `PurchaseImportOutcome` throws, whether from parsing, the reference check or the insert, with the completion time, and the error is rethrown unchanged. The counts are untouched on failure, and the validation errors, metadata and user count always are. |
| ImportWorkflows.PurchaseCompletedIff | supabase-functions/inngest-bulk-import-serve/index.ts:54-177 | The purchase import completes if and only if there are no parse errors, both reference counts match, and the insert procedure reports success. |
| ImportWorkflows.FailureBeforeInsertIgnoresInsert | supabase-functions/inngest-bulk-import-serve/index.ts:54-137 | After a parse error or a reference mismatch the outcome is a failure, and it does not depend on the insert procedure. |
| ImportWorkflows.CustomerRequest | supabase-functions/inngest-bulk-import-serve/index.ts:242-250 | The procedure receives the rows, the merchant and the batch id. The wallet flag is true only for a literal `true`. The error cap is 100. |
| ImportWorkflows.CustomerResultOf | supabase-functions/inngest-bulk-import-serve/index.ts:251-258 | A procedure error throws "RPC failed". The first row of an array, or a single object, is used. An empty answer throws "RPC returned no row". |
| ImportWorkflows.ImportedUsers | supabase-functions/inngest-bulk-import-serve/index.ts:317 | The imported-user count is imported plus updated, each defaulting to 0, in all four combinations of present and null counts. |
| ImportWorkflows.CustomerDisposition | supabase-functions/inngest-bulk-import-serve/index.ts:271-322 | Success means imported. `valid === false` with an error list means validation failed. Any other unsuccessful row means failed. Each outcome carries its row's fields. |
| ImportWorkflows.StatusFor | supabase-functions/inngest-bulk-import-serve/index.ts:271-322 | Each normal ending writes a terminal status, one per outcome. |
| ImportWorkflows.CustomerImportResult | supabase-functions/inngest-bulk-import-serve/index.ts:240-330 | A procedure error or a missing result row is thrown as the validate-and-insert step reads it. A returned row decides the ending through `CustomerDisposition`. |
| ImportWorkflows.BulkImportCustomers | supabase-functions/inngest-bulk-import-serve/index.ts:228-330 | The workflow returns or throws `CustomerImportResult`. After `processing` it writes the outcome's status, its completion time and that outcome's fields, leaving every other field unchanged. On success the user count is the procedure's imported plus updated counts. The in-line failure message defaults to "Insert failed". On a throw the batch stays `processing`. The purchase and item counts are never touched. |
| ImportWorkflows.BulkImportCustomersWithErrorHandling | supabase-functions/inngest-bulk-import-serve/index.ts:333-352 | Every ending of the inner workflow is carried through: the user count from the procedure's two counts, the validation errors and metadata, or the in-line failure message defaulting to "Insert failed", each with the fields it does not write unchanged. A thrown procedure error or missing row is recorded as `failed` with its message and completion time, then rethrown. |
| ImportWorkflows.CustomerTerminalStatus | supabase-functions/inngest-bulk-import-serve/index.ts:242-322 | The final status is `validation_failed` if and only if the procedure reported `valid === false` with errors. It is `completed` if and only if the procedure reported success. The workflow throws if and only if the procedure call failed. |
| CustomerRows.NormalizeCustomerRow | crm-bulk-import/src/routes/import.ts:24-32 | The loop builds `Normalized(raw)`. The result has no more keys than the input has entries, and every key is already trimmed and lower-cased. |
| CustomerRows.NormalizedKeys | crm-bulk-import/src/routes/import.ts:26-29 | The output keys are exactly the normalised keys of the entries whose value is not null or undefined. A key that normalises to `__proto__` is dropped. |
| CustomerRows.NormalizedValueFromLast | crm-bulk-import/src/routes/import.ts:26-30 | When keys collide, each value comes from the last kept entry with that key. |
| CustomerRows.NormalizedSize | crm-bulk-import/src/routes/import.ts:25-31 | The output has no more keys than the input has entries. |
| CustomerRows.NormalizedValuesTrimmed | crm-bulk-import/src/routes/import.ts:29 | For string-valued input every output value is trimmed. |
| CustomerRows.NormalizedFixedPoint | crm-bulk-import/src/routes/import.ts:24-32 | Normalising a complete listing of an already-normalised row gives that row back. |
| CustomerRows.NormalizeIdempotent | crm-bulk-import/src/routes/import.ts:24-32 | Normalising any listing of a normalised row gives the same row back. |
| CustomerRows.NormalizeRows | crm-bulk-import/src/routes/import.ts:65 | One normalised row per parsed row, in order. |
| CustomerRows.StageCustomerImport | crm-bulk-import/src/routes/import.ts:65-78 | The route stages the normalised rows with a fresh `pending` customers batch. `total_rows` is the number of rows. |
| PhoneNumbers.NormalizeTel | supabase/functions/bff-auth-complete/index.ts:33-45 | The result is null exactly for a missing or empty input. Otherwise it holds no whitespace and no hyphen. |
| PhoneNumbers.PrefixRules | supabase/functions/bff-auth-complete/index.ts:35-44 | On the separator-free text, "+660…" becomes "+66…", "0…" becomes "+66…" and "66…" becomes "+66…". Any other text is unchanged. |
| PhoneNumbers.CountryCodePrefix | supabase/functions/bff-auth-complete/index.ts:37-43 | National, "66…" and "+66…" numbers all come out starting with "+66". |
| PhoneNumbers.TrimIsSubsumed | supabase/functions/bff-auth-complete/index.ts:35-36 | Trimming before the global replace changes nothing. |
| PhoneNumbers.NormalizeTelFixedPoint | supabase/functions/bff-auth-complete/index.ts:33-45 | Normalising an output again leaves it unchanged, unless the output is "" or starts with "+660". |
| PhoneNumbers.NationalPrefixRewritten | supabase/functions/bff-auth-complete/index.ts:39-40 | A compact "0" + d normalises to "+66" + d. |
| PhoneNumbers.InternationalZeroDropped | supabase/functions/bff-auth-complete/index.ts:37-38 | A compact "+660" + d normalises to "+66" + d. |
| PhoneNumbers.NormalizeTelNotIdempotent | supabase/functions/bff-auth-complete/index.ts:37-40 | "00" + d normalises to "+660" + d, which normalises to "+66" + d. A second pass changes the result. |
| ProfileTemplate.PersonaFilterSelects | supabase/functions/bff-auth-complete/index.ts:53-67 | The result is an order-preserving sub-list. It keeps a field if and only if the field is unrestricted or lists the user's persona. A user without a persona sees only unrestricted fields. |
| ProfileTemplate.FilterToMissingOnly | supabase/functions/bff-auth-complete/index.ts:70-123 | The loops compute `MissingOnly(template, userPersonaId)`. |
| ProfileTemplate.CollectDefaultGroups | supabase/functions/bff-auth-complete/index.ts:89-104 | The default-group loop emits `MissingGroups`. It raises the address flag exactly when some missing field is an address field. |
| ProfileTemplate.CollectMissingFields | supabase/functions/bff-auth-complete/index.ts:93-99 | The field filter keeps the required empty fields. Its side effect is true if and only if one of them is an address field. |
| ProfileTemplate.CollectCustomGroups | supabase/functions/bff-auth-complete/index.ts:107-118 | The custom-group loop emits `MissingGroups`. |
| ProfileTemplate.MissingGroupsAreFilteredGroups | supabase/functions/bff-auth-complete/index.ts:90-103 | The emitted groups are the input groups in order, each cut down to its missing fields, with empty groups dropped. |
| ProfileTemplate.MissingGroupsAreMissing | supabase/functions/bff-auth-complete/index.ts:92-102 | Every emitted group lists at least one field. All of its fields are persona-visible, required and empty. |
| ProfileTemplate.MissingGroupsNonEmptyIff | supabase/functions/bff-auth-complete/index.ts:100-121 | A config yields a group if and only if one of its groups has a missing persona-visible field. |
| ProfileTemplate.MissingFlagsIff | supabase/functions/bff-auth-complete/index.ts:84-121 | Consent is missing if and only if some mandatory item is unaccepted. Profile is missing if and only if some group has a missing field. A missing address implies a missing profile. |
| ProfileTemplate.MissingConsents | supabase/functions/bff-auth-complete/index.ts:84-86 | The pdpa list is the order-preserving selection of the mandatory, unaccepted items. |
| ProfileTemplate.PersonaGroupsClearedWhenSelected | supabase/functions/bff-auth-complete/index.ts:72-76 | With a selected persona, the persona groups are replaced by [] and the selection is kept. |
| ProfileTemplate.ExtractFullFormData | supabase/functions/bff-auth-complete/index.ts:125-144 | Both field configurations are `PersonaFiltered`: each group keeps its place and properties, and its fields are cut to the persona-visible ones. Absent lists become []. Persona and pdpa pass through, and a falsy section becomes null. |
| ProfileTemplate.PersonaFiltered | supabase/functions/bff-auth-complete/index.ts:127-135 | The groups are the same in number and in their other properties, each with a field list. |
| ProfileTemplate.FullFormGroups | supabase/functions/bff-auth-complete/index.ts:127-135 | Each full-form group's fields are the persona-visible fields of the input group, in order. |
| ProfileTemplate.MissingWithinFullForm | supabase/functions/bff-auth-complete/index.ts:89-135 | Each missing-only group is some full-form group cut down to a sub-list of its fields. |
| ProfileTemplate.MissingGroupsFrom | supabase/functions/bff-auth-complete/index.ts:100-102 | Each emitted group is an input group with `{ ...group, fields: missingFields }`. |
| ProfileTemplate.InjectPersona | supabase/functions/bff-auth-complete/index.ts:337-341 | Without a template, a truthy user persona and a persona section, the template is returned unchanged. Otherwise only `selected_persona_id` changes, and it becomes the user's persona. |
| ProfileTemplate.InjectedPersonaSelected | supabase/functions/bff-auth-complete/index.ts:337-344 | After injection, a user with a persona sees it as the selected one and is never offered the persona groups. |
| CompletionDecisions.MissingPhoneParams | supabase/functions/bff-auth-complete/index.ts:182-196 | The request is rejected if and only if some but not all of the phone parameters are given. The rejection names exactly the missing ones, in the order tel, otp_code, session_id. |
| CompletionDecisions.PhoneParamsOf | supabase/functions/bff-auth-complete/index.ts:165-184 | A tel counts as given if and only if it holds some character other than whitespace and hyphens. `otp_code` and `session_id` count if and only if they are non-empty. |
| CompletionDecisions.ResolveByCredentials | supabase/functions/bff-auth-complete/index.ts:256-259 | The result is a conflict if and only if both accounts exist with different ids. Otherwise the result is the LINE account when there is one, and else exactly the phone account, or none. When both exist they share an id. |
| CompletionDecisions.CredentialUpdates | supabase/functions/bff-auth-complete/index.ts:226-228 | A verified phone is written only when the account has none. A LINE id is written only when the account has none. |
| CompletionDecisions.CredentialsOnlyFillEmpty | supabase/functions/bff-auth-complete/index.ts:296-302 | Existing credentials are never replaced and other columns are untouched. After the update nothing is left to update. |
| CompletionDecisions.NewUserGate | supabase/functions/bff-auth-complete/index.ts:261-279 | LINE is asked for first, then phone. Shopify is asked for only when LINE and phone are not both required. The gate passes, letting the account be created, if and only if LINE and phone are present when required, and Shopify is present when required unless LINE and phone are both required. |
| CompletionDecisions.ExistingUserGate | supabase/functions/bff-auth-complete/index.ts:288-295 | A missing phone is asked for before Shopify. No other step is asked for. |
| CompletionDecisions.CredentialStep | supabase/functions/bff-auth-complete/index.ts:310-323 | A gap in phone, then Shopify, then LINE decides the step, and there is a step if and only if there is a gap. |
| CompletionDecisions.CredentialGaps | supabase/functions/bff-auth-complete/index.ts:310-312 | A credential is missing if and only if the merchant requires it and the account lacks it: no phone, no LINE id, or no `shopify:` external id. A gap is never a profile flag. |
| CompletionDecisions.NewAccount | supabase/functions/bff-auth-complete/index.ts:280 | A new account holds only the credentials just verified: the phone if verified, the LINE id if given, the e-mail only with Shopify. It has no Shopify link, no persona and an unfinished signup form. |
| CompletionDecisions.NewAccountStillVerifiesShopify | supabase/functions/bff-auth-complete/index.ts:261-323 | When LINE, phone and Shopify are all required, the new-user gate skips Shopify. The account it creates is still sent to `verify_shopify`. |
| CompletionDecisions.ProfileDecision | supabase/functions/bff-auth-complete/index.ts:351-368 | The profile is complete if and only if nothing is missing. A new user gets `complete_profile_new`. `complete` comes exactly when the user is existing, signed up and missing nothing. The full form is sent exactly to new or not-yet-signed-up users. |
| CompletionDecisions.ResponseFor | supabase/functions/bff-auth-complete/index.ts:310-381 | `is_new_user` and `is_signup_form_complete` are passed through. A response stops at a credential step if and only if a credential gap remains, and then carries exactly the gaps and the step they decide. Otherwise `next_step` and `profile_complete` are the profile decision on the persona-injected template, the missing flags are its consent, profile and address flags, and `missing_data` is the full form exactly for a new user or an unfinished signup form, the missing-only data otherwise, and null exactly when the step is `complete`. |
| CompletionDecisions.ResponseShape | supabase/functions/bff-auth-complete/index.ts:310-368 | A response that skips the profile check reports only credential gaps and a verification step. A checked response reports no credential gap, and `address` implies `profile`. |
| CompletionDecisions.CompleteMeansNothingMissing | supabase/functions/bff-auth-complete/index.ts:347-368 | `complete` means an existing, signed-up user with every flag false and a null `missing_data`. |
| CompletionDecisions.NewUserGetsFullForm | supabase/functions/bff-auth-complete/index.ts:353-361 | A new user with complete credentials is sent the full form: every default and custom group, with its properties, and exactly its persona-visible fields. |
| CompletionDecisions.ExistingUserGetsMissingOnly | supabase/functions/bff-auth-complete/index.ts:337-368 | An existing, signed-up user who is missing something gets only the missing data. With a persona, that data offers no persona groups. |

## Left out

- The HTTP layer is not modelled: Express, multer, CORS, the Deno `serve` handler and the Inngest function registration. The model starts from parsed values.
- Workflow step memoisation, retries and the runner's own error handling are left out. Each workflow is one sequential run.
- File reading is left out. The purchase workflow reads `event.data.file_path` (`supabase-functions/inngest-bulk-import-serve/index.ts` lines 26 and 46), but the purchase upload route sends the parsed rows as `csv_data` and no file path (`crm-bulk-import/src/routes/import.ts` line 164). The model replaces the read and the parse with the parser's output, its rows and errors, given as a parameter. The customer workflow takes `csv_data` as it is.
- CSV parsing by PapaParse is left out, apart from the header transform, which is `NormalizeKey`.
- `parseFloat` is kept symbolic (`Amount.ParseFloat`), because floating point is out of scope.
- `JsText.ToLowerCase` maps only the ASCII letters; full Unicode case mapping is left out.
- The order of `Object.values(purchases)` is not modelled; JavaScript lists integer-like keys first, in ascending order, so it is not the order rows arrive in. `GroupedItemTotal` uses `KeyOrder` only as an enumeration of the keys, to count the items.
- The cleanup step that deletes the uploaded file is left out, because it is file I/O whose errors are only logged.
- Errors returned by the status-update queries are ignored by the source, so they are not modelled.
- JWT signing and verification, refresh tokens, `crypto.randomUUID` and `get_user_summary` are left out, so the response carries no tokens or user summary.
- OTP lookups are not modelled (`bff` lines 197-212). Their result is the boolean `hasTel`, or `verifiedTel`, a parameter.
- The access-token and Shopify lookups that find an account (`bff` lines 216-244) are left out, apart from the credential updates.
- An account-creation error (the 500 at `bff` line 282) is left out.
- The update result `updated || userAccount` is modelled as `ApplyUpdates`. A failed update returning null is not modelled.
- A template section that is not an array is modelled like an absent one, as `None`.
- The auth-shopify-admin function and the purchase upload route are not part of this model.
- ImportWorkflows.BulkImportPurchases: the workflow runs the intended grouping, `GroupByTransaction`. For a row whose `transaction_number` names an inherited `Object.prototype` member, the source instead throws a TypeError at `supabase-functions/inngest-bulk-import-serve/index.ts` line 91 and the wrapper writes `failed`. The model does not capture that ending; it is the subject of the finding below.
- ImportWorkflows.BulkImportPurchasesWithErrorHandling: because the inner workflow runs the intended grouping, a transaction number naming an inherited `Object.prototype` member ends `completed` here, where the source writes `failed` with a TypeError message.
- ImportWorkflows.Render: a null `error_message` is rendered as "null". An absent one, which JavaScript renders as "undefined", is not distinguished from null.
- CompletionDecisions.NewUserGate: for a new user who is missing a required credential, the model states only which step is returned. It does not state that no account is inserted.

## Findings

| source | as written | input that shows it | evidently intended | confidence | as-written member | corrected member |
|---|---|---|---|---|---|---|
| supabase-functions/inngest-bulk-import-serve/index.ts:64-98 | `purchases` is a plain object literal, and `!purchases[txnNum]` treats an inherited `Object.prototype` member as an existing purchase. `purchases[txnNum].items.push` then throws a TypeError. | One CSV row whose `transaction_number` is "constructor" | That row forms its own purchase, like any other transaction number | not executed | PurchaseGrouping.InheritedKeyThrows | PurchaseGrouping.GroupByTransaction |
