# Rent ledger: accounts, payments and ownership scoping

A model of the rent-collection record keeper: landlords register tenants and record one
rent payment per tenant per month, and tenants log in to see their own history. The model
covers what the App component does with its three stored collections, plus the
confirmation-message logic:

- the **account directory**: the master-landlord seed, restoring the session, registration
  with its duplicate-mobile-number check, login by exact mobile and password match, the
  tenant edit, and the tenant delete that cascades to the tenant's records;
- the **payment ledger**: rent entry with its missing-tenant and already-paid-month checks,
  the newest-first prepend, and the receipt number taken from the clock;
- **scoping**: which landlord, tenants and records the logged-in account sees, the total
  collected, and the per-tenant summary (total and last payment);
- the **confirmation message**: the payment-method phrase, the fixed fallback text used when
  the text-generation service fails, and the default used for an empty reply.

Modules, one per file:

| file | module | models |
|---|---|---|
| wrappers.dfy | Wrappers | `Option`: an optional field, or a `find` that found nothing |
| types.dfy | Types | the `User` and `RentRecord` shapes, the `Month` union, `MONTHS`, `BANKS`, `BRANCHES` |
| seqs.dfy | Seqs | `filter`, `find` and `some` on sequences, and the facts about them |
| decimal.dfy | Decimal | integer `toString()` and `slice(-k)`, with the digit arithmetic behind receipt numbers |
| directory.dfy | Directory | the account list: seed, session restore, login match, edit, delete, landlord list |
| ledger.dfy | Ledger | the record list: duplicate-month test, new record, receipt number, cascade, totals |
| scoping.dfy | Scoping | `myLandlord`, `myTenants`, `myRecords`, `totalCollected`, the tenant summary |
| messages.dfy | Messages | `paymentDetails`, the fallback message, `generateProfessionalMessage`'s result |
| app.dfy | App | class `Store`: the component state and its handlers |

`Store` keeps the three stored values as fields (`users`, `records`, and `sessionId` for the
session key) and the in-memory state beside them (`currentUser`, `activeRecord`,
`aiMessage`). Each handler is a method that changes those fields. The derived views are
functions in `Scoping` over the same values. These inputs become parameters:

- the answer to a confirm dialog is a `bool`;
- an alert is a `Fail` outcome;
- `crypto.randomUUID()` is a fresh id, required to be unused;
- `Date.now()` is `nowMillis`;
- `new Date().toISOString()` is `paymentDate`;
- the result of the text-generation call is a `Draft`: a reply (its text may be absent) or
  a failure.

Logout removes the session key and reloads the page. The model runs the start-up logic
(`Mount`) again for the reload.

Where the code's behaviour is surprising, the model follows the code:

- The rent form never collects a bank name, account number or branch. `BANKS` and
  `BRANCHES` are imported but unused. So a Bank record has none of those fields, and its
  phrase reads "via undefined (undefined)" (`Messages.BankPhraseWithoutBankFields`).
- Seeding is not "once ever". Every page load prepends the master landlord when no account
  has its mobile number, so it comes back after its account has been deleted.
- Nothing enforces a non-negative amount or a `propertyOwnerId` that names a landlord.
- Registration spreads the whole form into the account. A registered landlord therefore
  has `propertyOwnerId` set to the empty string, while the seed has none, unless an owner was
  picked before the role was switched back to Landlord: the role change keeps the rest of the
  form, so that landlord keeps the owner's id and appears among that owner's tenants.
- `myTenants` compares optional values. With nobody logged in, it is the accounts that have
  no owner. Nothing shows it in that state.

## Model

| member | source | states |
|---|---|---|
| Types.MonthsAreTheMonthUnion | types.ts:30-39 | MONTHS is the twelve months January through December in calendar order, distinct, each in the Month union, and the union has no other value |
| Types.DefaultRentMonth | App.tsx:40 | the preselected month for a month index 0..11 is a member of the Month union |
| Types.BankAndBranchLists | types.ts:41-52 | BANKS has 4 distinct entries and BRANCHES 3 |
| Seqs.Filter | App.tsx:193 | `filter` keeps only elements satisfying the predicate, keeps every such element, and never grows the list |
| Seqs.Find | App.tsx:192 | `find` is absent exactly when no element satisfies the predicate; otherwise it is the first element that does |
| Seqs.Any | App.tsx:133 | `some` is true exactly when some element satisfies the predicate |
| Seqs.FilterCount | App.tsx:194-196 | a filter keeps each kept element as many times as it occurs in the input, and no other |
| Seqs.FilterConcat | App.tsx:194-196 | filtering a concatenation filters each part, so relative (newest-first) order is preserved |
| Directory.Seeded | App.tsx:59-65 | a list where the master mobile number is taken is returned unchanged; otherwise the master landlord is prepended; either way some account has that number afterwards |
| Directory.MobileTaken | App.tsx:133 | a mobile number is taken exactly when some account has it |
| Directory.SeedInsertsOnce | App.tsx:57-65 | when no account has the master mobile number, the seed prepends the master landlord and afterwards exactly one account has that number |
| Directory.SeedIdempotent | App.tsx:61-64 | seeding an already seeded list changes nothing |
| Directory.SeedKeepsUnique | App.tsx:61-62 | seeding keeps mobile numbers unique |
| Directory.SessionUser | App.tsx:70-77 | a stored session restores an account exactly when the id is present, non-empty and some account has it; the restored account has that id |
| Directory.LoginMatch | App.tsx:141 | login finds an account exactly when one has that mobile number and that exact password; it is the first such account; an account without a password never matches |
| Directory.NewUser | App.tsx:136 | the new account has the fresh id and every form field: name, mobile number and role as typed, and property name, password, picture and owner present as typed |
| Directory.AppendKeepsUnique | App.tsx:133-137 | appending an account whose mobile number is not taken keeps mobile numbers unique |
| Directory.ReplaceById | App.tsx:180 | the edit keeps the length and every id, turns every account with the edited id into the edited account, and leaves accounts with another id unchanged |
| Directory.ReplaceCanBreakUnique | App.tsx:180 | the edit does no uniqueness check: some edit of a list with unique mobile numbers produces a duplicate |
| Directory.ReplaceKeepsUnique | App.tsx:180 | an edit that keeps the replaced accounts' mobile number keeps uniqueness |
| Directory.RemoveById | App.tsx:187 | after the delete no account has the id, every account with another id is kept, and nothing new appears |
| Directory.RemoveKeepsUnique | App.tsx:187 | deleting an account keeps mobile numbers unique |
| Directory.Landlords | App.tsx:240 | the owners offered at registration are exactly the landlord accounts |
| Decimal.DecimalString | App.tsx:166 | a clock reading's numeral is a non-empty digit string with no leading zero (except for 0 itself) |
| Decimal.LastChars | App.tsx:166 | `slice(-k)` keeps the last k characters, or the whole string when it is shorter |
| Decimal.IntToString | services/geminiService.ts:28 | a number's text is non-empty and starts with a minus sign exactly when the number is negative |
| Decimal.DecimalRoundTrip | App.tsx:166 | reading back the decimal numeral of n gives n |
| Decimal.LastDigitsValue | App.tsx:166 | the last k characters of n's numeral are digits spelling n modulo 10^k |
| Ledger.ReceiptNumber | App.tsx:166 | a receipt number is "REC-" followed by one to six characters |
| Ledger.ReceiptNumberDigits | App.tsx:166 | the characters after "REC-" are digits spelling the clock reading modulo 10^6 |
| Ledger.ReceiptNumberLength | App.tsx:166 | from 100000 ms on, a receipt number has exactly ten characters |
| Ledger.ReceiptNumberCollision | App.tsx:166 | from 100000 ms on, two clock readings give the same receipt number exactly when they agree modulo 10^6, so uniqueness is not guaranteed |
| Ledger.NewRecord | App.tsx:159-167 | the new record carries the fresh id, the form's tenant id, tenant name, flat, mobile number, month, amount, method and MFS number, the clock's date and receipt number, and no bank name, account number or branch |
| Ledger.AlreadyPaid | App.tsx:155 | a month counts as paid exactly when some record has that tenant id and that month |
| Ledger.TotalAmount | App.tsx:197 | the total of no records is 0; with no negative amount, the total is non-negative and at least each single payment |
| Ledger.RecordsOf | App.tsx:412 | a tenant's payments are exactly the records under its id |
| Ledger.RemoveRecordsOf | App.tsx:188 | after the cascade no record is under the deleted id, every other record is kept, and nothing new appears |
| Ledger.RemoveKeepsOthersRecords | App.tsx:188 | the cascade leaves every other account's records exactly as they were, in order |
| Ledger.PrependKeepsOnePerMonth | App.tsx:155-169 | prepending a record whose (userId, rentMonth) is not yet paid keeps at most one record per pair |
| Ledger.RemoveKeepsOnePerMonth | App.tsx:188 | the cascade keeps at most one record per (userId, rentMonth) |
| Ledger.TotalAmountConcat | App.tsx:197 | the reduce total of two lists joined is the sum of their totals |
| Ledger.TotalAmountSplit | App.tsx:413 | when predicates p and q are disjoint and their union is o, the total o keeps is the total p keeps plus the total q keeps |
| Scoping.MyLandlord | App.tsx:192 | a landlord is shown exactly when the logged-in account has an owner id that some account has; it is an account with that id |
| Scoping.MyTenants | App.tsx:193 | the tenants are exactly the accounts whose owner equals the logged-in account's id |
| Scoping.MyRecords | App.tsx:194-196 | every visible record is in the ledger; a landlord sees a record exactly when one of its tenants paid it, anyone else exactly when it is under their own id |
| Scoping.TotalCollected | App.tsx:197 | logged out the total is 0; with no negative amount it is non-negative and at least each visible payment |
| Scoping.LandlordSeesTenantRecords | App.tsx:194-195 | a landlord sees exactly the records paid under the id of an account it owns, each as many times as in the ledger |
| Scoping.TenantSeesOwnRecords | App.tsx:196 | a tenant sees exactly the records under its own id, in ledger order |
| Scoping.LoggedOutSeesNothing | App.tsx:194-196 | with nobody logged in no record is visible |
| Scoping.MyRecordsAfterPrepend | App.tsx:194-196 | after a record is prepended, the visible list is the new record in front of the old list when the record is visible, and the old list otherwise |
| Scoping.TenantSummary | App.tsx:412-414 | a tenant's summary total is the total of its visible payments; its last payment is absent exactly when it has none, else its first (newest) payment |
| Scoping.SummaryOfOwnTenant | App.tsx:412-414 | for a landlord's own tenant, the summary covers that tenant's whole ledger history and the last payment is its newest record |
| Scoping.TotalCollectedIsSumOfSummaries | App.tsx:197 | with distinct tenant ids, a landlord's total collected is the sum of its tenants' summary totals |
| Messages.PaymentDetails | services/geminiService.ts:8-12 | the phrase is "in Cash" exactly for Cash; Bank is "via " + bank name + " (" + branch + ")", MFS is "via MFS (" + MFS number + ")", with an absent field shown as "undefined" |
| Messages.BankPhraseWithoutBankFields | services/geminiService.ts:8-9 | a Bank record without bank name and branch, as rent entry builds it, yields "via undefined (undefined)" |
| Messages.ConfirmationMessage | services/geminiService.ts:14-29 | the message is never empty; a failed call gives the fallback; a non-empty reply is returned unchanged; an empty or absent reply gives "Thank you for your rent payment!" |
| Messages.FallbackMessage | services/geminiService.ts:28 | the fallback greets the tenant by name first, ends with the sign-off ". Sent via AIT SOLUTION.", and is longer than its name, month and receipt parts together |
| Messages.FallbackShowsRecord | services/geminiService.ts:28 | the fallback contains the tenant name, the amount, the month, the payment phrase and the receipt number |
| Messages.FallbackDeterministic | services/geminiService.ts:28 | records that agree on those five parts get the same fallback |
| Messages.KarimFallback | services/geminiService.ts:28 | for Karim, 5000, January, Cash and REC-123456, the failed-call message is the template filled with those values and contains each of them |
| App.Store.Load | App.tsx:57-78 | a page load seeds the stored accounts, keeps the stored records and session key, and restores the session's account |
| App.Store.Mount | App.tsx:57-78 | the start-up effect seeds the accounts, restores the session user from the stored id, resets the in-memory state, and keeps mobile numbers unique |
| App.Store.Logout | App.tsx:114-119 | when confirmed, the session key is removed and the reload leaves nobody logged in; when declined, nothing changes |
| App.Store.Register | App.tsx:130-139 | fails with DuplicateMobileNumber, changing nothing, exactly when the number is taken; otherwise appends the new account, logs it in, and keeps mobile numbers unique |
| App.Store.Login | App.tsx:140-147 | succeeds exactly when an account matches; then the first match becomes the current user and session; otherwise fails with InvalidCredentials, changing nothing |
| App.Store.RentEntry | App.tsx:152-175 | fails with MissingTenant for an empty tenant id, or DuplicatePaymentForMonth for a paid month, changing nothing; otherwise the ledger becomes the new record in front of the old ledger, the record becomes active, the message is the one the service outcome yields, and one record per month is kept |
| App.Store.UpdateTenant | App.tsx:177-183 | replaces the accounts with the edited tenant's id and changes nothing else; with no tenant open, changes nothing |
| App.Store.DeleteTenant | App.tsx:185-190 | when confirmed, removes the accounts with the id and the records under it, other accounts' records stay as they were, and both invariants are kept; when declined, nothing changes |

## Left out

- Rendering, view switching, the profile menu and its click-outside handler (App.tsx:104-112, 199-515): presentation only. The receipt component is not part of this model.
- JSON serialisation in local storage (App.tsx:58-68, 80-86): the store's fields are the stored values. The extra first-render write of empty lists by the write-back effects is not modelled, because the next render overwrites it.
- The backup export (App.tsx:88-102): a browser download.
- The profile-picture upload (App.tsx:121-128): asynchronous browser file reading. The picture is a form string.
- `confirm`, `alert` and `window.location.reload`: booleans, `Fail` outcomes, and a second run of `Mount`.
- `crypto.randomUUID`, `Date.now` and `toISOString`: parameters. Fresh ids, for accounts and for records, are required to be unused and non-empty, as generated UUIDs are.
- `parseFloat` and `toLocaleString`: amounts are integers, so floating-point amounts and rounding in totals are not modelled.
- Decimal.IntToString: integer text only, without the exponent notation JavaScript uses from 10^21 on.
- The text-generation call and its `console.error` (services/geminiService.ts:2-5, 15-24, 27): the call is a foreign network client, so its outcome is the `Draft` parameter.
- Loading flag, current view, auth mode and the open edit dialog: UI state. The auth-mode switch of `handleAuthSubmit` is the choice between `Register` and `Login`.
- `isLoading`, and the fact that the message arrives after an `await`: the model assigns the record and the message in one step.
