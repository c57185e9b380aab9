# Crummey notice manager — a Dafny model of its request handlers

The application keeps irrevocable life-insurance trusts and their beneficiaries.
It records gifts ("contributions") to a trust. Each gift gives every beneficiary a
temporary right to withdraw, and the beneficiaries are told of it by email
("Crummey notices"). This project models the server-side logic that decides what
each request does. It covers:

- the batch send of pending notices (`POST /api/notices/send`): selection, the
  ownership skip, one dispatch per notice, the pending → sent transition, the
  audit entries and the `{ sent, failed, errors }` counters;
- the validators and store updates of the trusts, beneficiaries and
  contributions handlers: ordered error answers, defaults, owner stamping, the
  audit entry, soft delete;
- the notice listing: optional AND-combined filters, then the ownership filter.
  The `GET` handler in `route.ts` lists the same query without that
  filter;
- the middleware route guard (protected pages, auth pages, redirects);
- the email helpers: subjects, tag sanitising, the salutation, the optional
  phone clause, and the mapping of the provider's answer.

Layout, one module per source file:

| file | module | models |
|---|---|---|
| `types.dfy` | `Types` | records, statuses, audit entries, the `{ data, error }` envelope |
| `seqs.dfy` | `Seqs` | `Array.filter`, newest-first order, `Array.join` |
| `ledger.dfy` | `Ledger` | the store: a `Store` class with one `seq` per table, its key and foreign-key invariant |
| `trusts_route.dfy` | `TrustsRoute` | `GET`/`POST /api/trusts` |
| `beneficiaries_route.dfy` | `BeneficiariesRoute` | `GET`/`POST`/`PUT`/`DELETE /api/beneficiaries` |
| `contributions_route.dfy` | `ContributionsRoute` | `GET`/`POST /api/contributions` |
| `notice_email.dfy` | `NoticeEmail` | `sendNoticeEmail`, `sendReminderEmail` and their string helpers |
| `notice_send.dfy` | `NoticeSend` | `POST /api/notices/send` |
| `notices_route.dfy` | `NoticesRoute` | `GET /api/notices`, scoped and unscoped |
| `middleware.dfy` | `Middleware` | the route guard of `updateSession` |

Each handler that writes is a module-level method that takes the store
(`db: Ledger.Store`) and changes its fields. It is proved against a
pure decision function (`PrepareTrust`, `PrepareBeneficiary`,
`PrepareContribution`, `PutDecision`, `DeleteDecision`). The method's contract
states the whole new state of the store: the rows appended or updated, the audit
entry, a fresh id, and every other table unchanged. It also keeps the store
invariant: distinct keys, and every notice referring to an existing trust.

The batch send is an imperative loop (`NoticeSend.SendAll`, one iteration in
`NoticeSend.SendOne`). It is proved against `NoticeSend.Run`, a left fold of
`Step` over the candidates. The loop invariant is
`Run(state now, rest of candidates) == Run(initial state, all candidates)`.
Lemmas give `Run` a closed form and derive the properties the handler promises.

The user is an `Option<Id>`; `None` is an unauthenticated request. The email
provider is a function from the outgoing message to its outcome: an answer with
an error, an answer with a message id, or a thrown value. The message carries
the template data its bodies are generated from, so notices with different
acknowledgment links are different messages. The clock is one
`now` string per request.

Behaviour of the code as written that a reader may not expect:

- the send loop re-checks neither the status nor the owner when it updates a row;
- `PUT /api/beneficiaries` makes no ownership check;
- `DELETE /api/beneficiaries` likewise checks only that an id is given, not
  that the beneficiary's trust is the caller's;
- `GET /api/contributions` does not filter by owner;
- the notice email's "Dear …" line greets the first word of the recipient's
  **email address**, because the handler overrides `beneficiaryName` with
  `recipient_email` before the email is built.

## Model

| member | source | states |
|---|---|---|
| `Types.StatusNameInjective` | index.ts:62 | The five notice statuses have distinct spellings, so a status string names at most one status. |
| `Seqs.Filter` | src/app/api/notices/route.ts:44 | `filter` keeps exactly the elements satisfying the predicate, in their original order (a subsequence), and is never longer than its input. |
| `Seqs.FilterReverse` | src/app/api/notices/route.ts:25 | Filtering a newest-first listing gives the newest-first listing of the filtered rows. |
| `Ledger.FindTrust` | src/app/api/beneficiaries/route.ts:73-78 | The trust found is in the table and has the requested id; nothing is found exactly when no row has that id. |
| `TrustsRoute.PrepareTrust` | mnt/user-data/outputs/crummey-manager/src/app/api/trusts/route.ts:35-65 | 401 without a user. 400 when name, trust date, trustee name or trustee email is missing or empty. A signed-in request with all four is answered Ok, and then the row belongs to the caller and copies the required fields. Empty optional trustee fields become null, and a missing trust type becomes "ILIT". The withdrawal period is non-zero, and the row is active (the column's default). |
| `TrustsRoute.WithdrawalPeriodDefault` | mnt/user-data/outputs/crummey-manager/src/app/api/trusts/route.ts:64 | A missing or zero withdrawal period becomes 30 days; any other value is kept. |
| `TrustsRoute.PrepareTrustIsNormalForm` | mnt/user-data/outputs/crummey-manager/src/app/api/trusts/route.ts:53-64 | Defaults are applied once: a prepared row, resubmitted by its owner, prepares to the same row. |
| `TrustsRoute.ListTrusts` | mnt/user-data/outputs/crummey-manager/src/app/api/trusts/route.ts:6-28 | 401 exactly when there is no user, and Ok otherwise. The list holds exactly the caller's trusts. |
| `TrustsRoute.NewTrustListedFirst` | mnt/user-data/outputs/crummey-manager/src/app/api/trusts/route.ts:21-22 | A trust its owner has just created heads that owner's newest-first list. |
| `TrustsRoute.Post` | mnt/user-data/outputs/crummey-manager/src/app/api/trusts/route.ts:32-83 | An error leaves the store unchanged. Otherwise exactly one trust row (with a fresh id) and one `trust_created` audit entry are appended, and nothing else changes. |
| `BeneficiariesRoute.PrepareBeneficiary` | src/app/api/beneficiaries/route.ts:49-97 | The checks run in this order: 401; 400 "Missing required fields"; 400 for a minor without a guardian's name or email; 404 unless the caller owns the trust. A request passing all four checks is answered Ok. The row inserted copies the required fields. `is_minor` defaults to false, and a minor always has a guardian. The share is non-zero, empty optional fields become null, and the row is active (the column's default). |
| `BeneficiariesRoute.ValidationPrecedesLookup` | src/app/api/beneficiaries/route.ts:57-82 | The 400 answers do not depend on the trust table: they precede the ownership lookup. |
| `BeneficiariesRoute.SharePercentageDefault` | src/app/api/beneficiaries/route.ts:97 | A missing or zero share becomes 100; any other value is kept. |
| `BeneficiariesRoute.ListBeneficiaries` | src/app/api/beneficiaries/route.ts:6-43 | 401; then 400 without `trust_id`; then 404 unless the caller owns the trust. Ok exactly when the caller is signed in, gives `trust_id` and owns that trust, and then exactly the trust's beneficiaries, active or not. |
| `BeneficiariesRoute.ApplyPatchIdempotent` | src/app/api/beneficiaries/route.ts:128-139 | Applying the same update twice equals applying it once, and an empty update changes nothing. |
| `BeneficiariesRoute.ApplyPatch` | src/app/api/beneficiaries/route.ts:128-136 | Every column the body supplies (besides `id`) is set to the value supplied, every other column keeps its value, and the id never changes. |
| `BeneficiariesRoute.UpdateWhere` | src/app/api/beneficiaries/route.ts:134-137 | An update by id applies the patch to every row with that id, leaves every other row untouched, and adds or removes no row. |
| `BeneficiariesRoute.PutDecision` | src/app/api/beneficiaries/route.ts:119-145 | 401; then 400 without an id; then a store error when no row has the id. Otherwise the answer is the updated row, with that id, as it stands in the updated table. No ownership check is made. |
| `BeneficiariesRoute.Put` | src/app/api/beneficiaries/route.ts:134-145 | The answer is `PutDecision`'s. On success the table is the updated table; everything else, audit log included, is unchanged. |
| `BeneficiariesRoute.SoftDeleteKeepsRows` | src/app/api/beneficiaries/route.ts:163-167 | The soft delete keeps every row. Rows with that id only become inactive; the others are untouched. |
| `BeneficiariesRoute.DeleteDecision` | src/app/api/beneficiaries/route.ts:149-174 | 401; then 400 without an id; otherwise success, whether or not a row has that id. |
| `BeneficiariesRoute.Delete` | src/app/api/beneficiaries/route.ts:157-173 | The answer is `DeleteDecision`'s. On success only the beneficiary table changes, by the soft delete. |
| `BeneficiariesRoute.Post` | src/app/api/beneficiaries/route.ts:84-115 | An error leaves the store unchanged. Otherwise exactly one row (with a fresh id) and one `beneficiary_created` audit entry naming it are appended, and nothing else changes. |
| `ContributionsRoute.ActiveBeneficiaries` | mnt/user-data/outputs/crummey-manager/src/app/api/contributions/route.ts:65-69 | Exactly the trust's active beneficiaries are counted. |
| `ContributionsRoute.PrepareContribution` | mnt/user-data/outputs/crummey-manager/src/app/api/contributions/route.ts:42-86 | The checks run in this order: 401; 404 when the trust does not exist; 403 when it is another user's; 400 when it has no active beneficiary. Success happens exactly when the caller owns the trust and it has an active beneficiary. The row carries the amount and date as given, and an empty description as null; `notices_generated` is false (the column's default). |
| `ContributionsRoute.NoticesOf` | mnt/user-data/outputs/crummey-manager/src/app/api/contributions/route.ts:104-107 | The notices returned are exactly those of the new contribution, in table order. |
| `ContributionsRoute.ListContributions` | mnt/user-data/outputs/crummey-manager/src/app/api/contributions/route.ts:6-35 | 401 exactly when there is no user, and Ok otherwise. The list is ordered latest `contribution_date` first. Without `trust_id` it holds every contribution, each as often as stored; with it, exactly that trust's contributions, each as often as stored. |
| `ContributionsRoute.SortNewestFirst` | mnt/user-data/outputs/crummey-manager/src/app/api/contributions/route.ts:23 | `.order('contribution_date', { ascending: false })`: the result is a permutation of the input, and no row has an earlier date than the row after it. |
| `ContributionsRoute.Post` | mnt/user-data/outputs/crummey-manager/src/app/api/contributions/route.ts:39-113 | An error leaves the store unchanged. Otherwise one row (with a fresh id) and one `contribution_created` audit entry are appended, and the notices of the new id are returned. |
| `NoticeEmail.NoticeSubject` | src/lib/email/send-notice.ts:10 | The subject is the fixed lead followed by the trust name. |
| `NoticeEmail.NoticeSubjectInjective` | src/lib/email/send-notice.ts:10 | Different trusts get different notice subjects. |
| `NoticeEmail.SanitizeTag` | src/lib/email/send-notice.ts:24 | The tag keeps the length. ASCII letters and digits are kept; every other character becomes `_`. |
| `NoticeEmail.SanitizeTagIdempotent` | src/lib/email/send-notice.ts:24 | A sanitised tag holds only letters, digits and `_`, and sanitising it again changes nothing. |
| `NoticeEmail.SplitOnSpace` | src/lib/email/send-notice.ts:68 | No piece contains a space. The first piece is a prefix of the input, followed by a space when shorter than the input. |
| `NoticeEmail.SplitOnSpaceJoin` | src/lib/email/send-notice.ts:110 | Joining the pieces with single spaces gives the input back. |
| `NoticeEmail.FirstName` | src/lib/email/send-notice.ts:68 | The greeting name is the text before the first space: a prefix of the name with no space in it, followed by a space or the end of the name. It is the whole name when the name has no space, and empty when the name starts with one. |
| `NoticeEmail.PhoneShownOnlyWhenPresent` | src/lib/email/send-notice.ts:74-125 | The trustee phone changes the contact sentence, the signature and the text body's phone line exactly when it is non-empty. The contact sentence always ends with " no later than " and the deadline; a shown phone comes right before that closing, and ends the signature. |
| `NoticeEmail.MapProviderOutcome` | src/lib/email/send-notice.ts:28-35 | An answer without an error is a success carrying the message id. An error answer is a failure carrying the error message. A thrown `Error` is a failure carrying its message; any other thrown value gives "Unknown error". A failure always carries an error and never a message id. |
| `NoticeEmail.NoticeRequest` | src/lib/email/send-notice.ts:12-26 | The notice goes from the configured sender to `beneficiaryName`, under the notice lead followed by the trust name. It has two tags, the Crummey-notice type and the sanitised trust name. Its bodies are generated from the notice data, and it greets the first word of `beneficiaryName`. |
| `NoticeEmail.SendNoticeEmail` | src/lib/email/send-notice.ts:9-37 | The result reports the provider's answer to the notice message: success exactly when the provider answered without an error, then with the provider's message id; otherwise a failure with an error. |
| `NoticeEmail.ReminderSubjectEmbeds` | src/lib/email/send-notice.ts:139 | The reminder subject starts with the fixed lead. The days remaining can be read back from it, and it ends with the trust name. |
| `NoticeEmail.ReminderRequestShape` | src/lib/email/send-notice.ts:157-176 | A reminder goes to the same address, from the same sender, with the same greeting as the notice. It has no tags, and its contact sentence never names the phone. |
| `NoticeEmail.ReminderRequest` | src/lib/email/send-notice.ts:139-176 | The reminder goes to `beneficiaryName` under the reminder subject, with no tags, its bodies generated from the same notice data. |
| `NoticeEmail.SendReminderEmail` | src/lib/email/send-notice.ts:138-187 | The result reports the provider's answer to the reminder message: success exactly when the provider answered without an error, then with its message id; otherwise a failure with an error. |
| `NoticeSend.AckUrl` | src/app/api/notices/send/route.ts:72 | The acknowledgment link is built from the app URL, `/acknowledge/` and the token, and the token reads back from it. |
| `NoticeSend.PresentParts` | src/app/api/notices/send/route.ts:71 | `filter(Boolean)` keeps exactly the present, non-empty parts, in their order and with their multiplicity. |
| `NoticeSend.TrusteeAddress` | src/app/api/notices/send/route.ts:66-71 | The address line is empty exactly when none of address, city, state and zip is present. |
| `NoticeSend.TrusteeAddressFull` | src/app/api/notices/send/route.ts:66-71 | With all four parts present, the address line is address, city, state and zip joined by ", ". |
| `NoticeSend.TrusteeAddressLength` | src/app/api/notices/send/route.ts:66-71 | With some part present, the line's length is the parts' lengths plus one ", " between each two parts. |
| `NoticeSend.EmailDataFor` | src/app/api/notices/send/route.ts:55-78 | The email data names the recipient by `recipient_email` (the override). Its link gives back the notice's token. It carries the trust name, the trustee phone, and the notice's date, amount and deadline. |
| `NoticeSend.NoticeEmailAddressedToRecipient` | route.ts:76-79 | The email goes to the notice's `recipient_email` under the notice subject. It greets the first word of that address, and its link gives back the notice's token. |
| `NoticeSend.NoticeMessagesDistinct` | src/app/api/notices/send/route.ts:72-78 | Notices with different acknowledgment tokens are different messages to the provider, even when they go to the same address about the same trust. |
| `NoticeSend.Candidates` | src/app/api/notices/send/route.ts:19-31 | The candidates are exactly the pending notices selected by the id list, in table order. |
| `NoticeSend.CandidatesSelection` | src/app/api/notices/send/route.ts:27-31 | An absent or empty id list selects every pending notice; a non-empty one selects only the pending notices it names. |
| `NoticeSend.AttemptFor` | src/app/api/notices/send/route.ts:51-102 | A notice is skipped exactly when its trust is not the caller's. Any other is dispatched exactly when the sender reports success, carrying the sender's message id, and is otherwise rejected with the sender's error text. |
| `NoticeSend.FailureHasReason` | src/app/api/notices/send/route.ts:75-102 | A notice of the caller's trust whose email the sender reports as failed is rejected, with the error the sender reported and never "undefined". |
| `NoticeSend.BatchOf` | src/app/api/notices/send/route.ts:46-53 | The loop's attempt function skips exactly the notices of other users' trusts. |
| `NoticeSend.Step` | src/app/api/notices/send/route.ts:46-103 | A skipped notice changes nothing. Any other notice counts once, as sent or as failed. The audit log grows by one entry per sent notice and the error list by one line per failed notice, and the table keeps its rows. |
| `NoticeSend.Run` | src/app/api/notices/send/route.ts:44-104 | Over the whole loop the counters only grow, by at most one per candidate; the audit log grows by `sent` entries, the error list by `failed` lines, and the table keeps its rows. |
| `NoticeSend.DeliveredIds` | src/app/api/notices/send/route.ts:80-88 | An id is marked sent exactly when it is the id of a candidate whose dispatch succeeded. |
| `NoticeSend.SentEntries` | src/app/api/notices/send/route.ts:90-97 | Every audit entry the loop appends names a candidate notice. |
| `NoticeSend.RunClosedForm` | src/app/api/notices/send/route.ts:44-104 | After the loop, the delivered notices are marked sent, and one audit entry per delivery and one error line per failure are appended in candidate order. `sent` and `failed` are their numbers. |
| `NoticeSend.SendCounters` | src/app/api/notices/send/route.ts:44-103 | `sent + failed` is the number of owned candidates and the number of error lines is `failed`. The audit log grew by exactly `sent` entries after the old ones. |
| `NoticeSend.SendTransitions` | src/app/api/notices/send/route.ts:82-88 | A row changes only if it was a pending candidate whose dispatch succeeded; it then becomes `sent` with `sent_at` = now. Every other row (not selected, another user's, failed) is unchanged. The only transition is pending → sent. |
| `NoticeSend.AuditOncePerDelivered` | src/app/api/notices/send/route.ts:91-97 | Each candidate gets exactly one `notice_sent` audit entry when its dispatch succeeded and none otherwise. |
| `NoticeSend.AuditOncePerCandidate` | src/app/api/notices/send/route.ts:19-97 | The same holds for the candidates selected from a notice table with distinct ids. |
| `NoticeSend.SuccessLogsMessageId` | src/app/api/notices/send/route.ts:80-97 | A candidate of the caller's trust whose email the sender reports as sent gets a `notice_sent` audit entry carrying the sender's message id. |
| `NoticeSend.SendOne` | src/app/api/notices/send/route.ts:47-103 | One iteration performs exactly `Step` on the notice table, the audit log and the counters, and keeps the store invariant. |
| `NoticeSend.SendAll` | route.ts:46-105 | The loop leaves the notice table, the audit log and the counters exactly as `Run` says, and changes nothing else. |
| `NoticeSend.SendPending` | src/app/api/notices/send/route.ts:7-107 | 401 with no effect without a user. `{ sent: 0, failed: 0 }` with no effect when nothing is pending. Otherwise the result and the new notice table and audit log are those of `Run` over the candidates. Trusts, beneficiaries and contributions never change. |
| `NoticesRoute.QueryNotices` | src/app/api/notices/route.ts:17-35 | Each supplied parameter constrains the result, combined with AND: exactly the notices meeting all supplied filters. |
| `NoticesRoute.ListNotices` | src/app/api/notices/route.ts:5-46 | 401 exactly when there is no user, and Ok otherwise. The list holds exactly the matching notices of the caller's trusts, in the order of the query result. |
| `NoticesRoute.ListNoticesUnscoped` | route.ts:111-149 | 401 exactly when there is no user, and Ok otherwise. The list holds exactly the matching notices, whoever owns their trust. |
| `NoticesRoute.ListNoticesNewestFirst` | src/app/api/notices/route.ts:25-44 | The listing is the caller's matching notices in reverse insertion order. |
| `NoticesRoute.EmptyQueryListsAllOwned` | src/app/api/notices/route.ts:27-35 | With no parameters, every notice of the caller's trusts is listed. |
| `NoticesRoute.StatusParameterSelects` | src/app/api/notices/route.ts:30-32 | A `status` parameter naming a status returns only notices of that status. |
| `NoticesRoute.UnknownStatusSelectsNothing` | src/app/api/notices/route.ts:30-31 | A `status` parameter naming no status returns nothing. |
| `NoticesRoute.UnscopedListingExposesOtherTrusts` | route.ts:143-149 | A matching notice of another user's trust is returned by the unscoped handler and withheld by the scoped one. |
| `NoticesRoute.ScopedWithinUnscoped` | src/app/api/notices/route.ts:44 | The scoped listing is the unscoped one with rows dropped and the order kept. |
| `Middleware.RouteDecision` | src/lib/supabase/middleware.ts:59-76 | Redirect to `/login` exactly for a protected path without a user. Redirect to `/dashboard` exactly for `/login` or `/register` with a user. Pass through exactly otherwise. |
| `Middleware.ProtectedAndAuthDisjoint` | src/lib/supabase/middleware.ts:60-70 | No path is both protected and an auth route, so at most one redirect applies. |
| `Middleware.RedirectTargetPassesThrough` | src/lib/supabase/middleware.ts:64-74 | The guard lets the same visitor through at the redirect target, so it never redirects twice in a row. |
| `Middleware.ProtectionExtends` | src/lib/supabase/middleware.ts:60-62 | Protection is by prefix: every extension of a protected path (`/trusts/42`, and also `/trustsx`) is protected. |

## Left out

- Supabase client creation, `getUser`, the cookie callbacks and the query-builder plumbing are library I/O. The user is an `Option<Id>` and the store a class of sequences.
- The Resend transport is a network call. It is a function parameter from the outgoing message (addressing, subject, tags and the template data of its bodies) to its outcome. Two sends of exactly the same message therefore get the same outcome and the same message id; the provider's own state (rate limits, per-call ids) is not modelled. Within one batch every message carries its own notice's acknowledgment link (`NoticeSend.NoticeMessagesDistinct`).
- `formatDate` and the number formatting of the withdrawal amount depend on locale and time zone: the email data keeps the dates and the amount as stored. The fixed email prose is not modelled; of the generated bodies, only the greeting and the trustee contact lines are spelled out.
- The contribution date of the email data is not modelled. It comes from the notice's joined contribution, and the store invariant has no notice → contribution reference, so a dangling reference (on which the source would fail) is not ruled out.
- The database trigger that creates a contribution's notices, deadline arithmetic, token generation and the acknowledgment endpoint are not part of this model. `ContributionsRoute.Post` returns the notices already in the table for the new contribution id.
- Store errors (status 500 with the store's message) are not modelled, except for the `.single()` miss of `PUT /api/beneficiaries`, answered with a fixed 500.
- Concurrency between requests is not modelled; each request runs alone.
- `NoticeSend.SendPending`: every `sent_at` of one request is the same `now`, where the source reads the clock once per notice.
- `NoticeSend.AttemptFor`: a notice whose trust is missing is skipped, where the source would fail on the missing trust. The store invariant (every notice has its trust) rules this case out.
- `NoticesRoute.ListNotices`: a query that answers null data without an error is not modelled; the store always answers a list.
- `ContributionsRoute.ListContributions`: dates are compared as strings in character order, which is calendar order for the store's `YYYY-MM-DD` dates; the order of rows with the same date is left open, as the source leaves it. The joined trust and notices are not modelled.
- The joined data of the listings is not modelled: the beneficiary and contribution counts of `GET /api/trusts`, and the beneficiary, trust and contribution rows joined to each notice by `GET /api/notices`. The listings return the rows of their own table.
- `NoticeEmail.ReminderRequest`: the reminder's template data still holds the trustee phone, which the reminder bodies never show, so two reminders differing only in the phone are different messages here.
- `BeneficiariesRoute.ListBeneficiaries`: states which beneficiaries are listed; the newest-first order is in its body, not in its contract.
- `TrustsRoute.ListTrusts`: states which trusts are listed; of the order, only `TrustsRoute.NewTrustListedFirst` is stated.
- `NoticeEmail.SanitizeTag`: works on Dafny characters, where JavaScript replaces UTF-16 code units; a character outside the Basic Multilingual Plane becomes one `_` here and two in the source.
- The notice `created_at` column is not modelled: insertion order stands for it, and "newest first" is the reverse of insertion order.
- `is_active` of a new trust or beneficiary and `notices_generated` of a new contribution are not written by the inserts: the model takes them from the schema's column defaults (true, true, false).
- `NoticeEmail.ReminderSubject`: `daysRemaining` is an integer here, where the source accepts any JavaScript number; a fractional value would print differently.
- Ids are abstract natural numbers rather than uuid strings; an id that is missing or empty in a request is `None`.
