# Board-to-mailing-list sync, modelled in Dafny

This project models the synchronisation service of a small tool that copies the
items of a monday.com board into a Mailchimp audience (`mailchimpService.js`). For
each board item the service:

1. extracts an email and four merge fields (NAME, PHONE, FDATE, STATUS) from the
   item's column values, each the first non-empty value of its kind;
2. skips the item (`skipped`, "No email found") when it has no email;
3. otherwise looks the member up under the md5 of the lowercased email (a 404 means
   "absent", any other failure is thrown), writes the member unconditionally with a
   PUT, and classifies the outcome after the fact as `success_new`, `updated` (with
   the old merge fields) or `no_changes`; any failure becomes an `error` outcome;
4. pauses one second after every item that made requests.

It returns one outcome per item, in item order.

The Dafny modules follow that structure:

- `Wrappers` (`wrappers.dfy`): `Option` and `Result`.
- `Extraction` (`extraction.dfy`): column values, items, merge fields and the
  first-match extraction, as functions with lemmas.
- `Mailchimp` (`mailchimp.dfy`): the member key, the outcome datatype and the
  classification. `UpsertStep` is the upsert as a function of the list's state.
  `MailingList` is a class holding the list's members (a map from key to member)
  and its request counter. Its methods `Get` and `Put` are the two HTTP requests.
  `GetSubscriber` and `UpsertSubscriber` are the service operations built on them,
  each proved equal to the function that defines it.
- `Sync` (`sync.dfy`): `SyncRun`, the whole run as a function, and
  `UpdateMailchimp`, the loop as a method proved equal to it. `Pacer` counts the pauses.
- `Scenarios` (`scenarios.dfy`): whole runs on small boards.

The remote side is abstracted as follows:

- The list is a map from member key to member. A delivered GET reads the map and
  answers 404 when the key is absent. A delivered PUT creates or replaces the entry.
  The stored status is `status_if_new` only for a new member.
- The md5 digest is kept symbolic: `Key = Md5(normalized)`. The key depends on
  nothing but the lowercased email.
- The network is a function `transport` from the request's sequence number to
  `Deliver` or `Drop(failure, applied)`. A failure is an HTTP status with its
  message, or no response at all. `applied` says whether the list carried the request
  out even though the service saw it fail. This covers a PUT that times out after the
  member was stored. The function fixes every transport failure of a run in advance
  and keeps the model deterministic.
- The one-second wait is a ghost counter of pauses.

Three points of behaviour follow from the code:

- Skipped items do not pause (line 81). Only items with an email are followed by the
  one-second wait.
- The catch at lines 78-80 cannot run, because the upsert returns an outcome on every
  path.
- A second run reports `no_changes` for every item with an email when items that
  share a member key carry equal merge fields (`Sync.SyncRerunNoChanges`), and not in
  general. The counterexample is `Scenarios.RerunWithConflictingFields`: two items with
  the same email and different names.

## Model

| member | source | states |
|---|---|---|
| `Extraction.FirstOfKind` | backend/src/services/mailchimpService.js:69-72 | the result is the value of the given kind of the first column value carrying a non-empty one, or "" when none does (`IsFirstOfKind`) |
| `Extraction.IsFirstOfKindUnique` | backend/src/services/mailchimpService.js:65-72 | at most one value is "the first of its kind", so the first-match result is well defined |
| `Extraction.FirstOfKindEmpty` | backend/src/services/mailchimpService.js:69-72 | the extracted value is "" exactly when no column value carries a value of that kind |
| `Extraction.FirstOfKindAppend` | backend/src/services/mailchimpService.js:65-72 | later values of a kind are ignored: appending column values changes the result only when the prefix has no value of that kind |
| `Extraction.Extract` | backend/src/services/mailchimpService.js:65-73 | the extraction of one item; its contract is stated by `ExtractFirstMatch` and `ExtractLeadingColumn` |
| `Extraction.ExtractFirstMatch` | backend/src/services/mailchimpService.js:65-73 | the email is the first non-empty `email` and is absent exactly when there is none; NAME, PHONE, FDATE and STATUS are the first non-empty `text`, `number`, `date` and `label`, "" when absent |
| `Extraction.ExtractLeadingColumn` | backend/src/services/mailchimpService.js:65-73 | a column value carrying several kinds, when it comes first, contributes each of its non-empty values to the matching field |
| `Mailchimp.Lower` | backend/src/services/mailchimpService.js:7 | lowercasing keeps the length and lowercases each character in place |
| `Mailchimp.SubscriberHash` | backend/src/services/mailchimpService.js:7 | the member key of an email, the same in lookup (line 7) and upsert (line 26); its contract is stated by `SubscriberHashIgnoresCase` and `SubscriberHashOfLower` |
| `Mailchimp.SubscriberHashIgnoresCase` | backend/src/services/mailchimpService.js:7 | two emails give the same member key exactly when they agree character by character after lowercasing |
| `Mailchimp.SubscriberHashOfLower` | backend/src/services/mailchimpService.js:26 | the key of an already-lowercased email equals the key of the email, so casing never changes the member addressed |
| `Mailchimp.RemoteGet` | backend/src/services/mailchimpService.js:15 | the list's answer to the GET of one member; its contract is stated by `LookupReflectsStore`: a delivered GET returns the member under the key, or a 404 when there is none |
| `Mailchimp.RemotePut` | backend/src/services/mailchimpService.js:33-41 | after the PUT the list holds the given email and merge fields under the key; the status is `status_if_new` only for a new member; every other member is unchanged |
| `Mailchimp.InterpretLookup` | backend/src/services/mailchimpService.js:14-22 | lookup answers "absent" exactly when the GET failed with status 404; every other failure is an error carrying the failure's message; a found member is returned as is |
| `Mailchimp.LookupReflectsStore` | backend/src/services/mailchimpService.js:15-19 | without a transport failure, lookup returns the member stored under the email's key, or absent when there is none |
| `Mailchimp.Classify` | backend/src/services/mailchimpService.js:43-49 | `success_new` iff no prior member; `updated` iff prior merge fields differ, with `oldMergeFields` the prior ones; `no_changes` iff they are equal; the outcome carries the email and the new merge fields |
| `Mailchimp.ClassifyStatus` | backend/src/services/mailchimpService.js:43-49 | the same classification in the result's `status` strings (`success_new`, `updated`, `no_changes`) |
| `Mailchimp.UpsertStep` | backend/src/services/mailchimpService.js:25-54 | the upsert as a function of the list's state; its contract is stated by `UpsertWritesAfterLookup`, `UpsertClassifies`, `UpsertErrors` and `UpsertIdempotent`, and `MailingList.UpsertSubscriber` is proved equal to it |
| `Mailchimp.UpsertWritesAfterLookup` | backend/src/services/mailchimpService.js:39-41 | the write is issued exactly when the lookup did not throw, whatever the classification, and only once: 2 requests, or 1 when the lookup throws; a write the list carried out, even one whose answer was lost, stores the email as given and the merge fields under the key, adds no key but that one and changes no other member; otherwise the members are unchanged |
| `Mailchimp.UpsertClassifies` | backend/src/services/mailchimpService.js:40-49 | with both requests delivered, the outcome is the classification against what the list held under the key before the write |
| `Mailchimp.UpsertErrors` | backend/src/services/mailchimpService.js:50-53 | the outcome is `error` exactly when the lookup fails (other than 404) or the write fails; it then carries that failure's message; a failed lookup leaves the members unchanged, and a failed write leaves them unchanged only when the list did not carry it out; the upsert never yields `skipped` |
| `Mailchimp.UpsertIdempotent` | backend/src/services/mailchimpService.js:45-48 | after an upsert whose lookup succeeded and whose write the list carried out, even one whose answer was lost, a delivered repeat with the same merge fields, under any email with the same key, yields `no_changes`; with the same email it leaves the members as they were |
| `Mailchimp.MailingList.Get` | backend/src/services/mailchimpService.js:15 | the GET reads the member under the key, counts one request and changes no member |
| `Mailchimp.MailingList.Put` | backend/src/services/mailchimpService.js:41 | the PUT counts one request and returns the failure exactly when it is not delivered; the members become `RemotePut` of the old members when the list carried the PUT out, delivered or not, and are unchanged otherwise |
| `Mailchimp.MailingList.GetSubscriber` | backend/src/services/mailchimpService.js:6-23 | the result is `InterpretLookup` of the GET under the lowercased email's key; one request, members unchanged |
| `Mailchimp.MailingList.UpsertSubscriber` | backend/src/services/mailchimpService.js:25-54 | the outcome and the list's new state are those of `UpsertStep` from the old state |
| `Sync.Pacer.Pause` | backend/src/services/mailchimpService.js:81 | each pause adds one to the pause count |
| `Sync.Items` | backend/src/services/mailchimpService.js:57-60 | the items to process, none when the board data is missing; its contract is stated by `UpdateMailchimp`, which returns no outcome for missing data |
| `Sync.ItemStep` | backend/src/services/mailchimpService.js:64-84 | one iteration of the loop; its contract is stated by `ItemStepOutcome` |
| `Sync.ItemStepOutcome` | backend/src/services/mailchimpService.js:64-84 | one iteration appends exactly one outcome, the item's; it is `skipped` with "No email found" exactly when the item has no email, and then list and pauses are unchanged |
| `Sync.SyncRun` | backend/src/services/mailchimpService.js:62-87 | a run produces exactly one outcome per item |
| `Sync.SyncRunSnoc` | backend/src/services/mailchimpService.js:64-85 | items are processed in order: the run over the items plus one more is the run over the items followed by one iteration for the new item |
| `Sync.SyncRunPrefix` | backend/src/services/mailchimpService.js:64-85 | later items do not change earlier outcomes: the run over the first `j` items gives the first `j` outcomes of the whole run |
| `Sync.SyncOutcomeAt` | backend/src/services/mailchimpService.js:62-87 | the i-th outcome belongs to the i-th item: same email, `skipped` exactly when that item has no email, a successful one carries that item's merge fields, and for an item with an email it is the upsert's outcome for that email and those merge fields against the list as the earlier items left it |
| `Sync.SyncStatusSkipped` | backend/src/services/mailchimpService.js:82-84 | the i-th result's status is `skipped` exactly when the i-th item has no email |
| `Sync.SyncPauses` | backend/src/services/mailchimpService.js:81 | the number of pauses equals the number of items with an email |
| `Sync.SyncRequests` | backend/src/services/mailchimpService.js:75-77 | the run's total requests lie between one and two per item with an email |
| `Sync.SyncRequestsPerItem` | backend/src/services/mailchimpService.js:67-84 | per item: one without an email makes no request, one with an email makes one or two |
| `Sync.SyncSkippedItem` | backend/src/services/mailchimpService.js:82-84 | an item without an email adds a `skipped` outcome and changes neither the list nor the pauses |
| `Sync.SyncWithoutEmails` | backend/src/services/mailchimpService.js:82-84 | a run over items without emails skips them all, makes no request and takes no pause |
| `Sync.SyncAllDeliveredNoErrors` | backend/src/services/mailchimpService.js:75-77 | when every request is delivered, no outcome is an error |
| `Sync.SyncStoresAll` | backend/src/services/mailchimpService.js:62-87 | with every request delivered and consistent items, the run leaves each item's merge fields under its key |
| `Sync.UpsertHeld` | backend/src/services/mailchimpService.js:43-48 | upserting merge fields the list already holds under the key reports `no_changes` and keeps every item's merge fields in the list |
| `Sync.RerunUnchanged` | backend/src/services/mailchimpService.js:43-48 | against a list already holding every item's merge fields, a delivered run keeps it so and reports each item with an email `no_changes` with its email and merge fields, and each other item `skipped` |
| `Sync.SyncRerunNoChanges` | backend/src/services/mailchimpService.js:43-48 | running the same consistent items twice with every request delivered, the second run reports `no_changes` with the item's email and merge fields for every item with an email, and `skipped` for every other item |
| `Sync.UpdateMailchimp` | backend/src/services/mailchimpService.js:56-88 | the outcomes, the list's new state and the pauses are those of `SyncRun` over the items; missing board data gives no outcomes |
| `Scenarios.NewMemberScenario` | backend/src/services/mailchimpService.js:43-44 | an item with an email then a text column, against a list without the member, gives `success_new` with NAME set and the other fields "" |
| `Scenarios.SkippedScenario` | backend/src/services/mailchimpService.js:82-84 | an item without an email gives `skipped` with "No email found", no request and no pause |
| `Scenarios.LookupFailureScenario` | backend/src/services/mailchimpService.js:50-53 | when the second of three items' lookup gets no response, that item's outcome is `error` with the message and the other two are `success_new` |
| `Scenarios.LostWriteAnswerScenario` | backend/src/services/mailchimpService.js:41-53 | a PUT whose answer is lost after the list stored the member reports `error`, yet a repeat of the same upsert reports `no_changes` |
| `Scenarios.RerunWithConflictingFields` | backend/src/services/mailchimpService.js:45-46 | two items with one email and different names: the second run reports the first item `updated`, not `no_changes` |

## Left out

- HTTP plumbing: URLs, headers, the API key and the list id. A `MailingList` object stands for the list the id names.
- The md5 algorithm: the key is a symbolic digest of the lowercased email. Distinct normalised emails give distinct keys, so hash collisions are not modelled.
- `toLowerCase` is modelled on ASCII letters only. Unicode case mapping is not modelled.
- `JSON.stringify` comparison: merge fields are compared structurally as a four-field record. Key order and extra remote-side keys are not modelled.
- The remote service beyond the member map is not modelled: the server-side meaning of the member's status, email changes and validation.
- Asynchrony and timing: the awaits run in sequence, and the one-second wait is only counted.
- Transport failures are fixed in advance by request number. The model does not capture failures that depend on timing or on earlier responses.
- `console.error` logging (lines 51 and 58).
- The catch in the loop (lines 78-80) is not modelled, because `UpsertSubscriber` returns an outcome on every path and never throws.
- JavaScript value quirks are not modelled. Column values are strings, and "" stands for `undefined`, `null` and "" alike. A numeric 0 is not modelled. Missing board data is an `Option` rather than a `TypeError` on `data.data`.
- Board fetching (`mondayService.js`), the HTTP controller and routes, and the front end are not part of this model.
