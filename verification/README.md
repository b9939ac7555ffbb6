# Feedy feedback handlers, modelled in Dafny

Feedy is a feedback-collection web application. Signed-in users create projects, and anyone can submit feedback on a project: a category, a status, a rating, a description, and optionally a name and an email. Everything is stored in a hosted document backend. The handlers in `lib/appWriteHandlers.ts` contain almost no logic of their own. This model covers the three parts that do:

- **Feedback creation** (`CreateFeedback`). Absent or empty `username`/`userEmail` become "Anonymous" and "anonymous@example.com". The category must be a `FeedbackType` value, the status a `FeedbackStatus` value, and the rating an integer from 1 to 5. The checks run in that order. The first failure's message is returned and nothing is written. Module `FeedbackCreation` holds the pure validator `PrepareFeedback`. `FeedbackStore.FeedbackCollection.CreateFeedback` performs the write.
- **Read-side normalisation**. The `map` callbacks of `GetAllFeedbacks`, `GetAllProjects` and `GetProject` replace every absent or falsy field with a fixed default through JavaScript's `||`. Module `JsValues` defines falsy: an absent value, `""`, or `0`. Arrays are always truthy. Module `ReadNormalisation` holds the callbacks and the response envelopes.
- **Bulk delete** (`DeleteManyFeedback`). It deletes ids in index order and stops at the first delete that fails. The backend's feedback collection is the class `FeedbackStore.FeedbackCollection`, holding a `map<string, FeedbackRecord>`. A delete fails when the id is absent, a create when the id is taken, and either when the backend refuses the call for a reason of its own (permission, rate limit, an unreachable backend) without applying it. The loop is proved against the specification function `DeleteInOrder`, and the lemmas about `DeleteInOrder` state what a bulk delete leaves behind.

The backend is opaque, so its answers enter the model as parameters:

- A listing or fetch is an `Option`. `None` stands for a call that threw.
- The identifier from `ID.unique()` is the `id` argument of `CreateFeedback`.
- Whether the backend refuses a write is a `refused` argument; for a bulk delete, `refusals[i]` answers the i-th call.
- The message on the exception the backend raises when it refuses a write is the collection's `errorMessage`.

The category and status lists come from `lib/enum.ts` (module `Enums`). They are duplicated in `lib/types.ts:57-67` and in `app/(pages)/feedbacks/create/[id]/page.tsx:32-42` (the latter declares `FeedbackType` first).

## Model

| member | source | states |
|---|---|---|
| `Enums.ParseType` | lib/enum.ts:7-11 | finds the FeedbackType member whose runtime value is the string, and fails exactly when no member has that value. A string enum has no such lookup at runtime; it serves the membership proofs only |
| `Enums.ParseStatus` | lib/enum.ts:1-5 | finds the FeedbackStatus member whose runtime value is the string, and fails exactly when no member has that value. Like `ParseType`, it serves the proofs only |
| `Enums.TypeValuesIncludes` | lib/appWriteHandlers.ts:595 | `Object.values(FeedbackType).includes(s)` holds exactly when `s` is the value of some member |
| `Enums.StatusValuesIncludes` | lib/appWriteHandlers.ts:603 | `Object.values(FeedbackStatus).includes(s)` holds exactly when `s` is the value of some member |
| `FeedbackCreation.RatingPasses` | lib/appWriteHandlers.ts:611 | the rating guard as written; its contract is stated by `RatingPassesIff` |
| `FeedbackCreation.RatingPassesIff` | lib/appWriteHandlers.ts:611-613 | the guard that refuses a rating below 1, above 5 or not an integer lets through exactly the ratings 1, 2, 3, 4 and 5 |
| `FeedbackCreation.RatingExamples` | lib/appWriteHandlers.ts:611-613 | ratings 0, 6 and 3.5 are refused; 1 and 5 are accepted |
| `FeedbackCreation.JoinedTypeValues` | lib/appWriteHandlers.ts:596-600 | the category error lists "bug, generalInformation, feature", in declaration order |
| `FeedbackCreation.JoinedStatusValues` | lib/appWriteHandlers.ts:604-608 | the status error lists "new, inProgress, resolved", in declaration order |
| `FeedbackCreation.ValidationMessagesDistinct` | lib/appWriteHandlers.ts:595-613 | the three validation messages are non-empty and pairwise different, so the returned message names the failed check |
| `FeedbackCreation.PrepareFeedback` | lib/appWriteHandlers.ts:590-613 | a bad category fails with the category message whatever the rest holds; a valid category with a bad status fails with the status message; a valid category and status with a bad rating fail with the rating message. It succeeds exactly when all three are valid. The record then carries the given description, page URL, category, status, rating and project id unchanged. Its name and email are the given ones when non-empty, and "Anonymous" / "anonymous@example.com" otherwise |
| `FeedbackCreation.PreparedIsWellFormed` | lib/appWriteHandlers.ts:590-613 | every record that passes has a non-empty name and email, an enumerated category and status, and a rating from 1 to 5 |
| `FeedbackCreation.ResubmitWellFormed` | lib/appWriteHandlers.ts:590-613 | submitting the fields of any well-formed record passes validation and yields that same record |
| `FeedbackStore.FeedbackCollection.CreateFeedback` | lib/appWriteHandlers.ts:579-644 | a failed check returns `success = false` with that check's message and leaves the collection unchanged. Otherwise, when the backend accepts the write, exactly one document, the prepared record, is written under the new id and the result is a success. A write the backend refuses, or one under a taken id, returns the backend's message ("Error creating feedback" when that is empty) and changes nothing |
| `FeedbackStore.CaughtMessage` | lib/appWriteHandlers.ts:639 | the message of the catch block; its contract is stated by `FeedbackCollection.CreateFeedback`, which returns a validation message unchanged and the backend's message otherwise |
| `FeedbackStore.FeedbackCollection.CreateDocument` | lib/appWriteHandlers.ts:616-630 | the backend write adds the record under a free id; it fails, changing nothing, on a taken id or when the backend refuses it |
| `ReadNormalisation.NormalizeFeedback` | lib/appWriteHandlers.ts:427-443 | the `map` callback of GetAllFeedbacks; its contract is stated by `FeedbackFieldDefaults`, `ReadFeedbackIsTruthy` and `NormalizeFeedbackIdempotent` |
| `ReadNormalisation.FeedbackFieldDefaults` | lib/appWriteHandlers.ts:427-443 | each read feedback field is the stored value when that value is truthy, and otherwise "", "Anonymous", "unknown@example.com", "", "general", "pending" or 3. The project id and metadata pass through; an empty screenshot URL becomes absent |
| `ReadNormalisation.ReadFeedbackIsTruthy` | lib/appWriteHandlers.ts:430-436 | a read feedback never has an empty name, email, category or status, nor a zero rating |
| `ReadNormalisation.NormalizeFeedbackIdempotent` | lib/appWriteHandlers.ts:427-443 | normalising an already-normalised feedback changes nothing |
| `ReadNormalisation.CreatedFeedbackReadsBack` | lib/appWriteHandlers.ts:616-630 | a feedback that passed validation is read back by GetAllFeedbacks with exactly the fields it was written with |
| `ReadNormalisation.ReadDefaultsFailValidation` | lib/appWriteHandlers.ts:434-435 | the read defaults "general" and "pending" are outside the enumerations: a feedback read with either default would fail validation if submitted again |
| `ReadNormalisation.AnonymousSubmissionReadsBack` | lib/appWriteHandlers.ts:591-592 | a feedback accepted without a name or email reads back as "Anonymous" / "anonymous@example.com"; it never shows the read default "unknown@example.com" |
| `ReadNormalisation.NormalizeProject` | lib/appWriteHandlers.ts:304-313 | the record GetProject builds; its contract is stated by `ProjectFieldsKept` |
| `ReadNormalisation.NormalizeListedProject` | lib/appWriteHandlers.ts:217-227 | the `map` callback of GetAllProjects; its contract is stated by `ProjectFieldsKept` and `ListedAndFetchedAgree` |
| `ReadNormalisation.ProjectFieldsKept` | lib/appWriteHandlers.ts:304-313 | a fetched project keeps each present name, URL, description and feedback list verbatim, an empty one included. Absent ones become "" or []. A listed project's `total_feedbacks` is the stored count, or 0 when absent |
| `ReadNormalisation.ListedAndFetchedAgree` | lib/appWriteHandlers.ts:217-227 | the listing callback and GetProject build the same record, apart from the listing's extra `total_feedbacks` |
| `ReadNormalisation.GetAllFeedbacks` | lib/appWriteHandlers.ts:420-455 | succeeds exactly when the listing did. On success it returns one normalised record per document, in the same order; on failure it returns no list |
| `ReadNormalisation.GetAllProjects` | lib/appWriteHandlers.ts:208-244 | on success it returns one normalised project per document in the same order, with the backend's total as `totalProjects`. On failure it returns no list, `totalProjects = 0` and "Failed to Fetch the data" |
| `ReadNormalisation.GetProject` | lib/appWriteHandlers.ts:298-324 | succeeds exactly when the fetch did, returning the normalised project; otherwise returns no project |
| `JsValues.ArrayMap` | lib/appWriteHandlers.ts:427 | `map` keeps the length and puts the callback's result for each element at the same index of a new array |
| `FeedbackStore.DeleteInOrder` | lib/appWriteHandlers.ts:485-491 | a failing index is within the list, and a bulk delete only ever removes documents |
| `FeedbackStore.DeleteRunStore` | lib/appWriteHandlers.ts:485-491 | the deletes before the failing index removed exactly their ids and nothing else |
| `FeedbackStore.DeleteRunPrefix` | lib/appWriteHandlers.ts:485-491 | the deletes before the failing index were of distinct, stored ids, none refused |
| `FeedbackStore.DeleteRunFailure` | lib/appWriteHandlers.ts:486-490 | the delete at the failing index was refused by the backend, or its id was no longer stored |
| `FeedbackStore.DropRefused` | lib/appWriteHandlers.ts:485-490 | the backend's answer to the i-th call of the remaining loop is its answer to the overall (n + i)-th call |
| `FeedbackStore.DeleteInOrderOutcome` | lib/appWriteHandlers.ts:485-504 | with k the failing index (the list length when nothing fails), ids 0..k-1 were distinct, stored and not refused. Exactly those are removed and every other document is untouched, so ids after k are never attempted. A failure at k means the backend refused that call or ids[k] was absent by then |
| `FeedbackStore.DeleteSucceedsIff` | lib/appWriteHandlers.ts:485-496 | a bulk delete succeeds exactly when its ids are distinct and all stored and the backend refuses none of the calls; a repeated id makes it fail |
| `FeedbackStore.DeleteSuccessRemovesExactly` | lib/appWriteHandlers.ts:485-496 | a successful bulk delete removes exactly the listed documents, shrinking the store by the number of ids |
| `FeedbackStore.DeletedCount` | lib/appWriteHandlers.ts:485-491 | removing n distinct stored ids leaves n fewer documents |
| `FeedbackStore.DeleteNothing` | lib/appWriteHandlers.ts:485 | an empty list succeeds and changes nothing |
| `FeedbackStore.MiddleDeleteFails` | lib/appWriteHandlers.ts:485-504 | deleting [a, b, c] where a is deleted and b is absent or refused fails at index 1 and leaves exactly the old store minus a, so c is as it was |
| `FeedbackStore.FeedbackCollection.DeleteDocument` | lib/appWriteHandlers.ts:462-466 | the backend delete removes a stored id; it fails, changing nothing, on an absent id or when the backend refuses it |
| `FeedbackStore.FeedbackCollection.DeleteFeedback` | lib/appWriteHandlers.ts:458-479 | succeeds exactly when the id was stored and the backend did not refuse; the id is then gone, and on failure nothing changed |
| `FeedbackStore.FeedbackCollection.DeleteManyFeedback` | lib/appWriteHandlers.ts:481-505 | the collection afterwards is what `DeleteInOrder` gives. The call reports success exactly when no delete failed, with the handler's fixed messages |

## Left out

- Authentication and session handlers (`signIn`, `createUser`, `loginWithGoogle`, `logout`, `GetUser`, `UpdateProfile`): each only forwards to the backend's account service, which is not part of this model.
- `CreateProject`, `UpdateProject`, `DeleteProject`, `GetUserProjects`: each is a single backend call whose behaviour lives in the backend. `UpdateProject` ignores its `userId` argument, so no ownership check happens in this code (lib/appWriteHandlers.ts:356-366).
- Server-side filtering by `Query.equal` on the owner or project id: the backend runs it. The listings given to `GetAllFeedbacks` and `GetAllProjects` are taken as already filtered.
- Generating identifiers with `ID.unique()`: the id is an argument.
- The raw `error` object in failure envelopes: it is opaque. Only `success` and `message` are modelled.
- Avatar upload (lib/uploadFile.ts), the global session state (context/UserContext.tsx), client setup, pages and components: storage SDK calls, UI state and configuration.
- Logging, `async`/`await` sequencing and notifications.
- `FeedbackStore.FeedbackCollection.CreateDocument`, `FeedbackStore.FeedbackCollection.DeleteDocument`, `FeedbackStore.FeedbackCollection.CreateFeedback`, `FeedbackStore.FeedbackCollection.DeleteFeedback`, `FeedbackStore.DeleteInOrderOutcome`: a failed backend call is taken to have changed nothing. A failure reported after the backend already applied the write (a reply lost on the network, say) is not modelled; in that case a failed create may have stored the document, and a bulk delete failing at index k may already have removed `ids[k]`.
- JavaScript numbers are modelled as exact reals. NaN and the infinities are not modelled: NaN would count as falsy on read and would be refused as a rating.
- Falsy values of the wrong type (a stored `false` or `0` in a string field, say) are not modelled: each field has the type its schema gives it.
