# Medical-camp server: a Dafny model of its routes

The server (`index.js`) is an Express application over five MongoDB
collections: users, camps, registered camps, payments and feedbacks.
Participants register for medical camps and pay for them. Organizers create,
update and delete camps.

This project models the server's request handlers as state transitions of one
in-memory store, and proves what each route promises.

- `records.dfy` (module `Records`) holds the values the routes work with:
  - the documents of the five collections;
  - `ObjectId` strings: validity, and the lower-case key a valid string stands for;
  - JavaScript truthiness of request fields;
  - the HTTP statuses the routes answer with.
- `access.dfy` (module `Access`) holds the two guards and the role default:
  - `verifyUser`: JavaScript's `split(" ")` and the bearer token after the
    first space. The identity service is an oracle from token to an optional
    email.
  - `verifyOrganizer`.
  - The role that `GET /users/role` reports.
- `listing.dfy` (module `Listing`) holds the read side as pure functions:
  - the database's descending sort, in which a missing key sorts last;
  - equality filters;
  - `skip`/`limit` paging, with the defaults `parseInt(q) || 1` and `|| 9`,
    the page count `Math.ceil(total / limit)`, and the database's refusal of a
    negative skip;
  - the top-six "popular" selection.
- `ledger.dfy` (module `Ledger`) holds the bookkeeping between collections:
  - each collection's natural order;
  - the participant counter `$inc`;
  - the invariant `StoreInvariant`, which every write keeps:
    - users are keyed by email;
    - each map has its order;
    - every payment's `campId` names an identifier the store has handed out;
    - every registration is {unpaid, pending} with no payment record, or
      {paid, confirmed} with exactly one.
  - The counter property `CountsMatch`: every camp's `participantCount` equals
    its number of live registrations. The code does not keep this property in
    general, so it is proved in conditional form, one lemma per kind of write.
- `store.dfy` (module `Store`) holds the class `Store` with the five
  collections as fields. It has one method per route.
  - Each method returns the status the route answers with, plus the identifier
    or document it sends.
  - Each method states the whole new state of the store.
  - The scenario methods `PostUserTwice` and `PayTwice` run a route twice:
    posting a user twice stores it once, and paying twice for one
    registration records one payment.

The model follows the code, not an idealised server:

- Cancelling a registration takes one off the camp's counter even when no
  registration was deleted. The model follows the code, and `CancelOfMissingBreaksCounts` shows the consequence.
- Registering inserts the registration before the counter update, and inserts
  it even when the counter update matches no camp.
- A truthy `campId` that is not an ObjectId makes `new ObjectId` throw after
  the insert. The route's own `catch` turns this into a 500, and the
  registration stays stored.
- `POST /payments` looks up the registration whose own `_id` is the body's
  `campId`. The payment record stores that string as its `campId`.

## Model

| member | source | states |
|---|---|---|
| `Records.Truthy` | index.js:150 | a request string passes the route's `!x` test iff it is present and not empty |
| `Records.TruthyAmount` | index.js:455 | a request amount passes the `!amount` test iff it is present and not zero |
| `Records.ValidId` | index.js:269 | `ObjectId.isValid` on a string: exactly 24 characters, each a hexadecimal digit in either case |
| `Records.HexDigitsEach` | index.js:269 | the recursive digit test holds iff every position of the string holds a hexadecimal digit |
| `Records.ToObjectId` | index.js:275 | `new ObjectId(s)` of a valid string is a canonical lower-case id spelling the same digits position by position, each letter lowered; a canonical string maps to itself |
| `Access.Split` | index.js:81 | `split` with a one-character separator gives at least one part; exactly one part iff the separator is absent; no part contains it |
| `Access.JoinSplit` | index.js:81 | joining the parts of a split with the separator gives back the string |
| `Access.SplitJoin` | index.js:81 | splitting a join of separator-free parts gives back the parts |
| `Access.SplitAfter` | index.js:81 | a separator-free head followed by the separator splits off as the first part |
| `Access.BearerToken` | index.js:81 | there is a token iff the header contains a space; the token contains no space |
| `Access.BearerTokenIsSecondWord` | index.js:81 | the token is the second space-separated word of the header, whether or not more words follow |
| `Access.Authenticate` | index.js:75-94 | 401 exactly when the header or the token after the first space is missing or empty; 403 when the identity service rejects the token; otherwise passes with the email the service returned |
| `Access.BearerHeader` | index.js:81-93 | for a header `<scheme> <token>` with a non-empty token, the outcome depends only on the identity service's answer for that token |
| `Access.UnauthorizedHeaders` | index.js:76-84 | a header with no space, with nothing after its first space, or with a second space right after the first, gets 401 whatever the identity service says |
| `Access.RequireOrganizer` | index.js:97-107 | passes iff the request is verified and a stored user with that email has role exactly "organizer"; a refusal upstream is kept; otherwise 403 |
| `Access.RoleOf` | index.js:193 | the reported role is never empty; which value it is (the stored role when truthy, else "participant") is stated by `Store.Store.GetRole`'s contract |
| `Access.OrganizerIffRole` | index.js:102 | the organizer guard passes for a stored user exactly when the role route reports "organizer" for them |
| `Listing.Insert` | index.js:231 | inserting into a descending list keeps it descending and adds exactly that element |
| `Listing.SortDesc` | index.js:231 | `.sort({key: -1})` is a permutation of the documents, in non-increasing key order with missing keys last |
| `Listing.Filter` | index.js:404 | an equality query keeps each matching document as often as it occurs and drops every other |
| `Listing.Window` | index.js:232-233 | `.skip(s).limit(l)` has `min(l, n - s)` documents (none past the end), the ones at positions `s`, `s+1`, ... |
| `Listing.CeilDiv` | index.js:241 | `Math.ceil(totalCount / limit)` for a non-zero limit, rounding towards positive infinity for either sign |
| `Listing.CeilDivIsCeiling` | index.js:241 | the page count is the ceiling of total over limit: the least count whose pages hold every document |
| `Listing.OrDefault` | index.js:223-224 | a parsed query with a fallback `d` is `d` when the query is absent, not a number or zero, and the number otherwise |
| `Listing.Paginate` | index.js:221-248 | refused (500) iff `(page-1)*limit` is negative; otherwise the page is the window at that skip of the newest-first order, with `totalPages = ceil(total/limit)` and `currentPage = page` |
| `Listing.WindowOfSorted` | index.js:231-233 | a skip/limit window of a sorted list is sorted and drawn from the list |
| `Listing.DefaultPage` | index.js:223-225 | with no query the route shows page 1 of the first nine newest documents, with pages of nine |
| `Listing.PageContents` | index.js:223-242 | a page holds at most `limit` documents, newest first, drawn from the collection; it holds a full `limit` when the collection reaches past it; the page count covers every document |
| `Listing.SecondPageOfTwenty` | index.js:223-241 | over twenty camps, page 2 of 9 holds nine camps out of three pages |
| `Listing.Popular` | index.js:253-257 | the popular list has `min(6, n)` camps, in non-increasing `participantCount` order, drawn from the collection |
| `Listing.PopularSplit` | index.js:253-256 | the popular list is the first `min(6, n)` of the sorted collection, and the camps left out are exactly the rest |
| `Listing.PopularIsTop` | index.js:255-256 | every camp left out of the popular list has a count no larger than every camp in it |
| `Ledger.Without` | index.js:299 | deleting a key from the natural order removes exactly that key and keeps the order duplicate-free |
| `Ledger.EnumeratesSize` | index.js:212 | a collection's natural order lists as many documents as it holds |
| `Ledger.DocsOfAll` | index.js:212 | `find()` returns every stored document exactly once, with its own `_id`, and nothing else |
| `Ledger.Bump` | index.js:344-347 | `$inc` leaves a number in the named camp's `participantCount`: the old value, an absent counter read as 0, plus exactly `delta`; it changes no other field; a missing camp leaves every camp as it was |
| `Ledger.CountsNonNegative` | index.js:344-390 | while every counter matches its registrations, no counter is negative |
| `Ledger.RegisterKeepsCounts` | index.js:339-347 | registering for an existing camp keeps every counter equal to its number of live registrations |
| `Ledger.RegisterKeepsCount` | index.js:339-347 | after a registration, one camp's counter and its number of registrants move together |
| `Ledger.RegistrantsAfterInsert` | index.js:339-341 | an inserted registration joins the registrants of the camp it names and of no other |
| `Ledger.CancelKeepsCounts` | index.js:382-390 | cancelling a live registration of the named camp keeps every counter equal to its registrations |
| `Ledger.CancelKeepsCount` | index.js:382-390 | after such a cancellation, one camp's counter and its number of registrants move together |
| `Ledger.CancelOfMissingBreaksCounts` | index.js:382-390 | cancelling with an id that names no registration still decrements, so a counter that matched stops matching |
| `Ledger.CreateKeepsCounts` | index.js:201-206 | a new camp whose body carries no counter, or a zero one, keeps every counter right |
| `Ledger.DeleteKeepsCounts` | index.js:297-299 | deleting a camp, with its registrations left in place, keeps the other counters right |
| `Ledger.RestatusKeepsCounts` | index.js:462-467 | changing a registration's statuses but not its `campId` keeps every counter right |
| `Ledger.ConfirmKeepsCounts` | index.js:462-488 | confirming a registration and issuing its payment's `_id` keeps every counter right |
| `Ledger.NoPaymentsFor` | index.js:476-488 | with no payment naming a registration, its payment count is 0 |
| `Ledger.PayKeepsPayments` | index.js:462-488 | flipping an unpaid registration to {paid, confirmed} and appending one payment naming it keeps every registration's payment count equal to 1 if paid, 0 if not |
| `Ledger.EnumeratesTail` | index.js:212 | removing the first key from a natural order enumerates the rest of the collection |
| `Ledger.EnumeratesAdd` | index.js:205 | `insertOne` under a fresh key appends it to the natural order |
| `Ledger.EnumeratesRemove` | index.js:299 | `deleteOne` removes the key from the natural order |
| `Ledger.PutUser` | index.js:122 | storing a user under its own email keeps the store invariant |
| `Ledger.ReplaceCamps` | index.js:319 | changing camps in place, with the same `_id`s, keeps the store invariant |
| `Ledger.AddCamp` | index.js:205 | inserting a camp under a fresh `_id` keeps the store invariant |
| `Ledger.RemoveCamp` | index.js:299 | deleting a camp keeps the store invariant |
| `Ledger.AddRegistration` | index.js:334-341 | inserting an {unpaid, pending} registration under a fresh `_id` keeps the store invariant: no payment can name it yet |
| `Ledger.RemoveRegistration` | index.js:382-384 | deleting a registration keeps the store invariant |
| `Ledger.ConfirmRegistration` | index.js:462-488 | confirming a registration that was not {paid, confirmed} and appending a payment naming it keeps the store invariant |
| `Ledger.IssueId` | index.js:510 | handing out another `_id` keeps the store invariant |
| `Store.Store.OrganizerGate` | index.js:97-107 | `verifyUser` then `verifyOrganizer`: passes iff the token verifies and its email belongs to a stored organizer; a 401 or 403 from `verifyUser` is kept; otherwise 403 |
| `Store.SetFields` | index.js:313-319 | `$set` overwrites exactly the patch's fields and keeps every other field of the camp |
| `Store.Store.PostUser` | index.js:110-127 | inserts the user iff no user has that email (`inserted` says which); an existing email leaves the users unchanged; nothing else changes |
| `Store.Store.TouchSignIn` | index.js:130-143 | sets only the last sign-in time of the user with that email, if one exists |
| `Store.Store.UpdateProfile` | index.js:146-173 | 400 and no change without an email or without a truthy name or photo; otherwise sets exactly the supplied fields of that user and leaves every other field and user unchanged |
| `Store.Store.GetRole` | index.js:176-198 | the guard's status; 400 without an email; 404 for an unknown user; otherwise the stored role, or "participant" when it is unset or empty |
| `Store.Store.CreateCamp` | index.js:201-207 | organizer only; inserts the body stamped with `created_at` under a fresh `_id`, at the end of the natural order; counters stay right when the body carries no counter |
| `Store.Store.AllCamps` | index.js:210-218 | organizer only; every camp exactly once, with its `_id` |
| `Store.Store.PaginatedCamps` | index.js:221-248 | the answer is exactly the page `Paginate` gives over the stored camps: 500 iff the skip is negative; otherwise the window at that skip of the newest-first order, so at most `limit` stored camps, a full page when the store reaches past it, with the page count and current page |
| `Store.Store.PopularCamps` | index.js:251-263 | 200 with `min(6, n)` stored camps, each at most as often as it is stored, in non-increasing count order; every camp left out counts no more than every camp shown |
| `Store.Store.CampDetails` | index.js:266-287 | 400 for an invalid id; 404 when no camp has it; else that camp |
| `Store.Store.DeleteCamp` | index.js:290-302 | organizer only; removes the camp with that id (reports whether one was deleted); its registrations stay; the other counters stay right |
| `Store.Store.UpdateCamp` | index.js:305-322 | organizer only; `$set` of the patch stamped with `updated_at` on the camp with that id, if any; counters stay right when the patch carries no counter |
| `Store.Store.RegisterCamp` | index.js:325-354 | 400 and no change without a `campId`; otherwise inserts an {unpaid, pending} registration; then either adds 1 to the named camp's counter (200), or answers 500 for a malformed id with the registration kept; counters stay right when the id names a stored camp |
| `Store.Store.InsertRegistration` | index.js:334-341 | inserts the registration under a fresh `_id` at the end of the natural order, keeping the store invariant |
| `Store.Store.BumpCount` | index.js:344-347 | the counter `$inc` on the camps, nothing else |
| `Store.Store.AllRegistrations` | index.js:357-369 | organizer only; every registration exactly once, newest first |
| `Store.Store.CancelRegistration` | index.js:372-397 | 400 and no change for an invalid id; otherwise removes at most the registration with that id and takes 1 off the named camp's counter whether or not one was removed; counters stay right when the pair names a live registration of that camp |
| `Store.Store.DeleteRegistration` | index.js:382-384 | removes the registration with that id, if any, keeping the store invariant |
| `Store.Store.RegistrationsOf` | index.js:400-409 | exactly the registrations carrying that email, each once, newest first: a permutation of the equality filter over the collection |
| `Store.Store.GetRegistration` | index.js:412-432 | 400 for an invalid id; 404 when no registration has it; else that registration |
| `Store.Store.RecordPayment` | index.js:451-494 | 400 without `campId`, `email` or a non-zero amount; 404 and no change when the registration is missing or already {paid, confirmed}; otherwise flips it to {paid, confirmed}, appends exactly one payment with `fees = amount`, and answers 201 |
| `Store.Store.ConfirmAndRecord` | index.js:462-488 | the status flip and the payment append, keeping the store invariant |
| `Store.Store.ListPayments` | index.js:497-504 | the payments with that email, or all of them without one, most recent first |
| `Store.Store.PostFeedback` | index.js:507-512 | appends the feedback as sent under a fresh `_id` |
| `Store.Store.ListFeedbacks` | index.js:515-522 | 200 with every feedback, newest first |
| `Store.PostUserTwice` | index.js:115-122 | posting the same user twice: the second post inserts nothing and the users end as the first post left them |
| `Store.RegisterOnce` | index.js:325-347 | one registration on an empty store leaves exactly that {unpaid, pending} registration |
| `Store.RegisterAndPay` | index.js:451-494 | the first payment for it is accepted (201), leaving one payment and the registration {paid, confirmed} |
| `Store.PayTwice` | index.js:455-488 | register once and pay twice: the first payment is 201, the second 404, and exactly one payment record exists |

## Left out

- Payment-intent creation (`POST /create-payment-intent`, index.js:435-448) is a call to an external payment provider. It is not part of this model.
- Firebase token verification is an opaque parameter, `verify`, from token to an optional email. A throw counts as no email.
- The bootstrap is configuration and I/O and is not modelled: environment loading, service-key decoding, the database client, the CORS and JSON middleware, the health-check route and `app.listen` (index.js:1-45, index.js:536-544).
- `Store.Store.DeleteCamp`: requires a valid id once the guards pass. The route calls `new ObjectId` outside any `try`, and what an uncaught throw does to the request is not modelled.
- `Store.Store.UpdateCamp`: requires a valid id once the guards pass, for the same reason.
- `Store.Store.RecordPayment`: requires a valid `campId` once the guard and the field checks pass, for the same reason.
- The 500 answers of the `catch` blocks for a failing database are not modelled. Only the two failures the routes themselves cause are modelled: the malformed `campId` in registration and the negative skip in pagination.
- `Records.ValidId`: follows the validity rule of current bson releases, exactly 24 hexadecimal digits. bson 4.x also accepts any 12-character string as an ObjectId; the model assumes a driver without that rule.
- Camp documents: the descriptive `fields` map is taken to carry none of the keys `participantCount`, `created_at` or `updated_at`. In the store these are fields of the same document, so a patch or body sending them as descriptive fields would change the counter or the timestamps; the model does not capture that case, and the counter clauses of `CreateCamp` and `UpdateCamp` look only at the typed fields.
- `Listing.Paginate` and `Store.Store.PaginatedCamps`: query numbers are exact integers. JavaScript's rounding of `parseInt` results beyond 2^53, and the database's refusal (500) of a skip or limit outside the 64-bit range, are not modelled; for such queries the model answers with a page where the server answers 500.
- Timestamps are integer parameters. They stand for ISO strings, whose lexicographic order is their chronological order.
- Identifiers the database generates come in as parameters, each one never handed out before.
- Interleaving of concurrent requests, and a crash between the two steps of register, cancel or pay, are not modelled. Each route runs to completion on its own.
- The database's natural order is modelled as insertion order. Documents with equal sort keys keep that order.
- `estimatedDocumentCount` is modelled as the exact number of camps.
- Documents are modelled as records, with these limits:
  - a request body that carries its own `_id` is not modelled;
  - a user body without an `email` is not modelled;
  - a `participantCount` that is not a number is not modelled;
  - a payment `amount` that is not a number is not modelled;
  - a camp's descriptive fields are strings;
  - `parseInt` of a query is an optional integer, with None for NaN.
- Only the route results the model needs are modelled. `inserted`, `matched` and `deleted` stand for the acknowledgement objects the driver returns.
