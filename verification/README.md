# Subscription Manager — a Dafny model

Subscription Manager tracks recurring expenses. It has two halves that meet at one REST resource,
`/api/subscriptions`:

- **The front end** is a single React component, `SubscriptionTracker`
  (`subscription-frontend/src/App.jsx`). It holds six pieces of state: the list, whether the modal is
  open, the id being edited, the loading flag, the error banner and the draft form. It keeps the list in
  step with the server by refetching after every successful create, update and delete. One form serves
  both create and edit. It also derives the monthly and annual spend.
- **The back end** is a Spring service. The `Subscriptions` entity carries bean-validation annotations.
  `SubscriptionService` does create, read, update and delete over a JPA repository.
  `SubscriptionController` maps service results and exceptions to HTTP 200, 404 and 400.

The model has seven modules:

| file | module | what it holds |
|---|---|---|
| `wrappers.dfy` | `Wrappers` | `Option`, `Result` and `Outcome`, for nulls and thrown exceptions |
| `app_state.dfy` | `AppState` | the component's state as a value (`UiState`); one function per handler giving the new state and the requests sent (`Effect`); the state-machine invariant and the lemmas about it |
| `app.dfy` | `App` | class `SubscriptionTracker`: one field per `useState` hook and one method per handler; each method's new state is its `AppState` function of the old state |
| `app_totals.dfy` | `AppTotals` | `calculateTotals`, a left fold, proved equal to a head-first sum |
| `model.dfy` | `Model` | the entity as a value (`Entity`), the class `Subscriptions` with its constructors and setters, and the validity predicate `IsValid` |
| `service.dfy` | `Service` | class `SubscriptionService` over a table `map<Id, Entity>`, the listing order `rows` and the identity counter `nextId` |
| `controller.dfy` | `Controller` | class `SubscriptionController`: the five endpoints as `Response(status, body)` |

The network is an oracle. Each front-end method that awaits a `fetch` takes as a parameter the reply it
will get, `Reply<T> = Response(ok, body) | Thrown(message)`. Every request the component sends is
appended to the ghost log `sent`. So "sends no request" and "refetches exactly once" are statements about
that sequence. These are also parameters:

- `window.confirm` is the boolean `confirmed`;
- `parseFloat` is `parse: string -> real`;
- `Number.prototype.toString` is `show: real -> string`.

`editingId` is tested by JavaScript truthiness (App.jsx:107), modelled as `Truthy`: present and not 0.
An id of 0 is therefore taken for "no id". Editing a record whose id is 0 and submitting sends a POST,
not a PUT. It also leaves `editingId` set while the modal is closed (`ZeroIdEditSubmitsCreate`). The
back end's identity column starts at 1, so this needs a record that did not come from this back end. For
this reason the invariant the Add button relies on is stated with truthiness: whenever the modal is
closed, the draft is the empty baseline and `editingId` is falsy (`AppState.Tidy`).

The Add button (App.jsx:224) only opens the modal. It does not reset the draft. The model follows the code
and proves the invariant that makes this safe when handlers run one at a time, each completed before
the next starts: `TidyAlongEveryRun` and `AddAfterAnyRunStartsCreate`. The invariant does not survive
interleaving. The modal stays open while a create is awaited, so a user can Cancel and then Edit a
record while the create is in flight. When the create completes, the modal closes and the draft empties,
but `editingId` keeps the edited id, because the create branch never clears it. The next Add then opens
the form in edit mode. The model does not capture this interleaving; see "Left out".

`@NotBlank` follows Hibernate Validator, which trims the string and requires something to remain.
`String.trim()` removes every character up to U+0020. `@Size` counts UTF-16 code units (`Utf16Length`).
`@Pattern` must match the whole string, which makes it membership in {Monthly, Yearly, Weekly}.

The repository's `save` works as Spring Data's does. An entity whose id names a stored row replaces that
row. Any other entity becomes a new row under the next identity value (`SubscriptionService.Save`).
The service reads a stored row as a fresh entity object (`Service.Load`). It then changes the five data
fields through the setters and saves the object back.

## Model

| member | source | states |
|---|---|---|
| `App.SubscriptionTracker.constructor` | subscription-frontend/src/App.jsx:8-19 | the component starts with an empty list, modal closed, no `editingId`, `loading` true, no error, the empty draft (billing cycle `Monthly`), and nothing sent |
| `App.SubscriptionTracker.FetchSubscriptions` | subscription-frontend/src/App.jsx:26-40 | new state is `AfterFetch` of the old state and the reply; exactly one list request is sent |
| `AppState.AfterFetch` | subscription-frontend/src/App.jsx:26-40 | sends one list request and ends with `loading` false; on an ok reply the list becomes the server's list in server order and `error` is cleared; on a non-ok or thrown reply the list is unchanged and `error` holds the fixed message or the thrown one; modal, draft and `editingId` untouched |
| `AppState.RefreshMirrorsServer` | subscription-frontend/src/App.jsx:27-38 | a corollary of `AfterFetch`: a successful refresh mirrors the server exactly; a failed one never changes (so never empties) the list |
| `AppState.AfterMutation` | subscription-frontend/src/App.jsx:42-83 | the shared create/update/delete shape: an ok reply sends the request then exactly one refetch, and the state is the refetch's; any failure sends only the request, sets `error` and changes nothing else |
| `App.SubscriptionTracker.CreateSubscription` | subscription-frontend/src/App.jsx:42-55 | new state and requests are those of `AfterMutation` with a POST and the message "Failed to create subscription" |
| `App.SubscriptionTracker.UpdateSubscription` | subscription-frontend/src/App.jsx:57-70 | the same with a PUT to the id and "Failed to update subscription" |
| `App.SubscriptionTracker.DeleteSubscription` | subscription-frontend/src/App.jsx:72-83 | the same with a DELETE of the id and "Failed to delete subscription" |
| `AppState.WithField` | subscription-frontend/src/App.jsx:91-94 | the named field takes the new value; every other field keeps its value |
| `AppState.AfterInputChange` | subscription-frontend/src/App.jsx:91-94 | only the named field of the draft changes; the rest of the state is untouched |
| `App.SubscriptionTracker.HandleInputChange` | subscription-frontend/src/App.jsx:91-94 | callable only while the modal is open (the inputs exist only then); new state is `AfterInputChange`; nothing sent; keeps `Tidy` |
| `AppState.ToPayload` | subscription-frontend/src/App.jsx:102-105 | the request body is the draft with `amount` replaced by its parse |
| `AppState.AfterSubmit` | subscription-frontend/src/App.jsx:96-122 | with name, amount, date or category empty: `error` is "Please fill all fields", nothing is sent, and the rest of the state (draft, `editingId`, modal) is unchanged; otherwise the first request is a PUT to `editingId` when it is truthy, else a POST, with the parsed amount; afterwards, whatever the reply, the draft is the empty baseline, the modal is closed, and `editingId` is cleared when it was truthy; the list, `loading`, `error` and every request sent are those of the awaited update or create (`AfterMutation`): an ok reply sends the request then exactly one refetch, and a failed one sends only the request and leaves the list and `loading` as they were; the empty-field test and the truthiness of `editingId` (App.jsx:97, 107) are spelled out by `Incomplete` and `Truthy` |
| `App.SubscriptionTracker.HandleSubmit` | subscription-frontend/src/App.jsx:96-122 | new state and requests are `AfterSubmit`'s; keeps `Tidy` |
| `AppState.SubmitAndCancelReset` | subscription-frontend/src/App.jsx:114-121 | after a valid submit or a cancel, the modal is closed and the draft is empty; `editingId` is null after cancel, and after submit unless it held the falsy id 0 |
| `AppState.DraftOf` | subscription-frontend/src/App.jsx:125-131 | the seeded draft carries the subscription's name, printed amount, billing cycle, date and category |
| `AppState.AfterEdit` | subscription-frontend/src/App.jsx:124-134 | the draft is seeded from the subscription, `editingId` is its id, the modal is open; list, loading and error untouched |
| `App.SubscriptionTracker.HandleEdit` | subscription-frontend/src/App.jsx:124-134 | new state is `AfterEdit`'s; nothing sent |
| `AppState.EditThenSubmitUpdates` | subscription-frontend/src/App.jsx:107-108 | for a non-zero id, edit then submit sends a PUT on that id and no POST at all; when parse inverts print, the body is the subscription's own five fields; afterwards `editingId` is null and the modal closed |
| `AppState.ZeroIdEditSubmitsCreate` | subscription-frontend/src/App.jsx:107 | for id 0, edit then submit sends a POST, and leaves `editingId` = 0 with the modal closed |
| `AppState.AfterDeleteRequest` | subscription-frontend/src/App.jsx:136-140 | declined: no change and nothing sent; confirmed: the whole effect is that of `deleteSubscription` (`AfterMutation` with the DELETE of that id and "Failed to delete subscription") |
| `App.SubscriptionTracker.HandleDelete` | subscription-frontend/src/App.jsx:136-140 | new state and requests are `AfterDeleteRequest`'s |
| `AppState.DeclinedDeleteIsInert` | subscription-frontend/src/App.jsx:137 | a corollary of `AfterDeleteRequest`: declining the confirmation leaves the state as it was and sends nothing |
| `AppState.AfterCancel` | subscription-frontend/src/App.jsx:374-384 | modal closed, `editingId` null, draft the empty baseline; list, loading and error untouched |
| `App.SubscriptionTracker.CancelForm` | subscription-frontend/src/App.jsx:374-384 | new state is `AfterCancel`'s; afterwards `Tidy` holds whatever came before |
| `AppState.AfterOpenAdd` | subscription-frontend/src/App.jsx:224 | the modal opens and nothing else changes (the draft is not reset) |
| `App.SubscriptionTracker.OpenAddForm` | subscription-frontend/src/App.jsx:224 | new state is `AfterOpenAdd`'s; from a closed, `Tidy` state it shows the empty draft in create mode |
| `AppState.AfterDismissError` | subscription-frontend/src/App.jsx:176 | `error` becomes null and nothing else changes |
| `App.SubscriptionTracker.DismissError` | subscription-frontend/src/App.jsx:176 | new state is `AfterDismissError`'s |
| `AppState.InitialIsTidy` | subscription-frontend/src/App.jsx:9-19 | the initial state has the modal closed, the empty draft and a null `editingId` |
| `AppState.EveryHandlerKeepsTidy` | subscription-frontend/src/App.jsx:91-140 | every handler, from a state where the modal closed means empty draft and falsy `editingId`, leaves a state where that still holds |
| `AppState.TidyAlongEveryRun` | subscription-frontend/src/App.jsx:114-121 | the invariant holds after any sequence of handlers the rendered page allows, each completed before the next starts |
| `AppState.AddAfterAnyRunStartsCreate` | subscription-frontend/src/App.jsx:224 | after any run from mount of handlers completed one at a time, Add shows the empty draft and a falsy `editingId`, so a submit creates |
| `AppTotals.Contribution` | subscription-frontend/src/App.jsx:144-148 | Monthly contributes the amount, Yearly a twelfth, Weekly 4.33 times; any other cycle contributes 0; a known cycle contributes a positive amount exactly when the amount is positive |
| `AppTotals.CalculateTotals` | subscription-frontend/src/App.jsx:142-155 | the monthly total is the sum of the contributions and the yearly total is 12 times the monthly |
| `AppTotals.ReduceIsSum` | subscription-frontend/src/App.jsx:143-149 | the left-to-right `reduce` from 0 (`Reduce`, accumulating to the last element) equals the head-first sum of the contributions |
| `AppTotals.SumAppend` | subscription-frontend/src/App.jsx:143-149 | the sum of two concatenated lists is the sum of their sums |
| `AppTotals.SumIgnoresOrder` | subscription-frontend/src/App.jsx:143-149 | lists that are permutations of each other have the same total, so the server's order does not matter |
| `AppTotals.TotalsNonNegative` | subscription-frontend/src/App.jsx:142-155 | with no negative amount, neither total is negative |
| `AppTotals.ProrationExample` | subscription-frontend/src/App.jsx:142-155 | 12 yearly, 100 monthly and 10 weekly give 144.3 a month and 1731.6 a year |
| `AppTotals.UnknownCycleIsIgnored` | subscription-frontend/src/App.jsx:148 | adding an item with an unrecognised cycle leaves both totals unchanged |
| `Model.ValidIff` | subscription-backend/src/main/java/org/ak/subscriptionbackend/model/Subscriptions.java:15-32 | `IsValid`, the conjunction of the field annotations, holds iff: the name is non-blank and at most 100 UTF-16 units; the amount is present and strictly positive; the cycle is exactly Monthly, Yearly or Weekly; the date is present; the category is non-blank and at most 50 units; the id is unconstrained |
| `Model.ValidTextLengths` | subscription-backend/src/main/java/org/ak/subscriptionbackend/model/Subscriptions.java:15-32 | a valid name has 1 to 100 characters and a valid category 1 to 50 |
| `Model.Utf16Length` | subscription-backend/src/main/java/org/ak/subscriptionbackend/model/Subscriptions.java:16 | a string's UTF-16 length lies between its character count and twice that |
| `Model.SizeCountsCodeUnits` | subscription-backend/src/main/java/org/ak/subscriptionbackend/model/Subscriptions.java:16 | 51 characters outside the Basic Multilingual Plane are 102 units, so too long for a name |
| `Model.Subscriptions.Empty` | subscription-backend/src/main/java/org/ak/subscriptionbackend/model/Subscriptions.java:34 | the no-argument constructor leaves every field null |
| `Model.Subscriptions.constructor` | subscription-backend/src/main/java/org/ak/subscriptionbackend/model/Subscriptions.java:36-42 | sets exactly the five data fields and leaves the id null for the store to generate |
| `Model.Subscriptions.SetId` | subscription-backend/src/main/java/org/ak/subscriptionbackend/model/Subscriptions.java:49-51 | changes the id and no other field |
| `Model.Subscriptions.SetName` | subscription-backend/src/main/java/org/ak/subscriptionbackend/model/Subscriptions.java:57-59 | changes the name and no other field |
| `Model.Subscriptions.SetAmount` | subscription-backend/src/main/java/org/ak/subscriptionbackend/model/Subscriptions.java:65-67 | changes the amount and no other field |
| `Model.Subscriptions.SetBillingCycle` | subscription-backend/src/main/java/org/ak/subscriptionbackend/model/Subscriptions.java:73-75 | changes the billing cycle and no other field |
| `Model.Subscriptions.SetNextBillingDate` | subscription-backend/src/main/java/org/ak/subscriptionbackend/model/Subscriptions.java:81-83 | changes the next billing date and no other field |
| `Model.Subscriptions.SetCategory` | subscription-backend/src/main/java/org/ak/subscriptionbackend/model/Subscriptions.java:89-91 | changes the category and no other field |
| `Service.SubscriptionService.constructor` | subscription-backend/src/main/java/org/ak/subscriptionbackend/service/SubscriptionService.java:14-15 | the repository starts empty with the identity counter at 1 |
| `Service.SubscriptionService.Save` | subscription-backend/src/main/java/org/ak/subscriptionbackend/service/SubscriptionService.java:26 | an entity whose id is stored replaces that row; any other is stored under the counter's value, which was not in the table, and the counter advances; the table invariant is kept |
| `Service.Load` | subscription-backend/src/main/java/org/ak/subscriptionbackend/service/SubscriptionService.java:30 | `findById` hands back a fresh entity object holding exactly the stored fields |
| `Service.SubscriptionService.GetAllSubscriptions` | subscription-backend/src/main/java/org/ak/subscriptionbackend/service/SubscriptionService.java:17-19 | returns every stored record exactly once: as many records as keys, each one the stored record under its own id, every key's record present, no id twice |
| `Service.DistinctCardinality` | subscription-backend/src/main/java/org/ak/subscriptionbackend/service/SubscriptionService.java:17-19 | a listing without repetitions has as many entries as distinct ids, which is what makes the listing as long as the table |
| `Service.SubscriptionService.GetSubscriptionById` | subscription-backend/src/main/java/org/ak/subscriptionbackend/service/SubscriptionService.java:21-23 | present iff the id is a key, and then the stored record, whose id is that key |
| `Service.SubscriptionService.CreateSubscription` | subscription-backend/src/main/java/org/ak/subscriptionbackend/service/SubscriptionService.java:25-27 | a body without a stored id is added under a fresh id not previously in the table and returned with it; other rows are unchanged |
| `Service.Overwrite` | subscription-backend/src/main/java/org/ak/subscriptionbackend/service/SubscriptionService.java:33-37 | name, amount, billing cycle, date and category come from the details; the stored id is kept, whatever id the details carry |
| `Service.OverwriteIdempotent` | subscription-backend/src/main/java/org/ak/subscriptionbackend/service/SubscriptionService.java:29-40 | applying the same details twice stores the same record as applying them once |
| `Service.OverwriteValidity` | subscription-backend/src/main/java/org/ak/subscriptionbackend/service/SubscriptionService.java:33-37 | the updated record is valid exactly when the details are |
| `Service.SubscriptionService.UpdateSubscription` | subscription-backend/src/main/java/org/ak/subscriptionbackend/service/SubscriptionService.java:29-40 | a missing id fails with "Subscription not found with id: <id>" and leaves the table unchanged; otherwise the row becomes `Overwrite(old row, details)`, which is returned, and every other key is unchanged |
| `Service.SubscriptionService.DeleteSubscription` | subscription-backend/src/main/java/org/ak/subscriptionbackend/service/SubscriptionService.java:42-46 | a missing id fails with the same message and changes nothing; otherwise exactly that key is removed, the table shrinks by one, and the listing loses that id only |
| `Service.Without` | subscription-backend/src/main/java/org/ak/subscriptionbackend/service/SubscriptionService.java:45 | removing a row from the listing keeps every other id, drops that one, and keeps the listing free of repetitions |
| `Service.NotFoundMessageNamesId` | subscription-backend/src/main/java/org/ak/subscriptionbackend/service/SubscriptionService.java:31 | two not-found messages are equal only for equal ids |
| `Service.DigitsRoundTrip` | subscription-backend/src/main/java/org/ak/subscriptionbackend/service/SubscriptionService.java:31 | reading back the decimal digits of an id gives the id |
| `Controller.SubscriptionController.constructor` | subscription-backend/src/main/java/org/ak/subscriptionbackend/controller/SubscriptionController.java:17-18 | the controller holds the service it is given, whose stored records are all valid |
| `Controller.SubscriptionController.GetAllSubscriptions` | subscription-backend/src/main/java/org/ak/subscriptionbackend/controller/SubscriptionController.java:20-23 | 200 with exactly the service's full list, every record of which is valid |
| `Controller.SubscriptionController.GetSubscriptionById` | subscription-backend/src/main/java/org/ak/subscriptionbackend/controller/SubscriptionController.java:25-30 | 200 with the record when the id is stored, 404 with no body when it is not |
| `Controller.SubscriptionController.CreateSubscription` | subscription-backend/src/main/java/org/ak/subscriptionbackend/controller/SubscriptionController.java:32-36 | an invalid body gets 400 and the service is untouched; a valid one gets 200 with the saved record, new under a fresh id when the body has no id; every stored record stays valid |
| `Controller.SubscriptionController.UpdateSubscription` | subscription-backend/src/main/java/org/ak/subscriptionbackend/controller/SubscriptionController.java:38-46 | an invalid body gets 400 and the service is untouched; a missing id gets 404 with the table unchanged; otherwise 200 with the overwritten record |
| `Controller.SubscriptionController.DeleteSubscription` | subscription-backend/src/main/java/org/ak/subscriptionbackend/controller/SubscriptionController.java:48-56 | 200 with no body when the id was stored, and exactly that key is gone; 404 with the table unchanged otherwise |

## Left out

- Rendering: the JSX markup, layout, CSS and icons (App.jsx:159-396) are left out, apart from three inline handlers: Add (224), dismiss (176) and cancel (374-384). Only one fact about the markup is used: the form's inputs exist only while the modal is open (293).
- The transport: `fetch`, `BACKEND_URL`, `JSON.stringify`, `response.json()` and `console.error` are left out. Replies are parameters, and a body that fails to decode is a `Thrown` reply.
- The mount effect (`useEffect`, App.jsx:85-87) is not modelled. The first load is an ordinary `FetchSubscriptions` call.
- Concurrency: overlapping fetches, where the last response wins, are left out. Handlers run one after another, each awaited to completion.
- `AppState.TidyAlongEveryRun`: this covers only runs whose handlers complete one at a time. Take a submit that creates while the modal is open (App.jsx:111). Cancel and then Edit of a record can run during its await. After the await, the modal is closed and the draft empty, but `editingId` still holds the edited id. The invariant fails there, and the next Add opens in edit mode. `AppState.AddAfterAnyRunStartsCreate` has the same limit.
- Floating point is left out. Amounts are exact reals, so `parseFloat`, `/ 12` and `* 4.33` are exact. The two-decimal `toFixed` formatting of the totals is dropped.
- `parseFloat(sub.amount)` inside `calculateTotals` is taken to be the identity, because the server sends the amount as a number.
- `parseFloat` and `Number.prototype.toString` are parameters. The model states the edit round trip only for a `parse` that inverts `show`; it does not prove that JavaScript's two functions invert each other.
- The truthiness of `editingId` is modelled for numbers only, where 0 is the one falsy id. NaN has no counterpart among exact reals.
- `AppState.EveryHandlerKeepsTidy`, `AppState.TidyAlongEveryRun`: these state the invariant with `editingId` falsy rather than null. Null fails only after an id-0 edit, as `ZeroIdEditSubmitsCreate` shows.
- JPA and Hibernate persistence are left out, since the repository interface is not part of this model. `SubscriptionRepository` is a map with a counter. For a body whose id names no stored row, `Save` inserts a new row under a fresh id; what the persistence provider really does in that case is not modelled.
- `Service.SubscriptionService.GetAllSubscriptions`: the source does not fix the order of `findAll`. The model lists rows in insertion order, and the contract promises no order.
- Spring wiring is left out: `@Autowired`, `@CrossOrigin` and `@RequestMapping`. The JSON body of a 400 is also left out; only the status and the unchanged table are modelled.
- The controller catches every `RuntimeException` as 404. The model raises only the service's not-found exception; database errors are not modelled.
- `Model.Date` is a year-month-day triple. `LocalDate`'s calendar checks and its ISO-8601 parsing are not modelled.
- The validation messages of the annotations are not modelled.
- The getters are plain field reads.
- The regular-expression engine behind `@Pattern` is not modelled; the check is membership in the three cycle names.
