/**
 * The state of the `SubscriptionTracker` component (subscription-frontend/src/App.jsx)
 * as a value, and what each handler does to it, as functions.
 *
 * Every request the component would send is recorded in the order it is sent, so that
 * "issues no request" and "performs exactly one refetch" are statements about a sequence.
 * The network is an oracle: each handler that awaits a `fetch` takes the reply it gets.
 */
module AppState {
  import opened Wrappers

  /** A server-assigned id, as the JSON number the back end sends. */
  type Id = int

  /** One element of the list the server returns. */
  datatype Subscription = Subscription(
    id: Id, name: string, amount: real, billingCycle: string, nextBillingDate: string, category: string)

  /** The draft held by the form; `amount` is the raw text of the input. */
  datatype FormData = FormData(
    name: string, amount: string, billingCycle: string, nextBillingDate: string, category: string)

  /** The five named inputs of the form. */
  datatype Field = Name | Amount | BillingCycle | NextBillingDate | Category

  /** The JSON body of a POST or PUT: the draft with `amount` parsed to a number. */
  datatype Payload = Payload(
    name: string, amount: real, billingCycle: string, nextBillingDate: string, category: string)

  /** A request sent to the back end. */
  datatype Request = List | Create(data: Payload) | Update(id: Id, data: Payload) | Delete(id: Id)

  /**
   * How an awaited `fetch` settles: a response with its `ok` flag and its decoded body,
   * or an error thrown by the transport or by decoding, with its message.
   */
  datatype Reply<T> = Response(ok: bool, body: T) | Thrown(message: string)

  /** The six pieces of component state. */
  datatype UiState = UiState(
    subscriptions: seq<Subscription>,
    isModalOpen: bool,
    editingId: Option<Id>,
    loading: bool,
    error: Option<string>,
    formData: FormData)

  /** The state after a handler, and the requests it sent, in order. */
  datatype Effect = Effect(view: UiState, sent: seq<Request>)

  const FetchFailed := "Failed to fetch subscriptions"
  const CreateFailed := "Failed to create subscription"
  const UpdateFailed := "Failed to update subscription"
  const DeleteFailed := "Failed to delete subscription"
  const FillAllFields := "Please fill all fields"

  /** The draft the form starts from and is reset to. */
  const EmptyForm := FormData("", "", "Monthly", "", "")

  /** The state of a freshly mounted component. */
  const Initial := UiState([], false, None, true, None, EmptyForm)

  /** Did the awaited call end with an `ok` response? */
  predicate Succeeded<T>(reply: Reply<T>) {
    reply.Response? && reply.ok
  }

  /** The message a failed call leaves in `error`: the one thrown for a non-ok status, or the transport's. */
  function ErrorOf<T>(reply: Reply<T>, statusMessage: string): string {
    match reply
    case Response(_, _) => statusMessage
    case Thrown(message) => message
  }

  /** JavaScript truthiness of `editingId`: `null` and the number 0 are falsy. */
  predicate Truthy(id: Option<Id>) {
    id.Some? && id.value != 0
  }

  /** The validation gate of `handleSubmit`: one of the four checked fields is the empty string. */
  predicate Incomplete(f: FormData) {
    f.name == "" || f.amount == "" || f.nextBillingDate == "" || f.category == ""
  }

  function ToPayload(f: FormData, parse: string -> real): (p: Payload)
    ensures p.amount == parse(f.amount)
    ensures p.name == f.name && p.billingCycle == f.billingCycle
    ensures p.nextBillingDate == f.nextBillingDate && p.category == f.category
  {
    Payload(f.name, parse(f.amount), f.billingCycle, f.nextBillingDate, f.category)
  }

  /** Reads one field of the draft by name. */
  function Get(f: FormData, field: Field): string {
    match field
    case Name => f.name
    case Amount => f.amount
    case BillingCycle => f.billingCycle
    case NextBillingDate => f.nextBillingDate
    case Category => f.category
  }

  /** `{ ...prev, [name]: value }` */
  function WithField(f: FormData, field: Field, value: string): (r: FormData)
    ensures Get(r, field) == value
    ensures forall other :: other != field ==> Get(r, other) == Get(f, other)
  {
    match field
    case Name => f.(name := value)
    case Amount => f.(amount := value)
    case BillingCycle => f.(billingCycle := value)
    case NextBillingDate => f.(nextBillingDate := value)
    case Category => f.(category := value)
  }

  /** `fetchSubscriptions` */
  function AfterFetch(v: UiState, reply: Reply<seq<Subscription>>): (e: Effect)
    ensures e.sent == [List]
    ensures !e.view.loading
    ensures e.view.isModalOpen == v.isModalOpen && e.view.editingId == v.editingId
    ensures e.view.formData == v.formData
    ensures Succeeded(reply) ==> e.view.subscriptions == reply.body && e.view.error == None
    ensures !Succeeded(reply) ==>
              e.view.subscriptions == v.subscriptions && e.view.error == Some(ErrorOf(reply, FetchFailed))
  {
    var started := v.(loading := true, error := None);
    var settled :=
      match reply
      case Response(ok, data) => if ok then started.(subscriptions := data) else started.(error := Some(FetchFailed))
      case Thrown(message) => started.(error := Some(message));
    Effect(settled.(loading := false), [List])
  }

  /**
   * The shape shared by `createSubscription`, `updateSubscription` and `deleteSubscription`:
   * send `req`; on an ok response refetch, otherwise record the failure.
   */
  function AfterMutation(
    v: UiState, req: Request, reply: Reply<()>, statusMessage: string, refetch: Reply<seq<Subscription>>
  ): (e: Effect)
    ensures Succeeded(reply) ==> e.sent == [req, List] && e.view == AfterFetch(v, refetch).view
    ensures !Succeeded(reply) ==> e.sent == [req] && e.view == v.(error := Some(ErrorOf(reply, statusMessage)))
  {
    if Succeeded(reply) then
      var fetched := AfterFetch(v, refetch);
      Effect(fetched.view, [req] + fetched.sent)
    else
      Effect(v.(error := Some(ErrorOf(reply, statusMessage))), [req])
  }

  function AfterCreate(v: UiState, data: Payload, reply: Reply<()>, refetch: Reply<seq<Subscription>>): Effect {
    AfterMutation(v, Create(data), reply, CreateFailed, refetch)
  }

  function AfterUpdate(v: UiState, id: Id, data: Payload, reply: Reply<()>, refetch: Reply<seq<Subscription>>): Effect {
    AfterMutation(v, Update(id, data), reply, UpdateFailed, refetch)
  }

  function AfterDelete(v: UiState, id: Id, reply: Reply<()>, refetch: Reply<seq<Subscription>>): Effect {
    AfterMutation(v, Delete(id), reply, DeleteFailed, refetch)
  }

  /** `handleInputChange`: only the named field of the draft changes. */
  function AfterInputChange(v: UiState, field: Field, value: string): (r: UiState)
    ensures r == v.(formData := r.formData)
    ensures Get(r.formData, field) == value
    ensures forall other :: other != field ==> Get(r.formData, other) == Get(v.formData, other)
  {
    v.(formData := WithField(v.formData, field, value))
  }

  /** `handleSubmit`: the validation gate, then update or create, then reset and close whatever the outcome. */
  function AfterSubmit(v: UiState, parse: string -> real, reply: Reply<()>, refetch: Reply<seq<Subscription>>): (e: Effect)
    ensures Incomplete(v.formData) ==> e.sent == [] && e.view == v.(error := Some(FillAllFields))
    ensures !Incomplete(v.formData) ==>
              && |e.sent| > 0
              && e.sent[0] == (if Truthy(v.editingId) then Update(v.editingId.value, ToPayload(v.formData, parse))
                               else Create(ToPayload(v.formData, parse)))
              && e.view.formData == EmptyForm
              && !e.view.isModalOpen
              && e.view.editingId == (if Truthy(v.editingId) then None else v.editingId)
    // The list, `loading`, `error` and every request sent are those of the update or create it awaits.
    ensures !Incomplete(v.formData) ==>
              var m := AfterMutation(
                v,
                if Truthy(v.editingId) then Update(v.editingId.value, ToPayload(v.formData, parse))
                else Create(ToPayload(v.formData, parse)),
                reply,
                if Truthy(v.editingId) then UpdateFailed else CreateFailed,
                refetch);
              && e.sent == m.sent
              && e.view.subscriptions == m.view.subscriptions
              && e.view.loading == m.view.loading
              && e.view.error == m.view.error
    ensures !Incomplete(v.formData) && Succeeded(reply) ==> |e.sent| == 2 && e.sent[1] == List
    ensures !Incomplete(v.formData) && !Succeeded(reply) ==>
              |e.sent| == 1 && e.view.subscriptions == v.subscriptions && e.view.loading == v.loading
  {
    if Incomplete(v.formData) then
      Effect(v.(error := Some(FillAllFields)), [])
    else
      var data := ToPayload(v.formData, parse);
      var done :=
        if Truthy(v.editingId) then
          var updated := AfterUpdate(v, v.editingId.value, data, reply, refetch);
          Effect(updated.view.(editingId := None), updated.sent)
        else
          AfterCreate(v, data, reply, refetch);
      Effect(done.view.(formData := EmptyForm, isModalOpen := false), done.sent)
  }

  /** The draft `handleEdit` seeds from a subscription; `show` is JavaScript's `Number.prototype.toString`. */
  function DraftOf(s: Subscription, show: real -> string): (f: FormData)
    ensures Get(f, Name) == s.name && Get(f, Amount) == show(s.amount) && Get(f, BillingCycle) == s.billingCycle
    ensures Get(f, NextBillingDate) == s.nextBillingDate && Get(f, Category) == s.category
  {
    FormData(s.name, show(s.amount), s.billingCycle, s.nextBillingDate, s.category)
  }

  /** `handleEdit` */
  function AfterEdit(v: UiState, s: Subscription, show: real -> string): (r: UiState)
    ensures r.isModalOpen && r.editingId == Some(s.id) && r.formData == DraftOf(s, show)
    ensures r.subscriptions == v.subscriptions && r.loading == v.loading && r.error == v.error
  {
    v.(formData := DraftOf(s, show), editingId := Some(s.id), isModalOpen := true)
  }

  /** `handleDelete`: the request goes out only when the user confirms. */
  function AfterDeleteRequest(
    v: UiState, id: Id, confirmed: bool, reply: Reply<()>, refetch: Reply<seq<Subscription>>
  ): (e: Effect)
    ensures !confirmed ==> e == Effect(v, [])
    ensures confirmed ==> |e.sent| > 0 && e.sent[0] == Delete(id)
    ensures confirmed ==> e == AfterMutation(v, Delete(id), reply, DeleteFailed, refetch)
  {
    if confirmed then AfterDelete(v, id, reply, refetch) else Effect(v, [])
  }

  /** The Cancel button. */
  function AfterCancel(v: UiState): (r: UiState)
    ensures !r.isModalOpen && r.editingId == None && r.formData == EmptyForm
    ensures r.subscriptions == v.subscriptions && r.loading == v.loading && r.error == v.error
  {
    v.(isModalOpen := false, editingId := None, formData := EmptyForm)
  }

  /** The "Add Subscription" button: it opens the modal and touches nothing else. */
  function AfterOpenAdd(v: UiState): (r: UiState)
    ensures r.isModalOpen && r == v.(isModalOpen := r.isModalOpen)
  {
    v.(isModalOpen := true)
  }

  /** The × on the error banner. */
  function AfterDismissError(v: UiState): (r: UiState)
    ensures r.error == None && r == v.(error := r.error)
  {
    v.(error := None)
  }

  // ---------------------------------------------------------------------------------------------
  // The component as a state machine

  /** A user action, with the answers of the network and of `window.confirm` it will get. */
  datatype Event =
    | Refresh(listReply: Reply<seq<Subscription>>)
    | OpenAdd
    | Edit(item: Subscription, show: real -> string)
    | Input(field: Field, value: string)
    | Submit(parse: string -> real, reply: Reply<()>, refetch: Reply<seq<Subscription>>)
    | Cancel
    | RemoveItem(id: Id, confirmed: bool, reply: Reply<()>, refetch: Reply<seq<Subscription>>)
    | DismissError

  function Apply(v: UiState, ev: Event): Effect {
    match ev
    case Refresh(listReply) => AfterFetch(v, listReply)
    case OpenAdd => Effect(AfterOpenAdd(v), [])
    case Edit(item, show) => Effect(AfterEdit(v, item, show), [])
    case Input(field, value) => Effect(AfterInputChange(v, field, value), [])
    case Submit(parse, reply, refetch) => AfterSubmit(v, parse, reply, refetch)
    case Cancel => Effect(AfterCancel(v), [])
    case RemoveItem(id, confirmed, reply, refetch) => AfterDeleteRequest(v, id, confirmed, reply, refetch)
    case DismissError => Effect(AfterDismissError(v), [])
  }

  /** The inputs of the form exist only while the modal is rendered (App.jsx:293). */
  predicate Enabled(v: UiState, ev: Event) {
    ev.Input? ==> v.isModalOpen
  }

  /** Every event of `evs` is enabled in the state it meets. */
  predicate Possible(v: UiState, evs: seq<Event>)
    decreases |evs|
  {
    |evs| == 0 || (Enabled(v, evs[0]) && Possible(Apply(v, evs[0]).view, evs[1..]))
  }

  function Run(v: UiState, evs: seq<Event>): UiState
    decreases |evs|
  {
    if |evs| == 0 then v else Run(Apply(v, evs[0]).view, evs[1..])
  }

  /**
   * What the "Add Subscription" button relies on: whenever the modal is closed the draft is the
   * empty baseline and `editingId` is falsy, so opening the modal starts a create.
   */
  predicate Tidy(v: UiState) {
    !v.isModalOpen ==> v.formData == EmptyForm && !Truthy(v.editingId)
  }

  lemma InitialIsTidy()
    ensures Tidy(Initial) && !Initial.isModalOpen && Initial.editingId == None
  {
  }

  lemma {:induction false} EveryHandlerKeepsTidy(v: UiState, ev: Event)
    requires Tidy(v) && Enabled(v, ev)
    ensures Tidy(Apply(v, ev).view)
  {
    match ev
    case Submit(parse, reply, refetch) =>
      if !Incomplete(v.formData) {
        var e := AfterSubmit(v, parse, reply, refetch);
        assert !e.view.isModalOpen && e.view.formData == EmptyForm;
      }
    case RemoveItem(id, confirmed, reply, refetch) =>
    case Refresh(listReply) =>
    case _ =>
  }

  /** The invariant holds after any sequence of possible user actions. */
  lemma {:induction false} TidyAlongEveryRun(v: UiState, evs: seq<Event>)
    requires Tidy(v) && Possible(v, evs)
    ensures Tidy(Run(v, evs))
    decreases |evs|
  {
    if |evs| > 0 {
      EveryHandlerKeepsTidy(v, evs[0]);
      TidyAlongEveryRun(Apply(v, evs[0]).view, evs[1..]);
    }
  }

  /** Opening the modal with "Add Subscription" from any reachable state shows an empty draft, and submitting it creates. */
  lemma {:induction false} AddAfterAnyRunStartsCreate(evs: seq<Event>, parse: string -> real, reply: Reply<()>, refetch: Reply<seq<Subscription>>)
    requires Possible(Initial, evs)
    requires !Run(Initial, evs).isModalOpen
    ensures AfterOpenAdd(Run(Initial, evs)).formData == EmptyForm
    ensures !Truthy(AfterOpenAdd(Run(Initial, evs)).editingId)
  {
    TidyAlongEveryRun(Initial, evs);
  }

  /** Submit or Cancel leaves the modal closed, the draft empty and `editingId` falsy, whatever came before. */
  lemma SubmitAndCancelReset(v: UiState, parse: string -> real, reply: Reply<()>, refetch: Reply<seq<Subscription>>)
    requires !Incomplete(v.formData)
    ensures var s := AfterSubmit(v, parse, reply, refetch).view;
            !s.isModalOpen && s.formData == EmptyForm && (v.editingId == None || Truthy(v.editingId) ==> s.editingId == None)
    ensures var c := AfterCancel(v);
            !c.isModalOpen && c.formData == EmptyForm && c.editingId == None
  {
  }

  /**
   * Editing a subscription and submitting at once sends a PUT for that subscription, never a POST;
   * the body carries the subscription's own fields when parsing its printed amount gives the amount back.
   */
  lemma EditThenSubmitUpdates(
    v: UiState, s: Subscription, show: real -> string, parse: string -> real,
    reply: Reply<()>, refetch: Reply<seq<Subscription>>)
    requires s.id != 0
    requires s.name != "" && show(s.amount) != "" && s.nextBillingDate != "" && s.category != ""
    ensures var e := AfterSubmit(AfterEdit(v, s, show), parse, reply, refetch);
            && |e.sent| > 0
            && e.sent[0] == Update(s.id, Payload(s.name, parse(show(s.amount)), s.billingCycle, s.nextBillingDate, s.category))
            && (forall k :: 0 <= k < |e.sent| ==> !e.sent[k].Create?)
            && e.view.editingId == None && !e.view.isModalOpen
    ensures parse(show(s.amount)) == s.amount ==>
              AfterSubmit(AfterEdit(v, s, show), parse, reply, refetch).sent[0]
              == Update(s.id, Payload(s.name, s.amount, s.billingCycle, s.nextBillingDate, s.category))
  {
    var edited := AfterEdit(v, s, show);
    assert !Incomplete(edited.formData);
    assert Truthy(edited.editingId);
  }

  /**
   * The truthiness test in `handleSubmit` treats an id of 0 as "no id": editing such a record and
   * submitting sends a POST, and leaves `editingId` set while the modal is closed.
   */
  lemma ZeroIdEditSubmitsCreate(
    v: UiState, s: Subscription, show: real -> string, parse: string -> real,
    reply: Reply<()>, refetch: Reply<seq<Subscription>>)
    requires s.id == 0
    requires s.name != "" && show(s.amount) != "" && s.nextBillingDate != "" && s.category != ""
    ensures var e := AfterSubmit(AfterEdit(v, s, show), parse, reply, refetch);
            && |e.sent| > 0 && e.sent[0].Create?
            && e.view.editingId == Some(0) && !e.view.isModalOpen
  {
    var edited := AfterEdit(v, s, show);
    assert !Incomplete(edited.formData);
  }

  /** Declining the confirmation changes nothing and sends nothing (a corollary of `AfterDeleteRequest`'s contract). */
  lemma DeclinedDeleteIsInert(v: UiState, id: Id, reply: Reply<()>, refetch: Reply<seq<Subscription>>)
    ensures AfterDeleteRequest(v, id, false, reply, refetch) == Effect(v, [])
  {
  }

  /**
   * A failed refresh never empties a populated list; a successful one mirrors the server exactly
   * (a corollary of `AfterFetch`'s contract, stated on its own as the property the list view relies on).
   */
  lemma RefreshMirrorsServer(v: UiState, reply: Reply<seq<Subscription>>)
    ensures Succeeded(reply) ==> AfterFetch(v, reply).view.subscriptions == reply.body
    ensures !Succeeded(reply) ==> AfterFetch(v, reply).view.subscriptions == v.subscriptions
  {
  }
}
