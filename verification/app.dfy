/**
 * The `SubscriptionTracker` component (subscription-frontend/src/App.jsx) as an object: one field per
 * `useState` hook, one method per handler, each setter call an assignment in the source's order.
 * Each method's new state is the corresponding function of module AppState applied to the old state,
 * and `sent` grows by the requests that function lists.
 */
module App {
  import opened Wrappers
  import opened AppState

  class SubscriptionTracker {
    var subscriptions: seq<Subscription>
    var isModalOpen: bool
    var editingId: Option<Id>
    var loading: bool
    var error: Option<string>
    var formData: FormData

    /** Every request sent to the back end so far, oldest first. */
    ghost var sent: seq<Request>

    function State(): UiState
      reads this
    {
      UiState(subscriptions, isModalOpen, editingId, loading, error, formData)
    }

    constructor ()
      ensures State() == Initial && sent == []
    {
      subscriptions := [];
      isModalOpen := false;
      editingId := None;
      loading := true;
      error := None;
      formData := EmptyForm;
      sent := [];
    }

    method FetchSubscriptions(reply: Reply<seq<Subscription>>)
      modifies this
      ensures State() == AfterFetch(old(State()), reply).view
      ensures sent == old(sent) + AfterFetch(old(State()), reply).sent
    {
      loading := true;
      error := None;
      sent := sent + [List];
      match reply {
        case Response(ok, data) =>
          if !ok {
            error := Some(FetchFailed);
          } else {
            subscriptions := data;
          }
        case Thrown(message) =>
          error := Some(message);
      }
      loading := false;
    }

    method CreateSubscription(data: Payload, reply: Reply<()>, refetch: Reply<seq<Subscription>>)
      modifies this
      ensures State() == AfterCreate(old(State()), data, reply, refetch).view
      ensures sent == old(sent) + AfterCreate(old(State()), data, reply, refetch).sent
    {
      sent := sent + [Create(data)];
      match reply {
        case Response(ok, _) =>
          if !ok {
            error := Some(CreateFailed);
          } else {
            FetchSubscriptions(refetch);
          }
        case Thrown(message) =>
          error := Some(message);
      }
    }

    method UpdateSubscription(id: Id, data: Payload, reply: Reply<()>, refetch: Reply<seq<Subscription>>)
      modifies this
      ensures State() == AfterUpdate(old(State()), id, data, reply, refetch).view
      ensures sent == old(sent) + AfterUpdate(old(State()), id, data, reply, refetch).sent
    {
      sent := sent + [Update(id, data)];
      match reply {
        case Response(ok, _) =>
          if !ok {
            error := Some(UpdateFailed);
          } else {
            FetchSubscriptions(refetch);
          }
        case Thrown(message) =>
          error := Some(message);
      }
    }

    method DeleteSubscription(id: Id, reply: Reply<()>, refetch: Reply<seq<Subscription>>)
      modifies this
      ensures State() == AfterDelete(old(State()), id, reply, refetch).view
      ensures sent == old(sent) + AfterDelete(old(State()), id, reply, refetch).sent
    {
      sent := sent + [Delete(id)];
      match reply {
        case Response(ok, _) =>
          if !ok {
            error := Some(DeleteFailed);
          } else {
            FetchSubscriptions(refetch);
          }
        case Thrown(message) =>
          error := Some(message);
      }
    }

    /** The inputs that call this handler are rendered only inside the open modal. */
    method HandleInputChange(field: Field, value: string)
      requires isModalOpen
      modifies this
      ensures State() == AfterInputChange(old(State()), field, value) && sent == old(sent)
      ensures old(Tidy(State())) ==> Tidy(State())
    {
      formData := WithField(formData, field, value);
    }

    /** `parse` is `parseFloat`. */
    method HandleSubmit(parse: string -> real, reply: Reply<()>, refetch: Reply<seq<Subscription>>)
      modifies this
      ensures State() == AfterSubmit(old(State()), parse, reply, refetch).view
      ensures sent == old(sent) + AfterSubmit(old(State()), parse, reply, refetch).sent
      ensures old(Tidy(State())) ==> Tidy(State())
    {
      if Incomplete(formData) {
        error := Some(FillAllFields);
        return;
      }
      var data := ToPayload(formData, parse);
      if Truthy(editingId) {
        UpdateSubscription(editingId.value, data, reply, refetch);
        editingId := None;
      } else {
        CreateSubscription(data, reply, refetch);
      }
      formData := EmptyForm;
      isModalOpen := false;
    }

    /** `show` is `Number.prototype.toString`. */
    method HandleEdit(s: Subscription, show: real -> string)
      modifies this
      ensures State() == AfterEdit(old(State()), s, show) && sent == old(sent)
    {
      formData := DraftOf(s, show);
      editingId := Some(s.id);
      isModalOpen := true;
    }

    /** `confirmed` is the answer of `window.confirm`. */
    method HandleDelete(id: Id, confirmed: bool, reply: Reply<()>, refetch: Reply<seq<Subscription>>)
      modifies this
      ensures State() == AfterDeleteRequest(old(State()), id, confirmed, reply, refetch).view
      ensures sent == old(sent) + AfterDeleteRequest(old(State()), id, confirmed, reply, refetch).sent
    {
      if confirmed {
        DeleteSubscription(id, reply, refetch);
      }
    }

    /** The Cancel button of the modal. */
    method CancelForm()
      modifies this
      ensures State() == AfterCancel(old(State())) && sent == old(sent)
      ensures Tidy(State()) && editingId == None
    {
      isModalOpen := false;
      editingId := None;
      formData := EmptyForm;
    }

    /** The "Add Subscription" button. */
    method OpenAddForm()
      modifies this
      ensures State() == AfterOpenAdd(old(State())) && sent == old(sent)
      ensures old(Tidy(State()) && !isModalOpen) ==> formData == EmptyForm && !Truthy(editingId)
    {
      isModalOpen := true;
    }

    /** The × of the error banner. */
    method DismissError()
      modifies this
      ensures State() == AfterDismissError(old(State())) && sent == old(sent)
    {
      error := None;
    }
  }
}
