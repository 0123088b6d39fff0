/**
 * `SubscriptionController` (subscription-backend/.../controller/SubscriptionController.java): the five
 * endpoints of the REST resource, each mapping what the service returns or throws to a status and a body.
 * A body that fails `@Valid` is answered 400 before the endpoint runs.
 */
module Controller {
  import opened Wrappers
  import opened Model
  import opened Service

  datatype Body = NoBody | One(record: Entity) | Many(records: seq<Entity>)

  datatype Response = Response(status: int, body: Body)

  const OK := 200
  const BAD_REQUEST := 400
  const NOT_FOUND := 404

  /** Every stored record satisfies the annotations. */
  ghost predicate AllValid(table: map<Id, Entity>) {
    forall k :: k in table ==> IsValid(table[k])
  }

  class SubscriptionController {
    const service: SubscriptionService

    /** The service is consistent, and since every write passes `@Valid`, every stored record is valid. */
    ghost predicate Valid()
      reads this, service
    {
      service.Valid() && AllValid(service.table)
    }

    constructor (service: SubscriptionService)
      requires service.Valid() && AllValid(service.table)
      ensures this.service == service && Valid()
    {
      this.service := service;
    }

    /** GET on the collection: the service's full list, with status 200. */
    method GetAllSubscriptions() returns (r: Response)
      requires Valid()
      ensures r.status == OK && r.body.Many?
      ensures |r.body.records| == |service.table|
      ensures forall e :: e in r.body.records ==> e.id.Some? && e.id.value in service.table && service.table[e.id.value] == e
      ensures forall k :: k in service.table ==> service.table[k] in r.body.records
      ensures forall e :: e in r.body.records ==> IsValid(e)
    {
      var all := service.GetAllSubscriptions();
      forall e | e in all ensures IsValid(e) {
        var k := e.id.value;
        assert k in service.table && service.table[k] == e;
        assert IsValid(service.table[k]);
      }
      r := Response(OK, Many(all));
    }

    /** GET `/{id}`: 200 with the record when it is stored, 404 otherwise. */
    method GetSubscriptionById(id: Id) returns (r: Response)
      requires Valid()
      ensures id in service.table ==> r == Response(OK, One(service.table[id]))
      ensures id !in service.table ==> r == Response(NOT_FOUND, NoBody)
    {
      var found := service.GetSubscriptionById(id);
      match found {
        case Some(subscription) => r := Response(OK, One(subscription));
        case None => r := Response(NOT_FOUND, NoBody);
      }
    }

    /** POST: an invalid body never reaches the service; a valid one is saved and echoed with its id. */
    method CreateSubscription(subscription: Entity) returns (r: Response)
      requires Valid()
      modifies service
      ensures Valid()
      ensures !IsValid(subscription) ==> r == Response(BAD_REQUEST, NoBody) && unchanged(service)
      ensures IsValid(subscription) ==>
                && r.status == OK && r.body.One? && r.body.record.id.Some?
                && service.table == old(service.table)[r.body.record.id.value := r.body.record]
      ensures IsValid(subscription) && subscription.id.None? ==>
                && r.body.record.id.value !in old(service.table)
                && r.body.record == subscription.(id := r.body.record.id)
    {
      if !IsValid(subscription) {
        return Response(BAD_REQUEST, NoBody);
      }
      var created := service.CreateSubscription(subscription);
      r := Response(OK, One(created));
    }

    /** PUT `/{id}`: 200 with the updated record, 404 when the service throws for a missing id. */
    method UpdateSubscription(id: Id, subscriptionDetails: Entity) returns (r: Response)
      requires Valid()
      modifies service
      ensures Valid()
      ensures !IsValid(subscriptionDetails) ==> r == Response(BAD_REQUEST, NoBody) && unchanged(service)
      ensures IsValid(subscriptionDetails) && id !in old(service.table) ==>
                r == Response(NOT_FOUND, NoBody) && service.table == old(service.table)
      ensures IsValid(subscriptionDetails) && id in old(service.table) ==>
                && r == Response(OK, One(Overwrite(old(service.table)[id], subscriptionDetails)))
                && service.table == old(service.table)[id := r.body.record]
    {
      if !IsValid(subscriptionDetails) {
        return Response(BAD_REQUEST, NoBody);
      }
      var result := service.UpdateSubscription(id, subscriptionDetails);
      match result {
        case Success(updated) => r := Response(OK, One(updated));
        case Failure(_) => r := Response(NOT_FOUND, NoBody);
      }
    }

    /** DELETE `/{id}`: 200 with no body when the row was there, 404 otherwise. */
    method DeleteSubscription(id: Id) returns (r: Response)
      requires Valid()
      modifies service
      ensures Valid()
      ensures id in old(service.table) ==> r == Response(OK, NoBody) && service.table == old(service.table) - {id}
      ensures id !in old(service.table) ==> r == Response(NOT_FOUND, NoBody) && service.table == old(service.table)
    {
      var outcome := service.DeleteSubscription(id);
      match outcome {
        case Pass => r := Response(OK, NoBody);
        case Fail(_) => r := Response(NOT_FOUND, NoBody);
      }
    }
  }
}
