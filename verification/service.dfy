/**
 * `SubscriptionService` (subscription-backend/.../service/SubscriptionService.java) over its repository.
 * The repository is a table from ids to stored entities, the order in which `findAll` lists the rows,
 * and the identity counter that supplies fresh ids.
 */
module Service {
  import opened Wrappers
  import opened Model

  /** No two entries of `s` are equal. */
  ghost predicate Distinct(s: seq<Id>) {
    forall i, j :: 0 <= i < j < |s| ==> s[i] != s[j]
  }

  /** `s` with every occurrence of `k` removed, the rest in order. */
  function Without(s: seq<Id>, k: Id): (r: seq<Id>)
    ensures forall x :: x in r <==> x in s && x != k
    ensures Distinct(s) ==> Distinct(r)
    decreases |s|
  {
    if |s| == 0 then []
    else
      var rest := Without(s[1..], k);
      DistinctTail(s);
      if s[0] == k then rest
      else
        DistinctCons(s[0], rest);
        [s[0]] + rest
  }

  lemma DistinctTail(s: seq<Id>)
    requires |s| > 0
    ensures Distinct(s) ==> Distinct(s[1..]) && s[0] !in s[1..]
  {
    if Distinct(s) {
      var tail := s[1..];
      forall i, j | 0 <= i < j < |tail| ensures tail[i] != tail[j] {
        assert tail[i] == s[i + 1] && tail[j] == s[j + 1];
      }
      forall i | 0 <= i < |tail| ensures tail[i] != s[0] {
        assert tail[i] == s[i + 1];
      }
    }
  }

  lemma DistinctCons(x: Id, s: seq<Id>)
    ensures Distinct(s) && x !in s ==> Distinct([x] + s)
  {
    if Distinct(s) && x !in s {
      var xs := [x] + s;
      forall i, j | 0 <= i < j < |xs| ensures xs[i] != xs[j] {
        assert xs[j] == s[j - 1];
        if i > 0 {
          assert xs[i] == s[i - 1];
        }
      }
    }
  }

  /** A list without repetitions has as many elements as the set of its elements. */
  lemma {:induction false} DistinctCardinality(s: seq<Id>)
    requires Distinct(s)
    ensures |set x | x in s| == |s|
    decreases |s|
  {
    if |s| > 0 {
      var tail := s[1..];
      DistinctTail(s);
      DistinctCardinality(tail);
      assert (set x | x in s) == {s[0]} + (set x | x in tail);
    }
  }

  /** The stored entity after `updateSubscription`: the five data fields from `details`, the id kept. */
  function Overwrite(stored: Entity, details: Entity): (r: Entity)
    ensures r.id == stored.id
    ensures r.name == details.name && r.amount == details.amount && r.billingCycle == details.billingCycle
    ensures r.nextBillingDate == details.nextBillingDate && r.category == details.category
  {
    details.(id := stored.id)
  }

  /** Applying the same details twice stores the same record as applying them once. */
  lemma OverwriteIdempotent(stored: Entity, details: Entity)
    ensures Overwrite(Overwrite(stored, details), details) == Overwrite(stored, details)
  {
  }

  /** The id is not constrained, so an overwritten record is valid exactly when the details are. */
  lemma OverwriteValidity(stored: Entity, details: Entity)
    ensures IsValid(Overwrite(stored, details)) <==> IsValid(details)
  {
  }

  // ---------------------------------------------------------------------------------------------
  // The message of the exception thrown for a missing id

  function DigitChar(d: nat): (c: char)
    requires d < 10
    ensures '0' <= c <= '9' && (c as int) - ('0' as int) == d
  {
    ['0', '1', '2', '3', '4', '5', '6', '7', '8', '9'][d]
  }

  /** Decimal digits of `n`, most significant first. */
  function Digits(n: nat): (s: string)
    ensures |s| > 0 && forall k :: 0 <= k < |s| ==> '0' <= s[k] <= '9'
    decreases n
  {
    if n < 10 then [DigitChar(n)] else Digits(n / 10) + [DigitChar(n % 10)]
  }

  /** The value of a string of decimal digits. */
  function DigitsValue(s: string): nat
    requires forall k :: 0 <= k < |s| ==> '0' <= s[k] <= '9'
    decreases |s|
  {
    if |s| == 0 then 0 else 10 * DigitsValue(s[..|s| - 1]) + ((s[|s| - 1] as int) - ('0' as int))
  }

  lemma {:induction false} DigitsRoundTrip(n: nat)
    ensures DigitsValue(Digits(n)) == n
    decreases n
  {
    if n >= 10 {
      DigitsRoundTrip(n / 10);
      var s := Digits(n);
      assert s[..|s| - 1] == Digits(n / 10);
    }
  }

  /** `Long.toString` */
  function IdText(id: Id): string {
    if id < 0 then "-" + Digits(-id) else Digits(id)
  }

  const NotFoundPrefix := "Subscription not found with id: "

  function NotFoundMessage(id: Id): string {
    NotFoundPrefix + IdText(id)
  }

  lemma {:induction false} DigitsInjective(m: nat, n: nat)
    requires Digits(m) == Digits(n)
    ensures m == n
  {
    DigitsRoundTrip(m);
    DigitsRoundTrip(n);
  }

  /** The text starts with a minus sign exactly for negative ids. */
  lemma TextSign(id: Id)
    ensures |IdText(id)| > 0 && (IdText(id)[0] == '-' <==> id < 0)
  {
    if id >= 0 {
      assert '0' <= Digits(id)[0] <= '9';
    }
  }

  lemma {:induction false} IdTextInjective(a: Id, b: Id)
    requires IdText(a) == IdText(b)
    ensures a == b
  {
    var ta, tb := IdText(a), IdText(b);
    TextSign(a);
    TextSign(b);
    if a < 0 {
      assert ta[1..] == Digits(-a) && tb[1..] == Digits(-b);
      DigitsInjective(-a, -b);
    } else {
      DigitsInjective(a, b);
    }
  }

  /** Different ids give different messages: the message names the id. */
  lemma {:induction false} NotFoundMessageNamesId(a: Id, b: Id)
    requires NotFoundMessage(a) == NotFoundMessage(b)
    ensures a == b
  {
    var p := |NotFoundPrefix|;
    assert IdText(a) == NotFoundMessage(a)[p..];
    assert IdText(b) == NotFoundMessage(b)[p..];
    IdTextInjective(a, b);
  }

  // ---------------------------------------------------------------------------------------------
  // The service

  /** How the repository hands back a stored row: a new entity, its fields filled in by the persistence provider. */
  method Load(e: Entity) returns (s: Subscriptions)
    ensures fresh(s) && s.Snapshot() == e
  {
    s := new Subscriptions.Empty();
    s.SetId(e.id);
    s.SetName(e.name);
    s.SetAmount(e.amount);
    s.SetBillingCycle(e.billingCycle);
    s.SetNextBillingDate(e.nextBillingDate);
    s.SetCategory(e.category);
  }

  class SubscriptionService {
    /** The stored rows by id. */
    var table: map<Id, Entity>
    /** The order in which `findAll` lists the rows. */
    var rows: seq<Id>
    /** The next value of the identity column. */
    var nextId: Id

    ghost predicate Valid()
      reads this
    {
      && 0 < nextId
      && Distinct(rows)
      && (forall k :: k in rows <==> k in table)
      && (forall k :: k in table ==> table[k].id == Some(k) && 0 < k < nextId)
    }

    constructor ()
      ensures Valid() && table == map[] && rows == [] && nextId == 1
    {
      table := map[];
      rows := [];
      nextId := 1;
    }

    /**
     * `subscriptionRepository.save`: an entity whose id names a stored row replaces that row;
     * any other entity is inserted under a fresh id, which is returned with it.
     */
    method Save(e: Entity) returns (saved: Entity)
      requires Valid()
      modifies this
      ensures Valid()
      ensures e.id.Some? && e.id.value in old(table) ==>
                && saved == e && table == old(table)[e.id.value := e]
                && rows == old(rows) && nextId == old(nextId)
      ensures !(e.id.Some? && e.id.value in old(table)) ==>
                && saved == e.(id := Some(old(nextId))) && old(nextId) !in old(table)
                && table == old(table)[old(nextId) := saved]
                && rows == old(rows) + [old(nextId)] && nextId == old(nextId) + 1
    {
      if e.id.Some? && e.id.value in table {
        table := table[e.id.value := e];
        saved := e;
      } else {
        saved := e.(id := Some(nextId));
        table := table[nextId := saved];
        rows := rows + [nextId];
        nextId := nextId + 1;
      }
    }

    /** `getAllSubscriptions`: every stored record exactly once. */
    method GetAllSubscriptions() returns (all: seq<Entity>)
      requires Valid()
      ensures |all| == |table|
      ensures forall e :: e in all ==> e.id.Some? && e.id.value in table && table[e.id.value] == e
      ensures forall k :: k in table ==> table[k] in all
      ensures forall i, j :: 0 <= i < j < |all| ==> all[i].id != all[j].id
    {
      var t, r := table, rows;
      forall i | 0 <= i < |rows| ensures rows[i] in table {
        assert rows[i] in rows;
      }
      assert forall i :: 0 <= i < |r| ==> r[i] in t;
      all := seq(|r|, i requires 0 <= i < |r| && r[i] in t => t[r[i]]);
      forall k | k in table ensures table[k] in all {
        var i :| 0 <= i < |r| && r[i] == k;
        assert all[i] == table[k];
      }
      DistinctCardinality(r);
      var listed := set x | x in r;
      forall x ensures x in table.Keys <==> x in listed {
        assert x in listed <==> x in rows;
      }
      assert table.Keys == listed;
    }

    /** `getSubscriptionById`: present exactly when the id is stored. */
    method GetSubscriptionById(id: Id) returns (found: Option<Entity>)
      requires Valid()
      ensures found.Some? <==> id in table
      ensures found.Some? ==> found.value == table[id] && found.value.id == Some(id)
    {
      if id in table {
        found := Some(table[id]);
      } else {
        found := None;
      }
    }

    /** `createSubscription`: a body without a stored id becomes a new row under a fresh id. */
    method CreateSubscription(subscription: Entity) returns (created: Entity)
      requires Valid()
      modifies this
      ensures Valid()
      ensures !(subscription.id.Some? && subscription.id.value in old(table)) ==>
                && created.id.Some? && created.id.value !in old(table)
                && created == subscription.(id := created.id)
                && table == old(table)[created.id.value := created]
                && rows == old(rows) + [created.id.value] && nextId == old(nextId) + 1
      ensures subscription.id.Some? && subscription.id.value in old(table) ==>
                && created == subscription && table == old(table)[subscription.id.value := subscription]
                && rows == old(rows) && nextId == old(nextId)
    {
      created := Save(subscription);
    }

    /** `updateSubscription`: a missing id throws; otherwise the five data fields are overwritten in place. */
    method UpdateSubscription(id: Id, details: Entity) returns (r: Result<Entity, string>)
      requires Valid()
      modifies this
      ensures Valid()
      ensures id !in old(table) ==> r == Failure(NotFoundMessage(id)) && table == old(table)
      ensures id in old(table) ==>
                && r == Success(Overwrite(old(table)[id], details))
                && table == old(table)[id := r.value]
      ensures rows == old(rows) && nextId == old(nextId)
    {
      var found := GetSubscriptionById(id);
      if found.None? {
        return Failure(NotFoundMessage(id));
      }
      var subscription := Load(found.value);
      subscription.SetName(details.name);
      subscription.SetAmount(details.amount);
      subscription.SetBillingCycle(details.billingCycle);
      subscription.SetNextBillingDate(details.nextBillingDate);
      subscription.SetCategory(details.category);
      var saved := Save(subscription.Snapshot());
      return Success(saved);
    }

    /** `deleteSubscription`: a missing id throws; otherwise exactly that row goes. */
    method DeleteSubscription(id: Id) returns (r: Outcome<string>)
      requires Valid()
      modifies this
      ensures Valid()
      ensures id !in old(table) ==> r == Fail(NotFoundMessage(id)) && table == old(table) && rows == old(rows)
      ensures id in old(table) ==>
                && r == Pass && table == old(table) - {id} && |table| == |old(table)| - 1
                && rows == Without(old(rows), id)
      ensures nextId == old(nextId)
    {
      var found := GetSubscriptionById(id);
      if found.None? {
        return Fail(NotFoundMessage(id));
      }
      var gone := found.value.id.value;
      table := table - {gone};
      rows := Without(rows, gone);
      return Pass;
    }
  }
}
