/**
 * The `Subscriptions` JPA entity (subscription-backend/.../model/Subscriptions.java): its fields,
 * its constructors and setters, and the validity predicate its bean-validation annotations define.
 * Java's nullable references are `Option`s; `Double` is an exact `real`.
 */
module Model {
  import opened Wrappers

  /** The `Long` primary key. */
  type Id = int

  /** A `java.time.LocalDate`. */
  datatype Date = Date(year: int, month: int, day: int)

  /** The entity's six fields, as a value. */
  datatype Entity = Entity(
    id: Option<Id>,
    name: Option<string>,
    amount: Option<real>,
    billingCycle: Option<string>,
    nextBillingDate: Option<Date>,
    category: Option<string>)

  /** The alternatives of `@Pattern(regexp = "Monthly|Yearly|Weekly")`. */
  const BillingCycles: set<string> := {"Monthly", "Yearly", "Weekly"}

  const MaxNameLength := 100
  const MaxCategoryLength := 50

  // ---------------------------------------------------------------------------------------------
  // The constraint annotations, one predicate each

  /** `String.length()`: the number of UTF-16 code units. */
  function Utf16Length(s: string): (n: nat)
    ensures |s| <= n <= 2 * |s|
    decreases |s|
  {
    if |s| == 0 then 0 else (if s[0] <= '\U{FFFF}' then 1 else 2) + Utf16Length(s[1..])
  }

  /** What `String.trim()` removes: every character up to U+0020. */
  predicate Trimmed(c: char) {
    c <= ' '
  }

  /** `@NotBlank`: not null, and something is left after trimming. */
  predicate NotBlank(s: Option<string>) {
    s.Some? && exists k :: 0 <= k < |s.value| && !Trimmed(s.value[k])
  }

  /** `@Size(max = ...)` on a string; null passes. */
  predicate SizeAtMost(s: Option<string>, max: nat) {
    s.None? || Utf16Length(s.value) <= max
  }

  /** `@NotNull` */
  predicate NotNull<T>(x: Option<T>) {
    x.Some?
  }

  /** `@Positive`; null passes. */
  predicate Positive(x: Option<real>) {
    x.None? || x.value > 0.0
  }

  /** `@Pattern`, which must match the whole string; null passes. */
  predicate MatchesCycle(s: Option<string>) {
    s.None? || s.value in BillingCycles
  }

  /** What `@Valid` checks of a request body: the conjunction of the field annotations. */
  predicate IsValid(e: Entity) {
    && NotBlank(e.name) && SizeAtMost(e.name, MaxNameLength)
    && NotNull(e.amount) && Positive(e.amount)
    && NotBlank(e.billingCycle) && MatchesCycle(e.billingCycle)
    && NotNull(e.nextBillingDate)
    && NotBlank(e.category) && SizeAtMost(e.category, MaxCategoryLength)
  }

  /** Is every character of `s` removed by `trim()`? */
  predicate Blank(s: string) {
    forall k :: 0 <= k < |s| ==> Trimmed(s[k])
  }

  /**
   * The annotations in closed form, field by field. `@NotBlank` on the billing cycle adds nothing to
   * `@Pattern`: none of the three names is blank. The id is not constrained.
   */
  lemma ValidIff(e: Entity)
    ensures IsValid(e) <==>
      && e.name.Some? && !Blank(e.name.value) && Utf16Length(e.name.value) <= 100
      && e.amount.Some? && e.amount.value > 0.0
      && e.billingCycle.Some? && e.billingCycle.value in {"Monthly", "Yearly", "Weekly"}
      && e.nextBillingDate.Some?
      && e.category.Some? && !Blank(e.category.value) && Utf16Length(e.category.value) <= 50
  {
    if e.billingCycle.Some? && e.billingCycle.value in BillingCycles {
      var c := e.billingCycle.value;
      assert !Trimmed(c[0]) by {
        assert c == "Monthly" || c == "Yearly" || c == "Weekly";
      }
    }
  }

  /** A valid name or category is non-empty and within its limit also when counted in characters. */
  lemma ValidTextLengths(e: Entity)
    requires IsValid(e)
    ensures 1 <= |e.name.value| <= 100
    ensures 1 <= |e.category.value| <= 50
  {
  }

  /** Fifty-one characters outside the Basic Multilingual Plane make a name too long: `@Size` counts UTF-16 units. */
  lemma SizeCountsCodeUnits(s: string)
    requires |s| == 51 && forall k :: 0 <= k < |s| ==> s[k] > '\U{FFFF}'
    ensures !SizeAtMost(Some(s), MaxNameLength) && Utf16Length(s) == 102
  {
    SurrogatePairs(s);
  }

  lemma {:induction false} SurrogatePairs(s: string)
    requires forall k :: 0 <= k < |s| ==> s[k] > '\U{FFFF}'
    ensures Utf16Length(s) == 2 * |s|
    decreases |s|
  {
    if |s| > 0 {
      SurrogatePairs(s[1..]);
    }
  }

  // ---------------------------------------------------------------------------------------------
  // The entity object

  class Subscriptions {
    var id: Option<Id>
    var name: Option<string>
    var amount: Option<real>
    var billingCycle: Option<string>
    var nextBillingDate: Option<Date>
    var category: Option<string>

    function Snapshot(): Entity
      reads this
    {
      Entity(id, name, amount, billingCycle, nextBillingDate, category)
    }

    /** The no-argument constructor JPA and JSON binding use: every field null. */
    constructor Empty()
      ensures Snapshot() == Entity(None, None, None, None, None, None)
    {
      id, name, amount, billingCycle, nextBillingDate, category := None, None, None, None, None, None;
    }

    /** The five data fields are set; the id is left for the store to generate. */
    constructor (name: Option<string>, amount: Option<real>, billingCycle: Option<string>,
                 nextBillingDate: Option<Date>, category: Option<string>)
      ensures Snapshot() == Entity(None, name, amount, billingCycle, nextBillingDate, category)
    {
      this.id := None;
      this.name := name;
      this.amount := amount;
      this.billingCycle := billingCycle;
      this.nextBillingDate := nextBillingDate;
      this.category := category;
    }

    method SetId(v: Option<Id>)
      modifies this
      ensures Snapshot() == old(Snapshot()).(id := v)
    {
      id := v;
    }

    method SetName(v: Option<string>)
      modifies this
      ensures Snapshot() == old(Snapshot()).(name := v)
    {
      name := v;
    }

    method SetAmount(v: Option<real>)
      modifies this
      ensures Snapshot() == old(Snapshot()).(amount := v)
    {
      amount := v;
    }

    method SetBillingCycle(v: Option<string>)
      modifies this
      ensures Snapshot() == old(Snapshot()).(billingCycle := v)
    {
      billingCycle := v;
    }

    method SetNextBillingDate(v: Option<Date>)
      modifies this
      ensures Snapshot() == old(Snapshot()).(nextBillingDate := v)
    {
      nextBillingDate := v;
    }

    method SetCategory(v: Option<string>)
      modifies this
      ensures Snapshot() == old(Snapshot()).(category := v)
    {
      category := v;
    }
  }
}
