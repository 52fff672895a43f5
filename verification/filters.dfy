/** Assembly of the Cost Explorer filter from the event's identity fields. */
module Filters {
  import opened Wrappers
  import opened Events
  import opened CostExplorer

  /** The Cost Explorer dimension key for an identity field. */
  function FilterKey(f: Field): string {
    match f
    case Region => "REGION"
    case Service => "SERVICE"
    case LinkedAccount => "LINKED_ACCOUNT"
  }

  /** A clause requiring dimension `key` to equal `value`. */
  function DimensionClause(key: string, value: string): Expression {
    Expression(None, Some(DimensionValues(Some(key), Some([value]))))
  }

  /**
    Appends one clause for a present field and leaves the list alone for an
    absent one.
   */
  function PushFilter(field: Option<string>, exps: seq<Expression>, key: string): (r: seq<Expression>)
    ensures field.None? ==> r == exps
    ensures field.Some? ==> |r| == |exps| + 1 && r[..|exps|] == exps
    ensures field.Some? ==> r[|exps|].dimensions == Some(DimensionValues(Some(key), Some([field.value])))
    ensures field.Some? ==> r[|exps|].and.None?
  {
    match field
    case Some(v) => exps + [DimensionClause(key, v)]
    case None => exps
  }

  /**
    The filter as `fetch_percentage` assembles it: an empty conjunction, then one
    push per identity field in declaration order. It is the reference fan-out
    turned into clauses.
   */
  function BuildFilter(e: Event): (filter: Expression)
    ensures filter.dimensions.None? && filter.and.Some?
    ensures |filter.and.value| == |PresentEntries(e)|
    ensures forall i :: 0 <= i < |PresentEntries(e)| ==>
      filter.and.value[i] == DimensionClause(FilterKey(PresentEntries(e)[i].0), PresentEntries(e)[i].1)
  {
    var exps := PushFilter(e.region, [], FilterKey(Region));
    var exps := PushFilter(e.service, exps, FilterKey(Service));
    var exps := PushFilter(e.linkedAccount, exps, FilterKey(LinkedAccount));
    Expression(Some(exps), None)
  }

  /** A clause for field `f` with value `v` is in the filter exactly when the event carries `f = v`. */
  lemma FilterClauseIffFieldPresent(e: Event, f: Field, v: string)
    ensures DimensionClause(FilterKey(f), v) in BuildFilter(e).and.value <==> FieldValue(e, f) == Some(v)
  {
  }

  /** Clauses appear in declaration order: REGION, then SERVICE, then LINKED_ACCOUNT. */
  lemma FilterClausesOrdered(e: Event, i: nat, j: nat, f: Field, g: Field)
    requires i < j < |BuildFilter(e).and.value|
    requires BuildFilter(e).and.value[i].dimensions.value.key == Some(FilterKey(f))
    requires BuildFilter(e).and.value[j].dimensions.value.key == Some(FilterKey(g))
    ensures Rank(f) < Rank(g)
  {
  }

  /** An event with no identity field yields the empty conjunction, which matches everything. */
  lemma NoIdentityFieldsEmptyFilter(e: Event)
    requires e.region.None? && e.service.None? && e.linkedAccount.None?
    ensures BuildFilter(e) == Expression(Some([]), None)
  {
  }
}
