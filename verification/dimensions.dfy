/** The display-cased CloudWatch dimensions built from the event's identity fields. */
module Dimensions {
  import opened Wrappers
  import opened Events
  import opened CloudWatch

  /** The CloudWatch dimension name for an identity field. */
  function DimensionName(f: Field): string {
    match f
    case Region => "Region"
    case Service => "Service"
    case LinkedAccount => "LinkedAccount"
  }

  /** Appends one `{name, value}` pair for a present field and leaves the list alone for an absent one. */
  function PushDimension(field: Option<string>, dimensions: seq<Dimension>, name: string): (r: seq<Dimension>)
    ensures field.None? ==> r == dimensions
    ensures field.Some? ==> |r| == |dimensions| + 1 && r[..|dimensions|] == dimensions
    ensures field.Some? ==> r[|dimensions|] == Dimension(name, field.value)
  {
    match field
    case Some(v) => dimensions + [Dimension(name, v)]
    case None => dimensions
  }

  /**
    The dimensions as `put_metric_data` assembles them: one push per identity
    field in declaration order. It is the reference fan-out turned into pairs.
   */
  function BuildDimensions(e: Event): (dimensions: seq<Dimension>)
    ensures |dimensions| == |PresentEntries(e)|
    ensures forall i :: 0 <= i < |PresentEntries(e)| ==>
      dimensions[i] == Dimension(DimensionName(PresentEntries(e)[i].0), PresentEntries(e)[i].1)
  {
    var dimensions := PushDimension(e.region, [], DimensionName(Region));
    var dimensions := PushDimension(e.service, dimensions, DimensionName(Service));
    PushDimension(e.linkedAccount, dimensions, DimensionName(LinkedAccount))
  }

  /** A dimension `f = v` is attached exactly when the event carries `f = v`. */
  lemma DimensionIffFieldPresent(e: Event, f: Field, v: string)
    ensures Dimension(DimensionName(f), v) in BuildDimensions(e) <==> FieldValue(e, f) == Some(v)
  {
  }
}
