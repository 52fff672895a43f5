/**
  The invocation event and the fixed, ordered list of its three identity fields
  (region, service, linked account), from which both the query filter and the
  metric dimensions are fanned out.
 */
module Events {
  import opened Wrappers

  /** The invocation payload. Every optional field may be absent in any combination. */
  datatype Event = Event(
    region: Option<string>,
    service: Option<string>,
    linkedAccount: Option<string>,
    granularity: Option<string>,
    ceMetricType: Option<string>,
    namespace: string,
    metricName: string
  )

  /** The identity fields, in declaration order. */
  datatype Field = Region | Service | LinkedAccount

  const AllFields: seq<Field> := [Region, Service, LinkedAccount]

  /** Position of a field in declaration order. */
  function Rank(f: Field): nat {
    match f
    case Region => 0
    case Service => 1
    case LinkedAccount => 2
  }

  function FieldValue(e: Event, f: Field): Option<string> {
    match f
    case Region => e.region
    case Service => e.service
    case LinkedAccount => e.linkedAccount
  }

  /** Fields listed in strictly increasing declaration order. */
  predicate FieldsOrdered(fields: seq<Field>) {
    forall i, j :: 0 <= i < j < |fields| ==> Rank(fields[i]) < Rank(fields[j])
  }

  /** Field/value pairs listed in strictly increasing declaration order of their field. */
  predicate EntriesOrdered(entries: seq<(Field, string)>) {
    forall i, j :: 0 <= i < j < |entries| ==> Rank(entries[i].0) < Rank(entries[j].0)
  }

  /** The present fields among `fields`, each paired with its value, in the order of `fields`. */
  function PresentAmong(e: Event, fields: seq<Field>): seq<(Field, string)>
    decreases |fields|
  {
    if |fields| == 0 then []
    else
      var rest := PresentAmong(e, fields[1..]);
      match FieldValue(e, fields[0])
      case Some(v) => [(fields[0], v)] + rest
      case None => rest
  }

  /**
    The reference fan-out: every present identity field with its value, in
    declaration order. Filter clauses and metric dimensions are both built from it.
   */
  function PresentEntries(e: Event): seq<(Field, string)> {
    PresentAmong(e, AllFields)
  }

  lemma {:induction false} PresentAmongMembership(e: Event, fields: seq<Field>, f: Field, v: string)
    ensures (f, v) in PresentAmong(e, fields) <==> f in fields && FieldValue(e, f) == Some(v)
    decreases |fields|
  {
    if |fields| > 0 {
      PresentAmongMembership(e, fields[1..], f, v);
      assert fields == [fields[0]] + fields[1..];
    }
  }

  lemma {:induction false} PresentAmongOrdered(e: Event, fields: seq<Field>)
    requires FieldsOrdered(fields)
    ensures EntriesOrdered(PresentAmong(e, fields))
    decreases |fields|
  {
    if |fields| > 0 {
      var tail := fields[1..];
      PresentAmongOrdered(e, tail);
      var rest := PresentAmong(e, tail);
      forall k | 0 <= k < |rest|
        ensures Rank(fields[0]) < Rank(rest[k].0)
      {
        assert rest[k] in rest;
        PresentAmongMembership(e, tail, rest[k].0, rest[k].1);
        var j :| 0 <= j < |tail| && tail[j] == rest[k].0;
        assert fields[j + 1] == rest[k].0;
      }
    }
  }

  /**
    The fan-out holds exactly the present fields, each with its own value, once
    each and in declaration order.
   */
  lemma PresentEntriesExact(e: Event)
    ensures forall f, v :: (f, v) in PresentEntries(e) <==> FieldValue(e, f) == Some(v)
    ensures EntriesOrdered(PresentEntries(e))
  {
    forall f, v
      ensures (f, v) in PresentEntries(e) <==> FieldValue(e, f) == Some(v)
    {
      PresentAmongMembership(e, AllFields, f, v);
      assert AllFields[Rank(f)] == f;
    }
    PresentAmongOrdered(e, AllFields);
  }

  /** With no identity field present the fan-out is empty, and only then. */
  lemma NoIdentityFieldsNoEntries(e: Event)
    ensures PresentEntries(e) == [] <==> e.region.None? && e.service.None? && e.linkedAccount.None?
  {
  }
}
