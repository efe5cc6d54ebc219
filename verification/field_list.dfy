/**
  The list of `product.product` fields the point-of-sale client loads.
  The module extends the field list inherited from the parent model with
  the two fields the client needs to tell storable products from the others,
  appending each one only when it is not already there.
*/
module FieldList {

  /** The fields appended, in the order they are appended. */
  const Extras: seq<string> := ["type", "is_storable"]

  /** No element occurs twice. */
  predicate Distinct<T(==)>(s: seq<T>) {
    forall i, j :: 0 <= i < j < |s| ==> s[i] != s[j]
  }

  /** One step of the loop: append `extra` unless the list already has it. */
  function AppendIfAbsent(fields: seq<string>, extra: string): (r: seq<string>)
    ensures extra in r
    ensures |r| >= |fields| && r[..|fields|] == fields
    ensures extra in fields ==> r == fields
    ensures extra !in fields ==> |r| == |fields| + 1 && r[|fields|] == extra
  {
    if extra in fields then fields else fields + [extra]
  }

  /**
    Append every element of `extras` that is not yet present, in order,
    testing membership against the list as it grows.
  */
  function Extend(fields: seq<string>, extras: seq<string>): (r: seq<string>)
    // the parent's list is kept, in order, as a prefix
    ensures |r| >= |fields| && r[..|fields|] == fields
    // nothing but the extras is added, and every extra ends up present
    ensures forall x :: x in r <==> x in fields || x in extras
    // the appended part repeats nothing, neither itself nor the parent list
    ensures forall i :: |fields| <= i < |r| ==> r[i] !in fields
    ensures forall i, j :: |fields| <= i < j < |r| ==> r[i] != r[j]
    decreases |extras|
  {
    if |extras| == 0 then fields
    else Extend(AppendIfAbsent(fields, extras[0]), extras[1..])
  }

  /** The extended field list sent to the point-of-sale client. */
  function LoadPosDataFields(parent: seq<string>): (r: seq<string>)
    ensures |r| >= |parent| && r[..|parent|] == parent
    ensures "type" in r && "is_storable" in r
    ensures forall x :: x in r <==> x in parent || x in Extras
  {
    Extend(parent, Extras)
  }

  /** Reference definition: the extras absent from `fields`, in their own order. */
  function Missing(fields: seq<string>, extras: seq<string>): seq<string>
  {
    if |extras| == 0 then []
    else if extras[0] in fields then Missing(fields, extras[1..])
    else [extras[0]] + Missing(fields, extras[1..])
  }

  lemma {:induction false} MissingSkipsPresent(fields: seq<string>, x: string, extras: seq<string>)
    requires x !in extras
    ensures Missing(fields + [x], extras) == Missing(fields, extras)
    decreases |extras|
  {
    if |extras| > 0 {
      assert extras[0] != x;
      assert extras[0] in fields + [x] <==> extras[0] in fields;
      MissingSkipsPresent(fields, x, extras[1..]);
    }
  }

  /**
    With distinct extras, growing the list while looping is the same as
    appending, in one go, the extras that were missing from the start.
  */
  lemma {:induction false} ExtendIsAppendMissing(fields: seq<string>, extras: seq<string>)
    requires Distinct(extras)
    ensures Extend(fields, extras) == fields + Missing(fields, extras)
    decreases |extras|
  {
    if |extras| > 0 {
      var e, rest := extras[0], extras[1..];
      DistinctTail(extras);
      var grown := AppendIfAbsent(fields, e);
      assert Extend(fields, extras) == Extend(grown, rest);
      ExtendIsAppendMissing(grown, rest);
      if e in fields {
        assert Missing(fields, extras) == Missing(fields, rest);
      } else {
        MissingSkipsPresent(fields, e, rest);
        assert grown == fields + [e];
        assert Missing(fields, extras) == [e] + Missing(fields, rest);
        assert (fields + [e]) + Missing(fields, rest) == fields + ([e] + Missing(fields, rest));
      }
    }
  }

  /** The tail of a distinct list is distinct and does not hold its head. */
  lemma DistinctTail(extras: seq<string>)
    requires |extras| > 0 && Distinct(extras)
    ensures Distinct(extras[1..]) && extras[0] !in extras[1..]
  {
  }

  /** The result grows by exactly one entry per missing extra. */
  lemma LoadPosDataFieldsLength(parent: seq<string>)
    ensures |LoadPosDataFields(parent)|
            == |parent| + (if "type" in parent then 0 else 1) + (if "is_storable" in parent then 0 else 1)
  {
    ExtendIsAppendMissing(parent, Extras);
    assert Extras[1..][1..] == [];
  }

  /** A list that has every extra already is returned unchanged. */
  lemma {:induction false} ExtendNoOpWhenPresent(fields: seq<string>, extras: seq<string>)
    requires forall x :: x in extras ==> x in fields
    ensures Extend(fields, extras) == fields
    decreases |extras|
  {
    if |extras| > 0 {
      assert extras[0] in fields;
      assert forall x :: x in extras[1..] ==> x in extras;
      ExtendNoOpWhenPresent(fields, extras[1..]);
    }
  }

  /** Extending twice is the same as extending once. */
  lemma ExtendIdempotent(fields: seq<string>, extras: seq<string>)
    ensures Extend(Extend(fields, extras), extras) == Extend(fields, extras)
  {
    ExtendNoOpWhenPresent(Extend(fields, extras), extras);
  }

  /** A parent list without duplicates yields a result without duplicates. */
  lemma ExtendKeepsDistinct(fields: seq<string>, extras: seq<string>)
    requires Distinct(fields)
    ensures Distinct(Extend(fields, extras))
  {
  }
}
