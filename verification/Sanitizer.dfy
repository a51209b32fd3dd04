/** The outcome sanitiser of the agent session (backend/agents/session.py, `_sanitized_outcome`). */
module Sanitizer {
  import opened Common
  import opened Json
  import opened Privacy

  const MAX_DEPTH: nat := 8
  const MAX_CHILDREN: nat := 200
  const MAX_TEXT: nat := 2000

  function SanitizedOutcome(repr: Value -> string, v: Value, depth: nat): Value
    decreases if depth < MAX_DEPTH then MAX_DEPTH - depth else 0
  {
    if depth >= MAX_DEPTH then Null
    else match v
      case Obj(fields) => Obj(SanitizedFields(repr, Take(fields, MAX_CHILDREN), depth))
      case Arr(items) => Arr(SanitizedItems(repr, Take(items, MAX_CHILDREN), depth))
      case Str(s) => Str(Take(s, MAX_TEXT))
      case Other(t) => Str(Take(t, MAX_TEXT))
      case _ => v
  }

  function SanitizedFields(repr: Value -> string, fields: seq<(Key, Value)>, depth: nat)
    : (r: seq<(Key, Value)>)
    requires depth < MAX_DEPTH
    ensures |r| == |fields|
    ensures forall i :: 0 <= i < |r| ==>
      r[i] == (fields[i].0, SanitizedOutcome(repr, MaskValue(repr, fields[i].0, fields[i].1), depth + 1))
    decreases MAX_DEPTH - depth, |fields|
  {
    if fields == [] then []
    else
      [(fields[0].0, SanitizedOutcome(repr, MaskValue(repr, fields[0].0, fields[0].1), depth + 1))]
      + SanitizedFields(repr, fields[1..], depth)
  }

  function SanitizedItems(repr: Value -> string, items: seq<Value>, depth: nat): (r: seq<Value>)
    requires depth < MAX_DEPTH
    ensures |r| == |items|
    ensures forall i :: 0 <= i < |r| ==> r[i] == SanitizedOutcome(repr, items[i], depth + 1)
    decreases MAX_DEPTH - depth, |items|
  {
    if items == [] then []
    else [SanitizedOutcome(repr, items[0], depth + 1)] + SanitizedItems(repr, items[1..], depth)
  }

  /** Sanitising does not raise: nowhere it looks does an odd key carry a value. */
  predicate Maskable(repr: Value -> string, v: Value, depth: nat)
    decreases if depth < MAX_DEPTH then MAX_DEPTH - depth else 0
  {
    if depth >= MAX_DEPTH then true
    else match v
      case Obj(fields) =>
        forall i :: 0 <= i < |fields| && i < MAX_CHILDREN ==>
          && (fields[i].0.Odd? ==> fields[i].1.Null?)
          && Maskable(repr, MaskValue(repr, fields[i].0, fields[i].1), depth + 1)
      case Arr(items) =>
        forall i :: 0 <= i < |items| && i < MAX_CHILDREN ==> Maskable(repr, items[i], depth + 1)
      case _ => true
  }

  /** At most `fuel` levels, 200 children a node, 2000 characters a string, JSON leaves only. */
  predicate Bounded(v: Value, fuel: nat)
    decreases fuel
  {
    if fuel == 0 then v.Null?
    else match v
      case Obj(fields) =>
        |fields| <= MAX_CHILDREN && forall i :: 0 <= i < |fields| ==> Bounded(fields[i].1, fuel - 1)
      case Arr(items) =>
        |items| <= MAX_CHILDREN && forall i :: 0 <= i < |items| ==> Bounded(items[i], fuel - 1)
      case Str(s) => |s| <= MAX_TEXT
      case Other(_) => false
      case _ => true
  }

  /** No field anywhere in the tree carries a value that masking would still change. */
  predicate Masked(repr: Value -> string, v: Value)
    decreases v
  {
    match v
    case Obj(fields) =>
      forall i :: 0 <= i < |fields| ==>
        MaskValue(repr, fields[i].0, fields[i].1) == fields[i].1 && Masked(repr, fields[i].1)
    case Arr(items) => forall i :: 0 <= i < |items| ==> Masked(repr, items[i])
    case _ => true
  }

  /** What masking made of a field survives sanitising as a value masking leaves alone. */
  lemma MaskedFieldSettles(repr: Value -> string, key: Key, x: Value, depth: nat)
    ensures var y := SanitizedOutcome(repr, MaskValue(repr, key, x), depth);
      MaskValue(repr, key, y) == y
  {
    if !x.Null? && !KeyCategory(key).Plain? && depth < MAX_DEPTH {
      MaskTextSettles(KeyCategory(key), PyStr(repr, x), MAX_TEXT);
    }
  }

  lemma {:induction false} OutcomeIsBounded(repr: Value -> string, v: Value, depth: nat)
    requires depth <= MAX_DEPTH
    ensures Bounded(SanitizedOutcome(repr, v, depth), MAX_DEPTH - depth)
    decreases MAX_DEPTH - depth, 1
  {
    if depth < MAX_DEPTH {
      match v
      case Obj(fields) => FieldsAreBounded(repr, Take(fields, MAX_CHILDREN), depth);
      case Arr(items) => ItemsAreBounded(repr, Take(items, MAX_CHILDREN), depth);
      case _ =>
    }
  }

  lemma {:induction false} FieldsAreBounded(repr: Value -> string, fields: seq<(Key, Value)>, depth: nat)
    requires depth < MAX_DEPTH && |fields| <= MAX_CHILDREN
    ensures Bounded(Obj(SanitizedFields(repr, fields, depth)), MAX_DEPTH - depth)
    decreases MAX_DEPTH - depth, 0
  {
    hide SanitizedOutcome;
    hide SanitizedFields;
    hide SanitizedItems;
    hide MaskValue;
    forall i | 0 <= i < |fields|
      ensures Bounded(SanitizedOutcome(repr, MaskValue(repr, fields[i].0, fields[i].1), depth + 1),
                      MAX_DEPTH - depth - 1)
    {
      OutcomeIsBounded(repr, MaskValue(repr, fields[i].0, fields[i].1), depth + 1);
    }
  }

  lemma {:induction false} ItemsAreBounded(repr: Value -> string, items: seq<Value>, depth: nat)
    requires depth < MAX_DEPTH && |items| <= MAX_CHILDREN
    ensures Bounded(Arr(SanitizedItems(repr, items, depth)), MAX_DEPTH - depth)
    decreases MAX_DEPTH - depth, 0
  {
    hide SanitizedOutcome;
    hide SanitizedFields;
    hide SanitizedItems;
    hide MaskValue;
    forall i | 0 <= i < |items|
      ensures Bounded(SanitizedOutcome(repr, items[i], depth + 1), MAX_DEPTH - depth - 1)
    {
      OutcomeIsBounded(repr, items[i], depth + 1);
    }
  }

  lemma {:induction false} OutcomeIsMasked(repr: Value -> string, v: Value, depth: nat)
    requires depth <= MAX_DEPTH
    ensures Masked(repr, SanitizedOutcome(repr, v, depth))
    decreases MAX_DEPTH - depth, 1
  {
    if depth < MAX_DEPTH {
      match v
      case Obj(fields) => FieldsAreMasked(repr, Take(fields, MAX_CHILDREN), depth);
      case Arr(items) => ItemsAreMasked(repr, Take(items, MAX_CHILDREN), depth);
      case _ =>
    }
  }

  lemma {:induction false} ItemsAreMasked(repr: Value -> string, items: seq<Value>, depth: nat)
    requires depth < MAX_DEPTH
    ensures Masked(repr, Arr(SanitizedItems(repr, items, depth)))
    decreases MAX_DEPTH - depth, 0
  {
    forall i | 0 <= i < |items| ensures Masked(repr, SanitizedOutcome(repr, items[i], depth + 1)) {
      OutcomeIsMasked(repr, items[i], depth + 1);
    }
  }

  lemma {:induction false} FieldsAreMasked(repr: Value -> string, fields: seq<(Key, Value)>, depth: nat)
    requires depth < MAX_DEPTH
    ensures Masked(repr, Obj(SanitizedFields(repr, fields, depth)))
    decreases MAX_DEPTH - depth, 0
  {
    forall i | 0 <= i < |fields|
      ensures var y := SanitizedOutcome(repr, MaskValue(repr, fields[i].0, fields[i].1), depth + 1);
        MaskValue(repr, fields[i].0, y) == y && Masked(repr, y)
    {
      MaskedFieldSettles(repr, fields[i].0, fields[i].1, depth + 1);
      OutcomeIsMasked(repr, MaskValue(repr, fields[i].0, fields[i].1), depth + 1);
    }
  }

  /**
   * Whatever the executor returned, if sanitising it does not raise, what is stored is bounded and
   * masked at every level.
   */
  lemma OutcomeIsBoundedAndMasked(repr: Value -> string, v: Value, depth: nat)
    requires depth <= MAX_DEPTH
    ensures Bounded(SanitizedOutcome(repr, v, depth), MAX_DEPTH - depth)
    ensures Masked(repr, SanitizedOutcome(repr, v, depth))
  {
    OutcomeIsBounded(repr, v, depth);
    OutcomeIsMasked(repr, v, depth);
  }

  /** The sanitiser's fixed points are exactly the bounded, masked trees. */
  lemma FixedPoints(repr: Value -> string, v: Value, depth: nat)
    requires depth <= MAX_DEPTH
    ensures SanitizedOutcome(repr, v, depth) == v
      <==> Bounded(v, MAX_DEPTH - depth) && Masked(repr, v)
  {
    hide Bounded;
    hide Masked;
    hide SanitizedOutcome;
    if SanitizedOutcome(repr, v, depth) == v {
      OutcomeIsBoundedAndMasked(repr, v, depth);
    }
    if Bounded(v, MAX_DEPTH - depth) && Masked(repr, v) {
      CleanIsUnchanged(repr, v, depth);
    }
  }

  lemma {:induction false} CleanIsUnchanged(repr: Value -> string, v: Value, depth: nat)
    requires depth <= MAX_DEPTH
    requires Bounded(v, MAX_DEPTH - depth) && Masked(repr, v)
    ensures SanitizedOutcome(repr, v, depth) == v
    decreases MAX_DEPTH - depth
  {
    if depth < MAX_DEPTH {
      match v
      case Obj(fields) =>
        var out := SanitizedFields(repr, fields, depth);
        forall i | 0 <= i < |fields| ensures out[i] == fields[i] {
          CleanIsUnchanged(repr, fields[i].1, depth + 1);
        }
        assert out == fields;
      case Arr(items) =>
        var out := SanitizedItems(repr, items, depth);
        forall i | 0 <= i < |items| ensures out[i] == items[i] {
          CleanIsUnchanged(repr, items[i], depth + 1);
        }
        assert out == items;
      case _ =>
    }
  }

  /** Sanitising twice is sanitising once: the model is shown exactly what was stored. */
  lemma SanitizedTwice(repr: Value -> string, v: Value)
    ensures SanitizedOutcome(repr, SanitizedOutcome(repr, v, 0), 0) == SanitizedOutcome(repr, v, 0)
  {
    OutcomeIsBoundedAndMasked(repr, v, 0);
    FixedPoints(repr, SanitizedOutcome(repr, v, 0), 0);
  }

  /** Nor does the second pass raise. */
  lemma {:induction false} SanitizedIsMaskable(repr: Value -> string, v: Value, depth: nat)
    requires Maskable(repr, v, depth)
    ensures Maskable(repr, SanitizedOutcome(repr, v, depth), depth)
    decreases if depth < MAX_DEPTH then MAX_DEPTH - depth else 0
  {
    if depth < MAX_DEPTH {
      match v
      case Obj(fields) =>
        var kept := Take(fields, MAX_CHILDREN);
        forall i | 0 <= i < |kept|
          ensures
            var child := SanitizedOutcome(repr, MaskValue(repr, kept[i].0, kept[i].1), depth + 1);
            (kept[i].0.Odd? ==> child.Null?) && Maskable(repr, MaskValue(repr, kept[i].0, child), depth + 1)
        {
          assert kept[i] == fields[i];
          SanitizedIsMaskable(repr, MaskValue(repr, kept[i].0, kept[i].1), depth + 1);
          MaskedFieldSettles(repr, kept[i].0, kept[i].1, depth + 1);
        }
      case Arr(items) =>
        forall i | 0 <= i < |items| && i < MAX_CHILDREN
          ensures Maskable(repr, SanitizedOutcome(repr, items[i], depth + 1), depth + 1)
        {
          SanitizedIsMaskable(repr, items[i], depth + 1);
        }
      case _ =>
    }
  }

  /** Every key in the tree is a string. */
  predicate NamedThroughout(v: Value)
    decreases v
  {
    match v
    case Obj(fields) => forall i :: 0 <= i < |fields| ==> fields[i].0.Name? && NamedThroughout(fields[i].1)
    case Arr(items) => forall i :: 0 <= i < |items| ==> NamedThroughout(items[i])
    case _ => true
  }

  /** Sanitising never raises on a tree whose keys are strings. */
  lemma {:induction false} NamedIsMaskable(repr: Value -> string, v: Value, depth: nat)
    requires NamedThroughout(v)
    ensures Maskable(repr, v, depth)
    decreases if depth < MAX_DEPTH then MAX_DEPTH - depth else 0
  {
    if depth < MAX_DEPTH {
      match v
      case Obj(fields) =>
        forall i | 0 <= i < |fields| && i < MAX_CHILDREN
          ensures Maskable(repr, MaskValue(repr, fields[i].0, fields[i].1), depth + 1)
        {
          NamedIsMaskable(repr, MaskValue(repr, fields[i].0, fields[i].1), depth + 1);
        }
      case Arr(items) =>
        forall i | 0 <= i < |items| && i < MAX_CHILDREN ensures Maskable(repr, items[i], depth + 1) {
          NamedIsMaskable(repr, items[i], depth + 1);
        }
      case _ =>
    }
  }

  /** Nor does it look beyond the first 200 children, or below the eighth level. */
  lemma BeyondTheCutIsNotSeen(repr: Value -> string, fields: seq<(Key, Value)>, items: seq<Value>, v: Value, depth: nat)
    ensures Maskable(repr, Obj(fields), depth) <==> Maskable(repr, Obj(Take(fields, 200)), depth)
    ensures Maskable(repr, Arr(items), depth) <==> Maskable(repr, Arr(Take(items, 200)), depth)
    ensures depth >= 8 ==> Maskable(repr, v, depth)
  {
    hide MaskValue;
  }
}
