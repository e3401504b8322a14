/** Go's range over a map: every key once, in an order that the runtime picks. */
module Iteration {

  /** `order` visits each key once. */
  ghost predicate IsIterationOrder(order: seq<string>, keys: set<string>) {
    && (forall k :: k in order <==> k in keys)
    && (forall i, j | 0 <= i < j < |order| :: order[i] != order[j])
  }

  ghost function OrderOf(keys: set<string>): (order: seq<string>)
    ensures IsIterationOrder(order, keys)
  {
    if keys == {} then [] else var k :| k in keys; OrderOf(keys - {k}) + [k]
  }

  /** All keys but `todo` have been visited. */
  ghost predicate Visited(order: seq<string>, keys: set<string>, todo: set<string>) {
    todo <= keys && IsIterationOrder(order, keys - todo)
  }

  lemma VisitOne(order: seq<string>, keys: set<string>, todo: set<string>, k: string)
    requires k !in todo && Visited(order, keys, todo + {k})
    ensures Visited(order + [k], keys, todo)
  {
    assert k !in order;
    assert forall x :: x in order + [k] <==> x in order || x == k;
  }

  lemma VisitRest(order: seq<string>, keys: set<string>, todo: set<string>)
    requires Visited(order, keys, todo)
    ensures IsIterationOrder(order + OrderOf(todo), keys)
  {
    var rest := OrderOf(todo);
    forall i, j | 0 <= i < j < |order + rest| ensures (order + rest)[i] != (order + rest)[j] {
      if i < |order| <= j {
        assert order[i] in order && rest[j - |order|] in rest;
      }
    }
    assert forall x :: x in order + rest <==> x in order || x in rest;
  }

  lemma VisitNone(order: seq<string>, keys: set<string>)
    requires Visited(order, keys, {})
    ensures IsIterationOrder(order, keys)
  {
    assert keys - {} == keys;
  }
}
