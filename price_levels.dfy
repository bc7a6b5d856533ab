/**
 * The ladder engine's `bid_prices` and `ask_prices`: Python dicts from a price to the id of the
 * order resting there. A dict keeps its keys in insertion order, and the engine iterates over
 * them in that order, so the model keeps the order next to the mapping.
 */
module PriceLevels {
  import opened Lists

  datatype Levels = Levels(order: seq<int>, ids: map<int, int>)

  const EMPTY := Levels([], map[])

  /** The order lists every key exactly once. */
  ghost predicate Valid(l: Levels)
  {
    Distinct(l.order) && (forall p :: p in l.order <==> p in l.ids)
  }

  lemma EmptyValid()
    ensures Valid(EMPTY)
  {
  }

  /** `d[p] = id`: a new key goes last; an existing key keeps its place and gets the new id. */
  function Put(l: Levels, p: int, id: int): (r: Levels)
    ensures Valid(l) ==> Valid(r)
    ensures p in r.ids && r.ids[p] == id
    ensures r.ids.Keys == l.ids.Keys + {p}
    ensures forall q :: q in l.ids && q != p ==> r.ids[q] == l.ids[q]
    ensures p in l.ids ==> r.order == l.order
    ensures p !in l.ids ==> r.order == l.order + [p]
  {
    if p in l.ids then Levels(l.order, l.ids[p := id]) else Levels(l.order + [p], l.ids[p := id])
  }

  /** `d.pop(p, 0)`: drops the key if present, keeping the others in their order. */
  function Pop(l: Levels, p: int): (r: Levels)
    ensures Valid(l) ==> Valid(r)
    ensures r.ids.Keys == l.ids.Keys - {p}
    ensures forall q :: q in r.ids ==> r.ids[q] == l.ids[q]
    ensures p !in l.ids ==> r == l
    ensures p in l.ids ==> r.order == Missing(l.order, [p])
  {
    if p in l.ids then
      var r := Levels(Missing(l.order, [p]), l.ids - {p});
      assert Valid(l) ==> Valid(r) by {
        if Valid(l) {
          MissingDistinct(l.order, [p]);
        }
      }
      r
    else l
  }

  /** The ids resting at the given prices, in the order of the prices. */
  function IdsAt(l: Levels, prices: seq<int>): (r: seq<int>)
    requires forall p :: p in prices ==> p in l.ids
    ensures |r| == |prices|
    ensures forall i :: 0 <= i < |r| ==> prices[i] in l.ids && r[i] == l.ids[prices[i]]
  {
    if prices == [] then []
    else
      var p0 := prices[0];
      assert p0 in prices;
      [l.ids[p0]] + IdsAt(l, prices[1..])
  }

  lemma IdsAtSnoc(l: Levels, prices: seq<int>, p: int)
    requires forall q :: q in prices ==> q in l.ids
    requires p in l.ids
    ensures IdsAt(l, prices + [p]) == IdsAt(l, prices) + [l.ids[p]]
  {
    assert forall q :: q in prices + [p] ==> q in l.ids;
  }

  /** One more tracked price is cancelled exactly when it is not a target. */
  lemma CancelsStep(levels: Levels, targets: seq<int>, seen: seq<int>, price: int)
    requires forall p :: p in seen ==> p in levels.ids
    requires price in levels.ids
    ensures forall p :: p in seen + [price] ==> p in levels.ids
    ensures IdsAt(levels, Missing(seen + [price], targets)) ==
            IdsAt(levels, Missing(seen, targets)) + (if price in targets then [] else [levels.ids[price]])
  {
    MissingAppend(seen, [price], targets);
    assert Missing([price], targets) == if price in targets then [] else [price];
    if price !in targets {
      IdsAtSnoc(levels, Missing(seen, targets), price);
    } else {
      assert Missing(seen, targets) + [] == Missing(seen, targets);
    }
  }

  /** While `price` is unseen, its count among what is left equals its count among the targets. */
  lemma RemainingStep(targets: seq<int>, seen: seq<int>, remaining: seq<int>, price: int)
    requires price !in seen
    requires multiset(remaining) == multiset(targets) - multiset(seen)
    ensures price in remaining <==> price in targets
    ensures price in remaining ==> multiset(RemoveFirst(remaining, price)) == multiset(targets) - multiset(seen + [price])
    ensures price !in remaining ==> multiset(remaining) == multiset(targets) - multiset(seen + [price])
  {
    assert multiset(seen + [price]) == multiset(seen) + multiset{price};
    assert multiset(seen)[price] == 0;
    assert multiset(remaining)[price] == multiset(targets)[price];
    MultisetStrike(multiset(targets), multiset(seen), price);
  }

  /** What the reconciliation loop knows after the tracked prices `seen`. */
  ghost predicate Reconciled(levels: Levels, targets: seq<int>, seen: seq<int>, remaining: seq<int>, cancels: seq<int>)
  {
    (forall p :: p in seen ==> p in levels.ids) &&
    cancels == IdsAt(levels, Missing(seen, targets)) &&
    multiset(remaining) == multiset(targets) - multiset(seen) &&
    (Distinct(targets) ==> remaining == Missing(targets, seen))
  }

  /** One more tracked price: struck off the targets if it is one, cancelled otherwise. */
  lemma ReconcileStep(levels: Levels, targets: seq<int>, seen: seq<int>, remaining: seq<int>, cancels: seq<int>,
                      price: int)
    requires Reconciled(levels, targets, seen, remaining, cancels)
    requires price in levels.ids && price !in seen
    ensures price in remaining ==> Reconciled(levels, targets, seen + [price], RemoveFirst(remaining, price), cancels)
    ensures price !in remaining ==>
              Reconciled(levels, targets, seen + [price], remaining, cancels + [levels.ids[price]])
  {
    CancelsStep(levels, targets, seen, price);
    RemainingStep(targets, seen, remaining, price);
    if Distinct(targets) {
      if price in remaining {
        RemoveFirstMissing(targets, seen, price);
      } else {
        MissingIgnores(targets, seen, price);
      }
    }
  }

  /**
   * The two loops at the top of ladder reconciliation: each tracked price in the targets is
   * struck off the targets (so it is not sent again), and every other tracked price gets a
   * cancel of the order resting there. The dict itself is left alone.
   */
  method Reconcile(levels: Levels, targets: seq<int>) returns (remaining: seq<int>, cancels: seq<int>)
    requires Valid(levels)
    ensures cancels == IdsAt(levels, Missing(levels.order, targets))
    ensures multiset(remaining) == multiset(targets) - multiset(levels.order)
    ensures Distinct(targets) ==> remaining == Missing(targets, levels.order)
  {
    remaining, cancels := targets, [];
    MissingNothing(targets);
    var i := 0;
    ghost var seen: seq<int> := [];
    while i < |levels.order|
      invariant 0 <= i <= |levels.order| && seen == levels.order[..i]
      invariant Reconciled(levels, targets, seen, remaining, cancels)
    {
      var price := levels.order[i];
      DistinctPrefix(levels.order, i);
      ReconcileStep(levels, targets, seen, remaining, cancels, price);
      if price in remaining {
        remaining := RemoveFirst(remaining, price);
      } else {
        cancels := cancels + [levels.ids[price]];
      }
      seen := seen + [price];
      i := i + 1;
    }
    assert seen == levels.order;
  }
}
