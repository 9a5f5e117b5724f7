/** The price-picking step of the wizard
    (apps/console/src/app/workflows/create-subscription/steps/pick-prices.tsx): the operations on
    the selected line items, the list of prices still available, and when its buttons are enabled.
    Each operation builds a new list and leaves the old one as it was. */
module PickPrices {
  import opened Seqs
  import opened StripePrices
  import opened CreateSubscription

  /** `new Set(lineItems.map(li => li.priceId))`. */
  function SelectedIds(items: seq<LineItem>): (ids: set<string>)
    ensures forall i :: 0 <= i < |items| ==> items[i].priceId in ids
    ensures forall id :: id in ids ==> exists i :: 0 <= i < |items| && items[i].priceId == id
  {
    set i | 0 <= i < |items| :: items[i].priceId
  }

  /** The two invariants the list operations keep: distinct price ids, quantities at least 1. */
  predicate WellFormed(items: seq<LineItem>) {
    && (forall i, j :: 0 <= i < j < |items| ==> items[i].priceId != items[j].priceId)
    && (forall i :: 0 <= i < |items| ==> items[i].quantity >= 1)
  }

  /** The line item a newly picked price becomes. */
  function NewLineItem(price: StripePrice): LineItem {
    LineItem(price.id, price.nickname, price.unitAmount, price.currency, price.interval, 1)
  }

  /** `addPrice`: a price already selected is ignored; any other is appended with quantity 1. */
  function AddPrice(items: seq<LineItem>, price: StripePrice): (r: seq<LineItem>)
    ensures price.id in SelectedIds(items) ==> r == items
    ensures price.id !in SelectedIds(items) ==>
              |r| == |items| + 1 && r[..|items|] == items && r[|items|] == NewLineItem(price)
  {
    if price.id in SelectedIds(items) then items else items + [NewLineItem(price)]
  }

  /** `Math.max(1, q)`. */
  function AtLeastOne(q: int): (r: int)
    ensures r >= 1 && r >= q
    ensures r == q || r == 1
  {
    if q > 1 then q else 1
  }

  /** `updateQuantity`: every item with this price id gets quantity `max(1, quantity + delta)`;
      every other item, and the length and order of the list, stay as they were. */
  function UpdateQuantity(items: seq<LineItem>, priceId: string, delta: int): (r: seq<LineItem>)
    ensures |r| == |items|
    ensures forall i :: 0 <= i < |items| && items[i].priceId != priceId ==> r[i] == items[i]
    ensures forall i :: 0 <= i < |items| && items[i].priceId == priceId ==>
              r[i] == items[i].(quantity := AtLeastOne(items[i].quantity + delta))
    decreases |items|
  {
    if items == [] then []
    else
      var head := if items[0].priceId == priceId
        then items[0].(quantity := AtLeastOne(items[0].quantity + delta))
        else items[0];
      [head] + UpdateQuantity(items[1..], priceId, delta)
  }

  /** `removeItem`: drop every item with this price id, keeping the rest in order. */
  function RemoveItem(items: seq<LineItem>, priceId: string): (r: seq<LineItem>)
    ensures IsSubseq(r, items)
    ensures forall li :: li in r <==> li in items && li.priceId != priceId
    decreases |items|
  {
    if items == [] then []
    else if items[0].priceId != priceId then [items[0]] + RemoveItem(items[1..], priceId)
    else RemoveItem(items[1..], priceId)
  }

  /** The prices offered for picking: the fetched ones not yet selected, in fetched order. */
  function Available(prices: seq<StripePrice>, items: seq<LineItem>): (r: seq<StripePrice>)
    ensures IsSubseq(r, prices)
    ensures forall p :: p in r <==> p in prices && p.id !in SelectedIds(items)
    decreases |prices|
  {
    if prices == [] then []
    else if prices[0].id !in SelectedIds(items) then [prices[0]] + Available(prices[1..], items)
    else Available(prices[1..], items)
  }

  /** The available list is built price by price: it distributes over concatenation. */
  lemma {:induction false} AvailableAppend(a: seq<StripePrice>, b: seq<StripePrice>, items: seq<LineItem>)
    ensures Available(a + b, items) == Available(a, items) + Available(b, items)
    decreases |a|
  {
    if a == [] {
      assert a + b == b;
    } else {
      assert (a + b)[0] == a[0];
      assert (a + b)[1..] == a[1..] + b;
      AvailableAppend(a[1..], b, items);
    }
  }

  /** The decrement button of a line item is disabled at quantity 1 or less. */
  predicate DecrementDisabled(li: LineItem) {
    li.quantity <= 1
  }

  /** Continue is disabled while nothing is selected. */
  predicate ContinueDisabled(items: seq<LineItem>) {
    |items| == 0
  }

  // ---------------------------------------------------------------------------------------
  // The invariants

  lemma AddPreservesWellFormed(items: seq<LineItem>, price: StripePrice)
    requires WellFormed(items)
    ensures WellFormed(AddPrice(items, price))
  {
    if price.id !in SelectedIds(items) {
      var r := AddPrice(items, price);
      assert forall i :: 0 <= i < |items| ==> r[i] == items[i];
    }
  }

  lemma UpdatePreservesWellFormed(items: seq<LineItem>, priceId: string, delta: int)
    requires WellFormed(items)
    ensures WellFormed(UpdateQuantity(items, priceId, delta))
  {
  }

  /** A well-formed list with one more item in front whose id differs from all of its own. */
  lemma ConsWellFormed(x: LineItem, tail: seq<LineItem>)
    requires WellFormed(tail) && x.quantity >= 1
    requires forall y :: y in tail ==> y.priceId != x.priceId
    ensures WellFormed([x] + tail)
  {
    var r := [x] + tail;
    assert forall j :: 0 < j < |r| ==> r[j] == tail[j - 1];
    assert forall j :: 0 < j < |r| ==> r[j] in tail;
  }

  /** The items after the first of a well-formed list form a well-formed list without its id. */
  lemma RestWellFormed(items: seq<LineItem>)
    requires WellFormed(items) && items != []
    ensures WellFormed(items[1..])
    ensures forall y :: y in items[1..] ==> y.priceId != items[0].priceId
  {
    var rest := items[1..];
    assert forall i :: 0 <= i < |rest| ==> rest[i] == items[i + 1];
    forall y | y in rest
      ensures y.priceId != items[0].priceId
    {
      var k :| 0 <= k < |rest| && rest[k] == y;
      assert items[k + 1] == y;
    }
  }

  lemma {:induction false} RemovePreservesWellFormed(items: seq<LineItem>, priceId: string)
    requires WellFormed(items)
    ensures WellFormed(RemoveItem(items, priceId))
    decreases |items|
  {
    if items != [] {
      var rest := items[1..];
      RestWellFormed(items);
      RemovePreservesWellFormed(rest, priceId);
      if items[0].priceId != priceId {
        ConsWellFormed(items[0], RemoveItem(rest, priceId));
      }
    }
  }

  // ---------------------------------------------------------------------------------------
  // Add, remove and the buttons

  /** Removing an absent price id changes nothing. */
  lemma {:induction false} RemoveAbsent(items: seq<LineItem>, priceId: string)
    requires priceId !in SelectedIds(items)
    ensures RemoveItem(items, priceId) == items
    decreases |items|
  {
    if items != [] {
      assert priceId !in SelectedIds(items[1..]) by {
        forall i | 0 <= i < |items[1..]|
          ensures items[1..][i].priceId != priceId
        {
          assert items[1..][i] == items[i + 1];
        }
      }
      RemoveAbsent(items[1..], priceId);
      assert items == [items[0]] + items[1..];
    }
  }

  /** Removing from a concatenation removes from each part. */
  lemma {:induction false} RemoveAppend(a: seq<LineItem>, b: seq<LineItem>, priceId: string)
    ensures RemoveItem(a + b, priceId) == RemoveItem(a, priceId) + RemoveItem(b, priceId)
    decreases |a|
  {
    if a == [] {
      assert a + b == b;
    } else {
      assert (a + b)[0] == a[0];
      assert (a + b)[1..] == a[1..] + b;
      RemoveAppend(a[1..], b, priceId);
    }
  }

  /** Picking a price that was not selected and then removing it gives back the original list. */
  lemma AddThenRemove(items: seq<LineItem>, price: StripePrice)
    requires price.id !in SelectedIds(items)
    ensures RemoveItem(AddPrice(items, price), price.id) == items
  {
    RemoveAppend(items, [NewLineItem(price)], price.id);
    RemoveAbsent(items, price.id);
    assert RemoveItem([NewLineItem(price)], price.id) == [];
  }

  /** A picked price leaves the available list, and nothing else does. */
  lemma AddedPriceLeavesAvailable(prices: seq<StripePrice>, items: seq<LineItem>, price: StripePrice)
    ensures forall p :: p in Available(prices, AddPrice(items, price)) <==>
              p in Available(prices, items) && p.id != price.id
  {
    var r := AddPrice(items, price);
    if price.id !in SelectedIds(items) {
      assert SelectedIds(r) == SelectedIds(items) + {price.id} by {
        assert forall i :: 0 <= i < |items| ==> r[i] == items[i];
        assert r[|items|].priceId == price.id;
      }
    }
  }

  /** On a well-formed list, an item's decrement button is disabled exactly when pressing it
      would change nothing. */
  lemma DecrementDisabledIffNoEffect(items: seq<LineItem>, i: int)
    requires WellFormed(items) && 0 <= i < |items|
    ensures DecrementDisabled(items[i]) <==> UpdateQuantity(items, items[i].priceId, -1) == items
  {
    var r := UpdateQuantity(items, items[i].priceId, -1);
    if DecrementDisabled(items[i]) {
      forall j | 0 <= j < |items|
        ensures r[j] == items[j]
      {
        if j != i {
          assert items[j].priceId != items[i].priceId by {
            if j < i {
              assert items[j].priceId != items[i].priceId;
            }
          }
        }
      }
    } else {
      assert r[i].quantity == items[i].quantity - 1;
    }
  }

  /** Continue is disabled exactly when no price is selected. */
  lemma ContinueDisabledIffNothingSelected(items: seq<LineItem>)
    ensures ContinueDisabled(items) <==> SelectedIds(items) == {}
  {
    if !ContinueDisabled(items) {
      assert items[0].priceId in SelectedIds(items);
    }
  }
}
