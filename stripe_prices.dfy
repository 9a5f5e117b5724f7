/** The price catalogue the wizard picks from (apps/console/src/lib/queries/stripe-prices.ts):
    the filter over the fixed mock catalogue, and the mapping of price records returned by the live
    provider into the console's own price shape. The live request itself is not modelled. */
module StripePrices {
  import opened Wrappers
  import opened Text
  import opened Seqs

  datatype StripePrice = StripePrice(
    id: string, nickname: string, unitAmount: int, currency: string,
    interval: string, productName: string, active: bool)

  /** The fixed catalogue served in mock mode, in the order it is listed. */
  const MockPrices: seq<StripePrice> := [
    StripePrice("price_mock_starter_mo", "Starter Monthly", 2900, "usd", "month", "Starter Plan", true),
    StripePrice("price_mock_starter_yr", "Starter Annual", 29000, "usd", "year", "Starter Plan", true),
    StripePrice("price_mock_pro_mo", "Pro Monthly", 9900, "usd", "month", "Pro Plan", true),
    StripePrice("price_mock_pro_yr", "Pro Annual", 99000, "usd", "year", "Pro Plan", true),
    StripePrice("price_mock_ent_mo", "Enterprise Monthly", 49900, "usd", "month", "Enterprise Plan", true),
    StripePrice("price_mock_ent_yr", "Enterprise Annual", 499000, "usd", "year", "Enterprise Plan", true),
    StripePrice("price_mock_addon_seat", "Additional Seat", 1500, "usd", "month", "Seat Add-on", true)
  ]

  /** A price matches the lower-cased query `q` when its lower-cased nickname or product name,
      or its id as it is, contains `q`. */
  predicate Matches(p: StripePrice, q: string) {
    Contains(ToLower(p.nickname), q) || Contains(ToLower(p.productName), q) || Contains(p.id, q)
  }

  /** `prices.filter(p => Matches(p, q))`. */
  function FilterMatching(prices: seq<StripePrice>, q: string): (r: seq<StripePrice>)
    ensures IsSubseq(r, prices)
    ensures forall p :: p in r <==> p in prices && Matches(p, q)
    decreases |prices|
  {
    if prices == [] then []
    else if Matches(prices[0], q) then [prices[0]] + FilterMatching(prices[1..], q)
    else FilterMatching(prices[1..], q)
  }

  /** The filter works price by price: it distributes over concatenation. */
  lemma {:induction false} FilterMatchingAppend(a: seq<StripePrice>, b: seq<StripePrice>, q: string)
    ensures FilterMatching(a + b, q) == FilterMatching(a, q) + FilterMatching(b, q)
    decreases |a|
  {
    if a == [] {
      assert a + b == b;
    } else {
      assert (a + b)[0] == a[0];
      assert (a + b)[1..] == a[1..] + b;
      FilterMatchingAppend(a[1..], b, q);
    }
  }

  /** The mock catalogue: seven active prices with distinct ids, each billed monthly or yearly. */
  lemma MockCatalogue()
    ensures |MockPrices| == 7
    ensures forall i, j :: 0 <= i < j < |MockPrices| ==> MockPrices[i].id != MockPrices[j].id
    ensures forall i :: 0 <= i < |MockPrices| ==>
              MockPrices[i].active && (MockPrices[i].interval == "month" || MockPrices[i].interval == "year")
  {
  }

  /** The mock branch of `searchStripePrices(query)`. */
  function SearchMock(query: string): (r: seq<StripePrice>)
    ensures query == "" ==> r == MockPrices
    ensures IsSubseq(r, MockPrices)
    ensures query != "" ==> forall p :: p in r <==> p in MockPrices && Matches(p, ToLower(query))
  {
    if query == "" then SubseqOfItself(MockPrices); MockPrices
    else FilterMatching(MockPrices, ToLower(query))
  }

  /** Two strings that differ at most in the case of ASCII letters. */
  predicate SameIgnoringCase(a: string, b: string) {
    |a| == |b| && forall i :: 0 <= i < |a| ==> LowerChar(a[i]) == LowerChar(b[i])
  }

  /** The search does not see letter case in the query. */
  lemma SearchIgnoresCase(a: string, b: string)
    requires SameIgnoringCase(a, b)
    ensures SearchMock(a) == SearchMock(b)
  {
    SameLowerForm(a, b);
    if a != "" {
      assert b != "";
      assert SearchMock(a) == FilterMatching(MockPrices, ToLower(a));
    }
  }

  lemma SameLowerForm(a: string, b: string)
    requires SameIgnoringCase(a, b)
    ensures ToLower(a) == ToLower(b)
  {
    assert forall i :: 0 <= i < |a| ==> ToLower(a)[i] == ToLower(b)[i];
  }

  // ---------------------------------------------------------------------------------------
  // Live records

  /** The `product` field of a live price: an expanded product object or a bare product id. */
  datatype Product = ProductObject(name: Option<string>) | ProductRef(productId: string)

  datatype Recurring = Recurring(interval: string)

  /** A price record as the provider returns it; nullable fields are options. */
  datatype LivePrice = LivePrice(
    id: string, nickname: Option<string>, unitAmount: Option<int>, currency: string,
    recurring: Option<Recurring>, product: Product, active: bool)

  /** The product name shown for a live price: the product's name, or "—" when the product is not
      an expanded object or has no name. */
  function ProductNameOf(product: Product): (name: string)
    ensures product.ProductRef? ==> name == "—"
    ensures product.ProductObject? ==> name == product.name.GetOr("—")
  {
    match product
    case ProductObject(name) => name.GetOr("—")
    case ProductRef(_) => "—"
  }

  /** The console's price for one recurring live record. */
  function FromLive(p: LivePrice): (r: StripePrice)
    requires p.recurring.Some?
    ensures r.id == p.id && r.currency == p.currency && r.active == p.active
    ensures r.interval == p.recurring.value.interval
    ensures r.productName == ProductNameOf(p.product)
    ensures p.nickname.None? ==> r.nickname == r.productName
    ensures p.nickname.Some? ==> r.nickname == p.nickname.value
    ensures p.unitAmount.None? ==> r.unitAmount == 0
    ensures p.unitAmount.Some? ==> r.unitAmount == p.unitAmount.value
  {
    var productName := ProductNameOf(p.product);
    StripePrice(p.id, p.nickname.GetOr(productName), p.unitAmount.GetOr(0), p.currency,
                p.recurring.value.interval, productName, p.active)
  }

  /** `data.filter(p => p.recurring).map(FromLive)`. */
  function MapLive(data: seq<LivePrice>): (r: seq<StripePrice>)
    ensures |r| <= |data|
    decreases |data|
  {
    if data == [] then []
    else if data[0].recurring.Some? then [FromLive(data[0])] + MapLive(data[1..])
    else MapLive(data[1..])
  }

  /** Every mapped price comes from a recurring record of the input. */
  lemma {:induction false} MapLiveFromRecurring(data: seq<LivePrice>, i: int)
    requires 0 <= i < |MapLive(data)|
    ensures exists j :: 0 <= j < |data| && data[j].recurring.Some? && MapLive(data)[i] == FromLive(data[j])
    decreases |data|
  {
    if data[0].recurring.Some? && i == 0 {
      assert MapLive(data)[0] == FromLive(data[0]);
    } else {
      var i' := if data[0].recurring.Some? then i - 1 else i;
      assert MapLive(data)[i] == MapLive(data[1..])[i'];
      MapLiveFromRecurring(data[1..], i');
      var j :| 0 <= j < |data[1..]| && data[1..][j].recurring.Some? && MapLive(data[1..])[i'] == FromLive(data[1..][j]);
      assert data[1..][j] == data[j + 1];
    }
  }

  /** The mapping works record by record: it distributes over concatenation. */
  lemma {:induction false} MapLiveAppend(a: seq<LivePrice>, b: seq<LivePrice>)
    ensures MapLive(a + b) == MapLive(a) + MapLive(b)
    decreases |a|
  {
    if a != [] {
      assert (a + b)[0] == a[0];
      assert (a + b)[1..] == a[1..] + b;
      MapLiveAppend(a[1..], b);
      var head := if a[0].recurring.Some? then [FromLive(a[0])] else [];
      assert MapLive(a + b) == head + MapLive(a[1..] + b);
      assert MapLive(a) == head + MapLive(a[1..]);
    } else {
      assert a + b == b;
    }
  }

  /** A non-recurring record contributes nothing; a recurring one contributes exactly its mapped price. */
  lemma MapLiveSingle(p: LivePrice)
    ensures p.recurring.None? ==> MapLive([p]) == []
    ensures p.recurring.Some? ==> MapLive([p]) == [FromLive(p)]
  {
    assert [p][1..] == [];
  }
}
