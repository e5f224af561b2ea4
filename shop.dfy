/** The shop page: the category buttons, the category filter, what the buy
    button does with a cart line, and the amount shown for a line. */
module Shop {
  import opened Wrappers
  import CreateCheckout

  /** A row of the `products` table. */
  datatype Product = Product(
    id: string,
    name: string,
    description: Option<string>,
    priceCents: int,
    imageUrl: Option<string>,
    stripePriceId: Option<string>,
    category: string,
    isActive: bool,
    createdAt: string)

  /** A cart line: the product's fields the page reads, and the quantity. */
  datatype CartItem = CartItem(id: string, name: string, priceCents: int, stripePriceId: Option<string>, quantity: int)

  const AllCategories := "all"

  /** The index of the first occurrence of `x`. */
  function FirstIndex(xs: seq<string>, x: string): (i: nat)
    requires x in xs
    ensures i < |xs| && xs[i] == x
    ensures forall j :: 0 <= j < i ==> xs[j] != x
  {
    if xs[0] == x then 0 else 1 + FirstIndex(xs[1..], x)
  }

  /** `Array.from(new Set(xs))`: each value once, in order of first appearance. */
  function Distinct(xs: seq<string>): (r: seq<string>)
    ensures forall x :: x in r <==> x in xs
    ensures forall i, j :: 0 <= i < j < |r| ==> r[i] != r[j]
  {
    if xs == [] then []
    else
      var d := Distinct(xs[..|xs| - 1]);
      if xs[|xs| - 1] in d then d else d + [xs[|xs| - 1]]
  }

  /** An index holding `x` with no `x` before it is the first index of `x`. */
  lemma FirstIndexUnique(xs: seq<string>, x: string, i: nat)
    requires i < |xs| && xs[i] == x
    requires forall j :: 0 <= j < i ==> xs[j] != x
    ensures FirstIndex(xs, x) == i
  {
    var k := FirstIndex(xs, x);
    assert !(k < i) by { assert xs[k] == x; }
  }

  /** Values of `r` occur in `xs`, and earlier in `r` means first seen earlier in `xs`. */
  predicate InFirstAppearanceOrder(xs: seq<string>, r: seq<string>)
  {
    (forall x :: x in r ==> x in xs) &&
    forall i, j :: 0 <= i < j < |r| ==> r[i] in xs && r[j] in xs && FirstIndex(xs, r[i]) < FirstIndex(xs, r[j])
  }

  /** Appending to `xs` moves no first appearance of a value already present. */
  lemma FirstIndexExtend(init: seq<string>, last: string, x: string)
    requires x in init
    ensures FirstIndex(init + [last], x) == FirstIndex(init, x)
  {
    var i := FirstIndex(init, x);
    var xs := init + [last];
    assert xs[i] == x;
    assert forall j :: 0 <= j < i ==> xs[j] == init[j];
    FirstIndexUnique(xs, x, i);
  }

  lemma ExtendKeepsOrder(init: seq<string>, last: string, r: seq<string>)
    requires InFirstAppearanceOrder(init, r)
    ensures InFirstAppearanceOrder(init + [last], r)
  {
    var xs := init + [last];
    forall x | x in r ensures x in xs && FirstIndex(xs, x) == FirstIndex(init, x) < |init| {
      FirstIndexExtend(init, last, x);
    }
  }

  lemma AppendNewKeepsOrder(init: seq<string>, last: string, r: seq<string>)
    requires InFirstAppearanceOrder(init, r) && last !in init
    ensures InFirstAppearanceOrder(init + [last], r + [last])
  {
    var xs := init + [last];
    ExtendKeepsOrder(init, last, r);
    assert forall j :: 0 <= j < |init| ==> xs[j] == init[j];
    FirstIndexUnique(xs, last, |init|);
    forall x | x in r ensures FirstIndex(xs, x) < |init| {
      FirstIndexExtend(init, last, x);
    }
    var r' := r + [last];
    assert forall i :: 0 <= i < |r| ==> r'[i] == r[i] && r[i] in r;
  }

  /** The values come out in the order in which they first appear. */
  lemma {:induction false} DistinctFirstAppearanceOrder(xs: seq<string>)
    ensures InFirstAppearanceOrder(xs, Distinct(xs))
  {
    if xs != [] {
      var init := xs[..|xs| - 1];
      var last := xs[|xs| - 1];
      assert xs == init + [last];
      DistinctFirstAppearanceOrder(init);
      if last in Distinct(init) {
        ExtendKeepsOrder(init, last, Distinct(init));
      } else {
        AppendNewKeepsOrder(init, last, Distinct(init));
      }
    }
  }

  function CategoriesOf(products: seq<Product>): (cs: seq<string>)
    ensures |cs| == |products|
    ensures forall k :: 0 <= k < |products| ==> cs[k] == products[k].category
  {
    seq(|products|, k requires 0 <= k < |products| => products[k].category)
  }

  /** `['all', ...Array.from(new Set(products.map(p => p.category)))]` */
  function Categories(products: seq<Product>): (r: seq<string>)
    ensures |r| >= 1 && r[0] == AllCategories
    ensures forall k :: 0 <= k < |products| ==> products[k].category in r
    ensures forall c :: c in r[1..] ==> exists k :: 0 <= k < |products| && products[k].category == c
    ensures forall i, j :: 1 <= i < j < |r| ==> r[i] != r[j]
    ensures InFirstAppearanceOrder(CategoriesOf(products), r[1..])
  {
    var cs := CategoriesOf(products);
    DistinctFirstAppearanceOrder(cs);
    var r := [AllCategories] + Distinct(cs);
    assert r[1..] == Distinct(cs);
    assert forall k :: 0 <= k < |products| ==> cs[k] in Distinct(cs);
    r
  }

  /** `products.filter(p => p.category === selected)` */
  function WithCategory(products: seq<Product>, selected: string): (r: seq<Product>)
    ensures |r| <= |products|
    ensures forall p :: p in r ==> p in products && p.category == selected
    ensures forall k :: 0 <= k < |products| && products[k].category == selected ==> products[k] in r
  {
    if products == [] then []
    else (if products[0].category == selected then [products[0]] else []) + WithCategory(products[1..], selected)
  }

  /** The filter keeps the relative order of products. */
  lemma {:induction false} WithCategoryAppend(a: seq<Product>, b: seq<Product>, selected: string)
    ensures WithCategory(a + b, selected) == WithCategory(a, selected) + WithCategory(b, selected)
  {
    if a == [] {
      assert a + b == b;
    } else {
      assert (a + b)[0] == a[0] && (a + b)[1..] == a[1..] + b;
      WithCategoryAppend(a[1..], b, selected);
    }
  }

  /** `selectedCategory === 'all' ? products : products.filter(...)` */
  function FilteredProducts(products: seq<Product>, selected: string): (r: seq<Product>)
    ensures selected == AllCategories ==> r == products
    ensures selected != AllCategories ==> r == WithCategory(products, selected)
  {
    if selected == AllCategories then products else WithCategory(products, selected)
  }

  /** What the buy button leads to. */
  datatype CheckoutAction =
    | StartCheckout(priceId: string, productName: string)  // `createCheckoutSession(price, name)`
    | DemoAlert(productName: string, priceCents: int)     // the demo-mode alert; no session

  /** `handleCheckout(item)`: a line with a (non-empty) price id goes to checkout
      with that price id and name; any other takes the demo path. */
  function HandleCheckout(item: CartItem): (a: CheckoutAction)
    ensures a.StartCheckout? <==> Truthy(item.stripePriceId)
    ensures a.StartCheckout? ==> a.priceId == item.stripePriceId.value && a.productName == item.name
    ensures a.DemoAlert? ==> a.productName == item.name && a.priceCents == item.priceCents
  {
    if Truthy(item.stripePriceId) then StartCheckout(item.stripePriceId.value, item.name)
    else DemoAlert(item.name, item.priceCents)
  }

  /** The amount shown for a cart line and on its buy button,
      `price_cents * quantity`. */
  function LineAmount(item: CartItem): (a: int)
    ensures item.quantity == 0 ==> a == 0
    ensures item.priceCents > 0 && item.quantity > 1 ==> a > item.priceCents
    ensures item.priceCents >= 0 && item.quantity >= 0 ==> a >= 0
  {
    item.priceCents * item.quantity
  }

  /** The buy button of a line labelled with `LineAmount` starts checkout for
      that line's price, and the session the storefront's body asks for holds
      exactly one unit of it, whatever the line's quantity: a line of several
      units is labelled with more than the one unit price the session holds. */
  lemma BuyButtonAsksForOneUnit(item: CartItem, siteOrigin: string, origin: Option<string>)
    requires HandleCheckout(item).StartCheckout?
    ensures var a := HandleCheckout(item);
            var req := CreateCheckout.StorefrontRequest(siteOrigin, Some(a.priceId), Some(a.productName));
            CreateCheckout.SessionFor(req, origin).lineItems ==
              [CreateCheckout.LineItem(item.stripePriceId, 1)]
  {
  }
}
