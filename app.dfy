/** The storefront page: the shopping cart, whether its drawer is open, the active
    category filter, and the values the page derives from them. */
module App {
  import opened Types
  import opened Seqs
  import Catalog

  // ---------------------------------------------------------------------------
  // The cart as a value

  /** `prev.find(p => p.id === id)`: the first line carrying the id, if any. */
  function Find(cart: seq<CartItem>, id: string): (r: Option<CartItem>)
    ensures r.Some? <==> HasId(cart, id)
    ensures r.Some? ==> r.value.Id() == id && r.value in cart
  {
    if cart == [] then None
    else if cart[0].Id() == id then Some(cart[0])
    else
      assert forall k :: 1 <= k < |cart| ==> cart[k] == cart[1..][k - 1];
      Find(cart[1..], id)
  }

  /** `find` returns the first line with the id: no line before it carries the id. */
  lemma {:induction false} FindFirst(cart: seq<CartItem>, id: string)
    ensures Find(cart, id).Some? ==>
              exists k :: 0 <= k < |cart| && Find(cart, id).value == cart[k] && !HasId(cart[..k], id)
  {
    if cart != [] && cart[0].Id() != id && Find(cart, id).Some? {
      FindFirst(cart[1..], id);
      var k :| 0 <= k < |cart[1..]| && Find(cart[1..], id).value == cart[1..][k] && !HasId(cart[1..][..k], id);
      assert cart[..k + 1] == [cart[0]] + cart[1..][..k];
      assert !HasId(cart[..k + 1], id);
    }
    if cart != [] && cart[0].Id() == id {
      assert !HasId(cart[..0], id);
    }
  }

  /** Some cart line carries this product id: the truth test on the result of `find`. */
  predicate HasId(cart: seq<CartItem>, id: string)
  {
    exists i :: 0 <= i < |cart| && cart[i].Id() == id
  }

  /** At most one line per product id. */
  predicate UniqueIds(cart: seq<CartItem>)
  {
    forall i, j :: 0 <= i < j < |cart| ==> cart[i].Id() != cart[j].Id()
  }

  /** The cart invariant: one line per id, and every line holds at least one unit. */
  predicate WellFormed(cart: seq<CartItem>)
  {
    UniqueIds(cart) && forall i :: 0 <= i < |cart| ==> cart[i].quantity >= 1
  }

  /** Every line with the given id gets one more unit; each line keeps the product data it
      already had, and no line moves. */
  function Bump(cart: seq<CartItem>, id: string): (r: seq<CartItem>)
    ensures |r| == |cart|
    ensures forall i :: 0 <= i < |cart| ==>
              r[i].product == cart[i].product
              && r[i].quantity == (if cart[i].Id() == id then cart[i].quantity + 1 else cart[i].quantity)
  {
    seq(|cart|, i requires 0 <= i < |cart| =>
      if cart[i].Id() == id then cart[i].(quantity := cart[i].quantity + 1) else cart[i])
  }

  /** The cart after `addToCart(product)`: bump the existing line, or append a new one. */
  function AddItem(cart: seq<CartItem>, product: Product): (r: seq<CartItem>)
    ensures |r| == if HasId(cart, product.id) then |cart| else |cart| + 1
    ensures forall i :: 0 <= i < |cart| ==> r[i].Id() == cart[i].Id()
    ensures HasId(r, product.id)
  {
    if Find(cart, product.id).Some? then Bump(cart, product.id)
    else
      var r := cart + [CartItem(product, 1)];
      assert r[|cart|].Id() == product.id;
      r
  }

  /** The filter test of `removeFromCart(id)`: keep the lines with another id. */
  function OtherId(id: string): CartItem -> bool
  {
    (item: CartItem) => item.Id() != id
  }

  /** The cart after `removeFromCart(id)`: every line with that id is filtered out. */
  function RemoveItem(cart: seq<CartItem>, id: string): (r: seq<CartItem>)
    ensures |r| <= |cart| && !HasId(r, id)
  {
    FilterSound(OtherId(id), cart);
    Filter(OtherId(id), cart)
  }

  /** The unit price charged: `salePrice || price`, so a sale price of zero counts as absent. */
  function EffectivePrice(p: Product): (r: nat)
    ensures r == p.price || (p.salePrice == Some(r) && r != 0)
    ensures p.salePrice.Some? && p.salePrice.value != 0 ==> r == p.salePrice.value
  {
    match p.salePrice
    case Some(s) => if s != 0 then s else p.price
    case None => p.price
  }

  function Quantity(item: CartItem): int
  {
    item.quantity
  }

  /** One line's share of `cartTotal`: unit price times quantity. */
  function LineTotal(item: CartItem): (r: int)
    ensures r >= 0
    ensures item.quantity >= 1 ==> r >= EffectivePrice(item.product)
  {
    EffectivePrice(item.product) * item.quantity
  }

  /** `cartTotal`: the sum over the lines of effective unit price times quantity. */
  function CartTotal(cart: seq<CartItem>): (r: int)
    ensures r >= 0
  {
    assert forall i :: 0 <= i < |cart| ==> LineTotal(cart[i]) >= 0;
    Sum(LineTotal, cart)
  }

  /** `cartCount`: the number of units in the cart. */
  function CartCount(cart: seq<CartItem>): (r: int)
    ensures r >= 0
    ensures WellFormed(cart) ==> r >= |cart|
  {
    assert forall i :: 0 <= i < |cart| ==> Quantity(cart[i]) >= 0;
    SumAtLeastLength(Quantity, cart);
    Sum(Quantity, cart)
  }

  // ---------------------------------------------------------------------------
  // Properties of the cart operations

  /** With one line per id, bumping an id that is in the cart touches exactly its line. */
  lemma BumpAt(cart: seq<CartItem>, id: string, k: nat)
    requires UniqueIds(cart)
    requires k < |cart| && cart[k].Id() == id
    ensures Bump(cart, id) == cart[k := cart[k].(quantity := cart[k].quantity + 1)]
  {
    forall i | 0 <= i < |cart|
      ensures Bump(cart, id)[i] == cart[k := cart[k].(quantity := cart[k].quantity + 1)][i]
    {
      if i != k {
        assert cart[i].Id() != id;
      }
    }
  }

  /** One more unit on a line adds the unit price to its line total. */
  lemma LineTotalBump(item: CartItem)
    ensures LineTotal(item.(quantity := item.quantity + 1)) == LineTotal(item) + EffectivePrice(item.product)
  {
  }

  /** Adding a product already in the cart increments exactly that line by one unit; every
      other line and the order stay as they were, the count rises by one and the total by
      that line's unit price. */
  lemma AddExisting(cart: seq<CartItem>, product: Product, k: nat)
    requires UniqueIds(cart)
    requires k < |cart| && cart[k].Id() == product.id
    ensures AddItem(cart, product) == cart[k := cart[k].(quantity := cart[k].quantity + 1)]
    ensures CartCount(AddItem(cart, product)) == CartCount(cart) + 1
    ensures CartTotal(AddItem(cart, product)) == CartTotal(cart) + EffectivePrice(cart[k].product)
  {
    assert HasId(cart, product.id);
    BumpAt(cart, product.id, k);
    BumpLineSums(cart, k);
  }

  /** One more unit on line `k` adds one to the count and that line's unit price to the total. */
  lemma BumpLineSums(cart: seq<CartItem>, k: nat)
    requires k < |cart|
    ensures CartCount(cart[k := cart[k].(quantity := cart[k].quantity + 1)]) == CartCount(cart) + 1
    ensures CartTotal(cart[k := cart[k].(quantity := cart[k].quantity + 1)])
            == CartTotal(cart) + EffectivePrice(cart[k].product)
  {
    var bumped := cart[k].(quantity := cart[k].quantity + 1);
    SumUpdate(Quantity, cart, k, bumped);
    SumUpdate(LineTotal, cart, k, bumped);
    LineTotalBump(cart[k]);
  }

  /** Adding a product not yet in the cart appends one line of one unit at the end. */
  lemma AddNew(cart: seq<CartItem>, product: Product)
    requires !HasId(cart, product.id)
    ensures AddItem(cart, product) == cart + [CartItem(product, 1)]
    ensures CartCount(AddItem(cart, product)) == CartCount(cart) + 1
    ensures CartTotal(AddItem(cart, product)) == CartTotal(cart) + EffectivePrice(product)
  {
    assert (cart + [CartItem(product, 1)])[..|cart|] == cart;
  }

  /** Adding keeps the cart invariant, and afterwards the product's id is in the cart. */
  lemma AddPreservesWellFormed(cart: seq<CartItem>, product: Product)
    requires WellFormed(cart)
    ensures WellFormed(AddItem(cart, product)) && HasId(AddItem(cart, product), product.id)
  {
    if HasId(cart, product.id) {
      var k :| 0 <= k < |cart| && cart[k].Id() == product.id;
      AddExisting(cart, product, k);
      assert AddItem(cart, product)[k].Id() == product.id;
    } else {
      assert AddItem(cart, product)[|cart|].Id() == product.id;
    }
  }

  /** Each add raises the count by one and never lowers the total; a new product raises the
      total by its unit price. */
  lemma AddRaisesSums(cart: seq<CartItem>, product: Product)
    requires UniqueIds(cart)
    ensures CartCount(AddItem(cart, product)) == CartCount(cart) + 1
    ensures CartTotal(AddItem(cart, product)) >= CartTotal(cart)
    ensures !HasId(cart, product.id) ==> CartTotal(AddItem(cart, product)) == CartTotal(cart) + EffectivePrice(product)
  {
    if HasId(cart, product.id) {
      var k :| 0 <= k < |cart| && cart[k].Id() == product.id;
      AddExisting(cart, product, k);
    } else {
      AddNew(cart, product);
    }
  }

  /** Removing an id that is in the cart deletes exactly its line, keeps the other lines in
      their order, and lowers the count and the total by that line's share. */
  lemma RemoveExisting(cart: seq<CartItem>, id: string, k: nat)
    requires UniqueIds(cart)
    requires k < |cart| && cart[k].Id() == id
    ensures RemoveItem(cart, id) == cart[..k] + cart[k + 1..]
    ensures CartCount(RemoveItem(cart, id)) == CartCount(cart) - cart[k].quantity
    ensures CartTotal(RemoveItem(cart, id)) == CartTotal(cart) - LineTotal(cart[k])
  {
    RemoveDeletesLine(cart, id, k);
    SumRemove(Quantity, cart, k);
    SumRemove(LineTotal, cart, k);
  }

  lemma RemoveDeletesLine(cart: seq<CartItem>, id: string, k: nat)
    requires UniqueIds(cart)
    requires k < |cart| && cart[k].Id() == id
    ensures RemoveItem(cart, id) == cart[..k] + cart[k + 1..]
  {
    forall i | 0 <= i < |cart| && i != k
      ensures OtherId(id)(cart[i])
    {
    }
    FilterDropsOne(OtherId(id), cart, k);
  }

  /** Removing an id that is not in the cart changes nothing. */
  lemma RemoveAbsent(cart: seq<CartItem>, id: string)
    requires !HasId(cart, id)
    ensures RemoveItem(cart, id) == cart
  {
    FilterKeepsAll(OtherId(id), cart);
  }

  /** Removing keeps the cart invariant, and afterwards no line carries the id. */
  lemma RemovePreservesWellFormed(cart: seq<CartItem>, id: string)
    requires WellFormed(cart)
    ensures WellFormed(RemoveItem(cart, id)) && !HasId(RemoveItem(cart, id), id)
  {
    if HasId(cart, id) {
      var k :| 0 <= k < |cart| && cart[k].Id() == id;
      RemoveDeletesLine(cart, id, k);
      DeleteLineKeepsWellFormed(cart, k);
    } else {
      RemoveAbsent(cart, id);
    }
  }

  /** Deleting one line keeps the invariant, and no remaining line has the deleted id. */
  lemma DeleteLineKeepsWellFormed(cart: seq<CartItem>, k: nat)
    requires WellFormed(cart) && k < |cart|
    ensures WellFormed(cart[..k] + cart[k + 1..]) && !HasId(cart[..k] + cart[k + 1..], cart[k].Id())
  {
    var r := cart[..k] + cart[k + 1..];
    forall i, j | 0 <= i < j < |r|
      ensures r[i].Id() != r[j].Id()
    {
      RemovedAt(cart, k, i);
      RemovedAt(cart, k, j);
    }
    forall i | 0 <= i < |r|
      ensures r[i].quantity >= 1 && r[i].Id() != cart[k].Id()
    {
      RemovedAt(cart, k, i);
    }
  }

  /** For a product whose sale price (if any) is below its base price, the unit price charged
      never exceeds the base price. */
  lemma EffectivePriceAtMostPrice(p: Product)
    requires Catalog.SoundPricing(p)
    ensures EffectivePrice(p) <= p.price
    ensures p.salePrice.Some? && p.salePrice.value != 0 ==> EffectivePrice(p) < p.price
  {
  }

  // ---------------------------------------------------------------------------
  // Category filter

  /** The category of each catalog product, in catalog order. */
  function CategoryColumn(catalog: seq<Product>): (r: seq<string>)
    ensures |r| == |catalog| && forall i :: 0 <= i < |catalog| ==> r[i] == catalog[i].category
  {
    seq(|catalog|, i requires 0 <= i < |catalog| => catalog[i].category)
  }

  /** `categories`: "All", then each category of the catalog once, in first-seen order. */
  function Categories(catalog: seq<Product>): (r: seq<string>)
    ensures 1 <= |r| <= |catalog| + 1 && r[0] == "All"
  {
    ["All"] + Distinct(CategoryColumn(catalog))
  }

  /** The filter test of a category button: keep the products of that category. */
  function InCategory(active: string): Product -> bool
  {
    (p: Product) => p.category == active
  }

  /** `filteredProducts`: the whole catalog for "All", else the products of the active category. */
  function Filtered(catalog: seq<Product>, active: string): (r: seq<Product>)
    ensures |r| <= |catalog|
    ensures active != "All" ==> forall i :: 0 <= i < |r| ==> r[i].category == active
  {
    if active == "All" then catalog
    else FilterSound(InCategory(active), catalog); Filter(InCategory(active), catalog)
  }

  /** The category list starts with "All", lists every category of the catalog and nothing
      else, lists each once, and lists them in the order they first appear in the catalog. */
  lemma CategoriesShape(catalog: seq<Product>)
    ensures Categories(catalog)[0] == "All"
    ensures forall i :: 1 <= i < |Categories(catalog)| ==>
              exists j :: 0 <= j < |catalog| && catalog[j].category == Categories(catalog)[i]
    ensures forall j :: 0 <= j < |catalog| ==> catalog[j].category in Categories(catalog)[1..]
    ensures NoDuplicates(Categories(catalog)[1..])
    ensures forall i, j :: 1 <= i < j < |Categories(catalog)| ==>
              Categories(catalog)[i] in CategoryColumn(catalog) &&
              Categories(catalog)[j] in CategoryColumn(catalog) &&
              FirstIndex(CategoryColumn(catalog), Categories(catalog)[i])
              < FirstIndex(CategoryColumn(catalog), Categories(catalog)[j])
  {
    var column := CategoryColumn(catalog);
    var cats := Categories(catalog);
    assert cats[1..] == Distinct(column);
    DistinctSound(column);
    DistinctFirstSeenOrder(column);
    forall i | 1 <= i < |cats|
      ensures exists j :: 0 <= j < |catalog| && catalog[j].category == cats[i]
    {
      assert cats[i] == Distinct(column)[i - 1];
      var j :| 0 <= j < |column| && column[j] == cats[i];
      assert catalog[j].category == cats[i];
    }
    forall j | 0 <= j < |catalog|
      ensures catalog[j].category in cats[1..]
    {
      assert column[j] == catalog[j].category;
    }
    forall i, j | 1 <= i < j < |cats|
      ensures cats[i] in column && cats[j] in column
      ensures FirstIndex(column, cats[i]) < FirstIndex(column, cats[j])
    {
      assert cats[i] == Distinct(column)[i - 1] && cats[j] == Distinct(column)[j - 1];
    }
  }

  /** For "All" the filter returns the catalog itself; otherwise it returns exactly the
      products of the active category, and filtering a catalog in two parts gives the two
      filtered parts in the same order. */
  lemma FilteredShape(catalog: seq<Product>, more: seq<Product>, active: string)
    ensures active == "All" ==> Filtered(catalog, active) == catalog
    ensures active != "All" ==>
              (forall i :: 0 <= i < |Filtered(catalog, active)| ==>
                 Filtered(catalog, active)[i] in catalog && Filtered(catalog, active)[i].category == active)
              && (forall j :: 0 <= j < |catalog| && catalog[j].category == active ==>
                    catalog[j] in Filtered(catalog, active))
    ensures Filtered(catalog + more, active) == Filtered(catalog, active) + Filtered(more, active)
  {
    if active != "All" {
      FilterSound(InCategory(active), catalog);
      FilterConcat(InCategory(active), catalog, more);
    }
  }

  // ---------------------------------------------------------------------------
  // The page state

  class Storefront {
    var cart: seq<CartItem>
    var isCartOpen: bool
    var activeCategory: string

    ghost predicate Valid()
      reads this
    {
      WellFormed(cart)
    }

    /** The page starts with an empty, closed cart and the "All" filter. */
    constructor ()
      ensures Valid()
      ensures cart == [] && !isCartOpen && activeCategory == "All"
    {
      cart := [];
      isCartOpen := false;
      activeCategory := "All";
    }

    /** `addToCart`: updates the cart and opens the drawer. */
    method AddToCart(product: Product)
      requires Valid()
      modifies this
      ensures Valid()
      ensures cart == AddItem(old(cart), product) && HasId(cart, product.id)
      ensures Count() == old(Count()) + 1 && Total() >= old(Total())
      ensures !old(HasId(cart, product.id)) ==> Total() == old(Total()) + EffectivePrice(product)
      ensures isCartOpen && activeCategory == old(activeCategory)
    {
      AddPreservesWellFormed(cart, product);
      AddRaisesSums(cart, product);
      cart := AddItem(cart, product);
      isCartOpen := true;
    }

    /** `removeFromCart`: drops the lines with that id; the drawer and filter are untouched. */
    method RemoveFromCart(id: string)
      requires Valid()
      modifies this
      ensures Valid()
      ensures cart == RemoveItem(old(cart), id) && !HasId(cart, id)
      ensures !old(HasId(cart, id)) ==> cart == old(cart)
      ensures old(HasId(cart, id)) ==> Count() < old(Count()) && Total() <= old(Total())
      ensures isCartOpen == old(isCartOpen) && activeCategory == old(activeCategory)
    {
      RemovePreservesWellFormed(cart, id);
      if HasId(cart, id) {
        var k :| 0 <= k < |cart| && cart[k].Id() == id;
        RemoveExisting(cart, id, k);
      } else {
        RemoveAbsent(cart, id);
      }
      cart := RemoveItem(cart, id);
    }

    /** The cart icon in the header opens the drawer. */
    method OpenCart()
      requires Valid()
      modifies this
      ensures Valid()
      ensures isCartOpen && cart == old(cart) && activeCategory == old(activeCategory)
    {
      isCartOpen := true;
    }

    /** The backdrop, the close button and "continue shopping" close the drawer. */
    method CloseCart()
      requires Valid()
      modifies this
      ensures Valid()
      ensures !isCartOpen && cart == old(cart) && activeCategory == old(activeCategory)
    {
      isCartOpen := false;
    }

    /** A category button makes its category the active filter. */
    method SelectCategory(category: string)
      requires Valid()
      modifies this
      ensures Valid()
      ensures activeCategory == category && cart == old(cart) && isCartOpen == old(isCartOpen)
      ensures category != "All" ==>
                forall i :: 0 <= i < |FilteredProducts()| ==> FilteredProducts()[i].category == category
    {
      activeCategory := category;
    }

    /** The cart total shown in the drawer. */
    function Total(): int
      reads this
    {
      CartTotal(cart)
    }

    /** The badge on the header's cart icon. */
    function Count(): int
      reads this
    {
      CartCount(cart)
    }

    /** The product grid. */
    function FilteredProducts(): seq<Product>
      reads this
    {
      Filtered(Catalog.Products, activeCategory)
    }
  }

  // ---------------------------------------------------------------------------
  // The concrete catalog

  /** The catalog's categories in first-seen order. */
  lemma CatalogCategories()
    ensures Categories(Catalog.Products) == ["All", "Living Room", "Chairs", "Dining", "Lighting"]
  {
    var living, chairs, dining, lighting := "Living Room", "Chairs", "Dining", "Lighting";
    assert dining[0] != chairs[0] && |living| != |lighting|;
    assert CategoryColumn(Catalog.Products) == [living, chairs, dining, lighting, chairs, living];
    DistinctOfCatalogColumn(living, chairs, dining, lighting);
  }

  /** The de-duplication of the catalog's column shape: four categories, then two repeats. */
  lemma DistinctOfCatalogColumn(a: string, b: string, c: string, d: string)
    requires a != b && a != c && a != d && b != c && b != d && c != d
    ensures Distinct([a, b, c, d, b, a]) == [a, b, c, d]
  {
    var firsts := [a, b, c, d];
    assert NoDuplicates(firsts);
    DistinctOfNoDuplicates(firsts);
    DistinctAppendSeen(firsts, b, a);
    assert firsts + [b, a] == [a, b, c, d, b, a];
  }

  /** The "Chairs" filter yields the lounge chair and then the accent chair. */
  lemma ChairsFilter()
    ensures Filtered(Catalog.Products, "Chairs") == [Catalog.EamesLounge, Catalog.AccentChair]
  {
    var ps, keep := Catalog.Products, InCategory("Chairs");
    var first := [Catalog.CloudSofa, Catalog.EamesLounge, Catalog.OakDiningTable];
    var second := [Catalog.FloorLamp, Catalog.AccentChair, Catalog.CoffeeTable];
    assert ps == first + second;
    FilterConcat(keep, first, second);
    FilterOfThree(keep, Catalog.CloudSofa, Catalog.EamesLounge, Catalog.OakDiningTable);
    FilterOfThree(keep, Catalog.FloorLamp, Catalog.AccentChair, Catalog.CoffeeTable);
  }

  /** Two sofas and one dining table cost 1899 * 2 + 899 = 4697 and count three units. */
  lemma SampleCartTotal()
    ensures CartTotal([CartItem(Catalog.CloudSofa, 2), CartItem(Catalog.OakDiningTable, 1)]) == 4697
    ensures CartCount([CartItem(Catalog.CloudSofa, 2), CartItem(Catalog.OakDiningTable, 1)]) == 3
  {
    var sofas, table := CartItem(Catalog.CloudSofa, 2), CartItem(Catalog.OakDiningTable, 1);
    assert [sofas, table] == [sofas] + [table];
    SumConcat(LineTotal, [sofas], [table]);
    SumConcat(Quantity, [sofas], [table]);
    SumSingleton(LineTotal, sofas);
    SumSingleton(LineTotal, table);
    SumSingleton(Quantity, sofas);
    SumSingleton(Quantity, table);
    assert LineTotal(sofas) == 3798 && LineTotal(table) == 899;
  }

  /** Add one product twice, add a second product, remove the first: one unit of the second
      remains. With the catalog's sofa and lounge chair, this is `AddSofaTwiceThenLounge`. */
  lemma AddAddAddRemove(sofa: Product, lounge: Product)
    requires sofa.id != lounge.id
    ensures RemoveItem(AddItem(AddItem(AddItem([], sofa), sofa), lounge), sofa.id)
            == [CartItem(lounge, 1)]
  {
    var c1 := [CartItem(sofa, 1)];
    var c2 := [CartItem(sofa, 2)];
    var c3 := [CartItem(sofa, 2), CartItem(lounge, 1)];
    AddNew([], sofa);
    assert AddItem([], sofa) == c1 by { assert [] + c1 == c1; }
    AddExisting(c1, sofa, 0);
    assert AddItem(c1, sofa) == c2;
    assert !HasId(c2, lounge.id) by { assert c2[0].Id() == sofa.id; }
    AddNew(c2, lounge);
    assert AddItem(c2, lounge) == c3;
    assert RemoveItem(c3, sofa.id) == [CartItem(lounge, 1)] by {
      assert c3[0].Id() == sofa.id && c3[1].Id() == lounge.id;
      RemoveDeletesLine(c3, sofa.id, 0);
      assert c3[..0] + c3[1..] == [CartItem(lounge, 1)];
    }
  }

  /** The scenario on the catalog: two Cloud Sofas, one lounge chair, then remove id "1". */
  lemma AddSofaTwiceThenLounge()
    ensures RemoveItem(AddItem(AddItem(AddItem([], Catalog.CloudSofa), Catalog.CloudSofa),
                               Catalog.EamesLounge), "1")
            == [CartItem(Catalog.EamesLounge, 1)]
  {
    AddAddAddRemove(Catalog.CloudSofa, Catalog.EamesLounge);
  }
}
