/** The cart store: an ordered list of cart lines keyed by product id, held by
    the cart provider in one state cell (`items`) that each operation replaces
    with a new list built by `find`, `map`, `filter` or a spread. The list
    transforms and the two derived totals are functions; the provider is the
    class `CartStore`, whose methods are specified by those functions. */
module Cart {
  import opened Common

  /** One line of the cart. */
  datatype CartItem = CartItem(id: string, name: string, price: real, qty: int, image: Option<string>)

  /** What `addToCart` is given: a line without its quantity (`Omit<CartItem, 'qty'>`). */
  datatype NewLine = NewLine(id: string, name: string, price: real, image: Option<string>)

  /** `{ ...item, qty }` */
  function LineOf(x: NewLine, qty: int): CartItem {
    CartItem(x.id, x.name, x.price, qty, x.image)
  }

  /** Some line carries product id `id`. */
  predicate HasLine(items: seq<CartItem>, id: string) {
    exists k :: 0 <= k < |items| && items[k].id == id
  }

  /** No product id occurs on two lines. */
  predicate DistinctIds(items: seq<CartItem>) {
    forall j, k :: 0 <= j < k < |items| ==> items[j].id != items[k].id
  }

  /** The position `items.find((i) => i.id === id)` stops at: the first line
      with that id, or -1 when there is none. */
  function FirstIndex(items: seq<CartItem>, id: string): (k: int)
    ensures -1 <= k < |items|
    ensures k >= 0 ==> items[k].id == id
    ensures forall j :: 0 <= j < |items| && (k < 0 || j < k) ==> items[j].id != id
  {
    if items == [] then -1
    else if items[0].id == id then 0
    else
      var k := FirstIndex(items[1..], id);
      assert forall j :: 1 <= j < |items| ==> items[j] == items[1..][j - 1];
      if k < 0 then -1 else k + 1
  }

  /** The first index is the one position that carries the id with no earlier
      line carrying it (or -1 when no line does). */
  lemma FirstIndexIs(items: seq<CartItem>, id: string, k: int)
    requires -1 <= k < |items|
    requires k >= 0 ==> items[k].id == id
    requires forall j :: 0 <= j < |items| && (k < 0 || j < k) ==> items[j].id != id
    ensures FirstIndex(items, id) == k
  {
  }

  /** `items.find((i) => i.id === id)`: the first line with that id. */
  function Find(items: seq<CartItem>, id: string): (r: Option<CartItem>)
    ensures r.Some? <==> HasLine(items, id)
    ensures r.Some? ==> r.value.id == id
  {
    var k := FirstIndex(items, id);
    if k < 0 then None else Some(items[k])
  }

  /** `items.map((i) => (i.id === id ? { ...i, qty: i.qty + qty } : i))` */
  function AddQty(items: seq<CartItem>, id: string, qty: int): (r: seq<CartItem>)
    ensures |r| == |items|
    ensures forall k :: 0 <= k < |items| ==>
              r[k] == if items[k].id == id then items[k].(qty := items[k].qty + qty) else items[k]
  {
    if items == [] then []
    else
      [if items[0].id == id then items[0].(qty := items[0].qty + qty) else items[0]]
      + AddQty(items[1..], id, qty)
  }

  /** `items.map((i) => (i.id === id ? { ...i, qty } : i))` */
  function SetQty(items: seq<CartItem>, id: string, qty: int): (r: seq<CartItem>)
    ensures |r| == |items|
    ensures forall k :: 0 <= k < |items| ==>
              r[k] == if items[k].id == id then items[k].(qty := qty) else items[k]
  {
    if items == [] then []
    else [if items[0].id == id then items[0].(qty := qty) else items[0]] + SetQty(items[1..], id, qty)
  }

  /** `items.filter((i) => i.id !== id)` */
  function RemoveLines(items: seq<CartItem>, id: string): (r: seq<CartItem>)
    ensures |r| <= |items|
    ensures !HasLine(r, id)
    ensures forall k :: 0 <= k < |r| ==> r[k] in items
    ensures forall k :: 0 <= k < |items| && items[k].id != id ==> items[k] in r
  {
    if items == [] then []
    else if items[0].id == id then RemoveLines(items[1..], id)
    else [items[0]] + RemoveLines(items[1..], id)
  }

  /** The new list `addToCart(x, qty)` stores: the quantity is added to the line
      already carrying `x.id`, otherwise a new line is appended. */
  function AddLine(items: seq<CartItem>, x: NewLine, qty: int): (r: seq<CartItem>)
    ensures |r| == if HasLine(items, x.id) then |items| else |items| + 1
    ensures forall k :: 0 <= k < |items| ==> r[k].id == items[k].id
    ensures HasLine(r, x.id)
  {
    if Find(items, x.id).Some? then AddQty(items, x.id, qty)
    else
      var r := items + [LineOf(x, qty)];
      assert r[|items|].id == x.id;
      r
  }

  /** The new list `updateQuantity(id, qty)` stores. */
  function UpdatedLines(items: seq<CartItem>, id: string, qty: int): (r: seq<CartItem>)
    ensures qty <= 0 ==> !HasLine(r, id) && |r| <= |items|
    ensures qty > 0 ==> |r| == |items| && forall k :: 0 <= k < |items| ==> r[k].id == items[k].id
  {
    if qty <= 0 then RemoveLines(items, id) else SetQty(items, id, qty)
  }

  /** `totalItems`: `items.reduce((s, i) => s + i.qty, 0)` */
  function TotalItems(items: seq<CartItem>): int {
    if items == [] then 0 else items[0].qty + TotalItems(items[1..])
  }

  /** What one line costs: `i.qty * i.price`. */
  function LineTotal(line: CartItem): real {
    line.qty as real * line.price
  }

  /** `totalPrice`: `items.reduce((s, i) => s + i.qty * i.price, 0)` */
  function TotalPrice(items: seq<CartItem>): real {
    if items == [] then 0.0 else LineTotal(items[0]) + TotalPrice(items[1..])
  }

  // ---------------------------------------------------------------------------
  // addToCart

  /** Adding a product that is not in the cart appends exactly one line, at the
      end, with the product's own fields and the given quantity. */
  lemma AddNewProduct(items: seq<CartItem>, x: NewLine, qty: int)
    requires !HasLine(items, x.id)
    ensures var r := AddLine(items, x, qty);
      && |r| == |items| + 1
      && r[..|items|] == items
      && r[|items|] == CartItem(x.id, x.name, x.price, qty, x.image)
      && Find(r, x.id) == Some(r[|items|])
  {
    FindAppendNew(items, LineOf(x, qty));
  }

  lemma FindAppendNew(items: seq<CartItem>, line: CartItem)
    requires !HasLine(items, line.id)
    ensures Find(items + [line], line.id) == Some(line)
  {
    FirstIndexIs(items + [line], line.id, |items|);
  }

  /** Adding a product that is already in the cart keeps the number of lines,
      adds `qty` to that product's line only, and that line keeps its stored
      name, price and image (the new item's fields are not consulted). */
  lemma AddExistingProduct(items: seq<CartItem>, x: NewLine, qty: int)
    requires HasLine(items, x.id)
    ensures |AddLine(items, x, qty)| == |items|
    ensures forall k :: 0 <= k < |items| && items[k].id != x.id ==> AddLine(items, x, qty)[k] == items[k]
    ensures Find(AddLine(items, x, qty), x.id).Some?
    ensures var before, after := Find(items, x.id).value, Find(AddLine(items, x, qty), x.id).value;
      after == before.(qty := before.qty + qty)
  {
    FindAddQty(items, x.id, qty);
  }

  lemma FindAddQty(items: seq<CartItem>, id: string, qty: int)
    requires HasLine(items, id)
    ensures Find(items, id).Some? && Find(AddQty(items, id, qty), id).Some?
    ensures var before, after := Find(items, id).value, Find(AddQty(items, id, qty), id).value;
      after == before.(qty := before.qty + qty)
  {
    var k := FirstIndex(items, id);
    var r := AddQty(items, id, qty);
    assert r[k] == items[k].(qty := items[k].qty + qty);
    assert forall j :: 0 <= j < |r| ==> r[j].id == items[j].id;
    FirstIndexIs(r, id, k);
  }

  /** Lines with other ids are found exactly as before an `addToCart`. */
  lemma AddLineOtherIds(items: seq<CartItem>, x: NewLine, qty: int, other: string)
    requires other != x.id
    ensures Find(AddLine(items, x, qty), other) == Find(items, other)
  {
    var k := FirstIndex(items, other);
    if Find(items, x.id).Some? {
      FirstIndexIs(AddQty(items, x.id, qty), other, k);
    } else {
      FirstIndexIs(items + [LineOf(x, qty)], other, k);
    }
  }

  /** With no line carrying `id`, the quantity map changes nothing. */
  lemma AddQtyAbsent(items: seq<CartItem>, id: string, qty: int)
    requires !HasLine(items, id)
    ensures AddQty(items, id, qty) == items
  {
  }

  /** `addToCart` keeps product ids pairwise distinct. */
  lemma AddLineKeepsIdsDistinct(items: seq<CartItem>, x: NewLine, qty: int)
    requires DistinctIds(items)
    ensures DistinctIds(AddLine(items, x, qty))
  {
  }

  // ---------------------------------------------------------------------------
  // removeFromCart

  /** With no line carrying `id`, removing it changes nothing. */
  lemma {:induction false} RemoveAbsent(items: seq<CartItem>, id: string)
    requires !HasLine(items, id)
    ensures RemoveLines(items, id) == items
  {
    if items != [] {
      RemoveAbsent(items[1..], id);
    }
  }

  /** Removal works piecewise: the survivors of `a + b` are the survivors of `a`
      followed by those of `b`, so the relative order of the lines is kept. */
  lemma {:induction false} RemoveAppend(a: seq<CartItem>, b: seq<CartItem>, id: string)
    ensures RemoveLines(a + b, id) == RemoveLines(a, id) + RemoveLines(b, id)
  {
    if a == [] {
      assert a + b == b;
    } else {
      assert (a + b)[0] == a[0] && (a + b)[1..] == a[1..] + b;
      RemoveAppend(a[1..], b, id);
    }
  }

  /** With distinct ids, removing the id of line `k` drops exactly that line
      and keeps every other line in its original order. */
  lemma RemoveDistinct(items: seq<CartItem>, id: string, k: nat)
    requires DistinctIds(items)
    requires k < |items| && items[k].id == id
    ensures RemoveLines(items, id) == items[..k] + items[k + 1..]
  {
    var pre, line, post := items[..k], items[k], items[k + 1..];
    OnlyLine(items, k);
    RemoveBetween(pre, line, post);
    assert pre + [line] + post == items;
  }

  /** With distinct ids, the id of line `k` occurs neither before nor after it. */
  lemma OnlyLine(items: seq<CartItem>, k: nat)
    requires DistinctIds(items)
    requires k < |items|
    ensures !HasLine(items[..k], items[k].id) && !HasLine(items[k + 1..], items[k].id)
  {
    var pre, post := items[..k], items[k + 1..];
    forall j | 0 <= j < |pre| ensures pre[j].id != items[k].id {
      assert pre[j] == items[j];
    }
    forall j | 0 <= j < |post| ensures post[j].id != items[k].id {
      assert post[j] == items[k + 1 + j];
    }
  }

  /** Removing the id of a line that occurs only once removes just that line. */
  lemma RemoveBetween(pre: seq<CartItem>, line: CartItem, post: seq<CartItem>)
    requires !HasLine(pre, line.id) && !HasLine(post, line.id)
    ensures RemoveLines(pre + [line] + post, line.id) == pre + post
  {
    assert RemoveLines([line], line.id) == [] by {
      assert [line][1..] == [];
    }
    RemoveAbsent(pre, line.id);
    RemoveAppend(pre, [line], line.id);
    assert RemoveLines(pre + [line], line.id) == pre;
    RemoveAbsent(post, line.id);
    RemoveAppend(pre + [line], post, line.id);
  }

  /** Removing keeps product ids pairwise distinct. */
  lemma {:induction false} RemoveKeepsIdsDistinct(items: seq<CartItem>, id: string)
    requires DistinctIds(items)
    ensures DistinctIds(RemoveLines(items, id))
  {
    if items != [] {
      RemoveKeepsIdsDistinct(items[1..], id);
      var rest := RemoveLines(items[1..], id);
      assert forall k :: 0 <= k < |rest| ==> rest[k].id != items[0].id by {
        forall k | 0 <= k < |rest| ensures rest[k].id != items[0].id {
          assert rest[k] in items[1..];
        }
      }
    }
  }

  // ---------------------------------------------------------------------------
  // updateQuantity

  /** A positive quantity sets that product's line only, keeps the number of
      lines, and an unknown id changes nothing. */
  lemma UpdatePositive(items: seq<CartItem>, id: string, qty: int)
    requires qty > 0
    ensures var r := UpdatedLines(items, id, qty);
      && |r| == |items|
      && (forall k :: 0 <= k < |items| ==> r[k].id == items[k].id && r[k].name == items[k].name && r[k].price == items[k].price)
      && (forall k :: 0 <= k < |items| ==> r[k].qty == if items[k].id == id then qty else items[k].qty)
      && (!HasLine(items, id) ==> r == items)
  {
  }

  /** A quantity of zero or less removes the product's line(s). */
  lemma UpdateNonPositive(items: seq<CartItem>, id: string, qty: int)
    requires qty <= 0
    ensures UpdatedLines(items, id, qty) == RemoveLines(items, id)
    ensures !HasLine(UpdatedLines(items, id, qty), id)
  {
  }

  /** `updateQuantity` keeps product ids pairwise distinct. */
  lemma UpdateKeepsIdsDistinct(items: seq<CartItem>, id: string, qty: int)
    requires DistinctIds(items)
    ensures DistinctIds(UpdatedLines(items, id, qty))
  {
    if qty <= 0 {
      RemoveKeepsIdsDistinct(items, id);
    }
  }

  // ---------------------------------------------------------------------------
  // totals

  /** Both totals add up over a concatenation of two lists of lines. */
  lemma {:induction false} TotalsConcat(a: seq<CartItem>, b: seq<CartItem>)
    ensures TotalItems(a + b) == TotalItems(a) + TotalItems(b)
    ensures TotalPrice(a + b) == TotalPrice(a) + TotalPrice(b)
  {
    if a == [] {
      assert a + b == b;
    } else {
      assert (a + b)[1..] == a[1..] + b;
      TotalsConcat(a[1..], b);
    }
  }

  /** The totals of a single line. */
  lemma TotalsSingle(line: CartItem)
    ensures TotalItems([line]) == line.qty && TotalPrice([line]) == LineTotal(line)
  {
    assert [line][1..] == [];
  }

  /** Appending a line raises `totalItems` by its quantity and `totalPrice` by
      its quantity times its price. */
  lemma TotalsAppend(items: seq<CartItem>, line: CartItem)
    ensures TotalItems(items + [line]) == TotalItems(items) + line.qty
    ensures TotalPrice(items + [line]) == TotalPrice(items) + LineTotal(line)
  {
    TotalsConcat(items, [line]);
    TotalsSingle(line);
  }

  /** The totals of a list split around one line. */
  lemma TotalsAround(pre: seq<CartItem>, line: CartItem, post: seq<CartItem>)
    ensures TotalItems(pre + [line] + post) == TotalItems(pre) + line.qty + TotalItems(post)
    ensures TotalPrice(pre + [line] + post) == TotalPrice(pre) + LineTotal(line) + TotalPrice(post)
  {
    TotalsAppend(pre, line);
    TotalsConcat(pre + [line], post);
  }

  /** Adding a product not yet in the cart raises `totalItems` by `qty` and
      `totalPrice` by `qty` times the product's price. */
  lemma AddNewTotals(items: seq<CartItem>, x: NewLine, qty: int)
    requires !HasLine(items, x.id)
    ensures TotalItems(AddLine(items, x, qty)) == TotalItems(items) + qty
    ensures TotalPrice(AddLine(items, x, qty)) == TotalPrice(items) + qty as real * x.price
  {
    assert AddLine(items, x, qty) == items + [LineOf(x, qty)];
    TotalsAppend(items, LineOf(x, qty));
  }

  /** With distinct ids, adding a product already on line `k` raises
      `totalItems` by `qty` and `totalPrice` by `qty` times the STORED price of
      line `k`, whatever price the new item carries. */
  lemma AddExistingTotals(items: seq<CartItem>, x: NewLine, qty: int, k: nat)
    requires DistinctIds(items)
    requires k < |items| && items[k].id == x.id
    ensures TotalItems(AddLine(items, x, qty)) == TotalItems(items) + qty
    ensures TotalPrice(AddLine(items, x, qty)) == TotalPrice(items) + qty as real * items[k].price
  {
    TotalsAddQty(items, x.id, qty, k);
  }

  lemma TotalsAddQty(items: seq<CartItem>, id: string, qty: int, k: nat)
    requires DistinctIds(items)
    requires k < |items| && items[k].id == id
    ensures TotalItems(AddQty(items, id, qty)) == TotalItems(items) + qty
    ensures TotalPrice(AddQty(items, id, qty)) == TotalPrice(items) + qty as real * items[k].price
  {
    OnlyLine(items, k);
    SplitAt(items, k);
    TotalsAddQtyAround(items[..k], items[k], items[k + 1..], qty);
  }

  /** A list is the lines before `k`, line `k` and the lines after it. */
  lemma SplitAt(items: seq<CartItem>, k: nat)
    requires k < |items|
    ensures items == items[..k] + [items[k]] + items[k + 1..]
  {
  }

  /** Adding to the one line carrying an id raises the totals by that line's price. */
  lemma TotalsAddQtyAround(pre: seq<CartItem>, line: CartItem, post: seq<CartItem>, qty: int)
    requires !HasLine(pre, line.id) && !HasLine(post, line.id)
    ensures TotalItems(AddQty(pre + [line] + post, line.id, qty)) == TotalItems(pre + [line] + post) + qty
    ensures TotalPrice(AddQty(pre + [line] + post, line.id, qty)) == TotalPrice(pre + [line] + post) + qty as real * line.price
  {
    AddQtyAround(pre, line, post, qty);
    TotalsAround(pre, line, post);
    TotalsAround(pre, line.(qty := line.qty + qty), post);
    LineTotalAddQty(line, qty);
  }

  /** With the id on one line only, the quantity map changes that line alone. */
  lemma AddQtyAround(pre: seq<CartItem>, line: CartItem, post: seq<CartItem>, qty: int)
    requires !HasLine(pre, line.id) && !HasLine(post, line.id)
    ensures AddQty(pre + [line] + post, line.id, qty) == pre + [line.(qty := line.qty + qty)] + post
  {
    var items, r := pre + [line] + post, pre + [line.(qty := line.qty + qty)] + post;
    forall j | 0 <= j < |items| ensures AddQty(items, line.id, qty)[j] == r[j] {
      if j < |pre| {
        assert items[j] == pre[j] == r[j];
      } else if j > |pre| {
        assert items[j] == post[j - |pre| - 1] == r[j];
      }
    }
  }

  /** Raising a line's quantity by `qty` raises its cost by `qty` times its price. */
  lemma LineTotalAddQty(line: CartItem, qty: int)
    ensures LineTotal(line.(qty := line.qty + qty)) == LineTotal(line) + qty as real * line.price
  {
    assert (line.qty + qty) as real == line.qty as real + qty as real;
  }

  /** An empty cart has no items and costs nothing. */
  /** With every line holding at least one unit, there are at least as many
      units as lines. */
  lemma {:induction false} UnitsAtLeastLines(items: seq<CartItem>)
    requires forall k :: 0 <= k < |items| ==> items[k].qty >= 1
    ensures TotalItems(items) >= |items|
  {
    if items != [] {
      UnitsAtLeastLines(items[1..]);
    }
  }

  /** No negative quantity or price makes a negative total. */
  lemma {:induction false} TotalPriceNonNegative(items: seq<CartItem>)
    requires forall k :: 0 <= k < |items| ==> items[k].qty >= 0 && items[k].price >= 0.0
    ensures TotalPrice(items) >= 0.0
  {
    if items != [] {
      TotalPriceNonNegative(items[1..]);
    }
  }

  lemma EmptyTotals()
    ensures TotalItems([]) == 0 && TotalPrice([]) == 0.0
  {
  }

  // ---------------------------------------------------------------------------
  // the provider

  /** The cart provider: one state cell, replaced by each operation. */
  class CartStore {
    var items: seq<CartItem>

    /** Every operation keeps the product ids of the lines pairwise distinct. */
    ghost predicate Valid()
      reads this
    {
      DistinctIds(items)
    }

    /** `useState<CartItem[]>([])` */
    constructor ()
      ensures items == [] && Valid()
    {
      items := [];
    }

    /** `addToCart(item, qty = 1)` */
    method AddToCart(x: NewLine, qty: int := 1)
      requires Valid()
      modifies this
      ensures Valid()
      ensures items == AddLine(old(items), x, qty)
    {
      var existing := Find(items, x.id);
      if existing.Some? {
        items := AddQty(items, x.id, qty);
        return;
      }
      items := items + [LineOf(x, qty)];
    }

    /** `removeFromCart(id)` */
    method RemoveFromCart(id: string)
      requires Valid()
      modifies this
      ensures Valid()
      ensures items == RemoveLines(old(items), id)
    {
      RemoveKeepsIdsDistinct(items, id);
      items := RemoveLines(items, id);
    }

    /** `updateQuantity(id, qty)`: removal for a quantity of zero or less. */
    method UpdateQuantity(id: string, qty: int)
      requires Valid()
      modifies this
      ensures Valid()
      ensures items == UpdatedLines(old(items), id, qty)
    {
      if qty <= 0 {
        RemoveFromCart(id);
        return;
      }
      items := SetQty(items, id, qty);
    }

    /** `clearCart()` */
    method ClearCart()
      modifies this
      ensures Valid()
      ensures items == [] && TotalItems(items) == 0 && TotalPrice(items) == 0.0
    {
      items := [];
    }
  }
}
