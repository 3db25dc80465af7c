/**
 * The line-item list of the bill form: adding the chosen product as a new item,
 * removing the item at an index, and the running total the form submits.
 */
module BillForm {
  import opened Wrappers
  import opened Schemas

  /** A product as the client lists it: its id with its fields. */
  datatype ListedProduct = ListedProduct(id: ProductId, product: Product)

  /** `newItem`: the product picked in the select (`None` for '') and the quantity typed. */
  datatype PendingItem = PendingItem(productId: Option<ProductId>, quantity: int)

  /** `{ productId: '', quantity: 1 }`. */
  const BlankItem := PendingItem(None, 1)

  /** The items of the form together with the pending item. */
  datatype FormItems = FormItems(items: seq<BillItem>, pending: PendingItem)

  /** `products.find(p => p._id === id)`: the position of the first product with that id. */
  function FindProduct(products: seq<ListedProduct>, id: ProductId): (r: Option<nat>)
    ensures r.Some? ==> r.value < |products| && products[r.value].id == id
    ensures r.Some? ==> forall k :: 0 <= k < r.value ==> products[k].id != id
    ensures r.None? <==> forall k :: 0 <= k < |products| ==> products[k].id != id
  {
    if products == [] then None
    else if products[0].id == id then Some(0)
    else match FindProduct(products[1..], id)
      case None => None
      case Some(k) => Some(k + 1)
  }

  /**
   * `addItem`: nothing happens unless a product is picked and listed; otherwise the
   * product is appended as an item priced at its price times the quantity, and the
   * pending item is reset.
   */
  function AddItem(items: seq<BillItem>, products: seq<ListedProduct>, pending: PendingItem): (r: FormItems)
    ensures pending.productId.None? ==> r == FormItems(items, pending)
    ensures pending.productId.Some? && FindProduct(products, pending.productId.value).None? ==> r == FormItems(items, pending)
    ensures pending.productId.Some? && FindProduct(products, pending.productId.value).Some? ==>
      var p := products[FindProduct(products, pending.productId.value).value];
      && |r.items| == |items| + 1 && r.items[..|items|] == items
      && r.items[|items|].productId == pending.productId.value
      && r.items[|items|].productName == Some(p.product.name)
      && r.items[|items|].quantity == pending.quantity
      && r.items[|items|].unitPrice == p.product.price
      && r.items[|items|].totalPrice == p.product.price * pending.quantity
      && r.pending == BlankItem
  {
    if pending.productId.None? then FormItems(items, pending)
    else match FindProduct(products, pending.productId.value)
      case None => FormItems(items, pending)
      case Some(k) =>
        var p := products[k];
        var item := BillItem(p.id, Some(p.product.name), pending.quantity, p.product.price, p.product.price * pending.quantity);
        assert (items + [item])[..|items|] == items;
        FormItems(items + [item], BlankItem)
  }

  /** `items.filter((_, i) => i !== index)`: exactly the item at `index` goes, the rest keep their order. */
  function RemoveItem(items: seq<BillItem>, index: int): (r: seq<BillItem>)
    ensures 0 <= index < |items| ==> r == items[..index] + items[index + 1..]
    ensures !(0 <= index < |items|) ==> r == items
  {
    if items == [] then []
    else
      var rest := RemoveItem(items[1..], index - 1);
      if index == 0 then
        assert items[1..] == items[..0] + items[1..];
        rest
      else
        assert index > 0 && index < |items| ==> [items[0]] + (items[1..][..index - 1] + items[1..][index..]) == items[..index] + items[index + 1..];
        [items[0]] + rest
  }

  /** `items.reduce((sum, item) => sum + item.totalPrice, 0)`. */
  function FormTotal(items: seq<BillItem>): (r: int)
    ensures items == [] ==> r == 0
    ensures (forall i :: 0 <= i < |items| ==> items[i].totalPrice >= 0) ==> r >= 0
  {
    if items == [] then 0 else FormTotal(items[..|items| - 1]) + items[|items| - 1].totalPrice
  }

  lemma FormTotalAppend(items: seq<BillItem>, item: BillItem)
    ensures FormTotal(items + [item]) == FormTotal(items) + item.totalPrice
  {
    assert (items + [item])[..|items|] == items;
  }

  lemma {:induction false} FormTotalConcat(a: seq<BillItem>, b: seq<BillItem>)
    ensures FormTotal(a + b) == FormTotal(a) + FormTotal(b)
  {
    if b == [] {
      assert a + b == a;
    } else {
      var init := b[..|b| - 1];
      FormTotalConcat(a, init);
      assert (a + b)[..|a + b| - 1] == a + init;
    }
  }

  /** Adding a listed product raises the total by its price times the quantity. */
  lemma AddItemTotal(items: seq<BillItem>, products: seq<ListedProduct>, pending: PendingItem)
    ensures var r := AddItem(items, products, pending);
      var found := pending.productId.Some? && FindProduct(products, pending.productId.value).Some?;
      FormTotal(r.items) == FormTotal(items) +
        (if found then products[FindProduct(products, pending.productId.value).value].product.price * pending.quantity else 0)
  {
    var r := AddItem(items, products, pending);
    if |r.items| == |items| + 1 {
      assert r.items == r.items[..|items|] + [r.items[|items|]];
      FormTotalAppend(items, r.items[|items|]);
    }
  }

  /** The total is the total before an item, that item's price, and the total after it. */
  lemma FormTotalAround(items: seq<BillItem>, index: nat)
    requires index < |items|
    ensures FormTotal(items) == FormTotal(items[..index]) + items[index].totalPrice + FormTotal(items[index + 1..])
  {
    var pre, x, post := items[..index], items[index], items[index + 1..];
    assert items == pre + [x] + post;
    FormTotalAppend(pre, x);
    FormTotalConcat(pre + [x], post);
  }

  /** Removing an item lowers the total by exactly that item's price. */
  lemma RemoveItemTotal(items: seq<BillItem>, index: int)
    requires 0 <= index < |items|
    ensures FormTotal(RemoveItem(items, index)) == FormTotal(items) - items[index].totalPrice
  {
    FormTotalAround(items, index);
    FormTotalConcat(items[..index], items[index + 1..]);
  }

  /** Removing the item just added gives back the earlier list. */
  lemma RemoveUndoesAdd(items: seq<BillItem>, products: seq<ListedProduct>, pending: PendingItem)
    requires pending.productId.Some? && FindProduct(products, pending.productId.value).Some?
    ensures RemoveItem(AddItem(items, products, pending).items, |items|) == items
  {
    var r := AddItem(items, products, pending).items;
    assert r[..|items|] == items;
    assert r[|items| + 1..] == [];
  }
}
