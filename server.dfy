/**
 * The bill service of the backend: sequential bill numbers derived from a count, bill
 * creation that lowers the stock of the products sold, bill update and delete (which
 * leave stock alone), the product routes, the not-found paths and the dashboard
 * statistics. The two collections are held by one `Store` object.
 */
module Server {
  import opened Wrappers
  import opened Text
  import opened Schemas

  const LowStockThreshold := 10

  /**
   * The number a new bill gets when `count` bills exist: "BILL-" and `count + 1` in
   * decimal, padded with '0' on the left to at least six digits and never cut short.
   */
  function BillNumber(count: nat): (s: string)
    ensures StartsWith(s, "BILL-") && AllDigits(s[5..])
    ensures |s| == 5 + (if |NatToString(count + 1)| >= 6 then |NatToString(count + 1)| else 6)
    ensures EndsWith(s, NatToString(count + 1))
  {
    var digits := PadStart(NatToString(count + 1), 6, '0');
    assert ("BILL-" + digits)[5..] == digits;
    "BILL-" + digits
  }

  /** Reads the sequence number back out of a bill number. */
  function ParseBillNumber(s: string): Option<nat>
  {
    if StartsWith(s, "BILL-") && AllDigits(s[5..]) then Some(ParseDigits(s[5..])) else None
  }

  lemma BillNumberRoundTrip(count: nat)
    ensures ParseBillNumber(BillNumber(count)) == Some(count + 1)
  {
    var digits := NatToString(count + 1);
    var s := BillNumber(count);
    ParseNatToString(count + 1);
    if |digits| < 6 {
      ParseLeadingZeros(6 - |digits|, digits);
      assert s[5..] == Repeat('0', 6 - |digits|) + digits;
    } else {
      assert s[5..] == digits;
    }
  }

  /** Different counts never give the same bill number. */
  lemma BillNumberInjective(a: nat, b: nat)
    requires BillNumber(a) == BillNumber(b)
    ensures a == b
  {
    BillNumberRoundTrip(a);
    BillNumberRoundTrip(b);
  }

  predicate NumberTaken(bills: seq<Bill>, number: string)
  {
    exists i :: 0 <= i < |bills| && bills[i].billNumber == number
  }

  /**
   * The checks of `POST /api/bills` before anything is written: the bill number is
   * derived from the count, the body is validated with that number in place of its own,
   * and the unique index refuses a number some stored bill already has.
   */
  function PrepareBill(body: BillBody, bills: seq<Bill>, id: BillId): (r: Result<Bill, Failure>)
    ensures r.Success? ==> r == ValidateBill(body, BillNumber(|bills|), id)
    ensures r.Success? ==> r.value.billNumber == BillNumber(|bills|) && r.value.id == id
    ensures r.Success? ==> BillFieldsOk(r.value) && !NumberTaken(bills, r.value.billNumber)
    ensures r.Success? <==> BillBodyOk(body) && !NumberTaken(bills, BillNumber(|bills|))
    ensures r == Failure(DuplicateBillNumber) <==> BillBodyOk(body) && NumberTaken(bills, BillNumber(|bills|))
    ensures r.Failure? ==> r.error != NotFound
  {
    var number := BillNumber(|bills|);
    var bill := ValidateBill(body, number, id);
    if bill.Failure? then bill
    else if NumberTaken(bills, number) then Failure(DuplicateBillNumber)
    else bill
  }

  /** Whatever `billNumber` a client sends, creation gives the same outcome. */
  lemma ClientNumberIgnored(body: BillBody, bills: seq<Bill>, id: BillId, sent: Option<string>)
    ensures PrepareBill(body.(billNumber := sent), bills, id) == PrepareBill(body, bills, id)
  {
  }

  /** The bill list with the bill at position `k` removed. */
  function RemoveAt(bills: seq<Bill>, k: nat): (r: seq<Bill>)
    requires k < |bills|
    ensures |r| == |bills| - 1
    ensures forall i :: 0 <= i < k ==> r[i] == bills[i]
    ensures forall i :: k <= i < |r| ==> r[i] == bills[i + 1]
  {
    bills[..k] + bills[k + 1..]
  }

  /**
   * Bills numbered one after another with no deletion: after deleting any bill but the
   * newest, the next number is one that is still stored, so creation is refused.
   */
  lemma DeleteThenCreateCollides(bills: seq<Bill>, k: nat, body: BillBody, id: BillId)
    requires forall i :: 0 <= i < |bills| ==> bills[i].billNumber == BillNumber(i)
    requires k < |bills| - 1
    requires BillBodyOk(body)
    ensures PrepareBill(body, RemoveAt(bills, k), id) == Failure(DuplicateBillNumber)
  {
    var rest := RemoveAt(bills, k);
    assert rest[|bills| - 2].billNumber == BillNumber(|rest|);
  }

  /** One `findByIdAndUpdate(productId, {$inc: {units: -quantity}})`; an unknown id matches nothing. */
  function SellOne(products: map<ProductId, Product>, item: BillItem): (r: map<ProductId, Product>)
    ensures r.Keys == products.Keys
    ensures forall id {:trigger r[id]} :: id in products ==>
      r[id] == products[id].(units := products[id].units - (if id == item.productId then item.quantity else 0))
  {
    if item.productId in products then
      products[item.productId := products[item.productId].(units := products[item.productId].units - item.quantity)]
    else products
  }

  /** The stock updates for a bill's items, one after another in list order. */
  function ApplySale(products: map<ProductId, Product>, items: seq<BillItem>): (r: map<ProductId, Product>)
    ensures r.Keys == products.Keys
    ensures forall id {:trigger r[id]} :: id in products ==> r[id].(units := products[id].units) == products[id]
  {
    if items == [] then products else SellOne(ApplySale(products, items[..|items| - 1]), items[|items| - 1])
  }

  /** The `$inc` on a listed product replaces its document by one with fewer units. */
  lemma SellOneListed(products: map<ProductId, Product>, item: BillItem, p: Product, after: map<ProductId, Product>)
    requires item.productId in products && p == products[item.productId]
    requires after == products[item.productId := p.(units := p.units - item.quantity)]
    ensures after == SellOne(products, item)
  {
  }

  /** The `$inc` on an id no product has matches nothing. */
  lemma SellOneUnlisted(products: map<ProductId, Product>, item: BillItem)
    requires item.productId !in products
    ensures SellOne(products, item) == products
  {
  }

  /** Selling the items up to `k` is selling those before it, then item `k`. */
  lemma SaleStep(products: map<ProductId, Product>, items: seq<BillItem>, k: nat, before: map<ProductId, Product>, after: map<ProductId, Product>)
    requires k < |items|
    requires before == ApplySale(products, items[..k]) && after == SellOne(before, items[k])
    ensures after == ApplySale(products, items[..k + 1])
  {
    assert items[..k + 1][..k] == items[..k];
  }

  /** The total quantity of the items that reference `id`. */
  function QuantityOf(items: seq<BillItem>, id: ProductId): int
  {
    if items == [] then 0
    else QuantityOf(items[..|items| - 1], id) + (if items[|items| - 1].productId == id then items[|items| - 1].quantity else 0)
  }

  /**
   * A sale lowers each product's units by the total quantity of the items that
   * reference it (repeated references add up) and changes nothing else.
   */
  lemma {:induction false} SaleEffect(products: map<ProductId, Product>, items: seq<BillItem>)
    ensures ApplySale(products, items).Keys == products.Keys
    ensures forall id :: id in products ==>
      ApplySale(products, items)[id] == products[id].(units := products[id].units - QuantityOf(items, id))
  {
    if items != [] {
      SaleEffect(products, items[..|items| - 1]);
    }
  }

  lemma {:induction false} QuantityOfUnreferenced(items: seq<BillItem>, id: ProductId)
    requires forall i :: 0 <= i < |items| ==> items[i].productId != id
    ensures QuantityOf(items, id) == 0
  {
    if items != [] {
      QuantityOfUnreferenced(items[..|items| - 1], id);
    }
  }

  lemma {:induction false} QuantityOfPositive(items: seq<BillItem>, id: ProductId)
    requires forall i :: 0 <= i < |items| ==> items[i].quantity >= 1
    ensures QuantityOf(items, id) >= 0
    ensures (exists i :: 0 <= i < |items| && items[i].productId == id) ==> QuantityOf(items, id) >= 1
  {
    if items != [] {
      var init := items[..|items| - 1];
      QuantityOfPositive(init, id);
      if exists i :: 0 <= i < |items| && items[i].productId == id {
        var i :| 0 <= i < |items| && items[i].productId == id;
        if i < |items| - 1 {
          assert init[i].productId == id;
        }
      }
    }
  }

  /** A product that no item references keeps its document exactly. */
  lemma SaleLeavesOthers(products: map<ProductId, Product>, items: seq<BillItem>, id: ProductId)
    requires id in products
    requires forall i :: 0 <= i < |items| ==> items[i].productId != id
    ensures id in ApplySale(products, items) && ApplySale(products, items)[id] == products[id]
  {
    SaleEffect(products, items);
    QuantityOfUnreferenced(items, id);
  }

  /** The decrement runs without validators: selling more than the stock leaves negative units. */
  lemma SaleCanOversell(p: Product)
    requires p.units == 1
    ensures var after := ApplySale(map[7 := p], [BillItem(7, None, 3, 5, 15)]);
      7 in after && after[7].units == -2
  {
    var items := [BillItem(7, None, 3, 5, 15)];
    assert items[..0] == [];
  }

  /** Deleting a bill takes exactly its amount out of the revenue. */
  lemma {:induction false} RevenueRemoveAt(bills: seq<Bill>, k: nat)
    requires k < |bills|
    ensures AmountOf(RemoveAt(bills, k)) == AmountOf(bills) - bills[k].totalAmount
  {
    var n := |bills|;
    var init, last := bills[..n - 1], bills[n - 1];
    assert AmountOf(bills) == AmountOf(init) + last.totalAmount;
    if k == n - 1 {
      assert RemoveAt(bills, k) == init;
    } else {
      var rest := RemoveAt(init, k);
      RevenueRemoveAt(init, k);
      assert init[k] == bills[k];
      assert RemoveAt(bills, k) == rest + [last];
      AmountOfAppend(rest, last);
    }
  }

  /** The products counted as low on stock: fewer than ten units. */
  function LowStock(products: map<ProductId, Product>): (r: set<ProductId>)
    ensures r <= products.Keys
    ensures forall id :: id in products ==> (id in r <==> products[id].units < LowStockThreshold)
  {
    set id | id in products && products[id].units < LowStockThreshold
  }

  datatype DashboardStats = DashboardStats(
    totalProducts: nat,
    totalBills: nat,
    totalRevenue: int,
    lowStockProducts: nat)

  /**
   * `GET /api/dashboard/stats`: the two counts, the `$sum` of `totalAmount` (0 without
   * bills) and the number of products with fewer than ten units.
   */
  function StatsOf(products: map<ProductId, Product>, bills: seq<Bill>): (s: DashboardStats)
    ensures s == DashboardStats(|products|, |bills|, AmountOf(bills), |LowStock(products)|)
    ensures s.lowStockProducts <= s.totalProducts
  {
    var low := LowStock(products);
    assert |low| <= |products.Keys| by {
      Subset(low, products.Keys);
    }
    DashboardStats(|products|, |bills|, AmountOf(bills), |low|)
  }

  lemma Subset(a: set<ProductId>, b: set<ProductId>)
    requires a <= b
    ensures |a| <= |b|
  {
    assert b == a + (b - a);
  }

  /** With every quantity at least 1, a sale never takes a product off the low-stock list. */
  lemma LowStockAfterSale(products: map<ProductId, Product>, items: seq<BillItem>)
    requires forall i :: 0 <= i < |items| ==> items[i].quantity >= 1
    ensures LowStock(products) <= LowStock(ApplySale(products, items))
    ensures |LowStock(products)| <= |LowStock(ApplySale(products, items))|
  {
    SaleEffect(products, items);
    forall id | id in LowStock(products) ensures id in LowStock(ApplySale(products, items)) {
      QuantityOfPositive(items, id);
    }
    Subset(LowStock(products), LowStock(ApplySale(products, items)));
  }

  /**
   * The dashboard after a bill is created: one more bill, revenue up by its amount, the
   * same number of products and no fewer of them low on stock.
   */
  lemma StatsAfterCreate(products: map<ProductId, Product>, bills: seq<Bill>, body: BillBody, id: BillId)
    requires BillBodyOk(body) && !NumberTaken(bills, BillNumber(|bills|))
    ensures PrepareBill(body, bills, id).Success?
    ensures var b := PrepareBill(body, bills, id).value;
      var before := StatsOf(products, bills);
      var after := StatsOf(ApplySale(products, b.items), bills + [b]);
      && after.totalBills == before.totalBills + 1
      && after.totalRevenue == before.totalRevenue + b.totalAmount
      && after.totalProducts == before.totalProducts
      && after.lowStockProducts >= before.lowStockProducts
  {
    var b := PrepareBill(body, bills, id).value;
    AmountOfAppend(bills, b);
    SaleEffect(products, b.items);
    LowStockAfterSale(products, b.items);
  }

  /** The position of the bill with a given id, if any. */
  function FindBill(bills: seq<Bill>, id: BillId): (r: Option<nat>)
    ensures r.Some? ==> r.value < |bills| && bills[r.value].id == id
    ensures r.None? <==> forall i :: 0 <= i < |bills| ==> bills[i].id != id
  {
    if bills == [] then None
    else if bills[0].id == id then Some(0)
    else match FindBill(bills[1..], id)
      case None => None
      case Some(k) => Some(k + 1)
  }

  /**
   * `PUT /api/bills/:id`: the update validators run first, then the lookup, then the
   * unique index on `billNumber` against every other bill.
   */
  function PatchBill(bills: seq<Bill>, id: BillId, body: BillBody): (r: Result<Bill, Failure>)
    ensures r == Failure(NotFound) <==> BillUpdateOk(body) && FindBill(bills, id).None?
    ensures r == Failure(Invalid) <==> !BillUpdateOk(body)
    ensures r.Success? ==> FindBill(bills, id).Some? && r.value.id == id
    ensures r.Success? ==> BillUpdateOk(body) && r.value == PatchedBill(bills[FindBill(bills, id).value], body)
    ensures r.Success? ==> forall j :: 0 <= j < |bills| && j != FindBill(bills, id).value ==>
      bills[j].billNumber != r.value.billNumber
    ensures r == Failure(DuplicateBillNumber) <==>
      && BillUpdateOk(body) && FindBill(bills, id).Some?
      && NumberTakenElsewhere(bills, FindBill(bills, id).value, PatchedBill(bills[FindBill(bills, id).value], body).billNumber)
  {
    if !BillUpdateOk(body) then Failure(Invalid)
    else match FindBill(bills, id)
      case None => Failure(NotFound)
      case Some(k) =>
        var b := UpdateBillFields(bills[k], body).value;
        if NumberTakenElsewhere(bills, k, b.billNumber) then Failure(DuplicateBillNumber)
        else Success(b)
  }

  /** Some bill other than the one at position `k` holds `number`. */
  predicate NumberTakenElsewhere(bills: seq<Bill>, k: nat, number: string)
  {
    exists j :: 0 <= j < |bills| && j != k && bills[j].billNumber == number
  }

  /** Creation never answers 404: every refusal of `POST /api/bills` is a 400. */
  lemma CreateRefusedWith400(body: BillBody, bills: seq<Bill>, id: BillId)
    requires PrepareBill(body, bills, id).Failure?
    ensures HttpStatus(PrepareBill(body, bills, id).error) == 400
  {
  }

  /** An update answers 404 exactly when its body is valid and no bill has the id. */
  lemma UpdateStatusCodes(bills: seq<Bill>, id: BillId, body: BillBody)
    requires PatchBill(bills, id, body).Failure?
    ensures HttpStatus(PatchBill(bills, id, body).error) == 404 <==> BillUpdateOk(body) && FindBill(bills, id).None?
    ensures HttpStatus(PatchBill(bills, id, body).error) == 400 <==> !BillUpdateOk(body) || FindBill(bills, id).Some?
  {
  }

  /** Every stored product passed its validators and has an id below `nextId`. */
  ghost predicate ProductsOk(products: map<ProductId, Product>, nextId: nat)
  {
    forall id :: id in products ==> id < nextId && ProductFieldsOk(products[id])
  }

  /** Every stored bill passed its validators; ids and bill numbers are unique. */
  ghost predicate BillsOk(bills: seq<Bill>, nextId: nat)
  {
    && (forall i :: 0 <= i < |bills| ==> bills[i].id < nextId && BillFieldsOk(bills[i]))
    && (forall i, j :: 0 <= i < j < |bills| ==> bills[i].id != bills[j].id)
    && (forall i, j :: 0 <= i < j < |bills| ==> bills[i].billNumber != bills[j].billNumber)
  }

  /** A validated product stored under the next id keeps the product invariant. */
  lemma AddProductKeepsProductsOk(products: map<ProductId, Product>, nextId: nat, p: Product)
    requires ProductsOk(products, nextId) && ProductFieldsOk(p)
    ensures nextId !in products && ProductsOk(products[nextId := p], nextId + 1)
  {
  }

  /** A sale changes units only, which the product invariant leaves open. */
  lemma SaleKeepsProductsOk(products: map<ProductId, Product>, items: seq<BillItem>, nextId: nat)
    requires ProductsOk(products, nextId)
    ensures ProductsOk(ApplySale(products, items), nextId)
  {
    SaleEffect(products, items);
  }

  /** Storing a validated bill with a fresh id and a free number keeps the bill invariant. */
  lemma StoreBillKeepsBillsOk(bills: seq<Bill>, b: Bill, nextId: nat)
    requires BillsOk(bills, nextId)
    requires b.id == nextId && BillFieldsOk(b) && !NumberTaken(bills, b.billNumber)
    ensures BillsOk(bills + [b], nextId + 1)
  {
  }

  class Store {
    var products: map<ProductId, Product>
    var bills: seq<Bill>
    var nextProductId: nat
    var nextBillId: nat

    /** Every stored document passed its validators; ids and bill numbers are unique. */
    ghost predicate Valid()
      reads this
    {
      ProductsOk(products, nextProductId) && BillsOk(bills, nextBillId)
    }

    constructor ()
      ensures Valid() && products == map[] && bills == []
    {
      products, bills := map[], [];
      nextProductId, nextBillId := 0, 0;
    }

    /** `GET /api/dashboard/stats`. */
    function Stats(): (s: DashboardStats)
      reads this
      ensures s.totalProducts == |products| && s.totalBills == |bills|
      ensures s.totalRevenue == AmountOf(bills) && s.lowStockProducts == |LowStock(products)|
    {
      StatsOf(products, bills)
    }

    /** `POST /api/products`: 400 unless the body passes the product validators. */
    method CreateProduct(body: ProductBody) returns (r: Result<ProductId, Failure>)
      requires Valid()
      modifies this
      ensures Valid() && bills == old(bills)
      ensures r.Success? <==> ValidateProduct(body).Success?
      ensures r.Success? ==> r.value !in old(products) && products == old(products)[r.value := ValidateProduct(body).value]
      ensures r.Failure? ==> r.error == Invalid && products == old(products)
    {
      var product := ValidateProduct(body);
      if product.Failure? {
        return Failure(Invalid);
      }
      var id := nextProductId;
      AddProductKeepsProductsOk(products, id, product.value);
      products := products[id := product.value];
      nextProductId := nextProductId + 1;
      r := Success(id);
    }

    /** `GET /api/products/:id`. */
    method GetProduct(id: ProductId) returns (r: Result<Product, Failure>)
      ensures r.Success? <==> id in products
      ensures r.Success? ==> r.value == products[id]
      ensures r.Failure? ==> r.error == NotFound
    {
      if id !in products {
        return Failure(NotFound);
      }
      r := Success(products[id]);
    }

    /** `PUT /api/products/:id`: the update validators run before the lookup. */
    method UpdateProduct(id: ProductId, body: ProductBody) returns (r: Result<Product, Failure>)
      requires Valid()
      modifies this
      ensures Valid() && bills == old(bills)
      ensures r.Success? ==> id in old(products) && r == UpdateProductFields(old(products)[id], body)
      ensures r.Success? ==> products == old(products)[id := r.value]
      ensures r.Failure? ==> products == old(products)
      ensures r == Failure(NotFound) <==> id !in old(products) && ProductUpdateOk(body)
      ensures r == Failure(Invalid) <==> !ProductUpdateOk(body)
    {
      if !ProductUpdateOk(body) {
        return Failure(Invalid);
      }
      if id !in products {
        return Failure(NotFound);
      }
      r := UpdateProductFields(products[id], body);
      products := products[id := r.value];
    }

    /** `DELETE /api/products/:id`; bills that reference the product keep their items. */
    method DeleteProduct(id: ProductId) returns (r: Result<Product, Failure>)
      requires Valid()
      modifies this
      ensures Valid() && bills == old(bills)
      ensures r.Success? <==> id in old(products)
      ensures r.Success? ==> r.value == old(products)[id] && products == old(products) - {id}
      ensures r.Failure? ==> r.error == NotFound && products == old(products)
    {
      if id !in products {
        return Failure(NotFound);
      }
      r := Success(products[id]);
      products := products - {id};
    }

    /** `GET /api/bills/:id`. */
    method GetBill(id: BillId) returns (r: Result<Bill, Failure>)
      ensures r.Success? <==> exists i :: 0 <= i < |bills| && bills[i].id == id
      ensures r.Success? ==> r.value in bills && r.value.id == id
      ensures r.Failure? ==> r.error == NotFound
    {
      var k := FindBill(bills, id);
      if k.None? {
        return Failure(NotFound);
      }
      r := Success(bills[k.value]);
    }

    /**
     * `POST /api/bills`: number the bill from the count, validate and store it, then
     * lower the stock of each referenced product, one item at a time.
     */
    method CreateBill(body: BillBody) returns (r: Result<Bill, Failure>)
      requires Valid()
      modifies this
      ensures Valid()
      ensures r == PrepareBill(body, old(bills), old(nextBillId))
      ensures r.Success? ==> bills == old(bills) + [r.value] && products == ApplySale(old(products), r.value.items)
      ensures r.Failure? ==> bills == old(bills) && products == old(products)
    {
      // Count, number and save: validators first, then the unique index.
      r := PrepareBill(body, bills, nextBillId);
      if r.Failure? {
        return;
      }
      StoreBill(r.value);
      SellItems(r.value.items);
    }

    /** `bill.save()` once the number is known to be free: the bill goes in under the next id. */
    method StoreBill(bill: Bill)
      requires BillsOk(bills, nextBillId)
      requires bill.id == nextBillId && BillFieldsOk(bill) && !NumberTaken(bills, bill.billNumber)
      modifies this`bills, this`nextBillId
      ensures BillsOk(bills, nextBillId)
      ensures bills == old(bills) + [bill] && nextBillId == old(nextBillId) + 1
    {
      StoreBillKeepsBillsOk(bills, bill, nextBillId);
      bills := bills + [bill];
      nextBillId := nextBillId + 1;
    }

    /** The stock-update loop of bill creation: one `$inc` per item, in list order. */
    method SellItems(items: seq<BillItem>)
      requires ProductsOk(products, nextProductId)
      modifies this`products
      ensures ProductsOk(products, nextProductId)
      ensures products == ApplySale(old(products), items)
    {
      var i := 0;
      while i < |items|
        invariant 0 <= i <= |items|
        invariant products == ApplySale(old(products), items[..i])
      {
        var item := items[i];
        ghost var before := products;
        if item.productId in products {
          var p := products[item.productId];
          products := products[item.productId := p.(units := p.units - item.quantity)];
          SellOneListed(before, item, p, products);
        } else {
          SellOneUnlisted(before, item);
        }
        SaleStep(old(products), items, i, before, products);
        i := i + 1;
      }
      assert items[..i] == items;
      SaleKeepsProductsOk(old(products), items, nextProductId);
    }

    /** `PUT /api/bills/:id`: the bill changes, the stock does not. */
    method UpdateBill(id: BillId, body: BillBody) returns (r: Result<Bill, Failure>)
      requires Valid()
      modifies this
      ensures Valid() && products == old(products)
      ensures r == PatchBill(old(bills), id, body)
      ensures r.Success? ==> bills == old(bills)[FindBill(old(bills), id).value := r.value]
      ensures r.Failure? ==> bills == old(bills)
    {
      r := PatchBill(bills, id, body);
      if r.Success? {
        var k := FindBill(bills, id).value;
        PatchKeepsBillValid(bills[k], body);
        bills := bills[k := r.value];
      }
    }

    /** `DELETE /api/bills/:id`: the bill goes, the stock it took is not given back. */
    method DeleteBill(id: BillId) returns (r: Result<Bill, Failure>)
      requires Valid()
      modifies this
      ensures Valid() && products == old(products)
      ensures r.Success? <==> FindBill(old(bills), id).Some?
      ensures r.Success? ==> r.value.id == id && bills == RemoveAt(old(bills), FindBill(old(bills), id).value)
      ensures r.Success? ==> r.value == old(bills)[FindBill(old(bills), id).value]
      ensures r.Failure? ==> r.error == NotFound && bills == old(bills)
    {
      var k := FindBill(bills, id);
      if k.None? {
        return Failure(NotFound);
      }
      r := Success(bills[k.value]);
      bills := RemoveAt(bills, k.value);
    }
  }
}
