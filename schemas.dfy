/**
 * The two Mongoose schemas of the backend: a product, and a bill with embedded line
 * items. A request body is a document whose fields may be missing; the validators
 * either reject it or turn it into the stored document (string paths marked `trim`
 * are trimmed, missing enum paths take their default).
 */
module Schemas {
  import opened Wrappers
  import opened Text

  type ProductId = nat
  type BillId = nat

  datatype PaymentStatus = Paid | Pending | Partial

  datatype PaymentMethod = Cash | Card | Upi | Credit

  function StatusName(s: PaymentStatus): string
  {
    match s
    case Paid => "paid"
    case Pending => "pending"
    case Partial => "partial"
  }

  function MethodName(m: PaymentMethod): string
  {
    match m
    case Cash => "cash"
    case Card => "card"
    case Upi => "upi"
    case Credit => "credit"
  }

  /** The enum validator of `paymentStatus`: exactly the three status names are accepted. */
  function ParseStatus(name: string): (r: Option<PaymentStatus>)
    ensures r.Some? ==> StatusName(r.value) == name
    ensures forall s :: StatusName(s) == name ==> r == Some(s)
  {
    if name == "paid" then Some(Paid)
    else if name == "pending" then Some(Pending)
    else if name == "partial" then Some(Partial)
    else None
  }

  /** The enum validator of `paymentMethod`: exactly the four method names are accepted. */
  function ParseMethod(name: string): (r: Option<PaymentMethod>)
    ensures r.Some? ==> MethodName(r.value) == name
    ensures forall m :: MethodName(m) == name ==> r == Some(m)
  {
    if name == "cash" then Some(Cash)
    else if name == "card" then Some(Card)
    else if name == "upi" then Some(Upi)
    else if name == "credit" then Some(Credit)
    else None
  }

  /** Money in whole rupees and quantities in whole units. */
  datatype Product = Product(
    name: string,
    units: int,
    weight: int,
    price: int,
    category: string,
    description: Option<string>)

  datatype BillItem = BillItem(
    productId: ProductId,
    productName: Option<string>,
    quantity: int,
    unitPrice: int,
    totalPrice: int)

  datatype Bill = Bill(
    id: BillId,
    billNumber: string,
    customerName: string,
    customerPhone: Option<string>,
    items: seq<BillItem>,
    totalAmount: int,
    paymentStatus: PaymentStatus,
    paymentMethod: PaymentMethod)

  /** Why a request fails: a validator, the unique index on `billNumber`, or a missing id. */
  datatype Failure = Invalid | DuplicateBillNumber | NotFound

  /** The status code a route answers a failure with: 404 for a missing id, 400 for everything else. */
  function HttpStatus(f: Failure): (code: int)
    ensures code == 404 <==> f == NotFound
    ensures code == 400 <==> f != NotFound
  {
    if f == NotFound then 404 else 400
  }

  /** Request bodies: a field the client did not send is `None`. */
  datatype ProductBody = ProductBody(
    name: Option<string>,
    units: Option<int>,
    weight: Option<int>,
    price: Option<int>,
    category: Option<string>,
    description: Option<string>)

  datatype ItemBody = ItemBody(
    productId: Option<ProductId>,
    productName: Option<string>,
    quantity: Option<int>,
    unitPrice: Option<int>,
    totalPrice: Option<int>)

  datatype BillBody = BillBody(
    billNumber: Option<string>,
    customerName: Option<string>,
    customerPhone: Option<string>,
    items: Option<seq<ItemBody>>,
    totalAmount: Option<int>,
    paymentStatus: Option<string>,
    paymentMethod: Option<string>)

  /** The `trim: true` setter, applied to a path when it is present. */
  function TrimmedOpt(v: Option<string>): Option<string>
  {
    if v.Some? then Some(Trim(v.value)) else None
  }

  /** A required string path: present and non-empty once its `trim` setter has run. */
  predicate TextPresent(v: Option<string>)
  {
    v.Some? && Trim(v.value) != ""
  }

  /** A required number path with a `min` bound. */
  predicate NumberAtLeast(v: Option<int>, min: int)
  {
    v.Some? && v.value >= min
  }

  /** Update validators check only the paths a body sets. */
  predicate TextUpdateOk(v: Option<string>)
  {
    v.None? || Trim(v.value) != ""
  }

  predicate NumberUpdateOk(v: Option<int>, min: int)
  {
    v.None? || v.value >= min
  }

  predicate StatusUpdateOk(v: Option<string>)
  {
    v.None? || ParseStatus(v.value).Some?
  }

  predicate MethodUpdateOk(v: Option<string>)
  {
    v.None? || ParseMethod(v.value).Some?
  }

  /**
   * What every stored product keeps. `units` is left out on purpose: a sale lowers it
   * with validators switched off, so it can go below zero.
   */
  predicate ProductFieldsOk(p: Product)
  {
    p.name != "" && p.weight >= 0 && p.price >= 0 && p.category != ""
  }

  /** What every stored bill keeps. */
  predicate BillFieldsOk(b: Bill)
  {
    && b.billNumber != ""
    && b.customerName != ""
    && b.totalAmount >= 0
    && forall i :: 0 <= i < |b.items| ==> b.items[i].quantity >= 1
  }

  /** `new Product(body)` followed by the validation `save()` runs. */
  function ValidateProduct(body: ProductBody): (r: Result<Product, Failure>)
    ensures r.Success? <==>
      && TextPresent(body.name) && NumberAtLeast(body.units, 0) && NumberAtLeast(body.weight, 0)
      && NumberAtLeast(body.price, 0) && TextPresent(body.category)
    ensures r.Success? ==>
      && ProductFieldsOk(r.value) && r.value.units >= 0
      && r.value.name == Trim(body.name.value) && r.value.category == Trim(body.category.value)
      && r.value.units == body.units.value && r.value.weight == body.weight.value
      && r.value.price == body.price.value && r.value.description == TrimmedOpt(body.description)
    ensures r.Failure? ==> r.error == Invalid
  {
    if !TextPresent(body.name) then Failure(Invalid)
    else if !NumberAtLeast(body.units, 0) then Failure(Invalid)
    else if !NumberAtLeast(body.weight, 0) then Failure(Invalid)
    else if !NumberAtLeast(body.price, 0) then Failure(Invalid)
    else if !TextPresent(body.category) then Failure(Invalid)
    else Success(Product(Trim(body.name.value), body.units.value, body.weight.value,
                         body.price.value, Trim(body.category.value), TrimmedOpt(body.description)))
  }

  /** The update validators of a product body: only the paths it sets are checked. */
  predicate ProductUpdateOk(body: ProductBody)
  {
    && TextUpdateOk(body.name) && NumberUpdateOk(body.units, 0) && NumberUpdateOk(body.weight, 0)
    && NumberUpdateOk(body.price, 0) && TextUpdateOk(body.category)
  }

  /** `findByIdAndUpdate(id, body, {runValidators: true})` applied to one product. */
  function UpdateProductFields(p: Product, body: ProductBody): (r: Result<Product, Failure>)
    ensures r.Success? <==> ProductUpdateOk(body)
    ensures r.Success? ==> r.value == PatchedProduct(p, body)
    ensures r.Failure? ==> r.error == Invalid
  {
    if !ProductUpdateOk(body) then Failure(Invalid) else Success(PatchedProduct(p, body))
  }

  /** The paths a valid update body sets replace the product's fields; the others stay. */
  function PatchedProduct(p: Product, body: ProductBody): (r: Product)
    requires ProductUpdateOk(body)
    ensures ProductFieldsOk(p) ==> ProductFieldsOk(r)
    ensures r.name == (if body.name.Some? then Trim(body.name.value) else p.name)
    ensures r.units == (if body.units.Some? then body.units.value else p.units)
    ensures r.weight == (if body.weight.Some? then body.weight.value else p.weight)
    ensures r.price == (if body.price.Some? then body.price.value else p.price)
    ensures r.category == (if body.category.Some? then Trim(body.category.value) else p.category)
    ensures r.description == (if body.description.Some? then TrimmedOpt(body.description) else p.description)
  {
    Product(
      if body.name.Some? then Trim(body.name.value) else p.name,
      if body.units.Some? then body.units.value else p.units,
      if body.weight.Some? then body.weight.value else p.weight,
      if body.price.Some? then body.price.value else p.price,
      if body.category.Some? then Trim(body.category.value) else p.category,
      if body.description.Some? then TrimmedOpt(body.description) else p.description)
  }

  /** The validators of one embedded line item. */
  predicate ItemBodyOk(body: ItemBody)
  {
    body.productId.Some? && NumberAtLeast(body.quantity, 1) && body.unitPrice.Some? && body.totalPrice.Some?
  }

  function ValidateItem(body: ItemBody): (r: Result<BillItem, Failure>)
    ensures r.Success? <==> ItemBodyOk(body)
    ensures r.Success? ==> r.value == BillItem(body.productId.value, body.productName,
                                               body.quantity.value, body.unitPrice.value, body.totalPrice.value)
  {
    if body.productId.None? then Failure(Invalid)
    else if !NumberAtLeast(body.quantity, 1) then Failure(Invalid)
    else if body.unitPrice.None? then Failure(Invalid)
    else if body.totalPrice.None? then Failure(Invalid)
    else Success(BillItem(body.productId.value, body.productName,
                          body.quantity.value, body.unitPrice.value, body.totalPrice.value))
  }

  /** The item array is accepted when every item is; items keep their order. */
  function ValidateItems(items: seq<ItemBody>): (r: Result<seq<BillItem>, Failure>)
    ensures r.Success? <==> forall i :: 0 <= i < |items| ==> ItemBodyOk(items[i])
    ensures r.Success? ==> |r.value| == |items|
    ensures r.Success? ==> forall i :: 0 <= i < |r.value| ==> r.value[i].quantity >= 1
    ensures r.Success? ==> forall i :: 0 <= i < |items| ==> Success(r.value[i]) == ValidateItem(items[i])
    ensures r.Failure? ==> r.error == Invalid
  {
    if items == [] then Success([])
    else
      var head := ValidateItem(items[0]);
      var tail := ValidateItems(items[1..]);
      if head.Failure? then Failure(Invalid)
      else if tail.Failure? then
        assert !ItemBodyOk(items[1..][0]) || exists i :: 1 <= i < |items| && !ItemBodyOk(items[i]);
        Failure(Invalid)
      else Success([head.value] + tail.value)
  }

  /** The validators of a whole bill body, given the bill number the server chose. */
  predicate BillBodyOk(body: BillBody)
  {
    && TextPresent(body.customerName)
    && (body.items.Some? ==> forall i :: 0 <= i < |body.items.value| ==> ItemBodyOk(body.items.value[i]))
    && NumberAtLeast(body.totalAmount, 0)
    && StatusUpdateOk(body.paymentStatus)
    && MethodUpdateOk(body.paymentMethod)
  }

  /**
   * `new Bill({...body, billNumber: number})` and the validation `save()` runs: the
   * `billNumber` of the body is never used, missing items become an empty list and
   * missing status and method take their defaults.
   */
  function ValidateBill(body: BillBody, number: string, id: BillId): (r: Result<Bill, Failure>)
    ensures r.Success? <==> BillBodyOk(body) && number != ""
    ensures r.Success? ==> BillFieldsOk(r.value)
    ensures r.Success? ==>
      && r.value.id == id && r.value.billNumber == number
      && r.value.customerName == Trim(body.customerName.value)
      && r.value.customerPhone == TrimmedOpt(body.customerPhone)
      && r.value.totalAmount == body.totalAmount.value
      && (body.items.None? ==> r.value.items == [])
      && (body.items.Some? ==> Success(r.value.items) == ValidateItems(body.items.value))
      && (body.paymentStatus.None? ==> r.value.paymentStatus == Pending)
      && (body.paymentStatus.Some? ==> StatusName(r.value.paymentStatus) == body.paymentStatus.value)
      && (body.paymentMethod.None? ==> r.value.paymentMethod == Cash)
      && (body.paymentMethod.Some? ==> MethodName(r.value.paymentMethod) == body.paymentMethod.value)
    ensures r.Failure? ==> r.error == Invalid
  {
    if !BillBodyOk(body) || number == "" then Failure(Invalid)
    else Success(Bill(id, number, Trim(body.customerName.value), TrimmedOpt(body.customerPhone),
                      PatchedItems([], body.items), body.totalAmount.value,
                      PatchedStatus(Pending, body.paymentStatus), PatchedMethod(Cash, body.paymentMethod)))
  }

  /** The sum of `totalAmount` over the bills; no bills give 0. */
  function AmountOf(bills: seq<Bill>): (r: int)
    ensures bills == [] ==> r == 0
    ensures (forall i :: 0 <= i < |bills| ==> bills[i].totalAmount >= 0) ==> r >= 0
  {
    if bills == [] then 0 else AmountOf(bills[..|bills| - 1]) + bills[|bills| - 1].totalAmount
  }

  lemma AmountOfAppend(bills: seq<Bill>, b: Bill)
    ensures AmountOf(bills + [b]) == AmountOf(bills) + b.totalAmount
  {
    assert (bills + [b])[..|bills|] == bills;
  }

  /** The update validators of a bill body: only the paths it sets are checked. */
  predicate BillUpdateOk(body: BillBody)
  {
    && (body.billNumber.None? || body.billNumber.value != "")
    && TextUpdateOk(body.customerName)
    && (body.items.Some? ==> forall i :: 0 <= i < |body.items.value| ==> ItemBodyOk(body.items.value[i]))
    && NumberUpdateOk(body.totalAmount, 0)
    && StatusUpdateOk(body.paymentStatus)
    && MethodUpdateOk(body.paymentMethod)
  }

  /** `findByIdAndUpdate(id, body, {runValidators: true})` applied to one bill. */
  function UpdateBillFields(b: Bill, body: BillBody): (r: Result<Bill, Failure>)
    ensures r.Success? <==> BillUpdateOk(body)
    ensures r.Success? ==> r.value == PatchedBill(b, body)
    ensures r.Failure? ==> r.error == Invalid
  {
    if !BillUpdateOk(body) then Failure(Invalid) else Success(PatchedBill(b, body))
  }

  /** The paths a valid update body sets replace the bill's fields; the others stay. */
  function PatchedBill(b: Bill, body: BillBody): (r: Bill)
    requires BillUpdateOk(body)
    ensures r.id == b.id
    ensures r.billNumber == (if body.billNumber.Some? then body.billNumber.value else b.billNumber)
    ensures r.customerName == (if body.customerName.Some? then Trim(body.customerName.value) else b.customerName)
    ensures r.customerPhone == (if body.customerPhone.Some? then TrimmedOpt(body.customerPhone) else b.customerPhone)
    ensures r.totalAmount == (if body.totalAmount.Some? then body.totalAmount.value else b.totalAmount)
    ensures body.items.None? ==> r.items == b.items
    ensures body.items.Some? ==> Success(r.items) == ValidateItems(body.items.value)
    ensures body.paymentStatus.None? ==> r.paymentStatus == b.paymentStatus
    ensures body.paymentStatus.Some? ==> StatusName(r.paymentStatus) == body.paymentStatus.value
    ensures body.paymentMethod.None? ==> r.paymentMethod == b.paymentMethod
    ensures body.paymentMethod.Some? ==> MethodName(r.paymentMethod) == body.paymentMethod.value
  {
    Bill(
      b.id,
      if body.billNumber.Some? then body.billNumber.value else b.billNumber,
      if body.customerName.Some? then Trim(body.customerName.value) else b.customerName,
      if body.customerPhone.Some? then TrimmedOpt(body.customerPhone) else b.customerPhone,
      PatchedItems(b.items, body.items),
      if body.totalAmount.Some? then body.totalAmount.value else b.totalAmount,
      PatchedStatus(b.paymentStatus, body.paymentStatus),
      PatchedMethod(b.paymentMethod, body.paymentMethod))
  }

  /** A valid update keeps a valid bill valid. */
  lemma PatchKeepsBillValid(b: Bill, body: BillBody)
    requires BillUpdateOk(body) && BillFieldsOk(b)
    ensures BillFieldsOk(PatchedBill(b, body))
  {
    var items := PatchedItems(b.items, body.items);
    assert forall i :: 0 <= i < |items| ==> items[i].quantity >= 1;
  }

  function PatchedStatus(current: PaymentStatus, given: Option<string>): (r: PaymentStatus)
    requires StatusUpdateOk(given)
    ensures given.None? ==> r == current
    ensures given.Some? ==> StatusName(r) == given.value
  {
    if given.Some? then ParseStatus(given.value).value else current
  }

  function PatchedMethod(current: PaymentMethod, given: Option<string>): (r: PaymentMethod)
    requires MethodUpdateOk(given)
    ensures given.None? ==> r == current
    ensures given.Some? ==> MethodName(r) == given.value
  {
    if given.Some? then ParseMethod(given.value).value else current
  }

  /** The item list after an update whose items, if given, all pass their validators. */
  function PatchedItems(items: seq<BillItem>, given: Option<seq<ItemBody>>): (r: seq<BillItem>)
    requires given.Some? ==> forall i :: 0 <= i < |given.value| ==> ItemBodyOk(given.value[i])
    ensures (forall i :: 0 <= i < |items| ==> items[i].quantity >= 1) ==> forall i :: 0 <= i < |r| ==> r[i].quantity >= 1
    ensures given.None? ==> r == items
    ensures given.Some? ==> Success(r) == ValidateItems(given.value)
  {
    if given.Some? then ValidateItems(given.value).value else items
  }
}
