/**
 * The customers view of the client: bills grouped into customers by a
 * `name|phone` key, the search and status filter, the paid and pending totals, and the
 * per-bill WhatsApp link that needs a ten-digit mobile number.
 */
module Customers {
  import opened Wrappers
  import opened Text
  import opened Schemas

  /** One entry of the `customers` dictionary: name and phone of its first bill, then its bills. */
  datatype Customer = Customer(name: string, phone: Option<string>, bills: seq<Bill>)

  /** `phone || ''`: a missing phone reads as the empty string. */
  function PhoneText(phone: Option<string>): string
  {
    if phone.Some? then phone.value else ""
  }

  function KeyOf(name: string, phone: Option<string>): string
  {
    name + "|" + PhoneText(phone)
  }

  /** `bill.customerName + '|' + (bill.customerPhone || '')`. */
  function BillKey(b: Bill): string
  {
    KeyOf(b.customerName, b.customerPhone)
  }

  /** The key is the name, a bar, and the phone read as text. */
  lemma BillKeyParts(b: Bill)
    ensures |BillKey(b)| == |b.customerName| + 1 + |PhoneText(b.customerPhone)|
    ensures StartsWith(BillKey(b), b.customerName + "|") && EndsWith(BillKey(b), PhoneText(b.customerPhone))
  {
    var key := BillKey(b);
    assert key[|key| - |PhoneText(b.customerPhone)|..] == PhoneText(b.customerPhone);
  }

  /** Among bills of one name, keys agree exactly when the phones read the same. */
  lemma SameNameKeys(b1: Bill, b2: Bill)
    requires b1.customerName == b2.customerName
    ensures BillKey(b1) == BillKey(b2) <==> PhoneText(b1.customerPhone) == PhoneText(b2.customerPhone)
  {
    var k1, k2 := BillKey(b1), BillKey(b2);
    BillKeyParts(b1);
    BillKeyParts(b2);
    if k1 == k2 {
      assert PhoneText(b1.customerPhone) == k1[|b1.customerName| + 1..];
      assert PhoneText(b2.customerPhone) == k2[|b2.customerName| + 1..];
    }
  }

  function CustomerKey(c: Customer): string
  {
    KeyOf(c.name, c.phone)
  }

  /** The first customer with the given key, if any. */
  function IndexOfKey(cs: seq<Customer>, key: string): (r: Option<nat>)
    ensures r.Some? ==> r.value < |cs| && CustomerKey(cs[r.value]) == key
    ensures r.Some? ==> forall j :: 0 <= j < r.value ==> CustomerKey(cs[j]) != key
    ensures r.None? <==> forall j :: 0 <= j < |cs| ==> CustomerKey(cs[j]) != key
  {
    if cs == [] then None
    else if CustomerKey(cs[0]) == key then Some(0)
    else match IndexOfKey(cs[1..], key)
      case None => None
      case Some(k) => Some(k + 1)
  }

  /** One step of the `forEach`: push the bill onto its customer, creating the customer if new. */
  function AddBill(cs: seq<Customer>, b: Bill): seq<Customer>
  {
    match IndexOfKey(cs, BillKey(b))
    case Some(j) => cs[j := Joined(cs[j], b)]
    case None => cs + [NewCustomer(b)]
  }

  /** After one step the bill's key has a customer; the list grows exactly when the key was new. */
  lemma AddBillStep(cs: seq<Customer>, b: Bill)
    ensures |AddBill(cs, b)| == |cs| + (if IndexOfKey(cs, BillKey(b)).None? then 1 else 0)
    ensures IndexOfKey(AddBill(cs, b), BillKey(b)).Some?
  {
    var r := AddBill(cs, b);
    match IndexOfKey(cs, BillKey(b))
    case Some(j) => assert CustomerKey(r[j]) == BillKey(b);
    case None => assert CustomerKey(r[|cs|]) == BillKey(b);
  }

  /** `Object.values(customers)` after the `forEach` over all bills. */
  function Group(bills: seq<Bill>): seq<Customer>
  {
    if bills == [] then [] else AddBill(Group(bills[..|bills| - 1]), bills[|bills| - 1])
  }

  /** There are never more customers than bills, and some customer as soon as there is a bill. */
  lemma {:induction false} GroupLength(bills: seq<Bill>)
    ensures |Group(bills)| <= |bills|
    ensures Group(bills) == [] <==> bills == []
  {
    if bills != [] {
      var init := bills[..|bills| - 1];
      GroupLength(init);
      AddBillStep(Group(init), bills[|bills| - 1]);
    }
  }

  /** The bills with the given key, in their original order. */
  function BillsWithKey(bills: seq<Bill>, key: string): seq<Bill>
  {
    if bills == [] then []
    else BillsWithKey(bills[..|bills| - 1], key) + (if BillKey(bills[|bills| - 1]) == key then [bills[|bills| - 1]] else [])
  }

  lemma {:induction false} BillsWithAbsentKey(bills: seq<Bill>, key: string)
    requires forall i :: 0 <= i < |bills| ==> BillKey(bills[i]) != key
    ensures BillsWithKey(bills, key) == []
  {
    if bills != [] {
      BillsWithAbsentKey(bills[..|bills| - 1], key);
    }
  }

  ghost predicate DistinctKeys(cs: seq<Customer>)
  {
    forall i, j :: 0 <= i < j < |cs| ==> CustomerKey(cs[i]) != CustomerKey(cs[j])
  }

  /**
   * `cs` partitions `bills` by key: one customer per key, holding exactly the bills
   * with that key in their original order, named after its first bill, and every bill's
   * key has a customer.
   */
  ghost predicate GroupsOf(bills: seq<Bill>, cs: seq<Customer>)
  {
    && DistinctKeys(cs)
    && (forall j :: 0 <= j < |cs| ==> cs[j].bills == BillsWithKey(bills, CustomerKey(cs[j])))
    && (forall j :: 0 <= j < |cs| ==>
          cs[j].bills != [] && cs[j].name == cs[j].bills[0].customerName && cs[j].phone == cs[j].bills[0].customerPhone)
    && (forall i :: 0 <= i < |bills| ==> IndexOfKey(cs, BillKey(bills[i])).Some?)
  }

  lemma BillsWithKeyAppend(bills: seq<Bill>, b: Bill, key: string)
    ensures BillsWithKey(bills + [b], key) == BillsWithKey(bills, key) + (if BillKey(b) == key then [b] else [])
  {
    assert (bills + [b])[..|bills|] == bills;
  }

  /** Keys are all that IndexOfKey looks at. */
  lemma IndexOfSameKeys(g0: seq<Customer>, g: seq<Customer>, key: string)
    requires |g| == |g0| && forall m :: 0 <= m < |g| ==> CustomerKey(g[m]) == CustomerKey(g0[m])
    ensures IndexOfKey(g, key).Some? == IndexOfKey(g0, key).Some?
  {
  }

  /** The customer a bill joins: its bills grow by that one bill at the end. */
  function Joined(c: Customer, b: Bill): Customer
  {
    c.(bills := c.bills + [b])
  }

  /** A bill joining the customer of its key leaves every other customer's bills matching. */
  lemma ExistingKeyBills(init: seq<Bill>, b: Bill, g0: seq<Customer>, j: nat)
    requires GroupsOf(init, g0) && IndexOfKey(g0, BillKey(b)) == Some(j)
    ensures var g := g0[j := Joined(g0[j], b)];
      forall m :: 0 <= m < |g| ==> g[m].bills == BillsWithKey(init + [b], CustomerKey(g[m]))
  {
    var key := BillKey(b);
    var g := g0[j := Joined(g0[j], b)];
    forall m | 0 <= m < |g| ensures g[m].bills == BillsWithKey(init + [b], CustomerKey(g[m])) {
      BillsWithKeyAppend(init, b, CustomerKey(g[m]));
      if m != j {
        assert g[m] == g0[m];
        assert CustomerKey(g0[m]) != key;
      }
    }
  }

  /** A bill whose key already has a customer joins that customer at the end. */
  lemma AddToExisting(init: seq<Bill>, b: Bill, g0: seq<Customer>, j: nat)
    requires GroupsOf(init, g0) && IndexOfKey(g0, BillKey(b)) == Some(j)
    ensures GroupsOf(init + [b], AddBill(g0, b))
  {
    var bills := init + [b];
    var g := AddBill(g0, b);
    assert g == g0[j := Joined(g0[j], b)];
    forall m | 0 <= m < |g| ensures CustomerKey(g[m]) == CustomerKey(g0[m]) {
    }
    assert DistinctKeys(g);
    ExistingKeyBills(init, b, g0, j);
    forall m | 0 <= m < |g|
      ensures g[m].bills != [] && g[m].name == g[m].bills[0].customerName && g[m].phone == g[m].bills[0].customerPhone
    {
      if m == j {
        assert g[m].bills[0] == g0[j].bills[0];
      }
    }
    ExistingKeyFound(init, b, g0, g);
  }

  /** Customers under the same keys as before find every bill's key, the new bill's too. */
  lemma ExistingKeyFound(init: seq<Bill>, b: Bill, g0: seq<Customer>, g: seq<Customer>)
    requires GroupsOf(init, g0) && IndexOfKey(g0, BillKey(b)).Some?
    requires |g| == |g0| && forall m :: 0 <= m < |g| ==> CustomerKey(g[m]) == CustomerKey(g0[m])
    ensures forall i :: 0 <= i < |init + [b]| ==> IndexOfKey(g, BillKey((init + [b])[i])).Some?
  {
    var bills := init + [b];
    forall i | 0 <= i < |bills| ensures IndexOfKey(g, BillKey(bills[i])).Some? {
      IndexOfSameKeys(g0, g, BillKey(bills[i]));
      if i < |init| {
        assert bills[i] == init[i];
      }
    }
  }

  /** The customer a bill with a new key opens. */
  function NewCustomer(b: Bill): Customer
  {
    Customer(b.customerName, b.customerPhone, [b])
  }

  /** A new key leaves the groups' bills as they were and gives the new customer just its bill. */
  lemma NewKeyBills(init: seq<Bill>, b: Bill, g0: seq<Customer>)
    requires GroupsOf(init, g0) && IndexOfKey(g0, BillKey(b)).None?
    ensures var g := g0 + [NewCustomer(b)];
      forall m :: 0 <= m < |g| ==> g[m].bills == BillsWithKey(init + [b], CustomerKey(g[m]))
  {
    var key := BillKey(b);
    var g := g0 + [NewCustomer(b)];
    forall i | 0 <= i < |init| ensures BillKey(init[i]) != key {
      assert IndexOfKey(g0, BillKey(init[i])).Some?;
    }
    BillsWithAbsentKey(init, key);
    forall m | 0 <= m < |g| ensures g[m].bills == BillsWithKey(init + [b], CustomerKey(g[m])) {
      BillsWithKeyAppend(init, b, CustomerKey(g[m]));
      if m < |g0| {
        assert g[m] == g0[m];
        assert CustomerKey(g0[m]) != key;
      }
    }
  }

  /** After a new key, every bill's key, old or new, has a customer. */
  lemma NewKeyFound(init: seq<Bill>, b: Bill, g0: seq<Customer>)
    requires GroupsOf(init, g0) && IndexOfKey(g0, BillKey(b)).None?
    ensures var g := g0 + [NewCustomer(b)];
      forall i :: 0 <= i < |init + [b]| ==> IndexOfKey(g, BillKey((init + [b])[i])).Some?
  {
    var bills := init + [b];
    var g := g0 + [NewCustomer(b)];
    forall i | 0 <= i < |bills| ensures IndexOfKey(g, BillKey(bills[i])).Some? {
      if i < |init| {
        assert bills[i] == init[i];
        var k := IndexOfKey(g0, BillKey(init[i])).value;
        assert g[k] == g0[k];
        assert CustomerKey(g[k]) == BillKey(bills[i]);
      } else {
        assert CustomerKey(g[|g0|]) == BillKey(bills[i]);
      }
    }
  }

  /** A customer under a key not yet used keeps the keys distinct. */
  lemma DistinctAppend(g0: seq<Customer>, c: Customer)
    requires DistinctKeys(g0) && IndexOfKey(g0, CustomerKey(c)).None?
    ensures DistinctKeys(g0 + [c])
  {
    var g := g0 + [c];
    forall i, j | 0 <= i < j < |g| ensures CustomerKey(g[i]) != CustomerKey(g[j]) {
      assert g[i] == g0[i];
      if j < |g0| {
        assert g[j] == g0[j];
      }
    }
  }

  /** A bill with a new key opens a new customer at the end of the list. */
  lemma AddAsNew(init: seq<Bill>, b: Bill, g0: seq<Customer>)
    requires GroupsOf(init, g0) && IndexOfKey(g0, BillKey(b)).None?
    ensures GroupsOf(init + [b], AddBill(g0, b))
  {
    var c := NewCustomer(b);
    var g := AddBill(g0, b);
    assert g == g0 + [c];
    DistinctAppend(g0, c);
    NewKeyBills(init, b, g0);
    NewKeyFound(init, b, g0);
    forall m | 0 <= m < |g|
      ensures g[m].bills != [] && g[m].name == g[m].bills[0].customerName && g[m].phone == g[m].bills[0].customerPhone
    {
      if m < |g0| {
        assert g[m] == g0[m];
      }
    }
  }

  lemma {:induction false} GroupIsPartition(bills: seq<Bill>)
    ensures GroupsOf(bills, Group(bills))
  {
    if bills != [] {
      var init, b := bills[..|bills| - 1], bills[|bills| - 1];
      GroupIsPartition(init);
      assert bills == init + [b];
      match IndexOfKey(Group(init), BillKey(b))
      case Some(j) => AddToExisting(init, b, Group(init), j);
      case None => AddAsNew(init, b, Group(init));
    }
  }

  /** Two bills end up with the same customer exactly when their keys are equal. */
  lemma SameCustomerIffSameKey(bills: seq<Bill>, i: nat, k: nat)
    requires i < |bills| && k < |bills|
    ensures IndexOfKey(Group(bills), BillKey(bills[i])) == IndexOfKey(Group(bills), BillKey(bills[k]))
      <==> BillKey(bills[i]) == BillKey(bills[k])
  {
    GroupIsPartition(bills);
    var g := Group(bills);
    var a, c := IndexOfKey(g, BillKey(bills[i])), IndexOfKey(g, BillKey(bills[k]));
    assert a.Some? && c.Some?;
  }

  /**
   * The key joins name and phone with '|', which may itself occur in either: the bills
   * of "a|b" with phone "c" and of "a" with phone "b|c" share a key, so one customer.
   */
  lemma KeysCanCollide(b1: Bill, b2: Bill)
    requires b1.customerName == "a|b" && b1.customerPhone == Some("c")
    requires b2.customerName == "a" && b2.customerPhone == Some("b|c")
    ensures b1.customerName != b2.customerName && BillKey(b1) == BillKey(b2)
    ensures |Group([b1, b2])| == 1
  {
    assert BillKey(b1) == "a|b|c" == BillKey(b2);
    assert |b1.customerName| != |b2.customerName|;
    assert [b1, b2][..1] == [b1];
    assert [b1][..0] == [];
    var g1 := Group([b1]);
    assert g1 == AddBill(Group([]), b1);
    assert AddBill([], b1) == [Customer(b1.customerName, b1.customerPhone, [b1])];
    assert CustomerKey(g1[0]) == BillKey(b2);
    assert IndexOfKey(g1, BillKey(b2)) == Some(0);
  }

  /** A bill with no phone and one with an empty phone belong to the same customer. */
  lemma MissingAndEmptyPhoneAgree(b: Bill)
    ensures BillKey(b.(customerPhone := None)) == BillKey(b.(customerPhone := Some("")))
  {
  }

  /** The number of bills held by the customers. */
  function BillCount(cs: seq<Customer>): nat
  {
    if cs == [] then 0 else BillCount(cs[..|cs| - 1]) + |cs[|cs| - 1].bills|
  }

  lemma {:induction false} BillCountUpdate(cs: seq<Customer>, j: nat, c: Customer)
    requires j < |cs|
    ensures BillCount(cs[j := c]) == BillCount(cs) - |cs[j].bills| + |c.bills|
  {
    var n := |cs|;
    if j < n - 1 {
      BillCountUpdate(cs[..n - 1], j, c);
      assert cs[j := c][..n - 1] == cs[..n - 1][j := c];
    } else {
      assert cs[j := c][..n - 1] == cs[..n - 1];
    }
  }

  lemma BillCountAppend(cs: seq<Customer>, c: Customer)
    ensures BillCount(cs + [c]) == BillCount(cs) + |c.bills|
  {
    assert (cs + [c])[..|cs|] == cs;
  }

  /** Grouping neither loses nor duplicates a bill: the group sizes add up to the bill count. */
  lemma {:induction false} GroupSizes(bills: seq<Bill>)
    ensures BillCount(Group(bills)) == |bills|
  {
    if bills != [] {
      var init, b := bills[..|bills| - 1], bills[|bills| - 1];
      GroupSizes(init);
      var g0 := Group(init);
      match IndexOfKey(g0, BillKey(b))
      case Some(j) => BillCountUpdate(g0, j, Joined(g0[j], b));
      case None => BillCountAppend(g0, Customer(b.customerName, b.customerPhone, [b]));
    }
  }

  /** Every bill is held by the customer found under its key. */
  lemma BillInItsGroup(bills: seq<Bill>, i: nat)
    requires i < |bills|
    ensures var g := Group(bills);
      var j := IndexOfKey(g, BillKey(bills[i]));
      j.Some? && bills[i] in g[j.value].bills
  {
    GroupIsPartition(bills);
    BillsWithKeyHas(bills, i, BillKey(bills[i]));
  }

  lemma {:induction false} BillsWithKeyHas(bills: seq<Bill>, i: nat, key: string)
    requires i < |bills| && BillKey(bills[i]) == key
    ensures bills[i] in BillsWithKey(bills, key)
  {
    if i < |bills| - 1 {
      BillsWithKeyHas(bills[..|bills| - 1], i, key);
    }
  }

  /** `statusFilter`: 'all' or one payment status. */
  datatype StatusFilter = All | Only(status: PaymentStatus)

  /** `c.name.toLowerCase().includes(search.toLowerCase()) || (c.phone || '').includes(search)`. */
  function SearchMatches(c: Customer, search: string): (r: bool)
    ensures r <==> Contains(ToLower(c.name), ToLower(search)) || Contains(PhoneText(c.phone), search)
  {
    var byName, byPhone := Includes(ToLower(c.name), ToLower(search)), Includes(PhoneText(c.phone), search);
    byName || byPhone
  }

  /** `statusFilter === 'all' || c.bills.some(b => b.paymentStatus === statusFilter)`. */
  predicate StatusMatches(c: Customer, filter: StatusFilter)
    ensures StatusMatches(c, filter) <==> filter.All? || exists b :: b in c.bills && b.paymentStatus == filter.status
  {
    filter.All? || exists i :: 0 <= i < |c.bills| && c.bills[i].paymentStatus == filter.status
  }

  predicate Shown(c: Customer, search: string, filter: StatusFilter)
  {
    SearchMatches(c, search) && StatusMatches(c, filter)
  }

  /** `customerList.filter(...)`: the shown customers. */
  function FilterCustomers(cs: seq<Customer>, search: string, filter: StatusFilter): (r: seq<Customer>)
    ensures |r| <= |cs|
    ensures forall c {:trigger c in r} :: c in r <==> c in cs && Shown(c, search, filter)
  {
    if cs == [] then []
    else
      var init, last := cs[..|cs| - 1], cs[|cs| - 1];
      assert cs == init + [last];
      FilterCustomers(init, search, filter) + (if Shown(last, search, filter) then [last] else [])
  }

  /** One customer is listed once if shown and left out otherwise. */
  lemma FilterOne(c: Customer, search: string, filter: StatusFilter)
    ensures FilterCustomers([c], search, filter) == if Shown(c, search, filter) then [c] else []
  {
    assert [c][..0] == [];
  }

  /** Filtering a list with one more customer adds that customer at the end iff it is shown. */
  lemma FilterSnoc(cs: seq<Customer>, c: Customer, search: string, filter: StatusFilter)
    ensures FilterCustomers(cs + [c], search, filter)
      == FilterCustomers(cs, search, filter) + (if Shown(c, search, filter) then [c] else [])
  {
    var all := cs + [c];
    assert all[..|all| - 1] == cs && all[|all| - 1] == c;
  }

  /** Filtering two lists in a row gives the shown customers of each, in order, each once. */
  lemma {:induction false} FilterCustomersConcat(a: seq<Customer>, b: seq<Customer>, search: string, filter: StatusFilter)
    ensures FilterCustomers(a + b, search, filter) == FilterCustomers(a, search, filter) + FilterCustomers(b, search, filter)
  {
    if b == [] {
      assert a + b == a;
    } else {
      var init, last := b[..|b| - 1], b[|b| - 1];
      assert b == init + [last];
      assert a + b == (a + init) + [last];
      FilterSnoc(a + init, last, search, filter);
      FilterSnoc(init, last, search, filter);
      FilterCustomersConcat(a, init, search, filter);
      var fa, fi := FilterCustomers(a, search, filter), FilterCustomers(init, search, filter);
      var kept := if Shown(last, search, filter) then [last] else [];
      assert fa + fi + kept == fa + (fi + kept);
    }
  }

  /** An empty search with status 'all' shows every customer. */
  lemma {:induction false} ShowAll(cs: seq<Customer>)
    ensures FilterCustomers(cs, "", All) == cs
  {
    if cs != [] {
      var init, last := cs[..|cs| - 1], cs[|cs| - 1];
      ShowAll(init);
      EmptySearchShows(last);
      assert FilterCustomers(cs, "", All) == FilterCustomers(init, "", All) + [last];
      assert cs == init + [last];
    }
  }

  /** The empty search matches every name. */
  lemma EmptySearchShows(c: Customer)
    ensures Shown(c, "", All)
  {
    assert ToLower("") == "";
    assert OccursAt(ToLower(c.name), "", 0);
  }

  /** The amounts of the bills that are paid (`paid`) or not paid (`!paid`). */
  function StatusSum(bills: seq<Bill>, paid: bool): int
  {
    if bills == [] then 0
    else StatusSum(bills[..|bills| - 1], paid) + (if (bills[|bills| - 1].paymentStatus == Paid) == paid then bills[|bills| - 1].totalAmount else 0)
  }

  /** Every bill is paid or pending: 'partial' counts as pending. */
  lemma {:induction false} PaidPlusPending(bills: seq<Bill>)
    ensures StatusSum(bills, true) + StatusSum(bills, false) == AmountOf(bills)
  {
    if bills != [] {
      PaidPlusPending(bills[..|bills| - 1]);
    }
  }

  /** `customerList.reduce(...)` over one side: the paid (or pending) amounts of all customers. */
  function CustomerSum(cs: seq<Customer>, paid: bool): int
  {
    if cs == [] then 0 else CustomerSum(cs[..|cs| - 1], paid) + StatusSum(cs[|cs| - 1].bills, paid)
  }

  /** `totalPaid`: the amounts of the shown customers' 'paid' bills. */
  function TotalPaid(cs: seq<Customer>): (r: int)
    ensures cs == [] ==> r == 0
    ensures r == CustomerAmount(cs) - CustomerSum(cs, false)
  {
    TotalsCoverShown(cs);
    CustomerSum(cs, true)
  }

  /** `totalPending`: the amounts of their other bills, 'partial' ones included. */
  function TotalPending(cs: seq<Customer>): (r: int)
    ensures cs == [] ==> r == 0
    ensures r == CustomerAmount(cs) - CustomerSum(cs, true)
  {
    TotalsCoverShown(cs);
    CustomerSum(cs, false)
  }

  /** The amounts of all bills of the customers. */
  function CustomerAmount(cs: seq<Customer>): int
  {
    if cs == [] then 0 else CustomerAmount(cs[..|cs| - 1]) + AmountOf(cs[|cs| - 1].bills)
  }

  /** Over the shown customers, paid plus pending is the total of their bills. */
  lemma {:induction false} TotalsCoverShown(cs: seq<Customer>)
    ensures CustomerSum(cs, true) + CustomerSum(cs, false) == CustomerAmount(cs)
  {
    if cs != [] {
      TotalsCoverShown(cs[..|cs| - 1]);
      PaidPlusPending(cs[|cs| - 1].bills);
    }
  }

  /** The last bill of a list adds to the sum as a list of its own would. */
  lemma StatusSumLast(bills: seq<Bill>, paid: bool)
    requires bills != []
    ensures StatusSum(bills, paid) == StatusSum(bills[..|bills| - 1], paid) + StatusSum([bills[|bills| - 1]], paid)
  {
    var b := bills[|bills| - 1];
    assert [b][..0] == [];
  }

  lemma StatusSumAppend(bills: seq<Bill>, b: Bill, paid: bool)
    ensures StatusSum(bills + [b], paid) == StatusSum(bills, paid) + StatusSum([b], paid)
  {
    assert (bills + [b])[..|bills|] == bills;
    assert [b][..0] == [];
  }

  lemma {:induction false} CustomerSumUpdate(cs: seq<Customer>, j: nat, c: Customer, paid: bool)
    requires j < |cs|
    ensures CustomerSum(cs[j := c], paid) == CustomerSum(cs, paid) - StatusSum(cs[j].bills, paid) + StatusSum(c.bills, paid)
  {
    var n := |cs|;
    if j < n - 1 {
      CustomerSumUpdate(cs[..n - 1], j, c, paid);
      assert cs[j := c][..n - 1] == cs[..n - 1][j := c];
    } else {
      assert cs[j := c][..n - 1] == cs[..n - 1];
    }
  }

  lemma AddBillSum(g0: seq<Customer>, b: Bill, paid: bool)
    ensures CustomerSum(AddBill(g0, b), paid) == CustomerSum(g0, paid) + StatusSum([b], paid)
  {
    match IndexOfKey(g0, BillKey(b))
    case Some(j) =>
      StatusSumAppend(g0[j].bills, b, paid);
      CustomerSumUpdate(g0, j, Joined(g0[j], b), paid);
    case None =>
      var c := NewCustomer(b);
      assert (g0 + [c])[..|g0|] == g0;
  }

  /** Grouping keeps every amount: the customers' paid (pending) total is that of the bills. */
  lemma {:induction false} GroupKeepsTotals(bills: seq<Bill>, paid: bool)
    ensures CustomerSum(Group(bills), paid) == StatusSum(bills, paid)
  {
    if bills != [] {
      var init, b := bills[..|bills| - 1], bills[|bills| - 1];
      GroupKeepsTotals(init, paid);
      StatusSumLast(bills, paid);
      AddBillSum(Group(init), b, paid);
    }
  }

  /** With nothing filtered out, the paid and pending totals add up to the amount of all bills. */
  lemma UnfilteredTotals(bills: seq<Bill>)
    ensures var shown := FilterCustomers(Group(bills), "", All);
      && TotalPaid(shown) == StatusSum(bills, true)
      && TotalPending(shown) == StatusSum(bills, false)
      && TotalPaid(shown) + TotalPending(shown) == AmountOf(bills)
  {
    ShowAll(Group(bills));
    GroupKeepsTotals(bills, true);
    GroupKeepsTotals(bills, false);
    PaidPlusPending(bills);
  }

  /** The dictionary and its insertion order hold exactly the customers `g`, in order. */
  ghost predicate Mirrors(byKey: map<string, Customer>, order: seq<string>, g: seq<Customer>)
  {
    && |order| == |g|
    && (forall j :: 0 <= j < |order| ==> order[j] == CustomerKey(g[j]) && order[j] in byKey && byKey[order[j]] == g[j])
    && (forall k :: k in byKey ==> k in order)
  }

  /** With distinct keys, each customer is the one found under its key. */
  lemma FoundAtOwnIndex(g: seq<Customer>, j: nat)
    requires DistinctKeys(g) && j < |g|
    ensures IndexOfKey(g, CustomerKey(g[j])) == Some(j)
  {
    var key := CustomerKey(g[j]);
    assert IndexOfKey(g, key).Some? by {
      assert CustomerKey(g[j]) == key;
    }
    var r := IndexOfKey(g, key).value;
    assert CustomerKey(g[r]) == CustomerKey(g[j]);
    assert r <= j;
    assert j <= r;
  }

  /** Replacing one customer by another under the same key, in both the list and the dictionary. */
  lemma MirrorsUpdate(byKey: map<string, Customer>, order: seq<string>, g: seq<Customer>, j: nat, c: Customer)
    requires Mirrors(byKey, order, g) && DistinctKeys(g) && j < |g| && CustomerKey(c) == CustomerKey(g[j])
    ensures Mirrors(byKey[order[j] := c], order, g[j := c])
  {
    var byKey', g' := byKey[order[j] := c], g[j := c];
    forall m | 0 <= m < |order| ensures order[m] == CustomerKey(g'[m]) && order[m] in byKey' && byKey'[order[m]] == g'[m] {
      if m != j {
        assert CustomerKey(g[m]) != CustomerKey(g[j]);
      }
    }
    assert byKey'.Keys == byKey.Keys;
  }

  /** `customers[key].bills.push(bill)` on a key already in the dictionary. */
  lemma PushExisting(byKey: map<string, Customer>, order: seq<string>, g: seq<Customer>, b: Bill)
    requires Mirrors(byKey, order, g) && DistinctKeys(g) && BillKey(b) in byKey
    ensures var key := BillKey(b);
      Mirrors(byKey[key := Joined(byKey[key], b)], order, AddBill(g, b))
  {
    var key := BillKey(b);
    var j :| 0 <= j < |order| && order[j] == key;
    FoundAtOwnIndex(g, j);
    assert byKey[key] == g[j];
    MirrorsUpdate(byKey, order, g, j, Joined(g[j], b));
  }

  /** A new dictionary entry with no bills, then the push. */
  lemma PushNew(byKey: map<string, Customer>, order: seq<string>, g: seq<Customer>, b: Bill)
    requires Mirrors(byKey, order, g) && BillKey(b) !in byKey
    ensures var key := BillKey(b);
      var started := byKey[key := Customer(b.customerName, b.customerPhone, [])];
      Mirrors(started[key := Joined(started[key], b)], order + [key], AddBill(g, b))
  {
    assert IndexOfKey(g, BillKey(b)).None?;
  }

  /** One more bill adds itself to the grouping of the bills before it, whose keys are distinct. */
  lemma GroupStep(bills: seq<Bill>, i: nat)
    requires i < |bills|
    ensures Group(bills[..i + 1]) == AddBill(Group(bills[..i]), bills[i])
    ensures DistinctKeys(Group(bills[..i]))
  {
    GroupIsPartition(bills[..i]);
    assert bills[..i + 1][..i] == bills[..i];
  }

  /**
   * The grouping loop of the customers view: a dictionary from key to customer, filled
   * in bill order, whose values are then listed in insertion order.
   */
  method GroupByCustomer(bills: seq<Bill>) returns (customers: seq<Customer>)
    ensures customers == Group(bills)
  {
    var byKey, order := IndexByCustomer(bills);
    customers := ValuesInOrder(byKey, order, Group(bills));
  }

  /** The `forEach` over the bills: the dictionary and the order its keys were added in. */
  method IndexByCustomer(bills: seq<Bill>) returns (byKey: map<string, Customer>, order: seq<string>)
    ensures Mirrors(byKey, order, Group(bills))
  {
    byKey, order := map[], [];
    var i := 0;
    while i < |bills|
      invariant 0 <= i <= |bills|
      invariant Mirrors(byKey, order, Group(bills[..i]))
    {
      var b := bills[i];
      var key := BillKey(b);
      ghost var g := Group(bills[..i]);
      GroupStep(bills, i);
      if key !in byKey {
        PushNew(byKey, order, g, b);
        byKey := byKey[key := Customer(b.customerName, b.customerPhone, [])];
        order := order + [key];
      } else {
        PushExisting(byKey, order, g, b);
      }
      byKey := byKey[key := Joined(byKey[key], b)];
      i := i + 1;
    }
    assert bills[..i] == bills;
  }

  /** `Object.values(customers)`: the entries in key insertion order. */
  method ValuesInOrder(byKey: map<string, Customer>, order: seq<string>, ghost g: seq<Customer>) returns (values: seq<Customer>)
    requires Mirrors(byKey, order, g)
    ensures values == g
  {
    values := [];
    var j := 0;
    while j < |order|
      invariant 0 <= j <= |order|
      invariant values == g[..j]
    {
      values := values + [byKey[order[j]]];
      assert g[..j + 1] == g[..j] + [g[j]];
      j := j + 1;
    }
    assert g[..j] == g;
  }

  /** `/^\d{10}$/.test(number)`: ten characters, none of which the digit filter removes. */
  predicate IsValidIndianMobile(number: string)
    ensures IsValidIndianMobile(number) <==> |number| == 10 && DigitsOf(number) == number
  {
    if AllDigits(number) then DigitsOfDigits(number); |number| == 10 else false
  }

  /** `buildWhatsAppMessage`: the bill summary lines joined by an encoded line break. */
  function BuildWhatsAppMessage(c: Customer, b: Bill): (r: string)
    ensures StartsWith(r, "Hello " + c.name + ",") && EndsWith(r, "Thank you for shopping with us!")
  {
    Join([
      "Hello " + c.name + ",",
      "Here are your bill details:",
      "Bill No: " + b.billNumber,
      "Amount: \U{20B9}" + IntToString(b.totalAmount),
      "Status: " + StatusName(b.paymentStatus),
      "",
      "Thank you for shopping with us!"], "%0A")
  }

  /** The message carries the bill's number, its amount and its status, each on a line of its own. */
  lemma MessageCarriesBill(c: Customer, b: Bill)
    ensures Contains(BuildWhatsAppMessage(c, b), "Bill No: " + b.billNumber)
    ensures Contains(BuildWhatsAppMessage(c, b), "Amount: \U{20B9}" + IntToString(b.totalAmount))
    ensures Contains(BuildWhatsAppMessage(c, b), "Status: " + StatusName(b.paymentStatus))
  {
    var lines := [
      "Hello " + c.name + ",",
      "Here are your bill details:",
      "Bill No: " + b.billNumber,
      "Amount: \U{20B9}" + IntToString(b.totalAmount),
      "Status: " + StatusName(b.paymentStatus),
      "",
      "Thank you for shopping with us!"];
    assert BuildWhatsAppMessage(c, b) == Join(lines, "%0A");
    JoinHasPart(lines, "%0A", 2);
    JoinHasPart(lines, "%0A", 3);
    JoinHasPart(lines, "%0A", 4);
  }

  /**
   * The link of one bill in the customer modal: the customer's phone with every
   * non-digit removed must be exactly ten digits, and the link then dials +91 and them.
   */
  function CustomerWhatsAppLink(c: Customer, b: Bill): (r: Option<string>)
    ensures r.Some? <==> |DigitsOf(PhoneText(c.phone))| == 10
    ensures r.Some? ==> StartsWith(r.value, "https://wa.me/91")
    ensures r.Some? ==> |r.value| >= 26 && r.value[16..26] == DigitsOf(PhoneText(c.phone))
    ensures r.Some? ==> r.value[26..] == "?text=" + BuildWhatsAppMessage(c, b)
  {
    var phone := DigitsOf(PhoneText(c.phone));
    if IsValidIndianMobile(phone) then
      var prefix, rest := "https://wa.me/91", "?text=" + BuildWhatsAppMessage(c, b);
      ThreeSlices(prefix, phone, rest);
      Some(prefix + phone + rest)
    else None
  }

  /** "+91" then ten digits reduces to twelve digits: a phone stored with its country code gets no link. */
  lemma CountryCodeGetsNoLink(c: Customer, b: Bill, local: string)
    requires |local| == 10 && AllDigits(local)
    requires c.phone == Some("+91" + local)
    ensures CustomerWhatsAppLink(c, b).None?
  {
    var code := "+91";
    assert code == ['+'] + "91";
    DigitsOfConcat(['+'], "91");
    DigitsOfChar('+');
    DigitsOfDigits("91");
    DigitsOfConcat(code, local);
    DigitsOfDigits(local);
    assert |DigitsOf(PhoneText(c.phone))| == 12;
  }
}
