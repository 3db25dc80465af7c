/**
 * The WhatsApp receipt link of the bill view: the customer's phone with an Indian
 * country code unless it carries one, and a pre-filled message listing the bill.
 */
module Receipt {
  import opened Wrappers
  import opened Text
  import opened Schemas
  import opened Customers

  /** The horizontal rule of the message: twenty box-drawing heavy lines, then a line break. */
  const Rule: string := "\U{2501}\U{2501}\U{2501}\U{2501}\U{2501}\U{2501}\U{2501}\U{2501}\U{2501}\U{2501}\U{2501}\U{2501}\U{2501}\U{2501}\U{2501}\U{2501}\U{2501}\U{2501}\U{2501}\U{2501}%0A"
  const Rupee: string := "\U{20B9}"
  const LinkPrefix: string := "https://wa.me/"
  const TextQuery: string := "?text="
  const ItemsHeading: string := "*ITEMS PURCHASED:*%0A"
  const Thanks: string := "Thank you for shopping with us! \U{1F64F}%0A"
  const VisitAgain: string := "Please visit again! \U{1F6D2}"

  /** The phone as dialled: trimmed, with `+91` in front unless it already starts with `+`. */
  function DialledPhone(phone: string): (r: string)
    ensures StartsWith(r, "+")
    ensures StartsWith(Trim(phone), "+") ==> r == Trim(phone)
    ensures !StartsWith(Trim(phone), "+") ==> r == "+91" + Trim(phone)
  {
    var t := Trim(phone);
    if StartsWith(t, "+") then t else "+91" + t
  }

  /** The number in the link: the dialled phone with every non-digit removed. */
  function DialledNumber(phone: string): (r: string)
    ensures AllDigits(r)
  {
    DigitsOf(DialledPhone(phone))
  }

  /** A template literal renders a missing product name as `undefined`. */
  function NameText(name: Option<string>): string
  {
    if name.Some? then name.value else "undefined"
  }

  /** The two lines of item number `n`: its number and name, then quantity, unit price and total. */
  function ItemLine(n: int, item: BillItem): string
  {
    IntToString(n) + ". *" + NameText(item.productName) + "*%0A"
    + "   Quantity: " + IntToString(item.quantity) + " x " + Rupee + IntToString(item.unitPrice)
    + " = " + Rupee + IntToString(item.totalPrice) + "%0A"
  }

  /** `line(first, items[0]) + line(first + 1, items[1]) + …`: a numbered listing of `items`. */
  function Numbered(items: seq<BillItem>, first: int, line: (int, BillItem) -> string): string
  {
    if items == [] then "" else line(first, items[0]) + Numbered(items[1..], first + 1, line)
  }

  /** The item lines of `items`, numbered from `first` on. */
  function ItemLines(items: seq<BillItem>, first: int): string
  {
    Numbered(items, first, ItemLine)
  }

  /** The title, then the bill number, the customer, the date and the status in capitals. */
  function Header(bill: Bill, date: string): string
  {
    "*BILL RECEIPT*%0A%0A"
    + "*Bill Number:* " + bill.billNumber + "%0A"
    + "*Customer Name:* " + bill.customerName + "%0A"
    + "*Date:* " + date + "%0A"
    + "*Payment Status:* " + ToUpper(StatusName(bill.paymentStatus)) + "%0A%0A"
  }

  /** The list of items between two rules, left out altogether for a bill without items. */
  function ItemsSection(items: seq<BillItem>): string
  {
    if items == [] then "" else ItemsHeading + Rule + ItemLines(items, 1) + Rule
  }

  /** The total line, then the thanks and the invitation to come again. */
  function Footer(total: int): string
  {
    "*TOTAL AMOUNT:* " + Rupee + IntToString(total) + "%0A%0A" + Thanks + VisitAgain
  }

  /** An item's entry opens with its number and name and closes with its total. */
  lemma ItemLineShape(n: int, item: BillItem)
    ensures StartsWith(ItemLine(n, item), IntToString(n) + ". *" + NameText(item.productName) + "*%0A")
    ensures EndsWith(ItemLine(n, item), " = " + Rupee + IntToString(item.totalPrice) + "%0A")
  {
    var name := IntToString(n) + ". *" + NameText(item.productName) + "*%0A";
    var s1 := name + "   Quantity: ";
    var s2 := s1 + IntToString(item.quantity);
    var s3 := s2 + " x ";
    var s4 := s3 + Rupee;
    var s5 := s4 + IntToString(item.unitPrice);
    PrefixOf(name, "   Quantity: ");
    PrefixGrows(name, s1, IntToString(item.quantity));
    PrefixGrows(name, s2, " x ");
    PrefixGrows(name, s3, Rupee);
    PrefixGrows(name, s4, IntToString(item.unitPrice));
    var s6 := s5 + " = ";
    var s7 := s6 + Rupee;
    var s8 := s7 + IntToString(item.totalPrice);
    PrefixGrows(name, s5, " = ");
    PrefixGrows(name, s6, Rupee);
    PrefixGrows(name, s7, IntToString(item.totalPrice));
    PrefixGrows(name, s8, "%0A");
    SuffixOfItself(s5, " = ");
    SuffixGrows(s6, " = ", Rupee);
    SuffixGrows(s7, " = " + Rupee, IntToString(item.totalPrice));
    SuffixGrows(s8, " = " + Rupee + IntToString(item.totalPrice), "%0A");
  }

  /** The header opens with the title and the bill number and closes with the status in capitals. */
  lemma HeaderShape(bill: Bill, date: string)
    ensures StartsWith(Header(bill, date), "*BILL RECEIPT*%0A%0A" + "*Bill Number:* " + bill.billNumber + "%0A")
    ensures EndsWith(Header(bill, date), "*Payment Status:* " + ToUpper(StatusName(bill.paymentStatus)) + "%0A%0A")
  {
    var number := "*BILL RECEIPT*%0A%0A" + "*Bill Number:* " + bill.billNumber + "%0A";
    var status := ToUpper(StatusName(bill.paymentStatus));
    var s1 := number + "*Customer Name:* ";
    var s2 := s1 + bill.customerName;
    var s3 := s2 + "%0A";
    var s4 := s3 + "*Date:* ";
    var s5 := s4 + date;
    var s6 := s5 + "%0A";
    PrefixOf(number, "*Customer Name:* ");
    PrefixGrows(number, s1, bill.customerName);
    PrefixGrows(number, s2, "%0A");
    PrefixGrows(number, s3, "*Date:* ");
    PrefixGrows(number, s4, date);
    PrefixGrows(number, s5, "%0A");
    var s7 := s6 + "*Payment Status:* ";
    var s8 := s7 + status;
    PrefixGrows(number, s6, "*Payment Status:* ");
    PrefixGrows(number, s7, status);
    PrefixGrows(number, s8, "%0A%0A");
    SuffixOfItself(s6, "*Payment Status:* ");
    SuffixGrows(s7, "*Payment Status:* ", status);
    SuffixGrows(s8, "*Payment Status:* " + status, "%0A%0A");
  }

  /** The items section is left out exactly when there are no items, and otherwise sits between rules. */
  lemma ItemsSectionShape(items: seq<BillItem>)
    ensures items == [] <==> ItemsSection(items) == ""
    ensures items != [] ==> StartsWith(ItemsSection(items), ItemsHeading + Rule) && EndsWith(ItemsSection(items), Rule)
  {
    if items != [] {
      var opening := ItemsHeading + Rule;
      PrefixOf(opening, ItemLines(items, 1));
      PrefixGrows(opening, opening + ItemLines(items, 1), Rule);
      SuffixOfItself(opening + ItemLines(items, 1), Rule);
    }
  }

  /** The footer opens with the total and closes with the thanks and the invitation. */
  lemma FooterShape(total: int)
    ensures StartsWith(Footer(total), "*TOTAL AMOUNT:* " + Rupee + IntToString(total) + "%0A%0A")
    ensures EndsWith(Footer(total), Thanks + VisitAgain)
  {
    var amount := "*TOTAL AMOUNT:* " + Rupee + IntToString(total) + "%0A%0A";
    PrefixOf(amount, Thanks);
    PrefixGrows(amount, amount + Thanks, VisitAgain);
    SuffixOfItself(amount, Thanks);
    SuffixGrows(amount + Thanks, Thanks, VisitAgain);
  }

  /** Appending a string after two pieces is appending both at once: the step of the item loop. */
  lemma Associative(a: string, b: string, c: string)
    ensures a + b + c == a + (b + c)
  {
  }

  /** The four appends of the items block, as one append of the block. */
  lemma AppendFour(s: string, a: string, b: string, c: string, d: string)
    ensures s + a + b + c + d == s + (a + b + c + d)
  {
  }

  /** The appends of the footer, as one append of the footer. */
  lemma AppendSix(s: string, a: string, b: string, c: string, d: string, e: string, f: string)
    ensures s + a + b + c + d + e + f == s + (a + b + c + d + e + f)
  {
  }

  /** The message text of the receipt; `date` is the locale rendering of `createdAt`. */
  function ReceiptMessage(bill: Bill, date: string): (r: string)
    ensures StartsWith(r, Header(bill, date))
    ensures EndsWith(r, Footer(bill.totalAmount))
    ensures |r| >= |Header(bill, date)| + |Footer(bill.totalAmount)|
    ensures bill.items == [] ==> r == Header(bill, date) + Footer(bill.totalAmount)
    ensures bill.items != [] ==>
      r[|Header(bill, date)|..|r| - |Footer(bill.totalAmount)|] == ItemsHeading + Rule + ItemLines(bill.items, 1) + Rule
  {
    var h, m, f := Header(bill, date), ItemsSection(bill.items), Footer(bill.totalAmount);
    ThreeSlices(h, m, f);
    h + m + f
  }

  /** The link the bill view opens: `#` without a phone, otherwise a wa.me link. */
  function ReceiptLink(bill: Bill, date: string): (r: string)
    ensures PhoneText(bill.customerPhone) == "" <==> r == "#"
    ensures PhoneText(bill.customerPhone) != "" ==>
      r == LinkPrefix + DialledNumber(bill.customerPhone.value) + TextQuery + ReceiptMessage(bill, date)
  {
    if PhoneText(bill.customerPhone) == "" then "#"
    else LinkPrefix + DialledNumber(bill.customerPhone.value) + TextQuery + ReceiptMessage(bill, date)
  }

  /** The listing of two lists in a row is the listing of the first, then the second numbered on. */
  lemma {:induction false} NumberedConcat(a: seq<BillItem>, b: seq<BillItem>, first: int, line: (int, BillItem) -> string)
    ensures Numbered(a + b, first, line) == Numbered(a, first, line) + Numbered(b, first + |a|, line)
  {
    if a != [] {
      NumberedConcat(a[1..], b, first + 1, line);
      assert (a + b)[1..] == a[1..] + b;
      assert first + 1 + |a[1..]| == first + |a|;
    } else {
      assert a + b == b;
    }
  }

  /** Listing one more item appends its entry. */
  lemma NumberedSnoc(items: seq<BillItem>, first: int, k: nat, line: (int, BillItem) -> string)
    requires k < |items|
    ensures Numbered(items[..k + 1], first, line) == Numbered(items[..k], first, line) + line(first + k, items[k])
  {
    var x := items[k];
    assert items[..k + 1] == items[..k] + [x];
    NumberedConcat(items[..k], [x], first, line);
    assert Numbered([x], first + k, line) == line(first + k, x) + Numbered([], first + k + 1, line) by {
      assert [x][1..] == [];
    }
  }

  /** Entry `k` (counting from 0) of the listing is `line(first + k, items[k])`, between its neighbours. */
  lemma NumberedAt(items: seq<BillItem>, first: int, k: nat, line: (int, BillItem) -> string)
    requires k < |items|
    ensures Numbered(items, first, line) ==
      Numbered(items[..k], first, line) + line(first + k, items[k]) + Numbered(items[k + 1..], first + k + 1, line)
  {
    var pre, post := items[..k], items[k..];
    assert items == pre + post;
    NumberedConcat(pre, post, first, line);
    assert post[1..] == items[k + 1..];
  }

  /** The `k`-th item (counting from 0) is listed as number `k + 1`, between its neighbours. */
  lemma ItemNumbering(items: seq<BillItem>, k: nat)
    requires k < |items|
    ensures ItemLines(items, 1) == ItemLines(items[..k], 1) + ItemLine(k + 1, items[k]) + ItemLines(items[k + 1..], k + 2)
  {
    NumberedAt(items, 1, k, ItemLine);
  }

  /**
   * The number dialled: a local number gains the digits 91 in front, a number given
   * with `+` keeps its own country code.
   */
  lemma DialledDigits(phone: string)
    ensures StartsWith(Trim(phone), "+") ==> DialledNumber(phone) == DigitsOf(Trim(phone))
    ensures !StartsWith(Trim(phone), "+") ==> DialledNumber(phone) == "91" + DigitsOf(Trim(phone))
  {
    var t := Trim(phone);
    if !StartsWith(t, "+") {
      var code := "+91";
      assert DigitsOf(code) == "91" by {
        assert code == ['+'] + "91";
        DigitsOfConcat(['+'], "91");
        DigitsOfChar('+');
        DigitsOfDigits("91");
      }
      DigitsOfConcat(code, t);
    }
  }

  /** A ten-digit local number is dialled as 91 followed by those ten digits. */
  lemma LocalNumberDialled(phone: string)
    requires IsValidIndianMobile(phone)
    ensures DialledNumber(phone) == "91" + phone
  {
    assert !IsJsSpace(phone[0]) && !IsJsSpace(phone[|phone| - 1]);
    TrimUnchanged(phone);
    assert !StartsWith(phone, "+") by {
      assert phone[0] != '+';
    }
    DialledDigits(phone);
    DigitsOfDigits(phone);
  }

  /** A phone of white space only is not missing: the link dials the bare country code. */
  lemma BlankPhoneDialsCountryCode(phone: string)
    requires phone != [] && forall i :: 0 <= i < |phone| ==> IsJsSpace(phone[i])
    ensures DialledNumber(phone) == "91"
  {
    assert Trim(phone) == [];
    DialledDigits(phone);
    assert DigitsOf([]) == [];
  }

  /** Appending the entry of item `k` to a message holding the first `k` entries gives one holding `k + 1`. */
  lemma ItemLinesStep(message: string, items: seq<BillItem>, k: nat)
    requires k < |items|
    ensures message + ItemLines(items[..k], 1) + ItemLine(k + 1, items[k]) == message + ItemLines(items[..k + 1], 1)
  {
    NumberedSnoc(items, 1, k, ItemLine);
    Associative(message, ItemLines(items[..k], 1), ItemLine(k + 1, items[k]));
  }

  /** The items block of `getWhatsAppLink`: appended only when the bill has items. */
  method AppendItems(message: string, items: seq<BillItem>) returns (r: string)
    ensures r == message + ItemsSection(items)
  {
    r := message;
    if |items| > 0 {
      r := r + ItemsHeading;
      r := r + Rule;
      r := AppendItemLines(r, items);
      r := r + Rule;
      AppendFour(message, ItemsHeading, Rule, ItemLines(items, 1), Rule);
    }
  }

  /** The `forEach` over the items: one numbered entry per item, in order. */
  method AppendItemLines(message: string, items: seq<BillItem>) returns (r: string)
    ensures r == message + ItemLines(items, 1)
  {
    r := message;
    var idx := 0;
    while idx < |items|
      invariant 0 <= idx <= |items|
      invariant r == message + ItemLines(items[..idx], 1)
    {
      ItemLinesStep(message, items, idx);
      r := r + ItemLine(idx + 1, items[idx]);
      idx := idx + 1;
    }
    assert items[..idx] == items;
  }

  /** `getWhatsAppLink`: the phone as dialled, then the message built up part by part. */
  method GetWhatsAppLink(bill: Bill, date: string) returns (link: string)
    ensures link == ReceiptLink(bill, date)
  {
    if bill.customerPhone.None? || bill.customerPhone.value == "" {
      return "#";
    }
    var phone := Trim(bill.customerPhone.value);
    if !StartsWith(phone, "+") {
      phone := "+91" + phone;
    }
    assert phone == DialledPhone(bill.customerPhone.value);
    var message := "*BILL RECEIPT*%0A%0A";
    message := message + "*Bill Number:* " + bill.billNumber + "%0A";
    message := message + "*Customer Name:* " + bill.customerName + "%0A";
    message := message + "*Date:* " + date + "%0A";
    message := message + "*Payment Status:* " + ToUpper(StatusName(bill.paymentStatus)) + "%0A%0A";
    assert message == Header(bill, date);
    message := AppendItems(message, bill.items);
    ghost var body := message;
    message := message + "*TOTAL AMOUNT:* " + Rupee + IntToString(bill.totalAmount) + "%0A%0A";
    message := message + Thanks;
    message := message + VisitAgain;
    AppendSix(body, "*TOTAL AMOUNT:* ", Rupee, IntToString(bill.totalAmount), "%0A%0A", Thanks, VisitAgain);
    link := LinkPrefix + DigitsOf(phone) + TextQuery + message;
    assert DigitsOf(phone) == DialledNumber(bill.customerPhone.value);
  }
}
