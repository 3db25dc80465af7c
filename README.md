# Point-of-sale bill store, customer view and receipt link

A Dafny model of the core of a small point-of-sale application:

- **Bill store** (`schemas.dfy`, `server.dfy`). This is the Express/Mongoose backend.
  - The product and bill schemas and their validators.
  - Bill creation: the number comes from the bill count, "BILL-" plus the count + 1 padded to six digits, and replaces any number the client sent. The unique index refuses a number already in use. A loop then lowers the `units` of every referenced product, one item at a time.
  - Bill and product update and delete, and the 404 and 400 outcomes.
  - The dashboard statistics.
  - The two collections are held by the class `Server.Store`, with a `map` of products and a `seq` of bills. Its methods update them in place.
- **Customers view** (`customers.dfy`). This is part of the React client.
  - Bills are grouped into customers by the key `customerName|customerPhone`, using a dictionary filled by a loop.
  - The search and status filter.
  - The paid and pending totals.
  - The per-bill WhatsApp link, which needs a ten-digit mobile number.
- **Bill form** (`bill_form.dfy`): adding the chosen product as a line item, removing the item at an index, and the form total.
- **Receipt link** (`receipt.dfy`). This is `getWhatsAppLink` of the bill view.
  - The phone is trimmed and given `+91` unless it starts with `+`, then stripped to its digits.
  - The message is built up part by part, with the items numbered from 1.
- `text.dfy` restates the JavaScript string built-ins the code uses: `String(n)`, `padStart`, `trim`, `startsWith`, `includes`, case mapping, `replace(/\D/g, '')` and `join`.
- `wrappers.dfy` holds `Option` and `Result`.

Modelling choices:

- **Money and ids.** Money and quantities are integers. Document ids are natural numbers handed out by counters in the store.
- **Request bodies.** A request body is a datatype whose fields are `Option`s, so a field the client did not send is `None`.
- **Failures.** Failures are `Invalid` (a validator, answered with 400), `DuplicateBillNumber` (the unique index, also 400) and `NotFound` (404).
- **Required strings.** Mongoose checks `required` on a string path after its `trim` setter has run. A name of white space only is therefore refused.
- **Update order.** On update, the validators of the paths a body sets run before the document is looked up. An invalid body sent to a missing id is answered with 400.
- **Product schema.** The product schema in the code has no weight unit and no list of allowed categories. The model follows the code: weight is a number at least 0 and category is any non-empty string.
- **`totalPrice` and `totalAmount` are not checked.** The server checks neither of them against the items. The model does not check them either.

## Model

| member | source | states |
|---|---|---|
| Schemas.ParseStatus | backend/server.js:101-105 | the `paymentStatus` enum accepts exactly 'paid', 'pending' and 'partial', and gives back the status of that name |
| Schemas.ParseMethod | backend/server.js:106-110 | the `paymentMethod` enum accepts exactly 'cash', 'card', 'upi' and 'credit', and gives back the method of that name |
| Schemas.ValidateProduct | backend/server.js:25-54 | a product is created iff name and category are non-empty after trimming and units, weight and price are present and at least 0; the stored fields are the trimmed or given values; every refusal is `Invalid` |
| Schemas.UpdateProductFields | backend/server.js:155-161 | a product update succeeds iff each path the body sets passes its validator; the result is the patched product; every refusal is `Invalid` |
| Schemas.PatchedProduct | backend/server.js:155-161 | each path the body sets replaces that field (strings trimmed) and every other field stays; a valid product stays valid |
| Schemas.ValidateItem | backend/server.js:75-95 | an item is accepted iff it has a product id, a unit price, a total price and a quantity of at least 1, and it is stored with those values |
| Schemas.ValidateItems | backend/server.js:75-95 | an item list is accepted iff every item is; the stored list has the same length, keeps the order, and every quantity is at least 1 |
| Schemas.ValidateBill | backend/server.js:59-113 | a bill is created iff the name is non-empty after trimming, every item is valid, the total is at least 0 and any status or method given is in its enum; missing status and method default to pending and cash, missing items to an empty list; the stored items are exactly the validated form of the items sent; the server's number is used |
| Schemas.UpdateBillFields | backend/server.js:240-246 | a bill update succeeds iff each path the body sets passes its validator; the result is the patched bill; every refusal is `Invalid` |
| Schemas.PatchedBill | backend/server.js:240-246 | the id stays; each path the body sets replaces that field (items revalidated, enums parsed, strings trimmed) and every other field stays |
| Schemas.PatchKeepsBillValid | backend/server.js:240-246 | a valid update keeps a valid bill valid |
| Schemas.PatchedStatus | backend/server.js:101-105 | a status that is given replaces the current one under its own name; otherwise the current one stays |
| Schemas.PatchedMethod | backend/server.js:106-110 | a method that is given replaces the current one under its own name; otherwise the current one stays |
| Schemas.PatchedItems | backend/server.js:75-95 | given items replace the list with their validated form; otherwise the list stays; quantities of at least 1 are kept |
| Schemas.AmountOf | backend/server.js:275-283 | the summed `totalAmount` is 0 without bills and never negative when no amount is |
| Schemas.HttpStatus | backend/server.js:234-253 | a missing document is answered with 404 and every other failure with 400 |
| Server.BillNumber | backend/server.js:213-214 | "BILL-" followed only by digits; it ends with the count + 1 in decimal, is padded to at least six digits and is never truncated |
| Server.BillNumberRoundTrip | backend/server.js:213-214 | reading the digits back out of a bill number gives the count + 1 |
| Server.BillNumberInjective | backend/server.js:213-214 | different counts never give the same bill number |
| Server.PrepareBill | backend/server.js:210-222 | creation is accepted iff the body is valid and the count-derived number is not in use; a valid body whose number is in use is refused as a duplicate; the new bill is the validated body under the count-derived number and is valid |
| Server.CreateRefusedWith400 | backend/server.js:210-236 | every refused creation is answered with 400 |
| Server.ClientNumberIgnored | backend/server.js:216-219 | whatever `billNumber` the client sends, creation has the same outcome |
| Server.DeleteThenCreateCollides | backend/server.js:213-222 | with bills numbered one after another, deleting any bill but the newest makes the next creation fail on the unique index |
| Server.RemoveAt | backend/server.js:258-260 | removing the bill at a position keeps every other bill in its order |
| Server.SellOne | backend/server.js:226-229 | one `$inc` lowers the units of the item's product by its quantity and leaves every other field and product alone |
| Server.ApplySale | backend/server.js:225-230 | a sale keeps the set of products and changes nothing but their units |
| Server.SaleEffect | backend/server.js:225-230 | after a sale, each product's units drop by the total quantity of the items that reference it (repeated references add up), and nothing else changes |
| Server.SaleLeavesOthers | backend/server.js:225-230 | a product no item references keeps its document exactly |
| Server.SaleCanOversell | backend/server.js:226-229 | the decrement has no lower bound: selling 3 of a product with 1 unit leaves -2 units |
| Server.RevenueRemoveAt | backend/server.js:258-277 | deleting a bill takes exactly its amount out of the revenue |
| Server.LowStock | backend/server.js:278 | a product counts as low on stock iff it has fewer than 10 units |
| Server.StatsOf | backend/server.js:271-285 | the dashboard shows the product count, the bill count, the summed amounts (0 without bills) and the count of low-stock products, which is never more than the products |
| Server.LowStockAfterSale | backend/server.js:225-278 | with quantities of at least 1, a sale never takes a product off the low-stock list |
| Server.StatsAfterCreate | backend/server.js:210-285 | after a creation the dashboard shows one more bill, revenue up by its amount, the same product count and no fewer low-stock products |
| Server.FindBill | backend/server.js:197-202 | finds the position of a bill with the id, or reports that none has it |
| Server.PatchBill | backend/server.js:240-251 | an update is `Invalid` iff the body fails the validators, `NotFound` iff it passes but no bill has the id, and `DuplicateBillNumber` iff the patched number is used by another bill; on success the result is the found bill patched by the body, keeping its id |
| Server.UpdateStatusCodes | backend/server.js:240-253 | a refused update is answered with 404 iff the body is valid but no bill has the id, and with 400 otherwise |
| Server.Store.constructor | backend/server.js:115-116 | the store starts empty and valid |
| Server.Store.CreateProduct | backend/server.js:144-152 | a valid body is stored under a fresh id; an invalid one changes nothing; the bills are untouched |
| Server.Store.GetProduct | backend/server.js:131-137 | returns the stored product, or `NotFound` iff there is none with the id |
| Server.Store.UpdateProduct | backend/server.js:155-165 | replaces the product with its patched form; 400 for an invalid body, 404 for a missing id, and nothing changes on either |
| Server.Store.DeleteProduct | backend/server.js:172-178 | removes exactly the product with the id and hands the removed document back to the caller, while the route itself answers only with a message; `NotFound` and no change when there is none |
| Server.Store.GetBill | backend/server.js:197-203 | returns a stored bill with the id, or `NotFound` iff there is none |
| Server.Store.CreateBill | backend/server.js:210-233 | on success the bill is appended and the products are those after the sale of its items; on failure nothing changes; ids and numbers stay unique |
| Server.Store.StoreBill | backend/server.js:221-222 | a bill with a fresh id and a free number is appended, keeping ids and numbers unique |
| Server.Store.SellItems | backend/server.js:225-230 | the loop leaves the products exactly as the one-by-one `$inc` updates do |
| Server.Store.UpdateBill | backend/server.js:240-251 | the outcome is that of `PatchBill`; the bill is replaced in place on success and nothing changes on failure; the products are never touched |
| Server.Store.DeleteBill | backend/server.js:258-264 | removes exactly the bill with the id and hands that stored bill back to the caller, while the route itself answers only with a message; `NotFound` and no change when there is none; the products are never touched |
| Server.Store.Stats | backend/server.js:271-285 | reports the stored product and bill counts, the summed amounts and the low-stock count, changing nothing |
| Customers.IndexOfKey | f/src/App.js:1076 | finds the first customer under a key, or reports that no customer has it |
| Customers.BillKeyParts | f/src/App.js:1075 | the key is the name, a bar, then the phone or the empty string |
| Customers.SameNameKeys | f/src/App.js:1075 | bills with the same name share a key iff their phones read the same |
| Customers.AddBillStep | f/src/App.js:1076-1083 | adding a bill creates a customer iff its key is new, and afterwards its key has a customer |
| Customers.GroupLength | f/src/App.js:1073-1085 | there are never more customers than bills, and none iff there are no bills |
| Customers.GroupIsPartition | f/src/App.js:1073-1085 | the grouping has one customer per key; each holds exactly the bills with its key, in their original order, and takes its name and phone from its first bill; every bill's key has a customer |
| Customers.SameCustomerIffSameKey | f/src/App.js:1075 | two bills land with the same customer iff their keys, name and phone joined by a bar, are equal |
| Customers.MissingAndEmptyPhoneAgree | f/src/App.js:1075 | a missing phone and an empty phone give the same key |
| Customers.KeysCanCollide | f/src/App.js:1075 | the separator may occur in a name or phone: name "a" plus bar plus "b" with phone "c", and name "a" with phone "b" plus bar plus "c", are different customers under one key, so they are grouped together |
| Customers.GroupSizes | f/src/App.js:1073-1085 | the customers' bill counts add up to the number of bills |
| Customers.BillInItsGroup | f/src/App.js:1073-1085 | every bill is held by the customer under its key |
| Customers.GroupByCustomer | f/src/App.js:1073-1085 | the dictionary-and-loop grouping yields exactly the specified grouping |
| Customers.IndexByCustomer | f/src/App.js:1074-1084 | the `forEach` leaves a dictionary and key order that mirror the grouping of all bills |
| Customers.ValuesInOrder | f/src/App.js:1085 | `Object.values` lists the customers in key insertion order |
| Customers.SearchMatches | f/src/App.js:1089-1090 | a customer matches iff the lower-cased name contains the lower-cased search or the phone contains the search |
| Customers.StatusMatches | f/src/App.js:1091 | a customer passes iff the filter is 'all' or some bill has the chosen status |
| Customers.FilterCustomers | f/src/App.js:1088-1092 | a customer is shown iff their lower-cased name contains the lower-cased search or their phone contains the search, and the filter is 'all' or some bill has its status |
| Customers.FilterOne | f/src/App.js:1088-1092 | one customer is listed once if shown and left out otherwise |
| Customers.FilterCustomersConcat | f/src/App.js:1088-1092 | filtering two lists in a row gives the shown customers of the first, then those of the second, each once and in order |
| Customers.ShowAll | f/src/App.js:1088-1092 | an empty search with 'all' shows every customer, in order |
| Customers.PaidPlusPending | f/src/App.js:1095-1096 | every bill counts as paid or as pending ('partial' as pending), so the two sums add up to the total |
| Customers.TotalPaid | f/src/App.js:1095 | the paid total is 0 for no customers and is the amount of the shown bills less the pending part |
| Customers.TotalPending | f/src/App.js:1096 | the pending total is 0 for no customers and is the amount of the shown bills less the paid part |
| Customers.TotalsCoverShown | f/src/App.js:1095-1096 | over any customers, the paid sum plus the pending sum equals the amount of their bills |
| Customers.IsValidIndianMobile | f/src/App.js:1116-1118 | a number is accepted iff it has exactly ten characters, all digits |
| Customers.BuildWhatsAppMessage | f/src/App.js:1121-1131 | the message greets the customer by name and ends with the thanks |
| Customers.MessageCarriesBill | f/src/App.js:1121-1131 | the message contains the bill number line, the amount line and the payment status line |
| Customers.GroupKeepsTotals | f/src/App.js:1073-1096 | grouping keeps the money: the customers' paid (pending) total equals that of the bills |
| Customers.UnfilteredTotals | f/src/App.js:1073-1096 | with nothing filtered, the paid and pending totals are those of all bills and add up to their amount |
| Customers.CustomerWhatsAppLink | f/src/App.js:1223-1228 | a link exists iff the phone stripped to its digits has exactly ten; it is "https://wa.me/91", those digits, then "?text=" and the message |
| Customers.CountryCodeGetsNoLink | f/src/App.js:1223-1224 | a phone stored as "+91" and ten digits strips to twelve digits and gets no link |
| BillForm.FindProduct | f/src/App.js:781 | finds the first listed product with the id, or reports that none has it |
| BillForm.FormTotal | f/src/App.js:805 | the total of no items is 0, and it is never negative when no item's total is |
| BillForm.AddItem | f/src/App.js:778-798 | nothing changes unless a product is picked and listed; otherwise one item is appended with the product's name and price, the quantity, and price times quantity; earlier items stay and the pending item is reset |
| BillForm.RemoveItem | f/src/App.js:800-803 | an index in range removes exactly that item and keeps the others in order; any other index changes nothing |
| BillForm.FormTotalConcat | f/src/App.js:805 | the total of two lists in a row is the sum of their totals |
| BillForm.AddItemTotal | f/src/App.js:778-805 | adding a listed product raises the total by its price times the quantity, and otherwise leaves it alone |
| BillForm.RemoveItemTotal | f/src/App.js:800-805 | removing an item lowers the total by exactly its total price |
| BillForm.RemoveUndoesAdd | f/src/App.js:778-803 | removing the item just added gives back the earlier list |
| Receipt.DialledPhone | f/src/ViewBillModal.js:7-10 | the phone is trimmed; it starts with '+', either its own or the "+91" put in front of a phone without one |
| Receipt.DialledNumber | f/src/ViewBillModal.js:34 | the number in the link has digits only |
| Receipt.DialledDigits | f/src/ViewBillModal.js:7-34 | a phone with '+' keeps its own digits; any other phone is dialled as 91 followed by its digits |
| Receipt.LocalNumberDialled | f/src/ViewBillModal.js:7-34 | a ten-digit local number is dialled as 91 and those ten digits |
| Receipt.BlankPhoneDialsCountryCode | f/src/ViewBillModal.js:4-34 | a phone of white space only is not treated as missing: the link dials the bare 91 |
| Receipt.ItemLineShape | f/src/ViewBillModal.js:24-25 | an item's entry opens with its number, a dot and its name, and closes with its total price |
| Receipt.HeaderShape | f/src/ViewBillModal.js:13-17 | the header opens with the title and the bill number and closes with the payment status in capitals |
| Receipt.ItemsSectionShape | f/src/ViewBillModal.js:20-28 | the items section is empty iff there are no items; otherwise it opens with the heading and a rule and closes with a rule |
| Receipt.FooterShape | f/src/ViewBillModal.js:30-32 | the footer opens with the total amount and closes with the thanks and the invitation to visit again |
| Receipt.ReceiptMessage | f/src/ViewBillModal.js:13-32 | the message starts with the header and ends with the footer; without items it is exactly header and footer; with items, what lies between them is the heading, a rule, the numbered item lines and a rule |
| Receipt.ReceiptLink | f/src/ViewBillModal.js:3-35 | the link is '#' iff the phone is missing or empty; otherwise it is "https://wa.me/", the dialled digits, "?text=" and the message |
| Receipt.ItemNumbering | f/src/ViewBillModal.js:23-26 | the item at index k is listed as number k + 1, after the items before it and before those after it |
| Receipt.NumberedConcat | f/src/ViewBillModal.js:23-26 | listing two lists in a row numbers the second on from where the first stopped |
| Receipt.AppendItems | f/src/ViewBillModal.js:20-28 | appends the item section, which is empty for a bill with no items |
| Receipt.AppendItemLines | f/src/ViewBillModal.js:23-26 | the `forEach` appends the numbered item lines in list order |
| Receipt.GetWhatsAppLink | f/src/ViewBillModal.js:3-35 | the step-by-step construction yields exactly the specified receipt link |
| Text.PadStart | backend/server.js:214 | fill characters go in front up to the width; a longer string is kept whole |
| Text.ParseNatToString | backend/server.js:214 | reading back the decimal rendering of a number gives the number |
| Text.NatToString | backend/server.js:214 | `String(n)` of a natural number is a non-empty string of digits with no leading zero |
| Text.IntToString | f/src/ViewBillModal.js:24-30 | `String(n)` of an integer is the decimal rendering of its magnitude, with a minus in front iff the number is negative |
| Text.Trim | backend/server.js:29 | the result is a slice of the input with only white space cut off before and after it; it neither starts nor ends with white space, and it is empty iff the input is all white space |
| Text.Includes | f/src/App.js:1089-1090 | true iff the second string occurs somewhere in the first |
| Text.DigitsOf | f/src/App.js:1223 | the result has digits only and is no longer than the input |
| Text.DigitsOfMembers | f/src/App.js:1223 | a character survives iff the input holds it and it is a digit |
| Text.DigitsOfChar | f/src/App.js:1223 | one character is kept iff it is a digit |
| Text.DigitsOfConcat | f/src/ViewBillModal.js:34 | stripping non-digits from two strings in a row gives their stripped forms in a row |
| Text.Join | f/src/App.js:1121-1131 | joining no parts gives the empty string; otherwise the result starts with the first part and ends with the last |
| Text.JoinOne | f/src/App.js:1121-1131 | joining one part gives that part |
| Text.JoinSnoc | f/src/App.js:1121-1131 | joining one more part appends the separator and that part, so every part appears in order with the separator between neighbours |
| Text.JoinHasPart | f/src/App.js:1121-1131 | every part of the list can be found in the joined string |

## Left out

- The MongoDB connection, Express routing, body parsing, `populate` and `sort({createdAt: -1})` are not part of this model. The list routes `GET /api/products` and `GET /api/bills` are therefore left out too, since they are only a sorted, populated read of the stored collections.
- Mongoose `ObjectId` generation is replaced by counters in the store. A malformed id, which makes Mongoose throw a cast error (400 or 500), cannot occur in the model.
- Timestamps are left out, and so are `toLocaleDateString` and `new Date(...)`. They depend on the clock and the locale, so the receipt's date is a parameter.
- Concurrent requests are not modelled, so neither is the count-based numbering race. Bill creation is one sequential step. A failure partway through the stock-decrement loop, after some products have been lowered, is not modelled.
- JavaScript numbers are modelled as integers, for money and quantities. `NaN`, fractions and the string-to-number coercion of the form's quantity input are not modelled.
- Client-side fetching and retries, the toasts, the CSV export and all rendering are left out, because they are I/O or presentation.
- `encodeURIComponent` is not modelled. Neither link builder in the model calls it.
- Text.ToLower: maps the ASCII letters only, not the whole Unicode case mapping of `toLowerCase`. Its contract states only that the length is kept.
- Text.ToUpper: maps the ASCII letters only, not the whole Unicode case mapping of `toUpperCase`. Its contract states only that the length is kept.
- Bill-level `totalAmount` is not checked against the sum of the items' `totalPrice` values, and each item's `totalPrice` is not checked against quantity times unit price. Neither check exists in the server.
