/**
 * The printed thermal receipt of a bill: the tax totals it computes, and the rules that decide
 * what appears on it.
 */
module BillPrint {
  import opened Wrappers
  import opened Seqs
  import Db

  const DefaultWidthMm: int := 80
  const DefaultHeightMm: int := 140

  /** The central GST of a line: its amount times its CGST rate, in percent. */
  function LineCgst(line: Db.BillLine): real
  {
    line.amount * line.cgst / 100.0
  }

  /** The state GST of a line. */
  function LineSgst(line: Db.BillLine): real
  {
    line.amount * line.sgst / 100.0
  }

  /** `totalCGST`. */
  function TotalCgst(bill: Db.Bill): real
  {
    SumReal(bill.items, LineCgst)
  }

  /** `totalSGST`. */
  function TotalSgst(bill: Db.Bill): real
  {
    SumReal(bill.items, LineSgst)
  }

  /** Σ amount over the lines. */
  function AmountSum(lines: seq<Db.BillLine>): real
  {
    SumReal(lines, (l: Db.BillLine) => l.amount)
  }

  /**
   * When every line carries the same CGST rate, the total CGST is that rate applied to the
   * sum of the amounts.
   */
  lemma {:induction false} UniformCgst(lines: seq<Db.BillLine>, rate: real)
    requires forall i :: 0 <= i < |lines| ==> lines[i].cgst == rate
    ensures SumReal(lines, LineCgst) == AmountSum(lines) * rate / 100.0
  {
    if lines != [] {
      UniformCgst(lines[1..], rate);
    }
  }

  /** Non-negative amounts and rates give a non-negative tax total. */
  lemma {:induction false} TaxNonNegative(lines: seq<Db.BillLine>)
    requires forall i :: 0 <= i < |lines| ==> lines[i].amount >= 0.0 && lines[i].cgst >= 0.0 && lines[i].sgst >= 0.0
    ensures SumReal(lines, LineCgst) >= 0.0 && SumReal(lines, LineSgst) >= 0.0
  {
    if lines != [] {
      TaxNonNegative(lines[1..]);
      assert LineCgst(lines[0]) >= 0.0 && LineSgst(lines[0]) >= 0.0;
    }
  }

  /** The tax of a bill is the tax of its lines taken in any two parts. */
  lemma TaxSplits(a: seq<Db.BillLine>, b: seq<Db.BillLine>)
    ensures SumReal(a + b, LineCgst) == SumReal(a, LineCgst) + SumReal(b, LineCgst)
    ensures SumReal(a + b, LineSgst) == SumReal(a, LineSgst) + SumReal(b, LineSgst)
  {
    SumRealAppend(a, b, LineCgst);
    SumRealAppend(a, b, LineSgst);
  }

  /** One line of 200 at 9% CGST and 9% SGST carries 18 of each. */
  lemma TaxExample(bill: Db.Bill)
    requires bill.items == [Db.BillLine(1, "Rice", 100.0, 2, "1006", 200.0, 9.0, 9.0)]
    ensures TotalCgst(bill) == 18.0 && TotalSgst(bill) == 18.0
  {
    var line := bill.items[0];
    assert bill.items[1..] == [];
    assert LineCgst(line) == 200.0 * 9.0 / 100.0 == 18.0;
    assert LineSgst(line) == 18.0;
    assert SumReal(bill.items, LineCgst) == LineCgst(line) + SumReal(bill.items[1..], LineCgst);
    assert SumReal(bill.items, LineSgst) == LineSgst(line) + SumReal(bill.items[1..], LineSgst);
  }

  /** What `billNumber || id` renders: the bill number, else the id, else nothing. */
  datatype BillNo = Number(text: string) | StoreId(id: int) | Blank

  function BillNoOf(bill: Db.Bill): (n: BillNo)
    ensures n.Number? <==> bill.billNumber.Some? && bill.billNumber.value != ""
    ensures n.Number? ==> n.text == bill.billNumber.value
    ensures n.StoreId? ==> bill.id == Some(n.id)
    ensures n.Blank? <==> (bill.billNumber.None? || bill.billNumber.value == "") && bill.id.None?
  {
    if bill.billNumber.Some? && bill.billNumber.value != "" then Number(bill.billNumber.value)
    else if bill.id.Some? then StoreId(bill.id.value)
    else Blank
  }

  /**
   * The customer line: only for a customer with a non-empty name, with the phone in
   * parentheses after it only when there is a non-empty phone.
   */
  function CustomerLine(customer: Option<Db.Customer>): (line: Option<string>)
    ensures line.Some? <==> customer.Some? && customer.value.name.Some? && customer.value.name.value != ""
    ensures line.Some? ==> var c := customer.value;
      line.value == "Customer: " + c.name.value + " "
        + (if c.phone.Some? && c.phone.value != "" then "(" + c.phone.value + ")" else "")
  {
    match customer
    case Some(Customer(Some(name), phone)) =>
      if name == "" then None
      else Some("Customer: " + name + " " + (if phone.Some? && phone.value != "" then "(" + phone.value + ")" else ""))
    case _ => None
  }

  /** `x || default` for a size in millimetres: unset and 0 both give the default. */
  function SizeOr(size: Option<int>, default: int): (mm: int)
    ensures size.Some? && size.value != 0 ==> mm == size.value
    ensures size.None? || size.value == 0 ==> mm == default
    ensures default != 0 ==> mm != 0
  {
    if size.Some? && size.value != 0 then size.value else default
  }

  /** A printed item row. */
  datatype Row = Row(name: string, quantity: int, price: real, amount: real)

  function RowOf(line: Db.BillLine): Row
  {
    Row(line.name, line.quantity, line.price, line.amount)
  }

  /** The receipt, field by field; dates and number formatting are not modelled. */
  datatype Receipt = Receipt(
    widthMm: int,
    heightMm: int,
    logo: Option<string>,
    storeName: string,
    address: string,
    phone: string,
    gstin: string,
    billNo: BillNo,
    customerLine: Option<string>,
    rows: seq<Row>,
    subtotal: real,
    cgst: real,
    sgst: real,
    total: real,
    paymentMethod: Db.PaymentMethod,
    referenceLine: Option<string>)

  /** The reference line, only for a non-empty payment reference. */
  function ReferenceLine(payment: Db.Payment): (line: Option<string>)
    ensures line.Some? <==> payment.reference.Some? && payment.reference.value != ""
    ensures line.Some? ==> line.value == "Reference: " + payment.reference.value
  {
    if payment.reference.Some? && payment.reference.value != "" then Some("Reference: " + payment.reference.value)
    else None
  }

  /** The whole receipt of a bill for a store. */
  function Render(bill: Db.Bill, info: Db.StoreInfo): (r: Receipt)
    ensures |r.rows| == |bill.items|
    ensures forall i :: 0 <= i < |r.rows| ==>
      r.rows[i].name == bill.items[i].name && r.rows[i].quantity == bill.items[i].quantity
      && r.rows[i].price == bill.items[i].price && r.rows[i].amount == bill.items[i].amount
    ensures r.logo.Some? <==> info.logo.Some? && info.logo.value != ""
    ensures r.total == bill.total && r.subtotal == bill.subtotal
    ensures r.cgst == SumReal(bill.items, LineCgst) && r.sgst == SumReal(bill.items, LineSgst)
  {
    Receipt(
      SizeOr(info.billWidth, DefaultWidthMm),
      SizeOr(info.billHeight, DefaultHeightMm),
      if info.logo.Some? && info.logo.value != "" then info.logo else None,
      info.name, info.address, info.phone, info.gst,
      BillNoOf(bill),
      CustomerLine(bill.customer),
      seq(|bill.items|, i requires 0 <= i < |bill.items| => RowOf(bill.items[i])),
      bill.subtotal,
      TotalCgst(bill),
      TotalSgst(bill),
      bill.total,
      bill.payment.kind,
      ReferenceLine(bill.payment))
  }

  /**
   * The printed total is the stored one, not subtotal plus the recomputed taxes: a bill whose
   * stored total disagrees with its lines prints the stored total.
   */
  lemma PrintedTotalIsStored(info: Db.StoreInfo)
    ensures var line := Db.BillLine(1, "Rice", 100.0, 2, "1006", 200.0, 9.0, 9.0);
      var bill := Db.Bill(Some(1), None, 0, [line], 200.0, 0.0, 200.0, Db.Payment(Db.Cash, None), None);
      var r := Render(bill, info);
      r.total == 200.0 && r.subtotal + r.cgst + r.sgst == 236.0
  {
    var line := Db.BillLine(1, "Rice", 100.0, 2, "1006", 200.0, 9.0, 9.0);
    var bill := Db.Bill(Some(1), None, 0, [line], 200.0, 0.0, 200.0, Db.Payment(Db.Cash, None), None);
    TaxExample(bill);
  }

  /** A store without receipt size settings prints 80 mm by 140 mm. */
  lemma DefaultReceiptSize(bill: Db.Bill, info: Db.StoreInfo)
    requires info.billWidth.None? && (info.billHeight.None? || info.billHeight.value == 0)
    ensures Render(bill, info).widthMm == 80 && Render(bill, info).heightMm == 140
  {
  }
}
