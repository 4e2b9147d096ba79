/** InvoiceService: prices invoice lines, totals the invoice, numbers it and
    builds the voucher (double-entry postings) that books it. The VAT
    service is not part of this model: its lookup and its VAT calculation are
    passed in as functions. */
module InvoiceService {
  import opened Wrappers
  import opened JvmInt
  import opened BigDecimals
  import opened Text
  import opened Seqs
  import opened LedgerPayloads

  /** What VatService.findVatCodeByCode returns: the code and its rate in percent. */
  datatype VatCode = VatCode(code: string, rate: Decimal)

  type FindVatCode = string -> Option<VatCode>
  type CalculateVatAmount = (Decimal, VatCode) -> Decimal

  datatype NewInvoiceLinePayload = NewInvoiceLinePayload(
    itemName: string,
    quantity: int32,
    unitPrice: Decimal,
    discount: Option<Decimal>,
    vatCode: string)

  datatype NewInvoicePayload = NewInvoicePayload(
    issueDate: Date,
    dueDate: Option<Date>,
    currencyCode: string,
    customerId: Option<int>,
    invoiceLines: seq<NewInvoiceLinePayload>)

  /** An invoice line: the five inputs copied from its payload, then the
      amounts that pricing fills in. */
  datatype InvoiceLine = InvoiceLine(
    invoiceId: int,
    itemName: string,
    quantity: int32,
    unitPrice: Decimal,
    discount: Option<Decimal>,
    vatCode: string,
    subTotal: Decimal,
    discountAmount: Decimal,
    vatRate: Decimal,
    vat: Decimal,
    totalAmount: Decimal)

  /** `vatCode!!` on a code the VAT service does not know. */
  datatype PricingError = UnknownVatCode(code: string)

  /** A saved invoice. Its header is fixed once toInvoice, the number and
      the repository's id are in place; pricing changes only the lines and
      the two totals. */
  class Invoice {
    const id: int
    const number: string
    const issueDate: Date
    const dueDate: Option<Date>
    const currencyCode: string
    const customerId: Option<int>
    var lines: seq<InvoiceLine>
    var totalAmount: Decimal
    var discountedSubTotal: Decimal

    /** toInvoice: the header is copied from the payload, under the given
        id and number; the lines come later and the totals start at ZERO. */
    constructor FromPayload(payload: NewInvoicePayload, id: int, number: string)
      ensures this.id == id && this.number == number
      ensures issueDate == payload.issueDate && dueDate == payload.dueDate
      ensures currencyCode == payload.currencyCode && customerId == payload.customerId
      ensures lines == [] && totalAmount == Zero && discountedSubTotal == Zero
    {
      this.id := id;
      this.number := number;
      issueDate := payload.issueDate;
      dueDate := payload.dueDate;
      currencyCode := payload.currencyCode;
      customerId := payload.customerId;
      lines := [];
      totalAmount := Zero;
      discountedSubTotal := Zero;
    }
  }

  /** toInvoiceLine: copies the payload's five fields onto a line of the
      given invoice; nothing is priced yet. */
  function ToInvoiceLine(payload: NewInvoiceLinePayload, invoiceId: int): (line: InvoiceLine)
    ensures line.invoiceId == invoiceId && line.itemName == payload.itemName
    ensures line.quantity == payload.quantity && line.unitPrice == payload.unitPrice
    ensures line.discount == payload.discount && line.vatCode == payload.vatCode
  {
    InvoiceLine(invoiceId, payload.itemName, payload.quantity, payload.unitPrice,
      payload.discount, payload.vatCode, Zero, Zero, Zero, Zero, Zero)
  }

  // ---------------------------------------------------------------------
  // Pricing one line

  function SubTotal(line: InvoiceLine): Decimal {
    Multiply(line.unitPrice, FromInt(line.quantity as int))
  }

  function DiscountAmount(line: InvoiceLine): Decimal {
    DivideHalfUp(Multiply(SubTotal(line), line.discount.GetOr(Zero)), 100)
  }

  /** The line's amount after discount, before VAT. */
  function LineNet(line: InvoiceLine): Decimal {
    Subtract(line.subTotal, line.discountAmount)
  }

  /** The line with its derived amounts filled in from a resolved VAT code. */
  function PricedLine(line: InvoiceLine, code: VatCode, vatAmountOf: CalculateVatAmount): InvoiceLine {
    var subTotal := SubTotal(line);
    var discountAmount := DiscountAmount(line);
    var discountedSubtotal := Subtract(subTotal, discountAmount);
    var vatAmount := vatAmountOf(discountedSubtotal, code);
    line.(vatRate := code.rate, vat := vatAmount, discountAmount := discountAmount,
          subTotal := subTotal, totalAmount := Add(discountedSubtotal, vatAmount))
  }

  /** The total of a priced line is its discounted subtotal plus its VAT. */
  predicate WellPriced(line: InvoiceLine) {
    line.totalAmount == Add(LineNet(line), line.vat)
  }

  /** What pricing promises for one line: an exact subtotal, a discount
      rounded half up at the scale of subTotal * discount (zero without a
      discount), the code's rate and the service's VAT, and a total that is
      exactly subtotal - discount + VAT. The line's inputs are untouched. */
  lemma PricedLineAmounts(line: InvoiceLine, code: VatCode, vatAmountOf: CalculateVatAmount)
    ensures var r := PricedLine(line, code, vatAmountOf);
      && r.subTotal.unscaled == line.unitPrice.unscaled * (line.quantity as int)
      && r.subTotal.scale == line.unitPrice.scale
      && (line.discount.None? ==> IsZero(r.discountAmount) && r.discountAmount.scale == r.subTotal.scale)
      && (line.discount.Some? ==>
            && r.discountAmount.scale == r.subTotal.scale + line.discount.value.scale
            && RoundsHalfUp(r.subTotal.unscaled * line.discount.value.unscaled, 100, r.discountAmount.unscaled))
      && r.vatRate == code.rate
      && r.vat == vatAmountOf(LineNet(r), code)
      && WellPriced(r)
      && Rescale(r.totalAmount, r.totalAmount.scale)
         == Rescale(r.subTotal, r.totalAmount.scale) - Rescale(r.discountAmount, r.totalAmount.scale)
            + Rescale(r.vat, r.totalAmount.scale)
      && r.(subTotal := line.subTotal, discountAmount := line.discountAmount, vatRate := line.vatRate,
            vat := line.vat, totalAmount := line.totalAmount) == line
  {
    var r := PricedLine(line, code, vatAmountOf);
    var t := r.totalAmount.scale;
    AddAt(LineNet(r), r.vat, t);
    SubtractAt(r.subTotal, r.discountAmount, t);
  }

  /** Rounding happens at the scale of subTotal * discount, not at two
      places: 0.05 at 10.00 % off gives a discount of 0.0050. */
  lemma DiscountRoundsAtProductScale()
    ensures DiscountAmount(InvoiceLine(0, "", 1, Decimal(5, 2), Some(Decimal(1000, 2)), "",
                                       Zero, Zero, Zero, Zero, Zero)) == Decimal(50, 4)
  {
  }

  /** The VAT service charges nothing at a rate equal to ZERO. */
  ghost predicate NoVatAtZeroRate(vatAmountOf: CalculateVatAmount) {
    forall x: Decimal, c: VatCode :: c.rate == Zero ==> IsZero(vatAmountOf(x, c))
  }

  // ---------------------------------------------------------------------
  // Pricing the whole invoice

  /** The index of the first line whose VAT code is unknown, or |lines|. */
  function FirstUnresolved(lines: seq<InvoiceLine>, find: FindVatCode): (k: nat)
    ensures k <= |lines|
  {
    if lines == [] || find(lines[0].vatCode).None? then 0
    else 1 + FirstUnresolved(lines[1..], find)
  }

  predicate Resolvable(lines: seq<InvoiceLine>, find: FindVatCode) {
    forall i :: 0 <= i < |lines| ==> find(lines[i].vatCode).Some?
  }

  /** FirstUnresolved is the first index whose code does not resolve. */
  lemma {:induction false} FirstUnresolvedSpec(lines: seq<InvoiceLine>, find: FindVatCode)
    ensures var k := FirstUnresolved(lines, find);
      && Resolvable(lines[..k], find)
      && (k < |lines| ==> find(lines[k].vatCode).None?)
  {
    if lines != [] && find(lines[0].vatCode).Some? {
      FirstUnresolvedSpec(lines[1..], find);
      var k := FirstUnresolved(lines, find);
      assert forall j :: 1 <= j < k ==> lines[..k][j] == lines[1..][..k - 1][j - 1];
    }
  }

  /** An index with resolvable codes before it and an unknown code (or the
      end) at it is the one FirstUnresolved finds. */
  lemma {:induction false} FirstUnresolvedAt(lines: seq<InvoiceLine>, find: FindVatCode, i: nat)
    requires i <= |lines| && Resolvable(lines[..i], find)
    requires i < |lines| ==> find(lines[i].vatCode).None?
    ensures FirstUnresolved(lines, find) == i
  {
    if i > 0 {
      assert lines[..i][0] == lines[0];
      var rest := lines[1..];
      assert forall j :: 0 <= j < i - 1 ==> rest[..i - 1][j] == rest[j] == lines[j + 1];
      FirstUnresolvedAt(rest, find, i - 1);
    }
  }

  function PricedLines(lines: seq<InvoiceLine>, find: FindVatCode, vatAmountOf: CalculateVatAmount): (r: seq<InvoiceLine>)
    requires Resolvable(lines, find)
    ensures |r| == |lines|
  {
    if lines == [] then []
    else
      var last := lines[|lines| - 1];
      PricedLines(lines[..|lines| - 1], find, vatAmountOf) + [PricedLine(last, find(last.vatCode).value, vatAmountOf)]
  }

  lemma {:induction false} PricedLinesAt(lines: seq<InvoiceLine>, find: FindVatCode, vatAmountOf: CalculateVatAmount)
    requires Resolvable(lines, find)
    ensures forall i :: 0 <= i < |lines| ==>
      PricedLines(lines, find, vatAmountOf)[i] == PricedLine(lines[i], find(lines[i].vatCode).value, vatAmountOf)
  {
    if lines != [] {
      PricedLinesAt(lines[..|lines| - 1], find, vatAmountOf);
    }
  }

  function LineTotals(lines: seq<InvoiceLine>): (r: seq<Decimal>)
    ensures |r| == |lines|
  {
    if lines == [] then [] else LineTotals(lines[..|lines| - 1]) + [lines[|lines| - 1].totalAmount]
  }

  function LineNets(lines: seq<InvoiceLine>): (r: seq<Decimal>)
    ensures |r| == |lines|
  {
    if lines == [] then [] else LineNets(lines[..|lines| - 1]) + [LineNet(lines[|lines| - 1])]
  }

  function LineVats(lines: seq<InvoiceLine>): (r: seq<Decimal>)
    ensures |r| == |lines|
  {
    if lines == [] then [] else LineVats(lines[..|lines| - 1]) + [lines[|lines| - 1].vat]
  }

  lemma {:induction false} LineColumnsAt(lines: seq<InvoiceLine>)
    ensures forall i :: 0 <= i < |lines| ==>
      LineTotals(lines)[i] == lines[i].totalAmount && LineNets(lines)[i] == LineNet(lines[i])
      && LineVats(lines)[i] == lines[i].vat
  {
    if lines != [] {
      LineColumnsAt(lines[..|lines| - 1]);
    }
  }

  /** invoice.totalAmount: the line totals added up from ZERO. */
  function InvoiceTotal(lines: seq<InvoiceLine>): Decimal {
    Sum(LineTotals(lines))
  }

  /** invoice.discountedSubTotal: the discounted subtotals added up from ZERO. */
  function DiscountedSubTotalOf(lines: seq<InvoiceLine>): Decimal {
    Sum(LineNets(lines))
  }

  lemma TotalsSnoc(lines: seq<InvoiceLine>, line: InvoiceLine)
    ensures InvoiceTotal(lines + [line]) == Add(InvoiceTotal(lines), line.totalAmount)
    ensures DiscountedSubTotalOf(lines + [line]) == Add(DiscountedSubTotalOf(lines), LineNet(line))
  {
    assert (lines + [line])[..|lines|] == lines;
  }

  lemma PricedLinesSnoc(lines: seq<InvoiceLine>, i: nat, find: FindVatCode, vatAmountOf: CalculateVatAmount)
    requires i < |lines| && Resolvable(lines[..i], find) && find(lines[i].vatCode).Some?
    ensures Resolvable(lines[..i + 1], find)
    ensures PricedLines(lines[..i + 1], find, vatAmountOf)
            == PricedLines(lines[..i], find, vatAmountOf) + [PricedLine(lines[i], find(lines[i].vatCode).value, vatAmountOf)]
  {
    assert lines[..i + 1] == lines[..i] + [lines[i]];
  }

  /** One pass of the pricing loop: line i is replaced by its priced form
      and both totals grow by its amounts. */
  lemma PricingStep(original: seq<InvoiceLine>, lines: seq<InvoiceLine>, i: nat,
                    find: FindVatCode, vatAmountOf: CalculateVatAmount)
    requires |lines| == |original| && i < |lines|
    requires Resolvable(original[..i], find) && find(original[i].vatCode).Some?
    requires lines[..i] == PricedLines(original[..i], find, vatAmountOf) && lines[i..] == original[i..]
    ensures lines[i] == original[i]
    ensures var priced := PricedLine(original[i], find(original[i].vatCode).value, vatAmountOf);
      var next := lines[i := priced];
      && Resolvable(original[..i + 1], find)
      && next[..i + 1] == PricedLines(original[..i + 1], find, vatAmountOf)
      && next[i + 1..] == original[i + 1..]
      && InvoiceTotal(next[..i + 1]) == Add(InvoiceTotal(lines[..i]), priced.totalAmount)
      && DiscountedSubTotalOf(next[..i + 1]) == Add(DiscountedSubTotalOf(lines[..i]), LineNet(priced))
  {
    assert lines[i..][0] == original[i..][0];
    var priced := PricedLine(original[i], find(original[i].vatCode).value, vatAmountOf);
    var next := lines[i := priced];
    PricedLinesSnoc(original, i, find, vatAmountOf);
    assert next[..i + 1] == lines[..i] + [priced];
    assert next[i + 1..] == lines[i..][1..];
    assert original[i + 1..] == original[i..][1..];
    TotalsSnoc(lines[..i], priced);
  }

  /** What populateInvoiceAmounts leaves behind, given the lines it started
      from. With k the first line whose VAT code is unknown (|original| if
      there is none): the outcome names that code, the lines before k are
      priced, the others are as they were, and both totals are the sums
      over the priced lines. */
  ghost predicate PricingResult(original: seq<InvoiceLine>, lines: seq<InvoiceLine>,
                                totalAmount: Decimal, discountedSubTotal: Decimal,
                                outcome: Outcome<PricingError>, find: FindVatCode, vatAmountOf: CalculateVatAmount) {
    var k := FirstUnresolved(original, find);
    FirstUnresolvedSpec(original, find);
    && outcome == (if k == |original| then Pass else Fail(UnknownVatCode(original[k].vatCode)))
    && lines == PricedLines(original[..k], find, vatAmountOf) + original[k..]
    && totalAmount == InvoiceTotal(lines[..k])
    && discountedSubTotal == DiscountedSubTotalOf(lines[..k])
  }

  /** The pricing loop stops at line i whose code is unknown. */
  lemma PricingStops(original: seq<InvoiceLine>, lines: seq<InvoiceLine>, i: nat,
                     totalAmount: Decimal, discountedSubTotal: Decimal,
                     find: FindVatCode, vatAmountOf: CalculateVatAmount)
    requires |lines| == |original| && i < |lines|
    requires Resolvable(original[..i], find) && find(lines[i].vatCode).None?
    requires lines[..i] == PricedLines(original[..i], find, vatAmountOf) && lines[i..] == original[i..]
    requires totalAmount == InvoiceTotal(lines[..i]) && discountedSubTotal == DiscountedSubTotalOf(lines[..i])
    ensures PricingResult(original, lines, totalAmount, discountedSubTotal,
                          Fail(UnknownVatCode(lines[i].vatCode)), find, vatAmountOf)
  {
    assert lines[i..][0] == original[i..][0];
    FirstUnresolvedAt(original, find, i);
    assert lines == lines[..i] + lines[i..];
  }

  /** The pricing loop ran over every line. */
  lemma PricingDone(original: seq<InvoiceLine>, lines: seq<InvoiceLine>,
                    totalAmount: Decimal, discountedSubTotal: Decimal,
                    find: FindVatCode, vatAmountOf: CalculateVatAmount)
    requires |lines| == |original|
    requires Resolvable(original[..|original|], find)
    requires lines[..|lines|] == PricedLines(original[..|original|], find, vatAmountOf)
    requires totalAmount == InvoiceTotal(lines[..|lines|]) && discountedSubTotal == DiscountedSubTotalOf(lines[..|lines|])
    ensures PricingResult(original, lines, totalAmount, discountedSubTotal, Pass, find, vatAmountOf)
  {
    FirstUnresolvedAt(original, find, |original|);
    assert original[|original|..] == [];
    assert lines[..|lines|] == lines;
  }

  /** The body of the pricing loop for one line whose code is known: the
      line with its amounts, and its discounted subtotal. */
  method PriceLine(line: InvoiceLine, code: VatCode, vatAmountOf: CalculateVatAmount)
    returns (priced: InvoiceLine, discountedSubtotal: Decimal)
    ensures priced == PricedLine(line, code, vatAmountOf) && discountedSubtotal == LineNet(priced)
  {
    var quantity := FromInt(line.quantity as int);
    var subTotal := Multiply(line.unitPrice, quantity);
    var discountPercent := line.discount.GetOr(Zero);
    var discountAmount := DivideHalfUp(Multiply(subTotal, discountPercent), 100);
    discountedSubtotal := Subtract(subTotal, discountAmount);
    var vatAmount := vatAmountOf(discountedSubtotal, code);
    priced := line.(vatRate := code.rate, vat := vatAmount,
                    discountAmount := discountAmount, subTotal := subTotal,
                    totalAmount := Add(discountedSubtotal, vatAmount));
  }

  /** populateInvoiceAmounts. Both totals are reset to ZERO and the lines are
      priced and added up in order. At the first line whose VAT code is
      unknown the calculation stops (`vatCode!!` throws): the lines before it
      are priced and counted, it and the lines after it are untouched. */
  method PopulateInvoiceAmounts(invoice: Invoice, find: FindVatCode, vatAmountOf: CalculateVatAmount)
    returns (outcome: Outcome<PricingError>)
    modifies invoice`lines, invoice`totalAmount, invoice`discountedSubTotal
    ensures PricingResult(old(invoice.lines), invoice.lines, invoice.totalAmount, invoice.discountedSubTotal,
                          outcome, find, vatAmountOf)
  {
    ghost var original := invoice.lines;
    invoice.totalAmount := Zero;
    invoice.discountedSubTotal := Zero;
    var i := 0;
    while i < |invoice.lines|
      invariant 0 <= i <= |original| == |invoice.lines|
      invariant Resolvable(original[..i], find)
      invariant invoice.lines[..i] == PricedLines(original[..i], find, vatAmountOf)
      invariant invoice.lines[i..] == original[i..]
      invariant invoice.totalAmount == InvoiceTotal(invoice.lines[..i])
      invariant invoice.discountedSubTotal == DiscountedSubTotalOf(invoice.lines[..i])
    {
      var line := invoice.lines[i];
      var vatCode := find(line.vatCode);
      if vatCode.None? {
        PricingStops(original, invoice.lines, i, invoice.totalAmount, invoice.discountedSubTotal, find, vatAmountOf);
        return Fail(UnknownVatCode(line.vatCode));
      }
      PricingStep(original, invoice.lines, i, find, vatAmountOf);
      var priced, discountedSubtotal := PriceLine(line, vatCode.value, vatAmountOf);
      assert priced == PricedLine(original[i], find(original[i].vatCode).value, vatAmountOf);
      invoice.lines := invoice.lines[i := priced];
      invoice.totalAmount := Add(invoice.totalAmount, priced.totalAmount);
      invoice.discountedSubTotal := Add(invoice.discountedSubTotal, discountedSubtotal);
      i := i + 1;
    }
    PricingDone(original, invoice.lines, invoice.totalAmount, invoice.discountedSubTotal, find, vatAmountOf);
    return Pass;
  }

  /** Pricing reads only a line's inputs, so pricing priced lines again
      gives the same lines, and so the same totals. */
  lemma {:induction false} RepricingIsIdempotent(lines: seq<InvoiceLine>, find: FindVatCode, vatAmountOf: CalculateVatAmount)
    requires Resolvable(lines, find)
    ensures Resolvable(PricedLines(lines, find, vatAmountOf), find)
    ensures PricedLines(PricedLines(lines, find, vatAmountOf), find, vatAmountOf) == PricedLines(lines, find, vatAmountOf)
  {
    if lines != [] {
      var init := lines[..|lines| - 1];
      var last := lines[|lines| - 1];
      var code := find(last.vatCode).value;
      assert Resolvable(init, find) by {
        assert forall i :: 0 <= i < |init| ==> init[i] == lines[i];
      }
      RepricingIsIdempotent(init, find, vatAmountOf);
      var p := PricedLines(lines, find, vatAmountOf);
      var priced := PricedLine(last, code, vatAmountOf);
      assert p == PricedLines(init, find, vatAmountOf) + [priced];
      assert PricedLine(priced, code, vatAmountOf) == priced;
      assert p[..|p| - 1] == PricedLines(init, find, vatAmountOf);
    }
  }

  /** Every priced line satisfies the total identity. */
  lemma PricedLinesWellPriced(lines: seq<InvoiceLine>, find: FindVatCode, vatAmountOf: CalculateVatAmount)
    requires Resolvable(lines, find)
    ensures forall i :: 0 <= i < |lines| ==> WellPriced(PricedLines(lines, find, vatAmountOf)[i])
  {
    PricedLinesAt(lines, find, vatAmountOf);
    forall i | 0 <= i < |lines| ensures WellPriced(PricedLines(lines, find, vatAmountOf)[i]) {
      PricedLineAmounts(lines[i], find(lines[i].vatCode).value, vatAmountOf);
    }
  }

  // ---------------------------------------------------------------------
  // Numbering

  /** getNextInvoiceNumber: "{year}-{count + 1}", count being the number of
      invoices already issued that year. */
  function GetNextInvoiceNumber(year: int, yearInvoiceCount: nat): string {
    IntToString(year) + ("-" + IntToString(yearInvoiceCount + 1))
  }

  /** Splits "{year}-{sequence}" back into the year's text and the
      sequence number: the sequence is the run of digits after the last
      dash, the year (which may carry a minus sign) what comes before it. */
  function ParseInvoiceNumber(number: string): Option<(string, nat)> {
    match LastIndexOf(number, '-')
    case None => None
    case Some(k) =>
      if k + 1 < |number| && AllDigits(number[k + 1..]) then Some((number[..k], ParseNat(number[k + 1..])))
      else None
  }

  /** A dash followed by digits: the dash is the last one. */
  lemma DashThenDigits(digits: string)
    requires AllDigits(digits)
    ensures LastIndexOf("-" + digits, '-') == Some(0)
    ensures ("-" + digits)[1..] == digits
  {
    var tail := "-" + digits;
    DigitsAreNot(digits, '-');
    assert forall j :: 0 < j < |tail| ==> tail[j] == digits[j - 1];
    LastIndexOfUnique(tail, '-', 0);
  }

  /** The dash before the sequence number is the last one. */
  lemma SplitAtLastDash(prefix: string, digits: string)
    requires AllDigits(digits)
    ensures LastIndexOf(prefix + ("-" + digits), '-') == Some(|prefix|)
    ensures (prefix + ("-" + digits))[..|prefix|] == prefix
    ensures (prefix + ("-" + digits))[|prefix| + 1..] == digits
  {
    var tail := "-" + digits;
    DashThenDigits(digits);
    LastIndexOfAppend(prefix, tail, '-', 0);
    assert (prefix + tail)[|prefix| + 1..] == tail[1..];
  }

  /** An invoice number reads back as its year and its sequence number. */
  lemma InvoiceNumberRoundTrip(year: int, yearInvoiceCount: nat)
    ensures ParseInvoiceNumber(GetNextInvoiceNumber(year, yearInvoiceCount))
      == Some((IntToString(year), yearInvoiceCount + 1))
  {
    var digits := NatToString(yearInvoiceCount + 1);
    assert GetNextInvoiceNumber(year, yearInvoiceCount) == IntToString(year) + ("-" + digits);
    SplitAtLastDash(IntToString(year), digits);
    ParseNatToString(yearInvoiceCount + 1);
  }

  /** Sequential numbering never repeats: different years or counts give
      different numbers. */
  lemma InvoiceNumbersDistinct(y1: int, c1: nat, y2: int, c2: nat)
    requires (y1, c1) != (y2, c2)
    ensures GetNextInvoiceNumber(y1, c1) != GetNextInvoiceNumber(y2, c2)
  {
    InvoiceNumberRoundTrip(y1, c1);
    InvoiceNumberRoundTrip(y2, c2);
    IntToStringInjective(y1, y2);
  }

  // ---------------------------------------------------------------------
  // The invoice voucher

  function InvoiceDescription(number: string, customerName: string): string {
    "Invoice number " + number + " to " + customerName
  }

  /** `it.vatRate != BigDecimal.ZERO`: Kotlin's != is BigDecimal.equals,
      which compares the scale as well as the value. */
  predicate HasVatRate(line: InvoiceLine) {
    line.vatRate != Zero
  }

  predicate HasZeroRate(line: InvoiceLine) {
    line.vatRate == Zero
  }

  function InvoicePosting(account: string, amount: Decimal, currency: string, date: Date,
                          description: string, vatCode: Option<string>, row: int): CreatePostingPayload {
    CreatePostingPayload(account, amount, currency, date, description, amount, currency, vatCode, row)
  }

  /** One output-VAT credit per line, rows counted from 2. */
  function VatPostings(vatLines: seq<InvoiceLine>, currency: string, date: Date, description: string)
    : (r: seq<CreatePostingPayload>)
    ensures |r| == |vatLines|
  {
    seq(|vatLines|, k requires 0 <= k < |vatLines| =>
      InvoicePosting("2700", Negate(vatLines[k].vat), currency, date, description,
                     Some(vatLines[k].vatCode), k + 2))
  }

  function InvoicePostings(description: string, currency: string, date: Date,
                           totalAmount: Decimal, discountedSubTotal: Decimal,
                           lines: seq<InvoiceLine>): seq<CreatePostingPayload> {
    [ InvoicePosting("1500", totalAmount, currency, date, description, None, 0),
      InvoicePosting("3000", Negate(discountedSubTotal), currency, date, description, None, 1) ]
    + VatPostings(Filter(lines, HasVatRate), currency, date, description)
  }

  function InvoiceVoucher(number: string, customerName: string, currency: string, date: Date,
                          totalAmount: Decimal, discountedSubTotal: Decimal,
                          lines: seq<InvoiceLine>): CreateVoucherPayload {
    var description := InvoiceDescription(number, customerName);
    CreateVoucherPayload(description, date,
      InvoicePostings(description, currency, date, totalAmount, discountedSubTotal, lines))
  }

  /** createVoucher: the receivable debit, the sales credit, then one output
      VAT credit per line with a non-zero rate, as handed to the voucher
      service (`now` stands for LocalDate.now()). */
  method CreateVoucher(invoice: Invoice, customerName: string, now: Date) returns (voucher: CreateVoucherPayload)
    ensures voucher == InvoiceVoucher(invoice.number, customerName, invoice.currencyCode, now,
                                      invoice.totalAmount, invoice.discountedSubTotal, invoice.lines)
  {
    var description := "Invoice number " + invoice.number + " to " + customerName;
    var postings: seq<CreatePostingPayload> := [];
    postings := postings + [CreatePostingPayload("1500", invoice.totalAmount, invoice.currencyCode, now,
                                                 description, invoice.totalAmount, invoice.currencyCode, None, 0)];
    postings := postings + [CreatePostingPayload("3000", Negate(invoice.discountedSubTotal), invoice.currencyCode,
                                                 now, description, Negate(invoice.discountedSubTotal),
                                                 invoice.currencyCode, None, 1)];
    ghost var head := postings;
    var vatLines := Filter(invoice.lines, HasVatRate);
    var index := 0;
    while index < |vatLines|
      invariant 0 <= index <= |vatLines|
      invariant postings == head + VatPostings(vatLines[..index], invoice.currencyCode, now, description)
    {
      var invoiceLine := vatLines[index];
      postings := postings + [CreatePostingPayload("2700", Negate(invoiceLine.vat), invoice.currencyCode, now,
                                                   description, Negate(invoiceLine.vat), invoice.currencyCode,
                                                   Some(invoiceLine.vatCode), index + 2)];
      assert VatPostings(vatLines[..index + 1], invoice.currencyCode, now, description)
          == VatPostings(vatLines[..index], invoice.currencyCode, now, description)
             + [InvoicePosting("2700", Negate(invoiceLine.vat), invoice.currencyCode, now, description,
                               Some(invoiceLine.vatCode), index + 2)];
      index := index + 1;
    }
    assert vatLines[..index] == vatLines;
    voucher := CreateVoucherPayload(description, now, postings);
  }

  /** The layout of the invoice voucher: rows 0, 1, 2, ... in order; 1500
      for +total, 3000 for -discounted subtotal, then 2700 for -VAT of each
      line with a non-zero rate in line order, tagged with its code; every
      posting in the invoice currency with originalAmount = amount. */
  lemma InvoiceVoucherLayout(description: string, currency: string, date: Date,
                             totalAmount: Decimal, discountedSubTotal: Decimal, lines: seq<InvoiceLine>)
    ensures var ps := InvoicePostings(description, currency, date, totalAmount, discountedSubTotal, lines);
      var vatLines := Filter(lines, HasVatRate);
      && |ps| == 2 + |vatLines|
      && ps[0].accountNumber == "1500" && ps[0].amount == totalAmount
      && ps[1].accountNumber == "3000" && ps[1].amount == Negate(discountedSubTotal)
      && (forall k :: 2 <= k < |ps| ==>
            ps[k].accountNumber == "2700" && ps[k].amount == Negate(vatLines[k - 2].vat)
            && ps[k].vatCode == Some(vatLines[k - 2].vatCode))
      && (forall k :: 0 <= k < |ps| ==>
            ps[k].rowNumber == k && ps[k].currency == currency && ps[k].originalCurrency == currency
            && ps[k].originalAmount == ps[k].amount && ps[k].postingDate == date
            && ps[k].description == description)
  {
    var ps := InvoicePostings(description, currency, date, totalAmount, discountedSubTotal, lines);
    forall k | 0 <= k < |ps|
      ensures ps[k].rowNumber == k && ps[k].currency == currency && ps[k].originalCurrency == currency
              && ps[k].originalAmount == ps[k].amount && ps[k].postingDate == date
              && ps[k].description == description
    {
      InvoicePostingAt(description, currency, date, totalAmount, discountedSubTotal, lines, k);
    }
    forall k | 2 <= k < |ps|
      ensures ps[k].accountNumber == "2700" && ps[k].amount == Negate(Filter(lines, HasVatRate)[k - 2].vat)
              && ps[k].vatCode == Some(Filter(lines, HasVatRate)[k - 2].vatCode)
    {
      InvoicePostingAt(description, currency, date, totalAmount, discountedSubTotal, lines, k);
    }
  }

  /** Posting k of the invoice voucher. */
  lemma InvoicePostingAt(description: string, currency: string, date: Date,
                         totalAmount: Decimal, discountedSubTotal: Decimal, lines: seq<InvoiceLine>, k: nat)
    requires k < 2 + |Filter(lines, HasVatRate)|
    ensures var ps := InvoicePostings(description, currency, date, totalAmount, discountedSubTotal, lines);
      var vatLines := Filter(lines, HasVatRate);
      && |ps| == 2 + |vatLines|
      && ps[k] == (if k == 0 then InvoicePosting("1500", totalAmount, currency, date, description, None, 0)
                   else if k == 1 then InvoicePosting("3000", Negate(discountedSubTotal), currency, date,
                                                      description, None, 1)
                   else InvoicePosting("2700", Negate(vatLines[k - 2].vat), currency, date, description,
                                       Some(vatLines[k - 2].vatCode), k))
  {
    var vatLines := Filter(lines, HasVatRate);
    var vs := VatPostings(vatLines, currency, date, description);
    var ps := InvoicePostings(description, currency, date, totalAmount, discountedSubTotal, lines);
    if k >= 2 {
      assert ps[k] == vs[k - 2];
    }
  }

  // ---------------------------------------------------------------------
  // Balance

  /** Every amount of the lines is written at scale at most s. */
  predicate LinesScaleAtMost(lines: seq<InvoiceLine>, s: nat) {
    forall l :: l in lines ==> l.totalAmount.scale <= s && l.vat.scale <= s && LineNet(l).scale <= s
  }

  lemma LinesScaleAtMostColumns(lines: seq<InvoiceLine>, s: nat)
    requires LinesScaleAtMost(lines, s)
    ensures ScalesAtMost(LineTotals(lines), s) && ScalesAtMost(LineNets(lines), s) && ScalesAtMost(LineVats(lines), s)
  {
    LineColumnsAt(lines);
    assert forall i :: 0 <= i < |lines| ==> lines[i] in lines;
  }

  lemma {:induction false} TotalsSplit(lines: seq<InvoiceLine>, s: nat)
    requires forall i :: 0 <= i < |lines| ==> WellPriced(lines[i])
    requires LinesScaleAtMost(lines, s)
    ensures ScalesAtMost(LineTotals(lines), s) && ScalesAtMost(LineNets(lines), s) && ScalesAtMost(LineVats(lines), s)
    ensures ScaledSum(LineTotals(lines), s) == ScaledSum(LineNets(lines), s) + ScaledSum(LineVats(lines), s)
  {
    LinesScaleAtMostColumns(lines, s);
    if lines != [] {
      var rest := lines[..|lines| - 1];
      var last := lines[|lines| - 1];
      assert forall l :: l in rest ==> l in lines;
      assert last in lines;
      TotalsSplit(rest, s);
      ScaledSumSnoc(LineTotals(rest), last.totalAmount, s);
      ScaledSumSnoc(LineNets(rest), LineNet(last), s);
      ScaledSumSnoc(LineVats(rest), last.vat, s);
      assert WellPriced(last);
      AddAt(LineNet(last), last.vat, s);
    }
  }

  lemma VatsSnoc(lines: seq<InvoiceLine>, line: InvoiceLine, s: nat)
    requires LinesScaleAtMost(lines, s) && line.vat.scale <= s
    ensures ScalesAtMost(LineVats(lines), s)
    ensures ScaledSum(LineVats(lines + [line]), s) == ScaledSum(LineVats(lines), s) + Rescale(line.vat, s)
  {
    LinesScaleAtMostColumns(lines, s);
    assert (lines + [line])[..|lines|] == lines;
    ScaledSumSnoc(LineVats(lines), line.vat, s);
  }

  lemma FilteredScales(lines: seq<InvoiceLine>, s: nat)
    requires LinesScaleAtMost(lines, s)
    ensures LinesScaleAtMost(Filter(lines, HasVatRate), s) && LinesScaleAtMost(Filter(lines, HasZeroRate), s)
    ensures ScalesAtMost(LineVats(lines), s)
    ensures ScalesAtMost(LineVats(Filter(lines, HasVatRate)), s) && ScalesAtMost(LineVats(Filter(lines, HasZeroRate)), s)
  {
    var rated := Filter(lines, HasVatRate);
    var zeroRated := Filter(lines, HasZeroRate);
    assert forall i :: 0 <= i < |rated| ==> rated[i] in lines;
    assert forall i :: 0 <= i < |zeroRated| ==> zeroRated[i] in lines;
    LinesScaleAtMostColumns(lines, s);
    LinesScaleAtMostColumns(rated, s);
    LinesScaleAtMostColumns(zeroRated, s);
  }

  /** The VAT of all lines is the VAT of the rated lines plus the VAT of the
      zero-rated ones. */
  lemma {:induction false} VatSplit(lines: seq<InvoiceLine>, s: nat)
    requires LinesScaleAtMost(lines, s)
    ensures LinesScaleAtMost(Filter(lines, HasVatRate), s) && LinesScaleAtMost(Filter(lines, HasZeroRate), s)
    ensures ScalesAtMost(LineVats(lines), s)
    ensures ScalesAtMost(LineVats(Filter(lines, HasVatRate)), s) && ScalesAtMost(LineVats(Filter(lines, HasZeroRate)), s)
    ensures ScaledSum(LineVats(lines), s)
            == ScaledSum(LineVats(Filter(lines, HasVatRate)), s) + ScaledSum(LineVats(Filter(lines, HasZeroRate)), s)
  {
    FilteredScales(lines, s);
    if lines != [] {
      var rest := lines[..|lines| - 1];
      var last := lines[|lines| - 1];
      assert lines == rest + [last];
      assert forall l :: l in rest ==> l in lines;
      VatSplit(rest, s);
      VatsSnoc(rest, last, s);
      var restRated := Filter(rest, HasVatRate);
      var restZeroRated := Filter(rest, HasZeroRate);
      if HasVatRate(last) {
        assert Filter(lines, HasVatRate) == restRated + [last];
        assert Filter(lines, HasZeroRate) == restZeroRated;
        VatsSnoc(restRated, last, s);
      } else {
        assert Filter(lines, HasVatRate) == restRated;
        assert Filter(lines, HasZeroRate) == restZeroRated + [last];
        VatsSnoc(restZeroRated, last, s);
      }
    }
  }

  /** The scale at which the balance is computed: the scale of the total. */
  function BalanceScale(lines: seq<InvoiceLine>): nat {
    InvoiceTotal(lines).scale
  }

  /** Every amount of priced lines fits the scale of the invoice total. */
  lemma BalanceScaleBounds(lines: seq<InvoiceLine>)
    requires forall i :: 0 <= i < |lines| ==> WellPriced(lines[i])
    ensures LinesScaleAtMost(lines, BalanceScale(lines))
  {
    LineColumnsAt(lines);
    SumScale(LineTotals(lines));
    forall l | l in lines
      ensures l.totalAmount.scale <= BalanceScale(lines) && l.vat.scale <= BalanceScale(lines)
      ensures LineNet(l).scale <= BalanceScale(lines)
    {
      var i :| 0 <= i < |lines| && lines[i] == l;
      assert LineTotals(lines)[i] == l.totalAmount;
    }
  }

  function VatLines(lines: seq<InvoiceLine>): seq<Decimal> {
    LineVats(Filter(lines, HasVatRate))
  }

  /** The signed amounts of the invoice voucher, in posting order. */
  lemma InvoicePostingAmounts(description: string, currency: string, date: Date,
                              totalAmount: Decimal, discountedSubTotal: Decimal, lines: seq<InvoiceLine>)
    ensures Amounts(InvoicePostings(description, currency, date, totalAmount, discountedSubTotal, lines))
            == [totalAmount, Negate(discountedSubTotal)] + Negated(VatLines(lines))
  {
    var head := [ InvoicePosting("1500", totalAmount, currency, date, description, None, 0),
                  InvoicePosting("3000", Negate(discountedSubTotal), currency, date, description, None, 1) ];
    var tail := VatPostings(Filter(lines, HasVatRate), currency, date, description);
    AmountsAppend(head, tail);
    assert Amounts(head) == [totalAmount, Negate(discountedSubTotal)] by {
      assert head[..1] == [head[0]];
    }
    LineColumnsAt(Filter(lines, HasVatRate));
    assert Amounts(tail) == Negated(VatLines(lines));
  }

  /** The value of the signed amounts +total, -net, -vat_1, ..., -vat_n. */
  lemma SignedAmountsSum(total: Decimal, net: Decimal, vats: seq<Decimal>, s: nat)
    requires total.scale <= s && net.scale <= s && ScalesAtMost(vats, s)
    ensures ScalesAtMost([total, Negate(net)] + Negated(vats), s)
    ensures Sum([total, Negate(net)] + Negated(vats)).scale <= s
    ensures Rescale(Sum([total, Negate(net)] + Negated(vats)), s)
            == Rescale(total, s) - Rescale(net, s) - ScaledSum(vats, s)
  {
    var head := [total, Negate(net)];
    ScaledSumNegated(vats, s);
    ScaledSumSnoc([], total, s);
    ScaledSumSnoc([total], Negate(net), s);
    assert [] + [total] == [total] && [total] + [Negate(net)] == head;
    NegateAt(net, s);
    ScaledSumAppend(head, Negated(vats), s);
    SumAt(head + Negated(vats), s);
  }

  /** The signed amounts of the invoice voucher add up to exactly the VAT of
      the lines whose rate equals ZERO: those lines are charged in the total
      but get no output-VAT posting. */
  lemma VoucherAmountsSum(lines: seq<InvoiceLine>)
    requires forall i :: 0 <= i < |lines| ==> WellPriced(lines[i])
    ensures ScalesAtMost([InvoiceTotal(lines), Negate(DiscountedSubTotalOf(lines))] + Negated(VatLines(lines)),
                         BalanceScale(lines))
    ensures Sum([InvoiceTotal(lines), Negate(DiscountedSubTotalOf(lines))] + Negated(VatLines(lines))).scale
            <= BalanceScale(lines)
    ensures ScalesAtMost(LineVats(Filter(lines, HasZeroRate)), BalanceScale(lines))
    ensures Rescale(Sum([InvoiceTotal(lines), Negate(DiscountedSubTotalOf(lines))] + Negated(VatLines(lines))),
                    BalanceScale(lines))
            == ScaledSum(LineVats(Filter(lines, HasZeroRate)), BalanceScale(lines))
  {
    var s := BalanceScale(lines);
    BalanceScaleBounds(lines);
    TotalsSplit(lines, s);
    VatSplit(lines, s);
    SumAt(LineTotals(lines), s);
    SumAt(LineNets(lines), s);
    SignedAmountsSum(InvoiceTotal(lines), DiscountedSubTotalOf(lines), VatLines(lines), s);
  }

  lemma {:induction false} ZeroVatsSumToZero(lines: seq<InvoiceLine>, s: nat)
    requires forall i :: 0 <= i < |lines| ==> IsZero(lines[i].vat)
    requires ScalesAtMost(LineVats(lines), s)
    ensures ScaledSum(LineVats(lines), s) == 0
  {
    if lines != [] {
      var rest := lines[..|lines| - 1];
      var last := lines[|lines| - 1];
      assert LineVats(lines) == LineVats(rest) + [last.vat];
      assert LineVats(lines)[|rest|] == last.vat;
      assert ScalesAtMost(LineVats(rest), s) by {
        assert forall i :: 0 <= i < |rest| ==> LineVats(rest)[i] == LineVats(lines)[i];
      }
      ZeroVatsSumToZero(rest, s);
      IsZeroAt(last.vat, s);
    }
  }

  /** The voucher of priced lines balances exactly when the VAT of the
      ZERO-rated lines adds up to zero. */
  lemma InvoiceVoucherBalancesIff(description: string, currency: string, date: Date, lines: seq<InvoiceLine>)
    requires forall i :: 0 <= i < |lines| ==> WellPriced(lines[i])
    ensures var s := BalanceScale(lines);
      ScalesAtMost(LineVats(Filter(lines, HasZeroRate)), s)
      && (Balanced(InvoicePostings(description, currency, date, InvoiceTotal(lines), DiscountedSubTotalOf(lines), lines))
          <==> ScaledSum(LineVats(Filter(lines, HasZeroRate)), s) == 0)
  {
    var ps := InvoicePostings(description, currency, date, InvoiceTotal(lines), DiscountedSubTotalOf(lines), lines);
    InvoicePostingAmounts(description, currency, date, InvoiceTotal(lines), DiscountedSubTotalOf(lines), lines);
    VoucherAmountsSum(lines);
    IsZeroAt(Sum(Amounts(ps)), BalanceScale(lines));
  }

  /** When every ZERO-rated line carries zero VAT, the voucher balances. */
  lemma InvoiceVoucherBalances(description: string, currency: string, date: Date, lines: seq<InvoiceLine>)
    requires forall i :: 0 <= i < |lines| ==> WellPriced(lines[i])
    requires forall i :: 0 <= i < |lines| && lines[i].vatRate == Zero ==> IsZero(lines[i].vat)
    ensures Balanced(InvoicePostings(description, currency, date, InvoiceTotal(lines), DiscountedSubTotalOf(lines), lines))
  {
    InvoiceVoucherBalancesIff(description, currency, date, lines);
    var zeroRated := Filter(lines, HasZeroRate);
    forall i | 0 <= i < |zeroRated| ensures IsZero(zeroRated[i].vat) {
      assert zeroRated[i] in lines;
    }
    ZeroVatsSumToZero(zeroRated, BalanceScale(lines));
  }

  /** Priced lines are well priced, and with a VAT service that charges
      nothing at a ZERO rate, the ZERO-rated ones carry no VAT. */
  lemma PricedLinesFacts(lines: seq<InvoiceLine>, find: FindVatCode, vatAmountOf: CalculateVatAmount)
    requires Resolvable(lines, find)
    ensures forall i :: 0 <= i < |lines| ==> WellPriced(PricedLines(lines, find, vatAmountOf)[i])
    ensures NoVatAtZeroRate(vatAmountOf) ==>
      forall i :: 0 <= i < |lines| && PricedLines(lines, find, vatAmountOf)[i].vatRate == Zero ==>
        IsZero(PricedLines(lines, find, vatAmountOf)[i].vat)
  {
    PricedLinesAt(lines, find, vatAmountOf);
  }

  /** The central property: if the VAT service charges no VAT at a ZERO
      rate, then pricing an invoice and building its voucher gives postings
      that sum to zero. */
  lemma PricedInvoiceBalances(number: string, customerName: string, currency: string, date: Date,
                              lines: seq<InvoiceLine>, find: FindVatCode, vatAmountOf: CalculateVatAmount)
    requires Resolvable(lines, find)
    requires NoVatAtZeroRate(vatAmountOf)
    ensures var priced := PricedLines(lines, find, vatAmountOf);
      Balanced(InvoiceVoucher(number, customerName, currency, date, InvoiceTotal(priced),
                              DiscountedSubTotalOf(priced), priced).postings)
  {
    var priced := PricedLines(lines, find, vatAmountOf);
    PricedLinesFacts(lines, find, vatAmountOf);
    assert forall i :: 0 <= i < |priced| ==> WellPriced(priced[i]);
    assert forall i :: 0 <= i < |priced| && priced[i].vatRate == Zero ==> IsZero(priced[i].vat);
    InvoiceVoucherBalances(InvoiceDescription(number, customerName), currency, date, priced);
  }

  // ---------------------------------------------------------------------
  // Saving an invoice

  datatype SaveError = PricingFailed(cause: PricingError) | MissingCustomerId

  /** The lines `save` attaches: every payload line converted with the
      saved invoice's id, in order. */
  function ToInvoiceLines(payloads: seq<NewInvoiceLinePayload>, invoiceId: int): (lines: seq<InvoiceLine>)
    ensures |lines| == |payloads|
    ensures forall i :: 0 <= i < |payloads| ==> lines[i] == ToInvoiceLine(payloads[i], invoiceId)
  {
    seq(|payloads|, i requires 0 <= i < |payloads| => ToInvoiceLine(payloads[i], invoiceId))
  }

  /** The pricing loop failed: some code does not resolve. */
  lemma PricingFailedOn(original: seq<InvoiceLine>, lines: seq<InvoiceLine>, totalAmount: Decimal,
                        discountedSubTotal: Decimal, outcome: Outcome<PricingError>,
                        find: FindVatCode, vatAmountOf: CalculateVatAmount)
    requires PricingResult(original, lines, totalAmount, discountedSubTotal, outcome, find, vatAmountOf)
    requires outcome.Fail?
    ensures !Resolvable(original, find)
  {
    FirstUnresolvedSpec(original, find);
  }

  /** The pricing loop succeeded: every code resolved and every line is priced. */
  lemma PricingPassed(original: seq<InvoiceLine>, lines: seq<InvoiceLine>, totalAmount: Decimal,
                      discountedSubTotal: Decimal, outcome: Outcome<PricingError>,
                      find: FindVatCode, vatAmountOf: CalculateVatAmount)
    requires PricingResult(original, lines, totalAmount, discountedSubTotal, outcome, find, vatAmountOf)
    requires outcome.Pass?
    ensures Resolvable(original, find)
    ensures lines == PricedLines(original, find, vatAmountOf)
    ensures totalAmount == InvoiceTotal(lines)
    ensures discountedSubTotal == DiscountedSubTotalOf(lines)
  {
    FirstUnresolvedSpec(original, find);
    var k := FirstUnresolved(original, find);
    if k == |original| {
      assert original[..k] == original && original[k..] == [];
      assert lines[..k] == lines;
    }
  }

  /** The first two steps of save: toInvoice with the next number of the
      issue year, then the saved id and the payload's lines under it. */
  method NumberedInvoice(payload: NewInvoicePayload, id: int, yearInvoiceCount: nat) returns (invoice: Invoice)
    ensures fresh(invoice)
    ensures invoice.id == id && invoice.number == GetNextInvoiceNumber(payload.issueDate.year, yearInvoiceCount)
    ensures invoice.issueDate == payload.issueDate && invoice.dueDate == payload.dueDate
    ensures invoice.currencyCode == payload.currencyCode && invoice.customerId == payload.customerId
    ensures invoice.lines == ToInvoiceLines(payload.invoiceLines, id)
  {
    invoice := new Invoice.FromPayload(payload, id, GetNextInvoiceNumber(payload.issueDate.year, yearInvoiceCount));
    invoice.lines := ToInvoiceLines(payload.invoiceLines, id);
  }

  /** save: number the invoice, attach its lines, price it and book it.
      `id` is the identifier the repository assigns, `yearInvoiceCount` the
      count it reports for the issue year and `customerName` the name the
      customer service gives for an id. */
  method Save(payload: NewInvoicePayload, id: int, yearInvoiceCount: nat, find: FindVatCode,
              vatAmountOf: CalculateVatAmount, customerName: int -> string, now: Date)
    returns (r: Result<(Invoice, CreateVoucherPayload), SaveError>)
    ensures r.Success? <==> Resolvable(ToInvoiceLines(payload.invoiceLines, id), find) && payload.customerId.Some?
    ensures r.Success? ==>
      && fresh(r.value.0)
      && r.value.0.id == id && r.value.0.issueDate == payload.issueDate && r.value.0.dueDate == payload.dueDate
      && r.value.0.currencyCode == payload.currencyCode && r.value.0.customerId == payload.customerId
      && r.value.0.number == GetNextInvoiceNumber(payload.issueDate.year, yearInvoiceCount)
      && r.value.0.lines == PricedLines(ToInvoiceLines(payload.invoiceLines, id), find, vatAmountOf)
      && r.value.0.totalAmount == InvoiceTotal(r.value.0.lines)
      && r.value.0.discountedSubTotal == DiscountedSubTotalOf(r.value.0.lines)
      && r.value.1 == InvoiceVoucher(r.value.0.number, customerName(payload.customerId.value),
                                     payload.currencyCode, now, r.value.0.totalAmount,
                                     r.value.0.discountedSubTotal, r.value.0.lines)
    ensures r.Success? && NoVatAtZeroRate(vatAmountOf) ==> Balanced(r.value.1.postings)
  {
    var invoice := NumberedInvoice(payload, id, yearInvoiceCount);
    ghost var lines := invoice.lines;
    var priced := PopulateInvoiceAmounts(invoice, find, vatAmountOf);
    if priced.Fail? {
      PricingFailedOn(lines, invoice.lines, invoice.totalAmount, invoice.discountedSubTotal, priced, find, vatAmountOf);
      return Failure(PricingFailed(priced.error));
    }
    PricingPassed(lines, invoice.lines, invoice.totalAmount, invoice.discountedSubTotal, priced, find, vatAmountOf);
    if invoice.customerId.None? {
      return Failure(MissingCustomerId);
    }
    var voucher := CreateVoucher(invoice, customerName(invoice.customerId.value), now);
    if NoVatAtZeroRate(vatAmountOf) {
      PricedInvoiceBalances(invoice.number, customerName(invoice.customerId.value), invoice.currencyCode,
                            now, lines, find, vatAmountOf);
    }
    return Success((invoice, voucher));
  }
}
