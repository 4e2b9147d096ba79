/** The expense entities and payloads of the ledger module, as the expense
    service uses them. An expense owns its costs and its attachments, so
    both are held inside the expense row. */
module Expenses {
  import opened Wrappers
  import opened JvmInt
  import opened BigDecimals
  import opened LedgerPayloads

  type Bytes = seq<bv8>

  datatype PaymentType = PrivatUtlegg | Refusjon | BedriftsUtlegg | KontantBetaling | Fakturabetaling

  /** OPEN, DELIVERED, APPROVED: the statuses the status update moves between. */
  datatype ExpenseStatus = Open | Delivered | Approved

  datatype CreateCostPayload = CreateCostPayload(
    title: string,
    date: Date,
    amount: Decimal,
    vat: int32,
    currency: string,
    paymentType: PaymentType,
    chargeable: bool)

  datatype CreateExpensePayload = CreateExpensePayload(
    title: string,
    description: string,
    expenseDate: Date,
    categoryId: int,
    costs: seq<CreateCostPayload>,
    receiptPath: Option<string>)

  /** One cost of an expense (the row's identifier and its back reference to
      the expense are implied by where it is held). */
  datatype Cost = Cost(
    title: string,
    date: Date,
    amount: Decimal,
    vat: int32,
    currency: string,
    paymentType: PaymentType,
    chargeable: bool)

  datatype ExpenseAttachment = ExpenseAttachment(fileData: Bytes)

  /** A row of the expense table; `id` is -1 until the row is first saved. */
  datatype Expense = Expense(
    id: int,
    tenantId: int,
    title: string,
    description: string,
    expenseDate: Date,
    status: ExpenseStatus,
    categoryId: int,
    receiptPath: Option<string>,
    createdBy: string,
    accountNumber: Option<string>,
    amount: Decimal,
    costs: seq<Cost>,
    attachments: seq<ExpenseAttachment>)

  const UNSAVED_ID: int := -1

  /** The cost entity built from one cost payload: every field is copied. */
  function ToCost(p: CreateCostPayload): (c: Cost)
    ensures c.title == p.title && c.date == p.date && c.amount == p.amount && c.vat == p.vat
    ensures c.currency == p.currency && c.paymentType == p.paymentType && c.chargeable == p.chargeable
  {
    Cost(p.title, p.date, p.amount, p.vat, p.currency, p.paymentType, p.chargeable)
  }

  /** `payload.costs.map { … }`: one cost per payload, in payload order. */
  function ToCosts(ps: seq<CreateCostPayload>): (cs: seq<Cost>)
    ensures |cs| == |ps| && forall i :: 0 <= i < |ps| ==> cs[i] == ToCost(ps[i])
  {
    seq(|ps|, i requires 0 <= i < |ps| => ToCost(ps[i]))
  }

  function CostAmounts(cs: seq<Cost>): (r: seq<Decimal>)
    ensures |r| == |cs| && forall i :: 0 <= i < |cs| ==> r[i] == cs[i].amount
  {
    seq(|cs|, i requires 0 <= i < |cs| => cs[i].amount)
  }

  /** The copied costs carry the payload's amounts, in order, so
      `costs.sumOf { it.amount }` on create and `payload.costs.sumOf` on
      update sum the same sequence. */
  lemma CopiedAmounts(ps: seq<CreateCostPayload>)
    ensures |CostAmounts(ToCosts(ps))| == |ps|
    ensures forall i :: 0 <= i < |ps| ==> CostAmounts(ToCosts(ps))[i] == ps[i].amount
  {
  }
}
