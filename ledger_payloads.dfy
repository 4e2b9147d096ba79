/** The voucher payloads the invoice and expense services hand to the
    voucher service: a voucher is a description, a date and an ordered list
    of signed postings (positive = debit, negative = credit). */
module LedgerPayloads {
  import opened Wrappers
  import opened BigDecimals

  /** java.time.LocalDate; only the year is ever inspected. */
  datatype Date = Date(year: int, month: int, day: int)

  datatype CreatePostingPayload = CreatePostingPayload(
    accountNumber: string,
    amount: Decimal,
    currency: string,
    postingDate: Date,
    description: string,
    originalAmount: Decimal,
    originalCurrency: string,
    vatCode: Option<string>,
    rowNumber: int)

  datatype CreateVoucherPayload = CreateVoucherPayload(
    description: string,
    date: Date,
    postings: seq<CreatePostingPayload>)

  function Amounts(ps: seq<CreatePostingPayload>): (r: seq<Decimal>)
    ensures |r| == |ps| && forall i :: 0 <= i < |ps| ==> r[i] == ps[i].amount
  {
    if ps == [] then [] else Amounts(ps[..|ps| - 1]) + [ps[|ps| - 1].amount]
  }

  lemma {:induction false} AmountsAppend(a: seq<CreatePostingPayload>, b: seq<CreatePostingPayload>)
    ensures Amounts(a + b) == Amounts(a) + Amounts(b)
  {
    if b != [] {
      assert (a + b)[..|a + b| - 1] == a + b[..|b| - 1];
      AmountsAppend(a, b[..|b| - 1]);
    } else {
      assert a + b == a;
    }
  }

  /** Debits equal credits: the signed amounts add up to zero. */
  predicate Balanced(ps: seq<CreatePostingPayload>) {
    IsZero(Sum(Amounts(ps)))
  }
}
