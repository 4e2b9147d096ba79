/** The expense service: building, updating, deleting and annotating
    expenses, mapping a category to a ledger account and booking an expense
    as a two-posting voucher. The category table and the chart of accounts
    are read-only collaborators, given as a map from category id to name
    and the set of account numbers that exist. */
module ExpenseService {
  import opened Wrappers
  import opened BigDecimals
  import opened LedgerPayloads
  import opened Expenses
  import opened ExpenseRepository

  const DEFAULT_ACCOUNT: string := "7790"
  const BANK_ACCOUNT: string := "1920"
  const NOK: string := "NOK"
  const NOT_FOUND: string := "Expense not found"

  /** Every account number the category mapping can produce. */
  const TABLE_ACCOUNTS: set<string> := {"7140", "7350", "6560", "7320", "6720", "6200", "7790"}

  /** The fixed category-name table; an unknown or missing name books to
      the default account. */
  function CategoryAccount(name: Option<string>): (account: string)
    ensures account in TABLE_ACCOUNTS
  {
    match name
    case Some("Travel") => "7140"
    case Some("Meals & Entertainment") => "7350"
    case Some("Office Supplies") => "6560"
    case Some("Marketing") => "7320"
    case Some("Professional Services") => "6720"
    case Some("Utilities") => "6200"
    case _ => DEFAULT_ACCOUNT
  }

  /** The six named categories and where they book. */
  lemma CategoryTable()
    ensures CategoryAccount(Some("Travel")) == "7140"
    ensures CategoryAccount(Some("Meals & Entertainment")) == "7350"
    ensures CategoryAccount(Some("Office Supplies")) == "6560"
    ensures CategoryAccount(Some("Marketing")) == "7320"
    ensures CategoryAccount(Some("Professional Services")) == "6720"
    ensures CategoryAccount(Some("Utilities")) == "6200"
    ensures CategoryAccount(None) == DEFAULT_ACCOUNT
  {
  }

  /** mapCategoryToAccount: the table's account for the category's name
      when that account exists in the chart, the default account otherwise. */
  function MapCategoryToAccount(categories: map<int, string>, chart: set<string>, categoryId: int): (account: string)
    ensures account in TABLE_ACCOUNTS
    ensures account == DEFAULT_ACCOUNT || account in chart
    ensures account != DEFAULT_ACCOUNT ==>
      categoryId in categories && CategoryAccount(Some(categories[categoryId])) == account
  {
    var name := if categoryId in categories then Some(categories[categoryId]) else None;
    var candidate := CategoryAccount(name);
    if candidate in chart then candidate else DEFAULT_ACCOUNT
  }

  /** A name outside the table books to the default account, whatever the chart holds. */
  lemma UnknownCategoryBooksToDefault(categories: map<int, string>, chart: set<string>, categoryId: int)
    requires categoryId !in categories ||
             categories[categoryId] !in {"Travel", "Meals & Entertainment", "Office Supplies",
                                         "Marketing", "Professional Services", "Utilities"}
    ensures MapCategoryToAccount(categories, chart, categoryId) == DEFAULT_ACCOUNT
  {
  }

  /** A named category whose account the chart holds books to that account. */
  lemma KnownCategoryBooksToTable(categories: map<int, string>, chart: set<string>, categoryId: int)
    requires categoryId in categories
    requires CategoryAccount(Some(categories[categoryId])) in chart
    ensures MapCategoryToAccount(categories, chart, categoryId) == CategoryAccount(Some(categories[categoryId]))
  {
  }

  /** createVoucherForExpense: debit the expense account with the amount,
      credit the bank account with its negation, both in NOK on the expense
      date. */
  function ExpenseVoucher(expense: Expense): (v: CreateVoucherPayload)
    ensures v.date == expense.expenseDate && v.description == "Expense: " + expense.title
    ensures |v.postings| == 2
    ensures v.postings[0].accountNumber == expense.accountNumber.GetOr(DEFAULT_ACCOUNT)
    ensures v.postings[0].amount == expense.amount && v.postings[0].rowNumber == 1
    ensures v.postings[0].description == expense.description
    ensures v.postings[1].accountNumber == BANK_ACCOUNT
    ensures v.postings[1].amount == Negate(expense.amount) && v.postings[1].rowNumber == 2
    ensures v.postings[1].description == "Payment: " + expense.title
    ensures forall i :: 0 <= i < 2 ==>
      && v.postings[i].currency == NOK && v.postings[i].originalCurrency == NOK
      && v.postings[i].originalAmount == v.postings[i].amount
      && v.postings[i].postingDate == expense.expenseDate && v.postings[i].vatCode.None?
  {
    CreateVoucherPayload(
      "Expense: " + expense.title,
      expense.expenseDate,
      [ CreatePostingPayload(expense.accountNumber.GetOr(DEFAULT_ACCOUNT), expense.amount, NOK,
                             expense.expenseDate, expense.description, expense.amount, NOK, None, 1),
        CreatePostingPayload(BANK_ACCOUNT, Negate(expense.amount), NOK, expense.expenseDate,
                             "Payment: " + expense.title, Negate(expense.amount), NOK, None, 2) ])
  }

  /** The expense voucher always balances, whatever the amount and its scale. */
  lemma ExpenseVoucherBalances(expense: Expense)
    ensures Balanced(ExpenseVoucher(expense).postings)
  {
    var a := expense.amount;
    var amounts := Amounts(ExpenseVoucher(expense).postings);
    assert amounts == [a, Negate(a)];
    assert amounts[..1] == [a];
    SumAt(amounts, a.scale);
    SumAt(amounts[..1], a.scale);
    NegateAt(a, a.scale);
    IsZeroAt(Sum(amounts), a.scale);
  }

  /** The expense service with its repository, its read-only collaborators
      and the vouchers it has handed to the voucher service, in order. */
  class ExpenseService {
    const repository: ExpenseTable
    const categories: map<int, string>
    const chart: set<string>
    const tenantId: int
    var vouchers: seq<CreateVoucherPayload>

    ghost predicate Valid()
      reads this, repository
    {
      repository.Valid()
    }

    constructor (repository: ExpenseTable, categories: map<int, string>, chart: set<string>, tenantId: int)
      requires repository.Valid()
      ensures Valid() && vouchers == []
      ensures this.repository == repository && this.categories == categories
      ensures this.chart == chart && this.tenantId == tenantId
    {
      this.repository := repository;
      this.categories := categories;
      this.chart := chart;
      this.tenantId := tenantId;
      vouchers := [];
    }

    /** createExpenseEntity: a new, unsaved, OPEN expense whose costs are
        the payload's, copied field for field in order, and whose amount is
        their sum. */
    method CreateExpenseEntity(payload: CreateExpensePayload, createdBy: string) returns (expense: Expense)
      ensures expense.id == UNSAVED_ID && expense.tenantId == tenantId && expense.status == Open
      ensures expense.title == payload.title && expense.description == payload.description
      ensures expense.expenseDate == payload.expenseDate && expense.categoryId == payload.categoryId
      ensures expense.receiptPath == payload.receiptPath && expense.createdBy == createdBy
      ensures expense.accountNumber == Some(MapCategoryToAccount(categories, chart, payload.categoryId))
      ensures expense.costs == ToCosts(payload.costs)
      ensures expense.amount == Sum(CostAmounts(ToCosts(payload.costs)))
      ensures expense.attachments == []
    {
      expense := Expense(UNSAVED_ID, tenantId, "", "", payload.expenseDate, Open, -1, None, "", None,
                         Zero, [], []);
      expense := expense.(title := payload.title, description := payload.description);
      expense := expense.(expenseDate := payload.expenseDate, status := Open);
      expense := expense.(categoryId := payload.categoryId, receiptPath := payload.receiptPath);
      expense := expense.(createdBy := createdBy);
      expense := expense.(accountNumber := Some(MapCategoryToAccount(categories, chart, payload.categoryId)));
      var costs := ToCosts(payload.costs);
      expense := expense.(costs := expense.costs + costs);
      expense := expense.(amount := Sum(CostAmounts(costs)));
    }

    /** createExpense: build the expense, save it under a fresh identifier
        and book its voucher. */
    method CreateExpense(payload: CreateExpensePayload, createdBy: string) returns (saved: Expense)
      requires Valid()
      modifies this, repository
      ensures Valid()
      ensures saved.id == old(repository.nextId) && saved.id !in old(repository.rows)
      ensures repository.rows == old(repository.rows)[saved.id := saved]
      ensures saved.tenantId == tenantId && saved.status == Open
      ensures saved.title == payload.title && saved.description == payload.description
      ensures saved.expenseDate == payload.expenseDate && saved.categoryId == payload.categoryId
      ensures saved.receiptPath == payload.receiptPath && saved.createdBy == createdBy
      ensures saved.accountNumber == Some(MapCategoryToAccount(categories, chart, payload.categoryId))
      ensures saved.costs == ToCosts(payload.costs)
      ensures saved.amount == Sum(CostAmounts(ToCosts(payload.costs)))
      ensures saved.attachments == []
      ensures vouchers == old(vouchers) + [ExpenseVoucher(saved)]
      ensures Balanced(ExpenseVoucher(saved).postings)
    {
      var expense := CreateExpenseEntity(payload, createdBy);
      saved := repository.Save(expense);
      vouchers := vouchers + [ExpenseVoucher(saved)];
      ExpenseVoucherBalances(saved);
    }

    /** updateExpense: the header fields and the costs are replaced by the
        payload's, the old costs deleted first; status, creator, receipt and
        attachments stay. A missing identifier fails and changes nothing. */
    method UpdateExpense(id: int, payload: CreateExpensePayload) returns (r: Result<Expense, string>)
      requires Valid()
      modifies repository
      ensures Valid() && repository.nextId == old(repository.nextId)
      ensures r.Failure? <==> id !in old(repository.rows)
      ensures r.Failure? ==> r.error == NOT_FOUND && repository.rows == old(repository.rows)
      ensures r.Success? ==>
        var was := old(repository.rows)[id];
        && repository.rows == old(repository.rows)[id := r.value]
        && r.value.id == id && r.value.title == payload.title
        && r.value.description == payload.description && r.value.expenseDate == payload.expenseDate
        && r.value.categoryId == payload.categoryId
        && r.value.accountNumber == Some(MapCategoryToAccount(categories, chart, payload.categoryId))
        && r.value.amount == Sum(CostAmounts(ToCosts(payload.costs)))
        && r.value.costs == ToCosts(payload.costs)
        && r.value.status == was.status && r.value.tenantId == was.tenantId
        && r.value.createdBy == was.createdBy && r.value.receiptPath == was.receiptPath
        && r.value.attachments == was.attachments
    {
      var found := repository.FindById(id);
      if found.None? {
        return Failure(NOT_FOUND);
      }
      var expense := found.value;
      expense := expense.(title := payload.title, description := payload.description);
      expense := expense.(expenseDate := payload.expenseDate, categoryId := payload.categoryId);
      expense := expense.(accountNumber := Some(MapCategoryToAccount(categories, chart, payload.categoryId)));
      expense := expense.(amount := Sum(CostAmounts(ToCosts(payload.costs))));
      repository.DeleteCostsByExpenseId(id);
      expense := expense.(costs := ToCosts(payload.costs));
      var saved := repository.Save(expense);
      return Success(saved);
    }

    /** deleteExpense: the row goes; a missing identifier fails and changes
        nothing. */
    method DeleteExpense(id: int) returns (r: Outcome<string>)
      requires Valid()
      modifies repository
      ensures Valid() && repository.nextId == old(repository.nextId)
      ensures r.Fail? <==> id !in old(repository.rows)
      ensures r.Fail? ==> r.error == NOT_FOUND && repository.rows == old(repository.rows)
      ensures r.Pass? ==> repository.rows == old(repository.rows) - {id}
    {
      var found := repository.FindById(id);
      if found.None? {
        return Fail(NOT_FOUND);
      }
      repository.Delete(found.value.id);
      return Pass;
    }

    /** addAttachmentsToExpense: one attachment per file, appended in order
        after the ones already there; a missing identifier fails and
        changes nothing. */
    method AddAttachmentsToExpense(id: int, files: seq<Bytes>) returns (r: Result<Expense, string>)
      requires Valid()
      modifies repository
      ensures Valid() && repository.nextId == old(repository.nextId)
      ensures r.Failure? <==> id !in old(repository.rows)
      ensures r.Failure? ==> r.error == NOT_FOUND && repository.rows == old(repository.rows)
      ensures r.Success? ==>
        && r.value == old(repository.rows)[id].(attachments := old(repository.rows)[id].attachments + Attachments(files))
        && repository.rows == old(repository.rows)[id := r.value]
    {
      var found := repository.FindById(id);
      if found.None? {
        return Failure(NOT_FOUND);
      }
      var expense := found.value;
      var i := 0;
      while i < |files|
        invariant 0 <= i <= |files|
        invariant expense == found.value.(attachments := found.value.attachments + Attachments(files[..i]))
      {
        assert files[..i + 1] == files[..i] + [files[i]];
        expense := expense.(attachments := expense.attachments + [ExpenseAttachment(files[i])]);
        i := i + 1;
      }
      assert files[..i] == files;
      var saved := repository.Save(expense);
      return Success(saved);
    }
  }

  /** The attachments made from the given files, one each, in order. */
  function Attachments(files: seq<Bytes>): (r: seq<ExpenseAttachment>)
    ensures |r| == |files| && forall i :: 0 <= i < |files| ==> r[i].fileData == files[i]
  {
    if files == [] then [] else Attachments(files[..|files| - 1]) + [ExpenseAttachment(files[|files| - 1])]
  }
}
