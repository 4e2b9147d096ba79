/** The expense table and its one hand-written update: the status CASE,
    which moves an expense one step along OPEN, DELIVERED, APPROVED. */
module ExpenseRepository {
  import opened Wrappers
  import opened Expenses

  /** How far along the approval path a status is. */
  function Rank(s: ExpenseStatus): (n: nat)
    ensures n <= 2
  {
    match s
    case Open => 0
    case Delivered => 1
    case Approved => 2
  }

  /** CASE WHEN OPEN THEN DELIVERED WHEN DELIVERED THEN APPROVED ELSE status. */
  function NextStatus(s: ExpenseStatus): (r: ExpenseStatus)
    // one step forward, never back, and standing still only at the end
    ensures Rank(s) <= Rank(r) <= Rank(s) + 1
    ensures r == s <==> s == Approved
  {
    match s
    case Open => Delivered
    case Delivered => Approved
    case Approved => s
  }

  /** The two transitions and the fixpoint, one by one. */
  lemma StatusTransitions()
    ensures NextStatus(Open) == Delivered
    ensures NextStatus(Delivered) == Approved
    ensures NextStatus(Approved) == Approved
  {
  }

  /** A status is determined by its rank. */
  lemma RankInjective(a: ExpenseStatus, b: ExpenseStatus)
    ensures Rank(a) == Rank(b) <==> a == b
  {
  }

  /** The status after n status updates. */
  function Advance(s: ExpenseStatus, n: nat): ExpenseStatus {
    if n == 0 then s else NextStatus(Advance(s, n - 1))
  }

  /** n updates move min(n, 2 - rank) steps forward. */
  lemma {:induction false} AdvanceRank(s: ExpenseStatus, n: nat)
    ensures Rank(Advance(s, n)) == if Rank(s) + n <= 2 then Rank(s) + n else 2
  {
    if n > 0 {
      AdvanceRank(s, n - 1);
      var t := Advance(s, n - 1);
      assert Rank(t) < 2 ==> t != Approved;
    }
  }

  /** From OPEN, two updates reach APPROVED and further ones change nothing. */
  lemma OpenReachesApproved(n: nat)
    requires n >= 2
    ensures Advance(Open, n) == Approved
  {
    AdvanceRank(Open, n);
    RankInjective(Advance(Open, n), Approved);
  }

  /** APPROVED is terminal. */
  lemma ApprovedIsTerminal(n: nat)
    ensures Advance(Approved, n) == Approved
  {
    AdvanceRank(Approved, n);
    RankInjective(Advance(Approved, n), Approved);
  }

  /** The expense table, keyed by the generated identifier. */
  class ExpenseTable {
    var rows: map<int, Expense>
    var nextId: int

    ghost predicate Valid()
      reads this
    {
      && nextId >= 1
      && forall id :: id in rows ==> rows[id].id == id && 1 <= id < nextId
    }

    constructor ()
      ensures Valid() && rows == map[]
    {
      rows := map[];
      nextId := 1;
    }

    /** `findById`: the row with that identifier, if there is one. */
    method FindById(id: int) returns (r: Option<Expense>)
      requires Valid()
      ensures r.Some? <==> id in rows
      ensures r.Some? ==> r.value == rows[id] && r.value.id == id
    {
      if id in rows {
        r := Some(rows[id]);
      } else {
        r := None;
      }
    }

    /** `save`: an unsaved row gets the next identifier, a saved one
        replaces the stored row with that identifier. */
    method Save(e: Expense) returns (saved: Expense)
      requires Valid()
      requires e.id == UNSAVED_ID || e.id in rows
      modifies this
      ensures Valid()
      ensures saved == (if e.id == UNSAVED_ID then e.(id := old(nextId)) else e)
      ensures e.id == UNSAVED_ID ==> saved.id !in old(rows) && nextId == old(nextId) + 1
      ensures e.id != UNSAVED_ID ==> nextId == old(nextId)
      ensures rows == old(rows)[saved.id := saved]
    {
      if e.id == UNSAVED_ID {
        saved := e.(id := nextId);
        nextId := nextId + 1;
      } else {
        saved := e;
      }
      rows := rows[saved.id := saved];
    }

    /** `delete`: the row goes, with the costs and attachments it owns. */
    method Delete(id: int)
      requires Valid()
      modifies this
      ensures Valid() && nextId == old(nextId)
      ensures rows == old(rows) - {id}
    {
      rows := rows - {id};
    }

    /** `deleteCostsByExpenseId`: the expense keeps no cost. */
    method DeleteCostsByExpenseId(id: int)
      requires Valid()
      modifies this
      ensures Valid() && nextId == old(nextId)
      ensures rows == if id in old(rows) then old(rows)[id := old(rows)[id].(costs := [])] else old(rows)
    {
      if id in rows {
        rows := rows[id := rows[id].(costs := [])];
      }
    }

    /** `updateExpenseStatus`: the CASE applied to the one row whose
        identifier matches; no row matching is no change. */
    method UpdateExpenseStatus(id: int)
      requires Valid()
      modifies this
      ensures Valid() && nextId == old(nextId)
      ensures rows.Keys == old(rows).Keys
      ensures id in rows ==> rows[id] == old(rows)[id].(status := NextStatus(old(rows)[id].status))
      ensures forall other :: other in rows && other != id ==> rows[other] == old(rows)[other]
    {
      if id in rows {
        rows := rows[id := rows[id].(status := NextStatus(rows[id].status))];
      }
    }
  }
}
