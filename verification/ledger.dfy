/** The expense ledger of the form (src/App.tsx): income, an ordered list of
    expense records, the three list handlers and the derived totals. Ids that
    the page draws from `crypto.randomUUID` arrive here as arguments together
    with the promise that they are fresh. */
module Ledger {
  import opened Optional
  import opened Excel

  /** The ids in use. */
  function Ids(e: seq<Expense>): set<Id> {
    set x | x in e :: x.id
  }

  /** No two records share an id: the ledger's invariant. */
  predicate UniqueIds(e: seq<Expense>) {
    forall i, j :: 0 <= i < j < |e| ==> e[i].id != e[j].id
  }

  /** No id occurs twice in a batch of freshly drawn ids. */
  predicate Distinct(ids: seq<Id>) {
    forall i, j :: 0 <= i < j < |ids| ==> ids[i] != ids[j]
  }

  /** Income as the page computes with it: unset text counts as 0. */
  function NumIncome(income: Option<int>): int {
    income.GetOr(0)
  }

  /** Reference definition of the expense total: the sum of the amounts. */
  function Sum(e: seq<Expense>): int {
    if e == [] then 0 else e[0].amount + Sum(e[1..])
  }

  lemma {:induction false} SumAppend(a: seq<Expense>, b: seq<Expense>)
    ensures Sum(a + b) == Sum(a) + Sum(b)
  {
    if a == [] {
      assert a + b == b;
    } else {
      assert (a + b)[1..] == a[1..] + b;
      SumAppend(a[1..], b);
    }
  }

  /** `totalExpense` and `balance` as the page derives them: a left-to-right
      fold over the amounts, and income minus that total. */
  method ComputeTotals(income: Option<int>, e: seq<Expense>) returns (totalExpense: int, balance: int)
    ensures totalExpense == Sum(e)
    ensures balance + totalExpense == NumIncome(income)
    ensures income.None? ==> balance == -Sum(e)
  {
    totalExpense := 0;
    var i := 0;
    while i < |e|
      invariant 0 <= i <= |e|
      invariant totalExpense == Sum(e[..i])
    {
      assert e[..i + 1] == e[..i] + [e[i]];
      SumAppend(e[..i], [e[i]]);
      totalExpense := totalExpense + e[i].amount;
      i := i + 1;
    }
    assert e[..|e|] == e;
    balance := NumIncome(income) - totalExpense;
  }

  /** The "add" button: a blank record with a fresh id goes at the end. */
  function AddExpense(e: seq<Expense>, newId: Id): (r: seq<Expense>)
    requires newId !in Ids(e)
    ensures |r| == |e| + 1
    ensures r[..|e|] == e
    ensures r[|e|].id == newId && r[|e|].name == "" && r[|e|].amount == 0
    ensures Ids(r) == Ids(e) + {newId}
    ensures UniqueIds(e) ==> UniqueIds(r)
  {
    var r := e + [Expense(newId, "", 0)];
    assert r[|e|] == Expense(newId, "", 0);
    assert forall i :: 0 <= i < |e| ==> r[i] == e[i];
    r
  }

  /** The trash button: every record carrying `id` is filtered out. */
  function RemoveExpense(e: seq<Expense>, id: Id): (r: seq<Expense>)
    ensures |r| <= |e|
    ensures forall x :: x in r <==> x in e && x.id != id
  {
    if e == [] then []
    else
      assert e == [e[0]] + e[1..];
      if e[0].id == id then RemoveExpense(e[1..], id)
      else [e[0]] + RemoveExpense(e[1..], id)
  }

  /** Removal keeps the ledger free of duplicate ids. */
  lemma {:induction false} RemoveKeepsUnique(e: seq<Expense>, id: Id)
    requires UniqueIds(e)
    ensures UniqueIds(RemoveExpense(e, id))
  {
    if e != [] {
      var rest := RemoveExpense(e[1..], id);
      UniqueTail(e);
      RemoveKeepsUnique(e[1..], id);
      if e[0].id != id {
        var r := [e[0]] + rest;
        forall i, j | 0 <= i < j < |r| ensures r[i].id != r[j].id {
          assert r[j] == rest[j - 1] && r[j] in rest;
          if i > 0 {
            assert r[i] == rest[i - 1];
          }
        }
      }
    }
  }

  /** Which field of a record an edit rewrites, with its new value. */
  datatype Field = Name(text: string) | Amount(value: int)

  /** One record with one field rewritten. */
  function Assign(x: Expense, f: Field): (y: Expense)
    ensures y.id == x.id
    ensures y.name == (if f.Name? then f.text else x.name)
    ensures y.amount == (if f.Amount? then f.value else x.amount)
  {
    match f
    case Name(t) => x.(name := t)
    case Amount(v) => x.(amount := v)
  }

  /** An edit in the table: the chosen field of every record carrying `id`
      is rewritten; all other records stay as they are. */
  function ChangeExpense(e: seq<Expense>, id: Id, f: Field): (r: seq<Expense>)
    ensures |r| == |e|
    ensures forall i :: 0 <= i < |e| ==> r[i].id == e[i].id
    ensures forall i :: 0 <= i < |e| && e[i].id != id ==> r[i] == e[i]
    ensures forall i :: 0 <= i < |e| && e[i].id == id ==> r[i] == Assign(e[i], f)
  {
    if e == [] then []
    else [if e[0].id == id then Assign(e[0], f) else e[0]] + ChangeExpense(e[1..], id, f)
  }

  /** Removing an id that is not in use changes nothing. */
  lemma {:induction false} RemoveAbsent(e: seq<Expense>, id: Id)
    requires id !in Ids(e)
    ensures RemoveExpense(e, id) == e
  {
    if e != [] {
      assert e[0] in e;
      assert forall x :: x in e[1..] ==> x in e;
      RemoveAbsent(e[1..], id);
      assert e == [e[0]] + e[1..];
    }
  }

  /** Removal works piecewise over a concatenation. */
  lemma {:induction false} RemoveAppend(a: seq<Expense>, b: seq<Expense>, id: Id)
    ensures RemoveExpense(a + b, id) == RemoveExpense(a, id) + RemoveExpense(b, id)
  {
    if a == [] {
      assert a + b == b;
    } else {
      assert (a + b)[1..] == a[1..] + b;
      RemoveAppend(a[1..], b, id);
    }
  }

  /** The tail of a duplicate-free ledger is duplicate-free and does not
      carry the head's id. */
  lemma UniqueTail(e: seq<Expense>)
    requires UniqueIds(e)
    requires e != []
    ensures UniqueIds(e[1..])
    ensures e[0].id !in Ids(e[1..])
  {
  }

  /** Removing an id that occurs only at position `k` cuts out exactly
      that record. */
  lemma {:induction false} RemoveOnlyAt(e: seq<Expense>, k: nat)
    requires k < |e|
    requires forall i :: 0 <= i < |e| && i != k ==> e[i].id != e[k].id
    ensures RemoveExpense(e, e[k].id) == e[..k] + e[k + 1..]
  {
    var id := e[k].id;
    var tail := e[1..];
    if k == 0 {
      assert forall x :: x in tail ==> x.id != id;
      RemoveAbsent(tail, id);
    } else {
      assert tail[k - 1] == e[k];
      assert forall i :: 0 <= i < |tail| && i != k - 1 ==> tail[i].id != id by {
        assert forall i :: 0 <= i < |tail| ==> tail[i] == e[i + 1];
      }
      RemoveOnlyAt(tail, k - 1);
      CutCons(e, k);
    }
  }

  /** Cutting out position `k > 0` commutes with taking the head off. */
  lemma CutCons(e: seq<Expense>, k: nat)
    requires 0 < k < |e|
    ensures e[..k] + e[k + 1..] == [e[0]] + (e[1..][..k - 1] + e[1..][k..])
  {
    assert e[1..][..k - 1] == e[1..k];
    assert e[1..][k..] == e[k + 1..];
    assert e[..k] == [e[0]] + e[1..k];
  }

  /** In a ledger without duplicate ids, removing the id of record `k` cuts
      out exactly that record and keeps the others in their order. */
  lemma RemoveAt(e: seq<Expense>, k: nat)
    requires UniqueIds(e)
    requires k < |e|
    ensures RemoveExpense(e, e[k].id) == e[..k] + e[k + 1..]
  {
    assert forall i :: 0 <= i < |e| && i != k ==> e[i].id != e[k].id by {
      forall i | 0 <= i < |e| && i != k ensures e[i].id != e[k].id {
        if i < k { assert e[i].id != e[k].id; } else { assert e[k].id != e[i].id; }
      }
    }
    RemoveOnlyAt(e, k);
  }

  /** Adding a record and removing it again restores the list exactly. */
  lemma AddThenRemove(e: seq<Expense>, newId: Id)
    requires newId !in Ids(e)
    ensures RemoveExpense(AddExpense(e, newId), newId) == e
  {
    RemoveAppend(e, [Expense(newId, "", 0)], newId);
    RemoveAbsent(e, newId);
    assert AddExpense(e, newId) == e + [Expense(newId, "", 0)];
    assert RemoveExpense([Expense(newId, "", 0)], newId) == [];
  }

  /** In a ledger without duplicate ids, an edit of record `k` is the
      single-position update of that record. */
  lemma ChangeAt(e: seq<Expense>, k: nat, f: Field)
    requires UniqueIds(e)
    requires k < |e|
    ensures ChangeExpense(e, e[k].id, f) == e[k := Assign(e[k], f)]
  {
  }

  /** Overwriting one record shifts the total by the change of its amount. */
  lemma {:induction false} SumUpdate(e: seq<Expense>, k: nat, x: Expense)
    requires k < |e|
    ensures Sum(e[k := x]) == Sum(e) - e[k].amount + x.amount
  {
    if k == 0 {
      assert e[k := x][1..] == e[1..];
    } else {
      assert e[k := x][1..] == e[1..][k - 1 := x];
      SumUpdate(e[1..], k - 1, x);
    }
  }

  /** A new blank record leaves the total as it was. */
  lemma SumAfterAdd(e: seq<Expense>, newId: Id)
    requires newId !in Ids(e)
    ensures Sum(AddExpense(e, newId)) == Sum(e)
  {
    SumAppend(e, [Expense(newId, "", 0)]);
    assert AddExpense(e, newId) == e + [Expense(newId, "", 0)];
  }

  /** Cutting record `k` out of a list lowers the total by its amount. */
  lemma SumCut(e: seq<Expense>, k: nat)
    requires k < |e|
    ensures Sum(e[..k] + e[k + 1..]) == Sum(e) - e[k].amount
  {
    var before, after := e[..k], e[k + 1..];
    assert e == before + ([e[k]] + after);
    assert ([e[k]] + after)[1..] == after;
    SumAppend(before, [e[k]] + after);
    SumAppend(before, after);
  }

  /** Removing record `k` lowers the total by exactly its amount. */
  lemma SumAfterRemove(e: seq<Expense>, k: nat)
    requires UniqueIds(e)
    requires k < |e|
    ensures Sum(RemoveExpense(e, e[k].id)) == Sum(e) - e[k].amount
  {
    RemoveAt(e, k);
    SumCut(e, k);
  }

  /** Editing the amount of record `k` moves the total by the difference;
      editing a name leaves it as it was. */
  lemma SumAfterChange(e: seq<Expense>, k: nat, f: Field)
    requires UniqueIds(e)
    requires k < |e|
    ensures f.Amount? ==> Sum(ChangeExpense(e, e[k].id, f)) == Sum(e) - e[k].amount + f.value
    ensures f.Name? ==> Sum(ChangeExpense(e, e[k].id, f)) == Sum(e)
  {
    ChangeAt(e, k, f);
    SumUpdate(e, k, Assign(e[k], f));
  }
}
