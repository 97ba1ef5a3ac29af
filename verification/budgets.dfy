/** The budget endpoints: `create_or_update_budget` (upsert by user and
    category), `read_budgets` and `get_budget_status`. The `budgets` table
    is a sequence of rows in insertion order; the spending query is its
    meaning over the `documents` and `transactions` rows. */
module Budgets {
  import opened Common
  import opened Records

  /** The response schema `BudgetOut`. */
  datatype BudgetOut = BudgetOut(id: nat, category: string, amount: real)

  /** The response schema `BudgetStatus`, before `percent_used` is rounded. */
  datatype BudgetStatus = BudgetStatus(
    category: string,
    limit: real,
    spent: real,
    remaining: real,
    percentUsed: real)

  predicate IsKey(b: Budget, user: nat, category: string) {
    b.userId == user && b.category == category
  }

  // ---------------------------------------------------------------------
  // create_or_update_budget
  // ---------------------------------------------------------------------

  /** `select(Budget).where(user, category)...first()`: the position of the
      first matching row. */
  function FindBudget(store: seq<Budget>, user: nat, category: string): (r: Option<nat>)
    ensures r.Some? ==> r.value < |store| && IsKey(store[r.value], user, category)
    ensures r.Some? ==> forall k :: 0 <= k < r.value ==> !IsKey(store[k], user, category)
    ensures r.None? ==> forall k :: 0 <= k < |store| ==> !IsKey(store[k], user, category)
  {
    if store == [] then None
    else if IsKey(store[0], user, category) then Some(0)
    else match FindBudget(store[1..], user, category)
      case None => None
      case Some(j) => Some(j + 1)
  }

  /** The id the database assigns to a new row: one past the largest id. */
  function NextId(store: seq<Budget>): (n: nat)
    ensures forall k :: 0 <= k < |store| ==> store[k].id < n
  {
    if store == [] then 1
    else
      var rest := NextId(store[1..]);
      if store[0].id + 1 > rest then store[0].id + 1 else rest
  }

  datatype Upserted = Upserted(store: seq<Budget>, saved: Budget)

  /** `create_or_update_budget`: overwrite the amount of the existing row
      for (user, category), or add exactly one new row. */
  function Upsert(store: seq<Budget>, user: nat, category: string, amount: real): (r: Upserted)
    ensures IsKey(r.saved, user, category) && r.saved.amount == amount
    ensures FindBudget(store, user, category).Some? ==>
              var i := FindBudget(store, user, category).value;
              && |r.store| == |store|
              && r.store[i] == r.saved == store[i].(amount := amount)
              && (forall k :: 0 <= k < |store| && k != i ==> r.store[k] == store[k])
    ensures FindBudget(store, user, category).None? ==>
              && r.store == store + [r.saved]
              && r.saved.id !in set k | 0 <= k < |store| :: store[k].id
  {
    match FindBudget(store, user, category)
    case Some(i) =>
      var b := store[i].(amount := amount);
      Upserted(store[i := b], b)
    case None =>
      var b := Budget(NextId(store), user, category, amount);
      Upserted(store + [b], b)
  }

  /** `BudgetOut` of the saved row. */
  function UpsertResponse(store: seq<Budget>, user: nat, category: string, amount: real): (o: BudgetOut)
    ensures o.category == category && o.amount == amount
  {
    var saved := Upsert(store, user, category, amount).saved;
    BudgetOut(saved.id, saved.category, saved.amount)
  }

  /** At most one row per (user, category). */
  predicate UniqueKeys(store: seq<Budget>) {
    forall i, j :: 0 <= i < j < |store| ==>
      !(store[i].userId == store[j].userId && store[i].category == store[j].category)
  }

  predicate UniqueIds(store: seq<Budget>) {
    forall i, j :: 0 <= i < j < |store| ==> store[i].id != store[j].id
  }

  /** Upserting keeps (user, category) unique and ids distinct. */
  lemma UpsertPreservesUniqueness(store: seq<Budget>, user: nat, category: string, amount: real)
    requires UniqueKeys(store) && UniqueIds(store)
    ensures var s := Upsert(store, user, category, amount).store;
            UniqueKeys(s) && UniqueIds(s)
  {
    var s := Upsert(store, user, category, amount).store;
    if FindBudget(store, user, category).None? {
      assert forall k :: 0 <= k < |store| ==> s[k] == store[k];
      assert forall k :: 0 <= k < |store| ==> store[k].id in set k | 0 <= k < |store| :: store[k].id;
    }
  }

  /** Every row of another key keeps its position and its value. */
  lemma UpsertLeavesOtherKeys(store: seq<Budget>, user: nat, category: string, amount: real, k: nat)
    requires k < |store| && !IsKey(store[k], user, category)
    ensures var s := Upsert(store, user, category, amount).store;
            k < |s| && s[k] == store[k]
  {
  }

  /** After an upsert on a store with unique keys, the user has exactly one
      row for the category, holding the new amount. */
  lemma UpsertLeavesOneRow(store: seq<Budget>, user: nat, category: string, amount: real)
    requires UniqueKeys(store) && UniqueIds(store)
    ensures var s := Upsert(store, user, category, amount).store;
            && FindBudget(s, user, category).Some?
            && s[FindBudget(s, user, category).value].amount == amount
            && forall i, j :: 0 <= i < j < |s| ==> !(IsKey(s[i], user, category) && IsKey(s[j], user, category))
  {
    var r := Upsert(store, user, category, amount);
    UpsertPreservesUniqueness(store, user, category, amount);
    var f := FindBudget(r.store, user, category);
    assert r.saved in r.store;
    if f.Some? {
      var k :| 0 <= k < |r.store| && r.store[k] == r.saved;
      assert f.value == k;
    }
  }

  /** Repeating an upsert changes nothing further. */
  lemma UpsertIdempotent(store: seq<Budget>, user: nat, category: string, amount: real)
    ensures var s := Upsert(store, user, category, amount).store;
            Upsert(s, user, category, amount).store == s
  {
    var r := Upsert(store, user, category, amount);
    var s := r.store;
    var f := FindBudget(s, user, category);
    assert r.saved in s;
    assert f.Some?;
    if FindBudget(store, user, category).None? {
      assert forall k :: 0 <= k < |store| ==> s[k] == store[k];
    }
    assert s[f.value].amount == amount;
    assert s[f.value := s[f.value].(amount := amount)] == s;
  }

  // ---------------------------------------------------------------------
  // read_budgets
  // ---------------------------------------------------------------------

  /** `read_budgets`: the caller's rows, in table order. */
  function ReadBudgets(store: seq<Budget>, user: nat): (r: seq<Budget>)
    ensures forall b :: b in r <==> b in store && b.userId == user
    ensures |r| <= |store|
  {
    if store == [] then []
    else (if store[0].userId == user then [store[0]] else []) + ReadBudgets(store[1..], user)
  }

  // ---------------------------------------------------------------------
  // get_budget_status
  // ---------------------------------------------------------------------

  /** The transaction's document belongs to `user` (the join
      `Transaction -> Document` filtered by `Document.user_id`). */
  predicate OwnedBy(docs: seq<Document>, user: nat, docId: nat) {
    exists k | 0 <= k < |docs| :: docs[k].id == docId && docs[k].userId == Some(user)
  }

  /** `Transaction.category == budget.category`; a null category never
      compares equal. */
  predicate Counts(docs: seq<Document>, user: nat, category: string, t: TxRow) {
    t.category == Some(category) && OwnedBy(docs, user, t.documentId)
  }

  /** `SUM(amount)` over the matching transactions, with the `or 0.0` for
      an empty sum. */
  function Spent(docs: seq<Document>, txs: seq<TxRow>, user: nat, category: string): (s: real)
    ensures (forall k :: 0 <= k < |txs| ==> txs[k].amount >= 0.0) ==> s >= 0.0
    ensures txs == [] ==> s == 0.0
  {
    if txs == [] then 0.0
    else
      var last := txs[|txs| - 1];
      Spent(docs, txs[..|txs| - 1], user, category) + (if Counts(docs, user, category, last) then last.amount else 0.0)
  }

  lemma {:induction false} SpentAppend(docs: seq<Document>, a: seq<TxRow>, b: seq<TxRow>, user: nat, category: string)
    ensures Spent(docs, a + b, user, category) == Spent(docs, a, user, category) + Spent(docs, b, user, category)
  {
    if b == [] {
      assert a + b == a;
    } else {
      assert (a + b)[..|a + b| - 1] == a + b[..|b| - 1];
      SpentAppend(docs, a, b[..|b| - 1], user, category);
    }
  }

  /** With no matching transaction, `spent` is zero. */
  lemma {:induction false} SpentWithoutMatches(docs: seq<Document>, txs: seq<TxRow>, user: nat, category: string)
    requires forall k :: 0 <= k < |txs| ==> !Counts(docs, user, category, txs[k])
    ensures Spent(docs, txs, user, category) == 0.0
  {
    if txs != [] {
      SpentWithoutMatches(docs, txs[..|txs| - 1], user, category);
    }
  }

  /** Transactions of documents the user does not own leave `spent`
      unchanged, wherever they appear. */
  lemma SpentIgnoresOthers(docs: seq<Document>, a: seq<TxRow>, others: seq<TxRow>, b: seq<TxRow>,
                           user: nat, category: string)
    requires forall k :: 0 <= k < |others| ==> !OwnedBy(docs, user, others[k].documentId)
    ensures Spent(docs, a + others + b, user, category) == Spent(docs, a + b, user, category)
  {
    SpentAppend(docs, a + others, b, user, category);
    SpentAppend(docs, a, others, user, category);
    SpentAppend(docs, a, b, user, category);
    SpentWithoutMatches(docs, others, user, category);
  }

  /** One status entry for one budget. */
  function StatusOf(b: Budget, spent: real): (s: BudgetStatus)
    ensures s.category == b.category && s.limit == b.amount && s.spent == spent
    ensures s.remaining + s.spent == s.limit
    ensures b.amount > 0.0 ==> s.percentUsed * b.amount == spent * 100.0
    ensures b.amount <= 0.0 ==> s.percentUsed == 0.0
  {
    BudgetStatus(b.category, b.amount, spent, b.amount - spent, Percent(spent, b.amount))
  }

  /** The spending query for one budget, as a loop over the rows. */
  method SumSpent(docs: seq<Document>, txs: seq<TxRow>, user: nat, category: string) returns (spent: real)
    ensures spent == Spent(docs, txs, user, category)
  {
    spent := 0.0;
    var i := 0;
    while i < |txs|
      invariant 0 <= i <= |txs|
      invariant spent == Spent(docs, txs[..i], user, category)
    {
      assert txs[..i + 1][..i] == txs[..i];
      if txs[i].category == Some(category) && OwnedBy(docs, user, txs[i].documentId) {
        spent := spent + txs[i].amount;
      }
      i := i + 1;
    }
    assert txs[..|txs|] == txs;
  }

  /** `get_budget_status`: one entry per budget of the caller, in order. */
  method GetBudgetStatus(store: seq<Budget>, docs: seq<Document>, txs: seq<TxRow>, user: nat)
    returns (status: seq<BudgetStatus>)
    ensures var mine := ReadBudgets(store, user);
            && |status| == |mine|
            && forall i :: 0 <= i < |mine| ==>
                 status[i] == StatusOf(mine[i], Spent(docs, txs, user, mine[i].category))
  {
    var budgets := ReadBudgets(store, user);
    status := [];
    var i := 0;
    while i < |budgets|
      invariant 0 <= i <= |budgets|
      invariant |status| == i
      invariant forall k :: 0 <= k < i ==>
                  status[k] == StatusOf(budgets[k], Spent(docs, txs, user, budgets[k].category))
    {
      var budget := budgets[i];
      var spent := SumSpent(docs, txs, user, budget.category);
      status := status + [StatusOf(budget, spent)];
      i := i + 1;
    }
  }
}
