/**
 * The expense store of tracker.py: the in-memory list of expense records that
 * load_expenses returns and save_expenses writes back, and the `add` operation
 * that assigns the next id and appends one record.
 */
module ExpenseStore {
  import opened Wrappers

  /** One record of the store: the four keys of the JSON object it is saved as. */
  datatype Expense = Expense(id: int, date: string, description: string, amount: real)

  /** The id of the record at position k. */
  function IdAt(s: seq<Expense>, k: nat): int
    requires k < |s|
  {
    s[k].id
  }

  /** The store invariant: every id is positive and ids strictly increase in list order. */
  ghost predicate IdsValid(s: seq<Expense>)
  {
    (forall k :: 0 <= k < |s| ==> IdAt(s, k) >= 1) &&
    (forall i, j :: 0 <= i < j < |s| ==> IdAt(s, i) < IdAt(s, j))
  }

  /** No two records share an id. */
  ghost predicate IdsUnique(s: seq<Expense>)
  {
    forall i, j :: 0 <= i < |s| && 0 <= j < |s| && i != j ==> IdAt(s, i) != IdAt(s, j)
  }

  /**
   * The id the source gives a new record: 1 for an empty store, otherwise the
   * id of the LAST record plus one (not the largest id plus one).
   */
  function NextId(s: seq<Expense>): int
  {
    if |s| == 0 then 1 else s[|s| - 1].id + 1
  }

  /**
   * The largest of 0 and the ids in the store (the largest id whenever ids are
   * positive): the reference for "max id + 1".
   */
  function MaxId(s: seq<Expense>): (r: int)
    ensures r >= 0
    ensures forall k :: 0 <= k < |s| ==> IdAt(s, k) <= r
    ensures r == 0 || exists k :: 0 <= k < |s| && IdAt(s, k) == r
  {
    if |s| == 0 then 0
    else
      var init := s[..|s| - 1];
      var m := MaxId(init);
      assert forall k :: 0 <= k < |init| ==> IdAt(init, k) == IdAt(s, k);
      if m < IdAt(s, |s| - 1) then
        IdAt(s, |s| - 1)
      else
        assert m != 0 ==> exists k :: 0 <= k < |init| && IdAt(s, k) == m;
        m
  }

  /** An empty store gives id 1. */
  lemma NextIdOfEmpty(s: seq<Expense>)
    requires |s| == 0
    ensures NextId(s) == 1 && NextId(s) == MaxId(s) + 1
  {
  }

  /** Under the store invariant, "last id + 1" is exactly "max id + 1". */
  lemma NextIdIsMaxPlusOne(s: seq<Expense>)
    requires IdsValid(s)
    ensures NextId(s) == MaxId(s) + 1
  {
  }

  /** Under the store invariant the new id exceeds, and so differs from, every existing id. */
  lemma NextIdIsFresh(s: seq<Expense>)
    requires IdsValid(s)
    ensures NextId(s) >= 1
    ensures forall k :: 0 <= k < |s| ==> IdAt(s, k) < NextId(s)
  {
    if |s| > 0 {
      assert IdAt(s, |s| - 1) >= 1;
      forall k | 0 <= k < |s| ensures IdAt(s, k) < NextId(s) {
        if k < |s| - 1 {
          assert IdAt(s, k) < IdAt(s, |s| - 1);
        }
      }
    }
  }

  /** Strictly increasing ids are unique ids. */
  lemma IdsValidImpliesUnique(s: seq<Expense>)
    requires IdsValid(s)
    ensures IdsUnique(s)
  {
  }

  /** Appending a record carrying NextId keeps the store invariant. */
  lemma AppendPreservesIdsValid(s: seq<Expense>, date: string, description: string, amount: real)
    requires IdsValid(s)
    ensures IdsValid(s + [Expense(NextId(s), date, description, amount)])
  {
    var t := s + [Expense(NextId(s), date, description, amount)];
    NextIdIsFresh(s);
    assert forall k :: 0 <= k < |s| ==> IdAt(t, k) == IdAt(s, k);
    assert IdAt(t, |s|) == NextId(s);
  }

  /**
   * The order assumption matters: in a store whose ids are out of order,
   * "last id + 1" can repeat an id already present.
   */
  lemma LastPlusOneCanRepeatAnId()
    ensures var s := [Expense(2, "", "", 0.0), Expense(1, "", "", 0.0)];
            !IdsValid(s) && NextId(s) == IdAt(s, 0) && NextId(s) != MaxId(s) + 1
  {
    var s := [Expense(2, "", "", 0.0), Expense(1, "", "", 0.0)];
    assert IdAt(s, 0) == 2 && IdAt(s, 1) == 1;
    assert MaxId(s) == 2;
  }

  /** The store: the list of records as loaded from, and saved back to, the backing file. */
  class Store {
    var expenses: seq<Expense>

    ghost predicate Valid()
      reads this
    {
      IdsValid(expenses)
    }

    /** Loading: a missing file is created holding an empty list; otherwise its list is read. */
    constructor Open(file: Option<seq<Expense>>)
      ensures expenses == (if file.Some? then file.value else [])
      ensures file.None? ==> Valid()
    {
      expenses := if file.Some? then file.value else [];
    }

    /**
     * Appends one record stamped with `today` and the next id, and reports
     * that id. Nothing else in the list changes.
     */
    method Add(description: string, amount: real, today: string) returns (newId: int)
      modifies this
      ensures newId == NextId(old(expenses))
      ensures old(expenses) == [] ==> newId == 1
      ensures expenses == old(expenses) + [Expense(newId, today, description, amount)]
      ensures old(Valid()) ==> Valid() && newId == MaxId(old(expenses)) + 1
      ensures old(Valid()) ==> forall k :: 0 <= k < |old(expenses)| ==> IdAt(old(expenses), k) < newId
    {
      var current := expenses;
      newId := NextId(current);
      if IdsValid(current) {
        NextIdIsMaxPlusOne(current);
        NextIdIsFresh(current);
        AppendPreservesIdsValid(current, today, description, amount);
      }
      expenses := current + [Expense(newId, today, description, amount)];
    }
  }
}
