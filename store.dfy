/** The database as the routes use it: buyers are appended with a fresh
    id, and every creation is recorded in the history. Queries, ordering
    and transactions are not part of this model. */
module Store {
  import opened Strings
  import opened Domain
  import opened Validation

  /** The `fields` of a history entry's diff: the validated payload. */
  datatype Fields = FormFields(form: FormValues) | CsvFields(row: CsvRowValues)

  /** One `buyerHistory` row: which buyer, who changed it, and its diff. */
  datatype HistoryEntry = HistoryEntry(buyerId: nat, changedBy: string, action: string, source: Option<string>, fields: Fields)

  /** Ids increase along `bs`, and all are below `bound`; checked from the
      last buyer backwards. */
  ghost predicate IdsBelow(bs: seq<Buyer>, bound: nat)
    decreases |bs|
  {
    bs == [] || (bs[|bs| - 1].id < bound && IdsBelow(bs[..|bs| - 1], bs[|bs| - 1].id))
  }

  /** `IdsBelow` says exactly: strictly increasing ids, every one below `bound`. */
  lemma {:induction false} IdsBelowMeaning(bs: seq<Buyer>, bound: nat)
    ensures IdsBelow(bs, bound) <==>
      && (forall i, j :: 0 <= i < j < |bs| ==> bs[i].id < bs[j].id)
      && (forall i :: 0 <= i < |bs| ==> bs[i].id < bound)
    decreases |bs|
  {
    if bs != [] {
      var last := |bs| - 1;
      var init := bs[..last];
      IdsBelowMeaning(init, bs[last].id);
      assert forall i :: 0 <= i < last ==> init[i] == bs[i];
    }
  }

  class Database {
    var buyers: seq<Buyer>
    var history: seq<HistoryEntry>
    var nextId: nat

    /** Buyer ids are issued in increasing order, all below `nextId`. */
    ghost predicate Valid()
      reads this
    {
      IdsBelow(buyers, nextId)
    }

    constructor ()
      ensures Valid() && buyers == [] && history == []
    {
      buyers := [];
      history := [];
      nextId := 0;
    }

    /** `buyer.create`: stores `data` under a fresh id and returns it. */
    method CreateBuyer(data: Buyer) returns (b: Buyer)
      requires Valid()
      modifies this
      ensures Valid()
      ensures b == data.(id := old(nextId)) && nextId == old(nextId) + 1
      ensures buyers == old(buyers) + [b] && history == old(history)
      ensures forall i :: 0 <= i < |old(buyers)| ==> old(buyers)[i].id != b.id
    {
      IdsBelowMeaning(buyers, nextId);
      b := data.(id := nextId);
      buyers := buyers + [b];
      assert buyers[..|buyers| - 1] == old(buyers);
      nextId := nextId + 1;
    }

    /** `buyerHistory.create`. */
    method CreateHistory(e: HistoryEntry)
      modifies this`history
      ensures history == old(history) + [e]
    {
      history := history + [e];
    }

    /** A `$transaction` rolling back: the state it began with is restored. */
    method Rollback(buyers0: seq<Buyer>, history0: seq<HistoryEntry>, nextId0: nat)
      requires IdsBelow(buyers0, nextId0)
      modifies this
      ensures Valid()
      ensures buyers == buyers0 && history == history0 && nextId == nextId0
    {
      buyers := buyers0;
      history := history0;
      nextId := nextId0;
    }
  }
}
