/** The transaction service: an in-memory array of transactions keyed by
    `Id`, listed newest first and filtered by month or category. */
module TransactionService {
  import opened Base
  import opened Table

  /** A transaction. `amount` is signed (negative for an expense), `date`
      and `createdAt` are instants in milliseconds since the Unix epoch. */
  datatype Transaction = Transaction(id: int, amount: real, category: string, kind: Kind,
                                     description: string, date: int, createdAt: Option<int>)

  /** What a caller hands to `create`: the fields the transaction form sends. */
  datatype TransactionData = TransactionData(amount: real, category: string, kind: Kind,
                                             description: string, date: int)

  /** A partial transaction for `update`. */
  datatype TransactionPatch = TransactionPatch(amount: Option<real>, category: Option<string>,
                                               kind: Option<Kind>, description: Option<string>,
                                               date: Option<int>)

  function TransactionId(t: Transaction): int {
    t.id
  }

  /** `{ Id: id, ...data, createdAt: now }`. */
  function NewTransaction(id: int, data: TransactionData, now: int): (t: Transaction)
    ensures t.id == id && t.createdAt == Some(now)
    ensures t.amount == data.amount && t.category == data.category && t.kind == data.kind
    ensures t.description == data.description && t.date == data.date
  {
    Transaction(id, data.amount, data.category, data.kind, data.description, data.date, Some(now))
  }

  /** The shallow merge `{ ...t, ...p }`: only the fields present in the
      patch change; the Id and `createdAt` never do. */
  function Merge(t: Transaction, p: TransactionPatch): (r: Transaction)
    ensures r.id == t.id && r.createdAt == t.createdAt
    ensures r.amount == (if p.amount.Some? then p.amount.value else t.amount)
    ensures r.category == (if p.category.Some? then p.category.value else t.category)
    ensures r.kind == (if p.kind.Some? then p.kind.value else t.kind)
    ensures r.description == (if p.description.Some? then p.description.value else t.description)
    ensures r.date == (if p.date.Some? then p.date.value else t.date)
  {
    t.(amount := if p.amount.Some? then p.amount.value else t.amount,
       category := if p.category.Some? then p.category.value else t.category,
       kind := if p.kind.Some? then p.kind.value else t.kind,
       description := if p.description.Some? then p.description.value else t.description,
       date := if p.date.Some? then p.date.value else t.date)
  }

  /** The `getAll` comparator `new Date(b.date) - new Date(a.date)` sorts
      by this key ascending: newest first. */
  function NewestFirst(t: Transaction): real {
    -(t.date as real)
  }

  /** `getAll`: the stored transactions, newest first. */
  function ByDateDescending(s: seq<Transaction>): (r: seq<Transaction>)
    ensures multiset(r) == multiset(s)
    ensures forall i, j :: 0 <= i < j < |r| ==> r[i].date >= r[j].date
  {
    var r := SortBy(s, NewestFirst);
    assert forall i, j :: 0 <= i < j < |r| ==> NewestFirst(r[i]) <= NewestFirst(r[j]);
    r
  }

  /** `t => new Date(t.date).toISOString().slice(0, 7) === month`. */
  function InMonth(month: MonthKey): Transaction -> bool {
    (t: Transaction) => MonthKeyOf(t.date) == month
  }

  /** `t => t.category === category`. */
  function InCategory(category: string): Transaction -> bool {
    (t: Transaction) => t.category == category
  }

  class TransactionStore {
    var transactions: seq<Transaction>

    /** The store over its seed records. */
    constructor (seed: seq<Transaction>)
      ensures transactions == seed
    {
      transactions := seed;
    }

    /** `getAll`: a sorted copy, newest first; the store itself keeps its order. */
    method GetAll() returns (r: seq<Transaction>)
      ensures multiset(r) == multiset(transactions)
      ensures forall i, j :: 0 <= i < j < |r| ==> r[i].date >= r[j].date
    {
      r := ByDateDescending(transactions);
    }

    /** `getById`: the record with that Id, or `null` when there is none. */
    method GetById(id: int) returns (r: Option<Transaction>)
      ensures r.None? <==> forall i :: 0 <= i < |transactions| ==> transactions[i].id != id
      ensures r.Some? ==> r.value in transactions && r.value.id == id
      ensures UniqueIds(transactions, TransactionId) ==>
                forall i :: 0 <= i < |transactions| && transactions[i].id == id ==> r == Some(transactions[i])
    {
      r := FindById(transactions, TransactionId, id);
    }

    /** `create`: the new transaction takes the next Id and the creation
      time `now`, and is appended. */
    method Create(data: TransactionData, now: int) returns (r: Transaction)
      modifies this
      ensures r == NewTransaction(NextId(old(transactions), TransactionId), data, now)
      ensures transactions == old(transactions) + [r]
      ensures old(UniqueIds(transactions, TransactionId)) ==> UniqueIds(transactions, TransactionId)
    {
      var newId := NextId(transactions, TransactionId);
      r := NewTransaction(newId, data, now);
      if UniqueIds(transactions, TransactionId) {
        AppendNextIdKeepsUnique(transactions, r, TransactionId);
      }
      transactions := transactions + [r];
    }

    /** `update`: `null` and no change for an absent Id; otherwise the patch
      is merged into that one record. */
    method Update(id: int, patch: TransactionPatch) returns (r: Option<Transaction>)
      modifies this
      ensures match IndexOfId(old(transactions), TransactionId, id)
                case None => r == None && transactions == old(transactions)
                case Some(k) => transactions == old(transactions)[k := Merge(old(transactions)[k], patch)] &&
                                r == Some(transactions[k])
      ensures old(UniqueIds(transactions, TransactionId)) ==> UniqueIds(transactions, TransactionId)
    {
      var index := IndexOfId(transactions, TransactionId, id);
      if index.None? {
        return None;
      }
      var k := index.value;
      if UniqueIds(transactions, TransactionId) {
        ReplaceKeepingIdKeepsUnique(transactions, k, Merge(transactions[k], patch), TransactionId);
      }
      transactions := transactions[k := Merge(transactions[k], patch)];
      r := Some(transactions[k]);
    }

    /** `delete`: `false` and no change for an absent Id; otherwise that
      record is spliced out and `true` returned. */
    method Delete(id: int) returns (ok: bool)
      modifies this
      ensures ok == IndexOfId(old(transactions), TransactionId, id).Some?
      ensures transactions == DeleteById(old(transactions), TransactionId, id)
    {
      var index := IndexOfId(transactions, TransactionId, id);
      if index.None? {
        return false;
      }
      transactions := RemoveAt(transactions, index.value);
      ok := true;
    }

    /** `getByMonth`: the transactions whose UTC month is `month`, in stored order. */
    method GetByMonth(month: MonthKey) returns (r: seq<Transaction>)
      ensures r == Filter(transactions, InMonth(month))
    {
      r := Filter(transactions, InMonth(month));
    }

    /** `getByCategory`: the transactions of that category, in stored order. */
    method GetByCategory(category: string) returns (r: seq<Transaction>)
      ensures r == Filter(transactions, InCategory(category))
    {
      r := Filter(transactions, InCategory(category));
    }
  }
}
