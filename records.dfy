/**
 * The resurrection record and the in-memory `resurrections` Map that owns all records.  A JavaScript
 * Map iterates in insertion order, and `set` on a key already present replaces the value in place
 * without moving the key; `order` keeps that order of keys.
 */
module Records {
  import opened Common
  import Archive
  import Persona

  datatype Status = Summoning | Complete

  /** `createdAt` is the creation instant in milliseconds, the value the list comparator reads back. */
  datatype Record = Record(
    id: string,
    url: string,
    status: Status,
    snapshots: seq<Archive.Snapshot>,
    selectedSnapshot: Archive.Snapshot,
    createdAt: int,
    personality: Persona.Personality)

  /** What every stored record satisfies: a non-empty capture list, the first of which is selected and dated. */
  predicate WellFormed(r: Record)
  {
    r.snapshots != [] && r.selectedSnapshot == r.snapshots[0] && r.selectedSnapshot.timestamp.Some?
  }

  /** The records of `m` in the order of `keys`. */
  function ValuesInOrder(keys: seq<string>, m: map<string, Record>): (rs: seq<Record>)
    requires forall k :: k in keys ==> k in m
    ensures |rs| == |keys|
    ensures forall i :: 0 <= i < |keys| ==> rs[i] == m[keys[i]]
  {
    if keys == [] then [] else [m[keys[0]]] + ValuesInOrder(keys[1..], m)
  }

  class ResurrectionStore {
    var records: map<string, Record>
    var order: seq<string>

    /** `order` lists every key of `records` exactly once. */
    ghost predicate Valid()
      reads this
    {
      && (forall k :: k in records <==> k in order)
      && (forall i, j :: 0 <= i < j < |order| ==> order[i] != order[j])
    }

    /** The invariants the request handlers keep: each record is filed under its own id and well formed. */
    ghost predicate Consistent()
      reads this
    {
      forall k :: k in records ==> records[k].id == k && WellFormed(records[k])
    }

    /** `resurrections.values()`, in insertion order. */
    function Values(): seq<Record>
      reads this
      requires Valid()
    {
      ValuesInOrder(order, records)
    }

    constructor ()
      ensures Valid() && Consistent()
      ensures records == map[] && order == []
    {
      records := map[];
      order := [];
    }

    /** `resurrections.set(id, r)`. */
    method Put(id: string, r: Record)
      requires Valid()
      modifies this
      ensures Valid()
      ensures records == old(records)[id := r]
      ensures order == if id in old(records) then old(order) else old(order) + [id]
    {
      if id !in records {
        order := order + [id];
      }
      records := records[id := r];
    }

    /** `resurrections.get(id)`: the record, or `undefined`. */
    method Get(id: string) returns (r: Option<Record>)
      ensures r.Some? <==> id in records
      ensures r.Some? ==> r.value == records[id]
    {
      r := if id in records then Some(records[id]) else None;
    }
  }

  // The list endpoint sorts by creation instant, later instants first. JavaScript's sort is stable,
  // so records created in the same millisecond keep their insertion order.

  predicate NewestFirst(rs: seq<Record>)
  {
    forall i, j :: 0 <= i < j < |rs| ==> rs[i].createdAt >= rs[j].createdAt
  }

  /** Puts `r` ahead of the first record of `sorted` that is not newer than it. */
  function InsertNewest(r: Record, sorted: seq<Record>): seq<Record>
  {
    if sorted == [] || r.createdAt >= sorted[0].createdAt then [r] + sorted
    else [sorted[0]] + InsertNewest(r, sorted[1..])
  }

  /** The stable sort of `rs` by `createdAt`, newest first. */
  function SortNewestFirst(rs: seq<Record>): seq<Record>
  {
    if rs == [] then [] else InsertNewest(rs[0], SortNewestFirst(rs[1..]))
  }

  /** The records of `rs` created at instant `t`, in their order in `rs`. */
  function CreatedAt(rs: seq<Record>, t: int): seq<Record>
  {
    if rs == [] then []
    else if rs[0].createdAt == t then [rs[0]] + CreatedAt(rs[1..], t)
    else CreatedAt(rs[1..], t)
  }

  lemma {:induction false} InsertPermutes(r: Record, sorted: seq<Record>)
    ensures multiset(InsertNewest(r, sorted)) == multiset{r} + multiset(sorted)
  {
    if sorted != [] && r.createdAt < sorted[0].createdAt {
      InsertPermutes(r, sorted[1..]);
      assert sorted == [sorted[0]] + sorted[1..];
    }
  }

  lemma {:induction false} InsertKeepsNewestFirst(r: Record, sorted: seq<Record>)
    requires NewestFirst(sorted)
    ensures NewestFirst(InsertNewest(r, sorted))
  {
    if sorted != [] && r.createdAt < sorted[0].createdAt {
      var rest := InsertNewest(r, sorted[1..]);
      InsertKeepsNewestFirst(r, sorted[1..]);
      InsertPermutes(r, sorted[1..]);
      forall k | 0 <= k < |rest| ensures sorted[0].createdAt >= rest[k].createdAt {
        assert rest[k] in multiset(rest);
        assert rest[k] == r || rest[k] in multiset(sorted[1..]);
        if rest[k] != r {
          var m :| 0 <= m < |sorted[1..]| && sorted[1..][m] == rest[k];
          assert sorted[m + 1] == rest[k];
        }
      }
      assert InsertNewest(r, sorted) == [sorted[0]] + rest;
    }
  }

  lemma {:induction false} InsertKeepsTies(r: Record, sorted: seq<Record>, t: int)
    ensures CreatedAt(InsertNewest(r, sorted), t)
         == if r.createdAt == t then [r] + CreatedAt(sorted, t) else CreatedAt(sorted, t)
  {
    if sorted == [] || r.createdAt >= sorted[0].createdAt {
      assert InsertNewest(r, sorted)[1..] == sorted;
    } else {
      InsertKeepsTies(r, sorted[1..], t);
      assert InsertNewest(r, sorted)[1..] == InsertNewest(r, sorted[1..]);
    }
  }

  /** The list is ordered newest first. */
  lemma {:induction false} SortIsNewestFirst(rs: seq<Record>)
    ensures NewestFirst(SortNewestFirst(rs))
  {
    if rs != [] {
      SortIsNewestFirst(rs[1..]);
      InsertKeepsNewestFirst(rs[0], SortNewestFirst(rs[1..]));
    }
  }

  /** The list holds exactly the records it was given, each as often. */
  lemma {:induction false} SortPermutes(rs: seq<Record>)
    ensures multiset(SortNewestFirst(rs)) == multiset(rs)
  {
    if rs != [] {
      SortPermutes(rs[1..]);
      InsertPermutes(rs[0], SortNewestFirst(rs[1..]));
      assert rs == [rs[0]] + rs[1..];
    }
  }

  /** Stability: records created at the same instant appear in the order they were given. */
  lemma {:induction false} SortIsStable(rs: seq<Record>, t: int)
    ensures CreatedAt(SortNewestFirst(rs), t) == CreatedAt(rs, t)
  {
    if rs != [] {
      SortIsStable(rs[1..], t);
      InsertKeepsTies(rs[0], SortNewestFirst(rs[1..]), t);
    }
  }
}
