/** A client that starts from a bootstrap snapshot and pulls page after page. */
module Replicas {
  import opened Tables
  import opened Ledger
  import World
  import Paging

  function CursorOf(e: Entry): nat {
    e.cursor
  }

  function Flat<T>(parts: seq<seq<T>>): seq<T> {
    if parts == [] then [] else Flat(parts[..|parts| - 1]) + parts[|parts| - 1]
  }

  /** The tables as the client's n-th page finds them: between its requests the other writers run. */
  ghost function At(f: World.Family, between: seq<seq<World.Action>>, n: nat): (db: Db)
    requires World.FamilyInv(f) && n <= |between|
  {
    World.Run(f, Flat(between[..n])).home.db
  }

  lemma AtEvolves(f: World.Family, between: seq<seq<World.Action>>, n: nat)
    requires World.FamilyInv(f) && n <= |between|
    ensures var db := At(f, between, n); Inv(f.home.db) && Inv(db) && Extends(f.home.db, db) && Converges(f.home.db, db)
  {
    assert World.Develops(f, World.Run(f, Flat(between[..n])));
  }

  lemma NextLog(f: World.Family, between: seq<seq<World.Action>>, n: nat)
    requires World.FamilyInv(f) && n < |between|
    ensures At(f, between, n).log <= At(f, between, n + 1).log
  {
    assert between[..n + 1][..n] == between[..n];
    World.RunSplits(f, Flat(between[..n]), between[n]);
    var mid := World.Run(f, Flat(between[..n]));
    assert World.Develops(mid, World.Run(mid, between[n]));
  }

  /** The log that each page reads. */
  ghost function LogsOf(f: World.Family, between: seq<seq<World.Action>>): (logs: seq<seq<Entry>>)
    requires World.FamilyInv(f)
    ensures |logs| == |between|
  {
    seq(|between|, i requires 0 <= i < |between| => At(f, between, i + 1).log)
  }

  lemma LogSorted(f: World.Family, between: seq<seq<World.Action>>, n: nat)
    requires World.FamilyInv(f) && n < |between|
    ensures Paging.Sorted(LogsOf(f, between)[n], CursorOf)
  {
    AtEvolves(f, between, n + 1);
    SortedLog(At(f, between, n + 1));
  }

  lemma LogGrows(f: World.Family, between: seq<seq<World.Action>>, n: nat)
    requires World.FamilyInv(f) && n + 1 < |between|
    ensures LogsOf(f, between)[n] <= LogsOf(f, between)[n + 1]
  {
    NextLog(f, between, n + 1);
  }

  lemma {:induction false} PrefixChain<T>(logs: seq<seq<T>>, m: nat, n: nat)
    requires forall i :: 0 <= i && i + 1 < |logs| ==> logs[i] <= logs[i + 1]
    requires m <= n < |logs|
    ensures logs[m] <= logs[n]
    decreases n
  {
    if m < n {
      PrefixChain(logs, m, n - 1);
      assert n - 1 >= 0 && logs[n - 1] <= logs[n - 1 + 1];
    }
  }

  lemma GrowingChain(logs: seq<seq<Entry>>)
    requires forall i :: 0 <= i < |logs| ==> Paging.Sorted(logs[i], CursorOf)
    requires forall i :: 0 <= i && i + 1 < |logs| ==> logs[i] <= logs[i + 1]
    ensures Paging.Growing(logs, CursorOf)
  {
    forall i, j | 0 <= i < j < |logs| ensures logs[i] <= logs[j] {
      PrefixChain(logs, i, j);
    }
  }

  /** The entries above a snapshot's cursor are the ones appended since. */
  lemma AboveIsNew(db: Db, db': Db)
    requires Inv(db) && Inv(db') && Extends(db, db')
    ensures Paging.Sorted(db'.log, CursorOf)
    ensures Paging.Above(db'.log, CursorOf, Cursor(db)) == NewEntries(db, db')
  {
    var c := Cursor(db);
    var log := db'.log;
    var top := Paging.Later(c, Paging.Latest(log, CursorOf));
    Paging.WindowIsSlice(log, CursorOf, c, top);
    Paging.PositionSplits(log, CursorOf, c);
    Paging.PositionSplits(log, CursorOf, top);
    assert forall i :: 0 <= i < |db.log| ==> log[i] == db.log[i];
    assert forall i :: 0 <= i < |log| ==> (CursorOf(log[i]) <= c <==> i < |db.log|);
    assert forall i :: 0 <= i < |log| ==> CursorOf(log[i]) <= top;
    SamePosition(log, c, |db.log|);
    SamePosition(log, top, |log|);
  }

  lemma SamePosition(log: seq<Entry>, c: int, n: nat)
    requires n <= |log| && forall i :: 0 <= i < |log| ==> (CursorOf(log[i]) <= c <==> i < n)
    requires forall i :: 0 <= i < |log| ==> (CursorOf(log[i]) <= c <==> i < Paging.Position(log, CursorOf, c))
    ensures Paging.Position(log, CursorOf, c) == n
  {
    var p := Paging.Position(log, CursorOf, c);
    assert p < |log| ==> !(CursorOf(log[p]) <= c);
    assert n < |log| ==> !(CursorOf(log[n]) <= c);
  }

  /** Replica convergence: a client takes the bootstrap snapshot and its cursor, then applies every pulled
      page in order while all writers keep running; when a page says that there is no more, the client
      agrees with the server, as that page saw it, on every entity's version, deletion, parent, expiry,
      ordinary columns and quantity. */
  lemma ReplicaConverges(f: World.Family, between: seq<seq<World.Action>>, limit: nat)
    requires World.FamilyInv(f) && between != [] && limit >= 1
    ensures var pulled := Paging.Followed(LogsOf(f, between), CursorOf, Cursor(f.home.db), limit);
            !pulled.hasMore ==>
              ApplyAll(Snapshot(f.home.db.rows), pulled.records) == Snapshot(At(f, between, |between|).rows)
  {
    GrowingLogs(f, between);
    AtEvolves(f, between, |between|);
    AboveIsNew(f.home.db, At(f, between, |between|));
    Paging.FollowedIsExact(LogsOf(f, between), CursorOf, Cursor(f.home.db), limit);
  }

  lemma GrowingLogs(f: World.Family, between: seq<seq<World.Action>>)
    requires World.FamilyInv(f)
    ensures Paging.Growing(LogsOf(f, between), CursorOf)
  {
    forall n | 0 <= n < |between|
      ensures Paging.Sorted(LogsOf(f, between)[n], CursorOf)
      ensures n + 1 < |between| ==> LogsOf(f, between)[n] <= LogsOf(f, between)[n + 1]
    {
      LogSorted(f, between, n);
      if n + 1 < |between| {
        LogGrows(f, between, n);
      }
    }
    GrowingChain(LogsOf(f, between));
  }

  lemma SortedLog(db: Db)
    requires Inv(db)
    ensures Paging.Sorted(db.log, CursorOf)
  {
  }
}
