/**
 * The in-memory scan store: a map from id to scan and a counter that issues
 * ids 1, 2, 3, ... in creation order.
 */
module Storage {
  import opened Wrappers
  import opened Schema

  /** In a listing, `a` comes before `b`: newer first, and equal stamps keep creation (id) order. */
  predicate ListedBefore(a: Scan, b: Scan) {
    a.scannedAt > b.scannedAt || (a.scannedAt == b.scannedAt && a.id < b.id)
  }

  /** The listing order of `getAllScans`: a stable sort by `scannedAt`, descending. */
  predicate NewestFirst(listing: seq<Scan>) {
    forall i, j :: 0 <= i < j < |listing| ==> ListedBefore(listing[i], listing[j])
  }

  /** A listing in that order names no record twice. */
  lemma NewestFirstDistinct(listing: seq<Scan>, i: nat, j: nat)
    requires NewestFirst(listing) && i < j < |listing|
    ensures listing[i] != listing[j]
  {
  }

  /**
   * Places `scan` into a newest-first listing of records created before it:
   * after every record stamped no earlier, before every record stamped earlier.
   */
  method InsertNewestFirst(listing: seq<Scan>, scan: Scan) returns (r: seq<Scan>)
    requires NewestFirst(listing)
    requires forall k :: 0 <= k < |listing| ==> listing[k].id < scan.id
    ensures NewestFirst(r)
    ensures |r| == |listing| + 1
    ensures forall s :: s in r <==> s in listing || s == scan
  {
    var j := 0;
    while j < |listing| && listing[j].scannedAt >= scan.scannedAt
      invariant 0 <= j <= |listing|
      invariant forall k :: 0 <= k < j ==> listing[k].scannedAt >= scan.scannedAt
    {
      j := j + 1;
    }
    r := listing[..j] + [scan] + listing[j..];
    forall a, b | 0 <= a < b < |r| ensures ListedBefore(r[a], r[b]) {
      if b < j {
        assert r[a] == listing[a] && r[b] == listing[b];
      } else if b == j {
        assert r[a] == listing[a] && r[b] == scan;
      } else if a == j {
        assert r[a] == scan && r[b] == listing[b - 1];
        if b - 1 > j {
          assert ListedBefore(listing[j], listing[b - 1]);
        }
      } else if a < j {
        assert r[a] == listing[a] && r[b] == listing[b - 1];
      } else {
        assert r[a] == listing[a - 1] && r[b] == listing[b - 1];
      }
    }
    assert listing == listing[..j] + listing[j..];
  }

  class MemStorage {
    var scans: map<int, Scan>
    var currentId: nat

    /** Stored ids are exactly 1 .. currentId - 1, each keyed by its own record's id. */
    ghost predicate Valid()
      reads this
    {
      && 1 <= currentId
      && |scans| == currentId - 1
      && (forall id :: id in scans <==> 1 <= id < currentId)
      && (forall id :: id in scans ==> scans[id].id == id)
    }

    constructor ()
      ensures Valid()
      ensures scans == map[] && currentId == 1
    {
      scans := map[];
      currentId := 1;
    }

    /** Stores a new scan under the next id, stamped `now`, and returns it. */
    method CreateScan(insertScan: InsertScan, now: Timestamp) returns (scan: Scan)
      requires Valid()
      modifies this
      ensures Valid()
      ensures scan == FromInsert(insertScan, old(currentId), now)
      ensures scan.id !in old(scans)
      ensures currentId == old(currentId) + 1
      ensures scans == old(scans)[scan.id := scan]
    {
      var id := currentId;
      currentId := currentId + 1;
      scan := FromInsert(insertScan, id, now);
      scans := scans[id := scan];
    }

    /** The scan stored under `id`; `None` for an id never issued. */
    method GetScan(id: int) returns (scan: Option<Scan>)
      requires Valid()
      ensures scan.Some? <==> 1 <= id < currentId
      ensures scan.Some? ==> id in scans && scan.value == scans[id] && scan.value.id == id
    {
      if id in scans {
        scan := Some(scans[id]);
      } else {
        scan := None;
      }
    }

    /** Every stored scan once, newest first. */
    method GetAllScans() returns (listing: seq<Scan>)
      requires Valid()
      ensures |listing| == |scans|
      ensures forall id :: id in scans ==> scans[id] in listing
      ensures forall k :: 0 <= k < |listing| ==> listing[k].id in scans && scans[listing[k].id] == listing[k]
      ensures NewestFirst(listing)
      ensures forall i, j :: 0 <= i < j < |listing| ==> listing[i] != listing[j]
    {
      listing := [];
      var id := 1;
      while id < currentId
        invariant 1 <= id <= currentId
        invariant |listing| == id - 1
        invariant forall i :: 1 <= i < id ==> scans[i] in listing
        invariant forall s :: s in listing ==> s.id < id && s.id in scans && scans[s.id] == s
        invariant NewestFirst(listing)
      {
        var next := scans[id];
        listing := InsertNewestFirst(listing, next);
        id := id + 1;
      }
      forall i: nat, j: nat | i < j < |listing| ensures listing[i] != listing[j] {
        NewestFirstDistinct(listing, i, j);
      }
    }
  }

  /** Two consecutive creations get consecutive, distinct ids, and both can be read back. */
  method CreateTwice(store: MemStorage, first: InsertScan, second: InsertScan, t1: Timestamp, t2: Timestamp)
    returns (a: Scan, b: Scan)
    requires store.Valid()
    modifies store
    ensures store.Valid()
    ensures a.id == old(store.currentId) && b.id == a.id + 1
    ensures store.scans == old(store.scans)[a.id := a][b.id := b]
  {
    a := store.CreateScan(first, t1);
    b := store.CreateScan(second, t2);
    var found := store.GetScan(a.id);
    assert found == Some(a);
  }
}
