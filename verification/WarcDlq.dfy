/** The bounded dead-letter queue and its oldest-first eviction (app/services/warc/dlq.py). */
module WarcDlq {
  /** Paths are compared only for order, so they are numbers here. */
  type Path = nat

  datatype File = File(mtime: int, size: nat)

  datatype Entry = Entry(mtime: int, size: nat, path: Path)

  /** What `os.remove` does to an entry: both files go, the data file is stuck, or only the metadata file is stuck. */
  datatype Removal = Removed | DataStuck | MetaStuck

  /** Python's tuple order on (mtime, size, path). */
  predicate Before(a: Entry, b: Entry) {
    a.mtime < b.mtime || (a.mtime == b.mtime && (a.size < b.size || (a.size == b.size && a.path <= b.path)))
  }

  ghost predicate SortedEntries(es: seq<Entry>) {
    forall i, j :: 0 <= i < j < |es| ==> Before(es[i], es[j])
  }

  /** Oldest first; among equal times the smaller file first, and among equal sizes the smaller path. */
  ghost predicate OldestFirst(es: seq<Entry>) {
    forall i, j :: 0 <= i < j < |es| ==>
      && es[i].mtime <= es[j].mtime
      && (es[i].mtime == es[j].mtime ==> es[i].size <= es[j].size)
      && (es[i].mtime == es[j].mtime && es[i].size == es[j].size ==> es[i].path <= es[j].path)
  }

  function Insert(e: Entry, es: seq<Entry>): seq<Entry> {
    if es == [] || Before(e, es[0]) then [e] + es else [es[0]] + Insert(e, es[1..])
  }

  function Sort(es: seq<Entry>): seq<Entry> {
    if es == [] then [] else Insert(es[0], Sort(es[1..]))
  }

  lemma {:induction false} InsertSorts(e: Entry, es: seq<Entry>)
    requires SortedEntries(es)
    ensures SortedEntries(Insert(e, es)) && multiset(Insert(e, es)) == multiset(es) + multiset{e}
  {
    if es == [] || Before(e, es[0]) {
    } else {
      InsertSorts(e, es[1..]);
      assert es == [es[0]] + es[1..];
      var rest := Insert(e, es[1..]);
      forall x | x in rest ensures Before(es[0], x) {
        assert x in multiset(rest);
        assert x == e || x in es[1..];
      }
    }
  }

  lemma {:induction false} SortSorts(es: seq<Entry>)
    ensures SortedEntries(Sort(es)) && OldestFirst(Sort(es)) && multiset(Sort(es)) == multiset(es)
  {
    if es != [] {
      SortSorts(es[1..]);
      InsertSorts(es[0], Sort(es[1..]));
      assert es == [es[0]] + es[1..];
    }
  }

  function TotalSize(es: seq<Entry>): nat {
    if es == [] then 0 else es[0].size + TotalSize(es[1..])
  }

  lemma {:induction false} TotalSplits(es: seq<Entry>, n: nat)
    requires n <= |es|
    ensures TotalSize(es) == TotalSize(es[..n]) + TotalSize(es[n..])
  {
    if n > 0 {
      TotalSplits(es[1..], n - 1);
      assert es[..n][1..] == es[1..][..n - 1] && es[n..] == es[1..][n - 1..];
    } else {
      assert es[0..] == es;
    }
  }

  lemma {:induction false} InsertTotal(e: Entry, es: seq<Entry>)
    ensures TotalSize(Insert(e, es)) == e.size + TotalSize(es)
  {
    if es == [] || Before(e, es[0]) {
      assert ([e] + es)[1..] == es;
    } else {
      InsertTotal(e, es[1..]);
      assert ([es[0]] + Insert(e, es[1..]))[1..] == Insert(e, es[1..]);
    }
  }

  lemma {:induction false} SortTotal(es: seq<Entry>)
    ensures TotalSize(Sort(es)) == TotalSize(es)
  {
    if es != [] {
      SortTotal(es[1..]);
      InsertTotal(es[0], Sort(es[1..]));
    }
  }

  /** Bytes still on disk among the entries, given the files that remain. */
  function BytesLeft(es: seq<Entry>, files: map<Path, File>): nat {
    if es == [] then 0 else (if es[0].path in files then es[0].size else 0) + BytesLeft(es[1..], files)
  }

  ghost predicate DistinctPaths(es: seq<Entry>) {
    forall i, j :: 0 <= i < j < |es| ==> es[i].path != es[j].path
  }

  lemma {:induction false} OthersStay(es: seq<Entry>, files: map<Path, File>, path: Path)
    requires forall e :: e in es ==> e.path != path
    ensures BytesLeft(es, files - {path}) == BytesLeft(es, files)
  {
    if es != [] { OthersStay(es[1..], files, path); }
  }

  /** Removing one file takes exactly its own size away. */
  lemma {:induction false} RemovalShrinks(es: seq<Entry>, n: nat, files: map<Path, File>)
    requires n < |es| && es[n].path in files && DistinctPaths(es)
    ensures BytesLeft(es, files - {es[n].path}) + es[n].size == BytesLeft(es, files)
    decreases |es|
  {
    if n == 0 {
      OthersStay(es[1..], files, es[0].path);
    } else {
      assert es[0].path != es[n].path && es[1..][n - 1] == es[n];
      RemovalShrinks(es[1..], n - 1, files);
    }
  }

  lemma {:induction false} AllThere(es: seq<Entry>, files: map<Path, File>)
    requires forall e :: e in es ==> e.path in files
    ensures BytesLeft(es, files) == TotalSize(es)
  {
    if es != [] { AllThere(es[1..], files); }
  }

  /** The bytes of the entries whose data file went and whose metadata file stayed: gone, but still in the total. */
  function Overcounted(es: seq<Entry>, outcome: Path -> Removal): nat {
    if es == [] then 0
    else
      var last := es[|es| - 1];
      Overcounted(es[..|es| - 1], outcome) + (match outcome(last.path) case MetaStuck => last.size case _ => 0)
  }

  lemma OvercountedAppend(es: seq<Entry>, n: nat, outcome: Path -> Removal)
    requires n < |es|
    ensures Overcounted(es[..n + 1], outcome)
            == Overcounted(es[..n], outcome) + (match outcome(es[n].path) case MetaStuck => es[n].size case _ => 0)
  {
    assert es[..n + 1][..n] == es[..n] && es[..n + 1][n] == es[n];
  }

  /** The entries whose stat succeeds, in listing order. */
  function Stated(listing: seq<Path>, files: map<Path, File>, unreadable: set<Path>): (es: seq<Entry>)
    ensures forall e :: e in es ==>
              && e.path in listing && e.path in files && e.path !in unreadable
              && e == Entry(files[e.path].mtime, files[e.path].size, e.path)
    ensures forall p :: p in listing && p in files && p !in unreadable ==> Entry(files[p].mtime, files[p].size, p) in es
  {
    if listing == [] then []
    else
      var rest, p := Stated(listing[1..], files, unreadable), listing[0];
      if p in files && p !in unreadable then [Entry(files[p].mtime, files[p].size, p)] + rest else rest
  }

  lemma {:induction false} StatedIsDistinct(listing: seq<Path>, files: map<Path, File>, unreadable: set<Path>)
    requires forall i, j :: 0 <= i < j < |listing| ==> listing[i] != listing[j]
    ensures DistinctPaths(Stated(listing, files, unreadable))
  {
    if listing != [] {
      StatedIsDistinct(listing[1..], files, unreadable);
      assert listing[0] !in listing[1..];
    }
  }

  lemma {:induction false} InsertDistinct(e: Entry, es: seq<Entry>)
    requires DistinctPaths(es) && forall x :: x in es ==> x.path != e.path
    ensures DistinctPaths(Insert(e, es)) && forall x :: x in Insert(e, es) <==> x == e || x in es
  {
    if es != [] && !Before(e, es[0]) {
      InsertDistinct(e, es[1..]);
      assert forall x :: x in es <==> x == es[0] || x in es[1..];
      var rest := Insert(e, es[1..]);
      forall x | x in rest ensures x.path != es[0].path {
        if x != e { var i :| 0 <= i < |es[1..]| && es[1..][i] == x; }
      }
    }
  }

  lemma {:induction false} SortDistinct(es: seq<Entry>)
    requires DistinctPaths(es)
    ensures DistinctPaths(Sort(es)) && forall x :: x in Sort(es) <==> x in es
  {
    if es != [] {
      SortDistinct(es[1..]);
      assert forall x :: x in es <==> x == es[0] || x in es[1..];
      InsertDistinct(es[0], Sort(es[1..]));
    }
  }

  class WarcDlq {
    var files: map<Path, File>
    const maxBytes: nat

    constructor (maxBytes: nat)
      ensures this.maxBytes == maxBytes && files == map[]
    {
      this.maxBytes, files := maxBytes, map[];
    }

    /** Sums and collects the readable entries. */
    method Scan(listing: seq<Path>, unreadable: set<Path>) returns (entries: seq<Entry>, total: nat)
      ensures entries == Stated(listing, files, unreadable) && total == TotalSize(entries)
    {
      entries, total := [], 0;
      for i := |listing| downto 0
        invariant entries == Stated(listing[i..], files, unreadable) && total == TotalSize(entries)
      {
        var p := listing[i];
        assert listing[i..][1..] == listing[i + 1..];
        if p in files && p !in unreadable {
          entries := [Entry(files[p].mtime, files[p].size, p)] + entries;
          total := total + files[p].size;
        }
      }
      assert listing[0..] == listing;
    }

    /** The eviction loop over the sorted entries. */
    method Evict(es: seq<Entry>, scanned: nat, incoming: nat, outcome: Path -> Removal)
      returns (attempts: nat, total: int)
      requires scanned == TotalSize(es)
      requires DistinctPaths(es) && forall e :: e in es ==> e.path in files
      modifies this
      ensures Evicted(es, incoming, outcome, attempts, total)
      ensures files == old(files) - Gone(es[..attempts], outcome)
      ensures total == BytesLeft(es, files) + Overcounted(es[..attempts], outcome)
    {
      hide Gone, Freed, BytesLeft, TotalSize, Overcounted;
      ghost var before := files;
      total := scanned;
      AllThere(es, files);
      attempts := 0;
      assert es[..0] == [];
      NothingTried(outcome);
      while total + incoming > maxBytes && attempts < |es|
        invariant attempts <= |es|
        invariant files == before - Gone(es[..attempts], outcome)
        invariant total == TotalSize(es) - Freed(es[..attempts], outcome)
        invariant total == BytesLeft(es, files) + Overcounted(es[..attempts], outcome)
        invariant forall k :: 0 <= k < attempts ==> TotalSize(es) - Freed(es[..k], outcome) + incoming > maxBytes
        decreases |es| - attempts
      {
        var e := es[attempts];
        GoneAppend(es, attempts, outcome);
        OvercountedAppend(es, attempts, outcome);
        UntriedIsThere(es, attempts, outcome);
        var result := outcome(e.path);
        if result != DataStuck {
          RemovalShrinks(es, attempts, files);
          files := files - {e.path};
          if result == Removed { total := total - e.size; }
        }
        attempts := attempts + 1;
      }
    }

    /** How an eviction ends: the bytes fit or every entry was tried, and nothing was tried once they fitted. */
    ghost predicate Evicted(es: seq<Entry>, incoming: nat, outcome: Path -> Removal, attempts: nat, total: int) {
      && attempts <= |es|
      && total == TotalSize(es) - Freed(es[..attempts], outcome)
      && (total + incoming <= maxBytes || attempts == |es|)
      && forall k :: 0 <= k < attempts ==> TotalSize(es) - Freed(es[..k], outcome) + incoming > maxBytes
    }

    /**
      Evicts oldest entries until the incoming bytes fit. `attempts` is how many entries, oldest first, were tried.
      The tracked total is exactly the bytes left plus those of entries whose metadata file is stuck, so it never
      under-counts; on exit it fits or every entry was tried; nothing is tried once it fits; and only tried entries
      disappear.
     */
    method EnforceCap(incoming: nat, listing: seq<Path>, unreadable: set<Path>, outcome: Path -> Removal)
      returns (attempts: nat, total: int)
      requires forall i, j :: 0 <= i < j < |listing| ==> listing[i] != listing[j]
      modifies this
      ensures var es := Sort(Stated(listing, old(files), unreadable));
              && OldestFirst(es) && DistinctPaths(es)
              && Evicted(es, incoming, outcome, attempts, total)
              && files == old(files) - Gone(es[..attempts], outcome)
              && total == BytesLeft(es, files) + Overcounted(es[..attempts], outcome)
    {
      var entries;
      var scanned;
      entries, scanned := Scan(listing, unreadable);
      SortTotal(entries);
      SortSorts(entries);
      StatedIsDistinct(listing, files, unreadable);
      SortDistinct(entries);
      attempts, total := Evict(Sort(entries), scanned, incoming, outcome);
    }
  }

  /** The paths whose data file the attempts removed. */
  function Gone(es: seq<Entry>, outcome: Path -> Removal): (gone: set<Path>)
    ensures forall p :: p in gone ==> exists i :: 0 <= i < |es| && es[i].path == p
  {
    if es == [] then {}
    else
      var init, last := es[..|es| - 1], es[|es| - 1];
      var earlier := Gone(init, outcome);
      assert forall i :: 0 <= i < |init| ==> init[i] == es[i];
      assert last.path == es[|es| - 1].path;
      earlier + (if outcome(last.path) != DataStuck then {last.path} else {})
  }

  /** The bytes the attempts subtracted from the total: fully removed entries only. */
  function Freed(es: seq<Entry>, outcome: Path -> Removal): nat {
    if es == [] then 0
    else Freed(es[..|es| - 1], outcome) + (if outcome(es[|es| - 1].path) == Removed then es[|es| - 1].size else 0)
  }

  lemma GoneAppend(es: seq<Entry>, n: nat, outcome: Path -> Removal)
    requires n < |es|
    ensures Gone(es[..n + 1], outcome)
            == Gone(es[..n], outcome) + (if outcome(es[n].path) != DataStuck then {es[n].path} else {})
    ensures Freed(es[..n + 1], outcome)
            == Freed(es[..n], outcome) + (if outcome(es[n].path) == Removed then es[n].size else 0)
  {
    assert es[..n + 1][..n] == es[..n] && es[..n + 1][n] == es[n];
  }

  lemma NothingTried(outcome: Path -> Removal)
    ensures Gone([], outcome) == {} && Freed([], outcome) == 0 && Overcounted([], outcome) == 0
  {
  }

  /** An entry not yet tried has not been removed. */
  lemma UntriedIsThere(es: seq<Entry>, n: nat, outcome: Path -> Removal)
    requires DistinctPaths(es) && n < |es|
    ensures es[n].path !in Gone(es[..n], outcome)
  {
  }

  lemma {:induction false} AllFreed(es: seq<Entry>, outcome: Path -> Removal)
    requires forall e :: e in es ==> outcome(e.path) == Removed
    ensures Freed(es, outcome) == TotalSize(es)
  {
    if es != [] {
      var init := es[..|es| - 1];
      AllFreed(init, outcome);
      TotalSplits(es, |es| - 1);
      assert es[|es| - 1..] == [es[|es| - 1]];
    }
  }

  /**
    When every removal succeeds, the evicted entries are the shortest oldest-first prefix that makes room: the rest
    fits (or nothing is left) and every shorter prefix would not have been enough.
   */
  lemma EvictsShortestPrefix(es: seq<Entry>, outcome: Path -> Removal, attempts: nat, incoming: nat, maxBytes: nat)
    requires OldestFirst(es) && attempts <= |es|
    requires forall e :: e in es ==> outcome(e.path) == Removed
    requires TotalSize(es) - Freed(es[..attempts], outcome) + incoming <= maxBytes || attempts == |es|
    requires forall k :: 0 <= k < attempts ==> TotalSize(es) - Freed(es[..k], outcome) + incoming > maxBytes
    ensures TotalSize(es[attempts..]) + incoming <= maxBytes || attempts == |es|
    ensures forall k :: 0 <= k < attempts ==> TotalSize(es[k..]) + incoming > maxBytes
    ensures forall i, j :: 0 <= i < attempts <= j < |es| ==> es[i].mtime <= es[j].mtime
    ensures forall i :: 0 <= i < attempts ==> es[i].path in Gone(es[..attempts], outcome)
  {
    hide Gone, Freed, TotalSize;
    forall k | 0 <= k <= attempts ensures TotalSize(es[k..]) == TotalSize(es) - Freed(es[..k], outcome) {
      AllFreed(es[..k], outcome);
      TotalSplits(es, k);
    }
    AllGone(es[..attempts], outcome);
  }

  lemma {:induction false} AllGone(es: seq<Entry>, outcome: Path -> Removal)
    requires forall e :: e in es ==> outcome(e.path) == Removed
    ensures forall i :: 0 <= i < |es| ==> es[i].path in Gone(es, outcome)
  {
    if es != [] { AllGone(es[..|es| - 1], outcome); }
  }
}
