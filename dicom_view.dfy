/**
 * The slideshow state of the DICOM item view: the sorted file list, the
 * index of the file on screen and the flag that gates the one-time window,
 * level and camera setup. Loading a file and scheduling the next step are
 * recorded as requests in two logs; rendering and decoding are not modelled.
 */
module DicomViewer {
  import opened Modular

  /** A file record of the item, as the file listing returns it. */
  datatype File = File(id: string, name: string)

  /** Delay before the next step after a file that decoded, and after one that did not. */
  const SuccessDelay: nat := 1000
  const FailureDelay: nat := 1

  /** The name comparator (natural sort) as a relation: total and transitive. */
  ghost predicate TotalPreorder(le: (string, string) -> bool) {
    && (forall a, b :: le(a, b) || le(b, a))
    && (forall a, b, c :: le(a, b) && le(b, c) ==> le(a, c))
  }

  ghost predicate SortedByName(s: seq<File>, le: (string, string) -> bool) {
    forall i, j :: 0 <= i < j < |s| ==> le(s[i].name, s[j].name)
  }

  /** Inserts x before the first element whose name sorts strictly after x's. */
  function Insert(x: File, s: seq<File>, le: (string, string) -> bool): (r: seq<File>)
    ensures multiset(r) == multiset(s) + multiset{x} && |r| == |s| + 1
    decreases |s|
  {
    if s == [] then [x]
    else if !le(s[0].name, x.name) then [x] + s
    else
      assert s == [s[0]] + s[1..];
      [s[0]] + Insert(x, s[1..], le)
  }

  /** Inserting into a sorted list keeps it sorted. */
  lemma {:induction false} InsertSorted(x: File, s: seq<File>, le: (string, string) -> bool)
    requires TotalPreorder(le) && SortedByName(s, le)
    ensures SortedByName(Insert(x, s, le), le)
    decreases |s|
  {
    if s == [] {
    } else if !le(s[0].name, x.name) {
      assert le(x.name, s[0].name);
    } else {
      var tail := s[1..];
      var rest := Insert(x, tail, le);
      InsertSorted(x, tail, le);
      forall k | 0 <= k < |rest|
        ensures le(s[0].name, rest[k].name)
      {
        assert rest[k] in multiset(rest);
        if rest[k] != x {
          assert rest[k] in multiset(tail);
          var m :| 0 <= m < |tail| && tail[m] == rest[k];
          assert s[m + 1] == rest[k];
        }
      }
      assert Insert(x, s, le) == [s[0]] + rest;
    }
  }

  /** The listing ordered by file name under the comparator: a sorted permutation of it. */
  function SortByName(files: seq<File>, le: (string, string) -> bool): (r: seq<File>)
    requires TotalPreorder(le)
    ensures multiset(r) == multiset(files) && |r| == |files|
    ensures SortedByName(r, le)
    decreases |files|
  {
    if files == [] then []
    else
      var n := |files| - 1;
      assert files == files[..n] + [files[n]];
      InsertSorted(files[n], SortByName(files[..n], le), le);
      Insert(files[n], SortByName(files[..n], le), le)
  }

  /** The index `step` moves to in a list of n files. */
  function NextIndex(index: nat, n: nat): (r: nat)
    requires 0 < n
    ensures r < n
  {
    (index + 1) % n
  }

  /** The indices of the files that k successive steps from `index` load, in order. */
  function Cycle(n: nat, index: nat, k: nat): (r: seq<nat>)
    requires 0 < n
    ensures |r| == k
    ensures forall j :: 0 <= j < k ==> r[j] < n
    decreases k
  {
    if k == 0 then [] else [NextIndex(index, n)] + Cycle(n, NextIndex(index, n), k - 1)
  }

  /** The j-th of k successive steps from `index` loads file (index + j + 1) mod n. */
  lemma {:induction false} CycleAt(n: nat, index: nat, k: nat, j: nat)
    requires 0 < n && j < k
    ensures Cycle(n, index, k)[j] == (index + j + 1) % n
    decreases k
  {
    if j > 0 {
      CycleAt(n, NextIndex(index, n), k - 1, j - 1);
      ModOfModPlus(index + 1, j, n);
    }
  }

  /** The index after k steps from `index`. */
  function IndexAfter(n: nat, index: nat, k: nat): (r: nat)
    requires 0 < n
    ensures k > 0 ==> r < n
    ensures k == 0 ==> r == index
  {
    if k == 0 then index else Cycle(n, index, k)[k - 1]
  }

  /** One more step appends the successor of the current index: the closed form agrees with stepping one call at a time. */
  lemma CycleSnoc(n: nat, index: nat, k: nat)
    requires 0 < n
    ensures Cycle(n, index, k + 1) == Cycle(n, index, k) + [NextIndex(IndexAfter(n, index, k), n)]
    ensures k > 0 ==> IndexAfter(n, index, k) == (index + k) % n
  {
    var c, c' := Cycle(n, index, k), Cycle(n, index, k + 1);
    forall j | 0 <= j < k
      ensures c'[j] == c[j]
    {
      CycleAt(n, index, k, j);
      CycleAt(n, index, k + 1, j);
    }
    CycleAt(n, index, k + 1, k);
    if k > 0 {
      CycleAt(n, index, k, k - 1);
      ModOfModPlus(index + k, 1, n);
    }
  }

  /** In any n successive steps every one of the n files is loaded exactly once. */
  lemma CycleVisitsEachOnce(n: nat, index: nat)
    requires 0 < n
    ensures forall t :: 0 <= t < n ==> t in Cycle(n, index, n)
    ensures forall j1, j2 :: 0 <= j1 < j2 < n ==> Cycle(n, index, n)[j1] != Cycle(n, index, n)[j2]
  {
    var c := Cycle(n, index, n);
    forall t | 0 <= t < n
      ensures t in c
    {
      var j := ModCovers(index + 1, t, n);
      CycleAt(n, index, n, j);
    }
    forall j1, j2 | 0 <= j1 < j2 < n
      ensures c[j1] != c[j2]
    {
      CycleAt(n, index, n, j1);
      CycleAt(n, index, n, j2);
      ModDistinct(index + 1, j1, j2, n);
    }
  }

  /**
   * From the initial index 0 the first file shown is file 1 mod n, so with
   * two or more files the first in sorted order is shown last in the cycle.
   */
  lemma FirstCycleFromStart(n: nat)
    requires 0 < n
    ensures Cycle(n, 0, 1) == [1 % n]
    ensures Cycle(n, 0, n)[n - 1] == 0
  {
    assert Cycle(n, 0, 1) == [NextIndex(0, n)] + Cycle(n, NextIndex(0, n), 0);
    CycleAt(n, 0, n, n - 1);
    DivModUnique(n, 1, 0, n);
  }

  class DicomView {
    var files: seq<File>
    var index: nat
    var first: bool
    /** Files passed to loadFile, in order. */
    var loads: seq<File>
    /** Delays passed to setTimeout for the next step, in order. */
    var delays: seq<nat>
    /** How many times the one-time window, level and camera setup has run. */
    ghost var setups: nat

    ghost predicate Valid()
      reads this
    {
      setups <= 1 && (first <==> setups == 0)
    }

    /** `initialize`: an empty list, index 0, the setup still to do. */
    constructor ()
      ensures Valid()
      ensures files == [] && index == 0 && first
      ensures loads == [] && delays == [] && setups == 0
    {
      files := [];
      index := 0;
      first := true;
      loads := [];
      delays := [];
      setups := 0;
    }

    /**
     * Advances cyclically and requests the file at the new index; with no
     * files it changes nothing and requests nothing.
     */
    method Step()
      requires Valid()
      modifies this
      ensures Valid()
      ensures files == old(files) && first == old(first)
      ensures delays == old(delays) && setups == old(setups)
      ensures files == [] ==> index == old(index) && loads == old(loads)
      ensures files != [] ==> index == NextIndex(old(index), |files|) && index < |files|
      ensures files != [] ==> loads == old(loads) + [files[index]]
    {
      if |files| <= 0 {
        return;
      }
      index := (index + 1) % |files|;
      var file := files[index];
      loads := loads + [file];
    }

    /** Stores the listing sorted by name and steps once. */
    method HandleFileList(listing: seq<File>, le: (string, string) -> bool)
      requires Valid() && TotalPreorder(le)
      modifies this
      ensures Valid()
      ensures files == SortByName(listing, le)
      ensures multiset(files) == multiset(listing) && SortedByName(files, le)
      ensures first == old(first) && delays == old(delays) && setups == old(setups)
      ensures files == [] ==> index == old(index) && loads == old(loads)
      ensures files != [] ==> index == NextIndex(old(index), |files|)
      ensures files != [] ==> loads == old(loads) + [files[index]]
    {
      files := SortByName(listing, le);
      Step();
    }

    /** Shows decoded image data; the first call also runs the one-time setup. */
    method SetImageData()
      requires Valid()
      modifies this
      ensures Valid() && !first
      ensures setups == (if old(first) then 1 else old(setups))
      ensures files == old(files) && index == old(index)
      ensures loads == old(loads) && delays == old(delays)
    {
      if first {
        setups := setups + 1;
        first := false;
      }
    }

    /**
     * The `onload` callback of loadFile. `decoded` is false when parsing or
     * building the image threw (the exception is swallowed and imageData
     * stays null). The next step is scheduled after 1000 on success, 1
     * otherwise.
     */
    method OnLoad(decoded: bool)
      requires Valid()
      modifies this
      ensures Valid()
      ensures delays == old(delays) + [if decoded then SuccessDelay else FailureDelay]
      ensures decoded ==> !first && setups == (if old(first) then 1 else old(setups))
      ensures !decoded ==> first == old(first) && setups == old(setups)
      ensures files == old(files) && index == old(index) && loads == old(loads)
    {
      if decoded {
        SetImageData();
        delays := delays + [SuccessDelay];
      } else {
        delays := delays + [FailureDelay];
      }
    }
  }
}
