/**
 * `ImagePipelineBase`: the link table read from the link file, and the batch
 * order. The order is a shuffled list of entry positions. Batches are read off
 * it in windows of `batchSize`, and it is reshuffled whenever the next window
 * would run past the number of entries.
 */
module Batches {
  import opened Options

  /** `batchSize`, which the pipelines set to 8 and never change. */
  const BATCH_SIZE: int := 8

  // ---------------------------------------------------------------------
  // The link file

  /** The records of a CSV file: every row after the header (`next(reader, None)` skips it, if any). */
  function Records(rows: seq<seq<string>>): seq<seq<string>>
  {
    if rows == [] then [] else rows[1..]
  }

  /** A record of the right format: exactly two fields, patient and link. */
  predicate IsLink(row: seq<string>)
  {
    |row| == 2
  }

  /** `linkDict` after reading `rows` in order: a well-formed row overwrites its patient's link. */
  function LinkTable(m: map<string, string>, rows: seq<seq<string>>): map<string, string>
    decreases |rows|
  {
    if rows == [] then m
    else
      var prior := LinkTable(m, rows[..|rows| - 1]);
      var row := rows[|rows| - 1];
      if IsLink(row) then prior[row[0] := row[1]] else prior
  }

  /** How many "unknown format" warnings reading `rows` prints. */
  function Malformed(rows: seq<seq<string>>): nat
    decreases |rows|
  {
    if rows == [] then 0
    else Malformed(rows[..|rows| - 1]) + if IsLink(rows[|rows| - 1]) then 0 else 1
  }

  /** The link table a pipeline starts from: empty when the file cannot be opened. */
  function LinkFile(file: Option<seq<seq<string>>>): map<string, string>
  {
    match file
    case None => map[]
    case Some(rows) => LinkTable(map[], Records(rows))
  }

  /** `i` is the last well-formed row naming patient `k`. */
  ghost predicate IsLastLink(rows: seq<seq<string>>, k: string, i: int)
  {
    && 0 <= i < |rows| && IsLink(rows[i]) && rows[i][0] == k
    && forall j :: i < j < |rows| ==> !(IsLink(rows[j]) && rows[j][0] == k)
  }

  /** Last writer wins: a patient is linked to the second field of the last well-formed row naming it. */
  lemma {:induction false} LastWriterWins(m: map<string, string>, rows: seq<seq<string>>, k: string, i: int)
    requires IsLastLink(rows, k, i)
    ensures k in LinkTable(m, rows) && LinkTable(m, rows)[k] == rows[i][1]
    decreases |rows|
  {
    var prefix := rows[..|rows| - 1];
    if i < |rows| - 1 {
      assert IsLastLink(prefix, k, i);
      LastWriterWins(m, prefix, k, i);
    }
  }

  /** A patient no well-formed row names keeps whatever the table had before. */
  lemma {:induction false} UnlinkedUnchanged(m: map<string, string>, rows: seq<seq<string>>, k: string)
    requires forall i :: 0 <= i < |rows| ==> !(IsLink(rows[i]) && rows[i][0] == k)
    ensures k in LinkTable(m, rows) <==> k in m
    ensures k in m ==> LinkTable(m, rows)[k] == m[k]
    decreases |rows|
  {
    if rows != [] {
      UnlinkedUnchanged(m, rows[..|rows| - 1], k);
    }
  }

  /** Every record is either a link or a warning: the table gains at most one patient per well-formed record. */
  lemma {:induction false} LinkTableSize(m: map<string, string>, rows: seq<seq<string>>)
    ensures |LinkTable(m, rows)| + Malformed(rows) <= |m| + |rows|
    decreases |rows|
  {
    if rows != [] {
      var prefix := rows[..|rows| - 1];
      LinkTableSize(m, prefix);
      var row := rows[|rows| - 1];
      if IsLink(row) {
        var prior := LinkTable(m, prefix);
        assert prior[row[0] := row[1]].Keys <= prior.Keys + {row[0]};
      }
    }
  }

  // ---------------------------------------------------------------------
  // Index orders

  /** Python 2's `range(n)`: 0, 1, ..., n - 1, and empty for n <= 0. */
  function Range(n: int): seq<int>
  {
    seq(if n < 0 then 0 else n, i => i)
  }

  /** `d` is an arrangement of `range(n)`: each position 0 .. n - 1 exactly once. */
  ghost predicate IsIndexPermutation(d: seq<int>, n: int)
  {
    multiset(d) == multiset(Range(n))
  }

  lemma {:induction false} RangeCount(n: int, x: int)
    ensures multiset(Range(n))[x] == if 0 <= x < n then 1 else 0
    decreases if n < 0 then 0 else n
  {
    if n > 0 {
      assert Range(n) == Range(n - 1) + [n - 1];
      RangeCount(n - 1, x);
    }
  }

  /** An arrangement of `range(n)` has `n` entries, all valid positions, no two alike. */
  lemma PermutationIndices(d: seq<int>, n: int)
    requires IsIndexPermutation(d, n)
    ensures |d| == if n < 0 then 0 else n
    ensures forall i :: 0 <= i < |d| ==> 0 <= d[i] < n
    ensures forall i, j :: 0 <= i < j < |d| ==> d[i] != d[j]
  {
    assert |d| == |multiset(d)| == |multiset(Range(n))| == |Range(n)|;
    forall i | 0 <= i < |d|
      ensures 0 <= d[i] < n
    {
      assert d[i] in multiset(d);
      RangeCount(n, d[i]);
    }
    forall i, j | 0 <= i < j < |d|
      ensures d[i] != d[j]
    {
      RangeCount(n, d[i]);
      assert d == d[..j] + d[j..];
      assert d[..j][i] == d[i];
      assert multiset(d[..j])[d[i]] >= 1;
      assert multiset(d[j..])[d[i]] == 0;
      assert d[j..][0] == d[j];
    }
  }

  /** Python's `s[lo:hi]` for non-negative bounds: both are clamped to the length. */
  function Slice(s: seq<int>, lo: nat, hi: nat): seq<int>
  {
    var l := if lo <= |s| then lo else |s|;
    var h := if hi <= |s| then hi else |s|;
    if l < h then s[l..h] else []
  }

  /**
   * `w` is a full batch of `size` positions out of `n` (or all `n` when
   * there are fewer), each valid and no two alike.
   */
  ghost predicate IsBatch(w: seq<int>, n: int, size: int)
  {
    && |w| == (if n < 0 then 0 else if n < size then n else size)
    && (forall k :: 0 <= k < |w| ==> 0 <= w[k] < n)
    && (forall k, l :: 0 <= k < l < |w| ==> w[k] != w[l])
  }

  /**
   * A window that starts the order, or lies within it, holds a full batch
   * (or every entry, when there are fewer) of valid, pairwise different
   * positions.
   */
  lemma WindowIndices(d: seq<int>, n: int, start: nat, size: nat)
    requires IsIndexPermutation(d, n)
    requires start == 0 || start + size <= n
    ensures IsBatch(Slice(d, start, start + size), n, size)
  {
    PermutationIndices(d, n);
    var w := Slice(d, start, start + size);
    forall k | 0 <= k < |w|
      ensures w[k] == d[start + k]
    {
    }
  }

  /**
   * Windows of one order that do not overlap share no position, and the
   * entries the batches read through them (`dataIndex[batchIdx[k]]`) differ
   * too: between two reshuffles no entry is served twice.
   */
  lemma WindowsDisjoint(d: seq<int>, n: int, s: nat, t: nat, size: nat)
    requires IsIndexPermutation(d, n)
    requires s + size <= t
    ensures var a, b := Slice(d, s, s + size), Slice(d, t, t + size);
            forall p, q :: 0 <= p < |a| && 0 <= q < |b| ==> a[p] != b[q]
    ensures var a, b := Slice(d, s, s + size), Slice(d, t, t + size);
            forall p, q :: 0 <= p < |a| && 0 <= q < |b| ==>
              0 <= a[p] < |d| && 0 <= b[q] < |d| && d[a[p]] != d[b[q]]
  {
    PermutationIndices(d, n);
    var a, b := Slice(d, s, s + size), Slice(d, t, t + size);
    forall p, q | 0 <= p < |a| && 0 <= q < |b|
      ensures a[p] != b[q]
      ensures 0 <= a[p] < |d| && 0 <= b[q] < |d| && d[a[p]] != d[b[q]]
    {
      assert a[p] == d[s + p] && b[q] == d[t + q];
      if a[p] < b[q] {
        assert d[a[p]] != d[b[q]];
      } else {
        assert d[b[q]] != d[a[p]];
      }
    }
  }

  /**
   * The positions a batch reads: the pipelines look each batch index up in
   * the order a second time (`dataIndex[batchIdx[k]]`). For an arrangement
   * this still yields valid, pairwise different positions.
   */
  lemma DoubleLookup(d: seq<int>, n: int, slots: seq<int>)
    requires IsIndexPermutation(d, n)
    requires forall k :: 0 <= k < |slots| ==> 0 <= slots[k] < n
    requires forall k, l :: 0 <= k < l < |slots| ==> slots[k] != slots[l]
    ensures forall k :: 0 <= k < |slots| ==> 0 <= slots[k] < |d| && 0 <= d[slots[k]] < n
    ensures forall k, l :: 0 <= k < l < |slots| ==> d[slots[k]] != d[slots[l]]
  {
    PermutationIndices(d, n);
    forall k, l | 0 <= k < l < |slots|
      ensures d[slots[k]] != d[slots[l]]
    {
      if slots[k] < slots[l] {
        assert d[slots[k]] != d[slots[l]];
      } else {
        assert d[slots[l]] != d[slots[k]];
      }
    }
  }

  // ---------------------------------------------------------------------
  // The pipeline state shared by both pipelines

  /**
   * The attributes of a pipeline that `ImagePipelineBase` works on. `ndata`
   * is `_ndata`, -1 until files are found; `batchStart` and `batchEnd` are
   * `None` until the first batch.
   */
  class ImagePipelineBase {
    var linkDict: map<string, string>
    var ndata: int
    var dataIndex: seq<int>
    var batchStart: Option<int>
    var batchEnd: Option<int>
    const batchSize: int

    /** The order, once made, is an arrangement of the entry positions. */
    ghost predicate OrderValid()
      reads this
    {
      batchSize == BATCH_SIZE && (dataIndex == [] || IsIndexPermutation(dataIndex, ndata))
    }

    /**
     * Between calls the window is unset, or it spans one batch and lies
     * within the entries unless it is the first window after a reshuffle.
     */
    ghost predicate Valid()
      reads this
    {
      && OrderValid()
      && (batchStart.None? <==> batchEnd.None?)
      && (batchStart.Some? ==>
            && IsIndexPermutation(dataIndex, ndata)
            && |dataIndex| == (if ndata < 0 then 0 else ndata)
            && (forall i :: 0 <= i < |dataIndex| ==> 0 <= dataIndex[i] < ndata)
            && 0 <= batchStart.value
            && batchEnd.value == batchStart.value + batchSize
            && (batchStart.value == 0 || batchEnd.value <= ndata))
    }

    /** The batch attributes the pipeline constructors set before reading the link file. */
    constructor ()
      ensures Valid()
      ensures linkDict == map[] && ndata == -1 && dataIndex == []
      ensures batchStart == None && batchEnd == None && batchSize == BATCH_SIZE
    {
      linkDict := map[];
      ndata := -1;
      dataIndex := [];
      batchStart := None;
      batchEnd := None;
      batchSize := BATCH_SIZE;
    }

    /**
     * `read_link_file`: `file` is the link file's rows, or `None` when it
     * cannot be opened (the `IOError` path). Returns how many rows were
     * reported as of unknown format.
     */
    method ReadLinkFile(file: Option<seq<seq<string>>>) returns (warnings: nat)
      modifies this`linkDict
      ensures linkDict == match file
                          case None => old(linkDict)
                          case Some(rows) => LinkTable(old(linkDict), Records(rows))
      ensures warnings == match file
                          case None => 0
                          case Some(rows) => Malformed(Records(rows))
    {
      warnings := 0;
      if file.None? {
        // "Error: ..." and return
        return;
      }
      var records := Records(file.value);
      for i := 0 to |records|
        invariant linkDict == LinkTable(old(linkDict), records[..i])
        invariant warnings == Malformed(records[..i])
      {
        assert records[..i + 1][..i] == records[..i];
        var row := records[i];
        if |row| == 2 {
          linkDict := linkDict[row[0] := row[1]];
        } else {
          // "Warning: unknown format"
          warnings := warnings + 1;
        }
      }
      assert records[..|records|] == records;
    }

    /**
     * `resetBatchOrder`: the window goes back to the start and the order is
     * reshuffled, after being made as `range(_ndata)` if there is none yet.
     * `shuffled` is what `np.random.shuffle` turns that list into.
     */
    method ResetBatchOrder(shuffled: seq<int>)
      requires OrderValid()
      requires multiset(shuffled) == multiset(if |dataIndex| == 0 then Range(ndata) else dataIndex)
      modifies this`batchStart, this`batchEnd, this`dataIndex
      ensures Valid()
      ensures batchStart == Some(0) && batchEnd == Some(batchSize)
      ensures dataIndex == shuffled
    {
      PermutationIndices(shuffled, ndata);
      batchStart := Some(0);
      batchEnd := Some(batchStart.value + batchSize);
      if |dataIndex| == 0 {
        dataIndex := Range(ndata);
      }
      dataIndex := shuffled;
    }

    /**
     * How a call of `GetNextBatchIndices` moves the order on from the window
     * `start0`/`end0` over `index0`: it reshuffles to `shuffled` and starts
     * again when there was no window or the next one would end past the
     * entries, and otherwise moves the window on by one batch.
     */
    ghost predicate MovedOn(start0: Option<int>, end0: Option<int>, index0: seq<int>, shuffled: seq<int>)
      reads this
    {
      var reshuffled := start0.None? || end0.None? || end0.value + batchSize > ndata;
      && (reshuffled ==> batchStart == Some(0) && dataIndex == shuffled)
      && (!reshuffled ==> batchStart == Some(start0.value + batchSize) && dataIndex == index0)
    }

    /** The window of the order the last call of `GetNextBatchIndices` returned. */
    function Window(): seq<int>
      reads this
      requires batchStart.Some? && batchEnd.Some?
      requires 0 <= batchStart.value && 0 <= batchEnd.value
    {
      Slice(dataIndex, batchStart.value, batchEnd.value)
    }

    /**
     * `getNextBatchIndices`: the first call starts the order, later calls
     * move the window on by one batch; a window that would end past the
     * entries reshuffles and starts again. The result has a full batch of
     * valid, pairwise different positions (fewer only when there are fewer
     * entries than a batch).
     */
    method GetNextBatchIndices(shuffled: seq<int>) returns (batchIdx: seq<int>)
      requires Valid()
      requires IsIndexPermutation(shuffled, ndata)
      modifies this`batchStart, this`batchEnd, this`dataIndex
      ensures Valid() && batchStart.Some?
      ensures MovedOn(old(batchStart), old(batchEnd), old(dataIndex), shuffled)
      ensures batchIdx == Window()
      ensures IsBatch(batchIdx, ndata, batchSize)
    {
      if batchStart.None? {
        ResetBatchOrder(shuffled);
      } else {
        batchStart := Some(batchStart.value + batchSize);
        batchEnd := Some(batchEnd.value + batchSize);
        if batchEnd.value > ndata {
          ResetBatchOrder(shuffled);
        }
      }
      assert batchEnd.value == batchStart.value + batchSize;
      batchIdx := Slice(dataIndex, batchStart.value, batchEnd.value);
      WindowIndices(dataIndex, ndata, batchStart.value, batchSize);
      PermutationIndices(dataIndex, ndata);
    }
  }
}
