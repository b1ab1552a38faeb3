/**
 * The two pipelines: `ImagePipeline` (images with inner contours) and
 * `ImagePipeline2` (images with inner and outer contours). Each reads the
 * link table, collects the entries of every linked patient whose directories
 * exist, in ascending patient order, and serves shuffled batches of them.
 * The batch state lives in the `ImagePipelineBase` each pipeline owns.
 */
module Pipelines {
  import opened Options
  import opened Text
  import opened Files
  import opened Matching
  import opened Readers
  import opened Batches

  /** `imaHeight` and `imaWidth`: the only image format a batch accepts. */
  const IMA_HEIGHT: int := 256
  const IMA_WIDTH: int := 256

  /** What the pipelines read of a parsed image: its `height` and `width`. */
  datatype Dims = Dims(height: int, width: int)

  /** How filling one slot of a batch goes. */
  datatype SlotStatus = Ready | WrongFormat | Unreadable

  /**
   * The outcome of `getNextBatch`: the entries whose images and masks fill
   * the slots in order; the slot whose image has another format (the source
   * prints an error and returns `None`); or the slot at which the source
   * raises.
   */
  datatype BatchOutcome<E> = Batch(entries: seq<E>) | FormatMismatch(slot: nat) | ReadFailure(slot: nat)

  /**
   * The status of a slot whose entry names the image `dcmFile` (`None` for a
   * sentinel entry, which the source cannot unpack or parse). `decode` stands
   * for `parse_dicom_file`, `None` where it returns `None`; indexing that
   * `None` raises.
   */
  function ImageStatus(dcmFile: Option<string>, decode: string -> Option<Dims>): SlotStatus
  {
    match dcmFile
    case None => Unreadable
    case Some(f) =>
      match decode(f)
      case None => Unreadable
      case Some(dims) => if dims.height != IMA_HEIGHT || dims.width != IMA_WIDTH then WrongFormat else Ready
  }

  function PairImage(e: PairEntry): Option<string>
  {
    match e
    case Pair(dcmFile, _) => Some(dcmFile)
    case PairNotFound => None
  }

  function TripleImage(e: TripleEntry): Option<string>
  {
    match e
    case Triple(dcmFile, _, _) => Some(dcmFile)
    case TripleNotFound => None
  }

  /** The status of each slot, for entries whose images `image` names. */
  function Statuses<E>(entries: seq<E>, image: E -> Option<string>, decode: string -> Option<Dims>): seq<SlotStatus>
  {
    seq(|entries|, k requires 0 <= k < |entries| => ImageStatus(image(entries[k]), decode))
  }

  /**
   * The entries a batch reads: slot `k` holds the entry at
   * `dataIndex[batchIdx[k]]`, the order looked up a second time.
   */
  function Served<E>(entries: seq<E>, order: seq<int>, slots: seq<int>): seq<E>
    requires forall k :: 0 <= k < |slots| ==> 0 <= slots[k] < |order| && 0 <= order[slots[k]] < |entries|
  {
    seq(|slots|, k requires 0 <= k < |slots| => entries[order[slots[k]]])
  }

  /**
   * `outcome` is what filling slots with `entries` gives when `status` says
   * how each slot goes: the first slot that is not ready decides, and a batch
   * comes back only when every slot is ready.
   */
  ghost predicate Reports<E>(outcome: BatchOutcome<E>, entries: seq<E>, status: seq<SlotStatus>)
  {
    match outcome
    case Batch(filled) => filled == entries && forall k :: 0 <= k < |status| ==> status[k] == Ready
    case FormatMismatch(slot) =>
      slot < |status| && status[slot] == WrongFormat && forall k :: 0 <= k < slot ==> status[k] == Ready
    case ReadFailure(slot) =>
      slot < |status| && status[slot] == Unreadable && forall k :: 0 <= k < slot ==> status[k] == Ready
  }

  /** The slots decide the outcome: no two different outcomes fit the same slots. */
  lemma ReportsUnique<E>(o1: BatchOutcome<E>, o2: BatchOutcome<E>, entries: seq<E>, status: seq<SlotStatus>)
    requires Reports(o1, entries, status) && Reports(o2, entries, status)
    ensures o1 == o2
  {
  }

  /**
   * The slot loop of `getNextBatch`: slot `k` reads the entry at
   * `order[slots[k]]` and parses its image; the first image that cannot be
   * read or has another format ends the batch.
   */
  method FillBatch<E>(entries: seq<E>, order: seq<int>, slots: seq<int>,
                      image: E -> Option<string>, decode: string -> Option<Dims>)
    returns (outcome: BatchOutcome<E>)
    requires forall k :: 0 <= k < |slots| ==> 0 <= slots[k] < |order| && 0 <= order[slots[k]] < |entries|
    ensures var served := Served(entries, order, slots);
            Reports(outcome, served, Statuses(served, image, decode))
  {
    ghost var served := Served(entries, order, slots);
    ghost var status := Statuses(served, image, decode);
    var filled: seq<E> := [];
    for k := 0 to |slots|
      invariant filled == served[..k]
      invariant forall j :: 0 <= j < k ==> status[j] == Ready
    {
      var idx := order[slots[k]];
      var entry := entries[idx];
      var dcmData := ImageStatus(image(entry), decode);
      if dcmData == WrongFormat {
        // "Error: image format don't match"
        outcome := FormatMismatch(k);
        return;
      } else if dcmData == Unreadable {
        outcome := ReadFailure(k);
        return;
      }
      filled := filled + [entry];
    }
    assert served[..|slots|] == served;
    outcome := Batch(filled);
  }

  // ---------------------------------------------------------------------
  // The entries of the linked patients

  /** `key` is linked, and its image and contour directories both exist. */
  predicate HasDirs(fs: FileSystem, dcmDir: string, contDir: string)
  {
    IsDir(fs, dcmDir) && IsDir(fs, contDir)
  }

  /** The contour directory `ImagePipeline` reads for a link: its `i-contours`. */
  function InnerDir(contPath: string, link: string): string
  {
    Join(Join(contPath, link), I_CONTOURS)
  }

  /** What `ImagePipeline.getAllFiles` adds for one patient: nothing when a directory is missing. */
  ghost function PairsOf(fs: FileSystem, dcmPath: string, contPath: string, links: map<string, string>,
                         key: string): seq<PairEntry>
  {
    if ReadsPair(fs, dcmPath, contPath, links, key)
    then PatientPairs(fs, Join(dcmPath, key), InnerDir(contPath, links[key]))
    else []
  }

  /** What `ImagePipeline2.getAllFiles` adds for one patient: nothing when a directory is missing. */
  ghost function TriplesOf(fs: FileSystem, dcmPath: string, contPath: string, links: map<string, string>,
                           key: string): seq<TripleEntry>
  {
    if ReadsTriple(fs, dcmPath, contPath, links, key)
    then PatientTriples(fs, Join(dcmPath, key), Join(contPath, links[key]))
    else []
  }

  /** The lists of the patients `keys` one after another, in that order. */
  ghost function ConcatMap<E>(keys: seq<string>, f: string -> seq<E>): seq<E>
    decreases |keys|
  {
    if keys == [] then [] else ConcatMap(keys[..|keys| - 1], f) + f(keys[|keys| - 1])
  }

  /** An entry is in the concatenation iff some patient's own list has it. */
  lemma {:induction false} ConcatMapUnion<E>(keys: seq<string>, f: string -> seq<E>, e: E)
    ensures e in ConcatMap(keys, f) <==> exists i :: 0 <= i < |keys| && e in f(keys[i])
    decreases |keys|
  {
    if keys != [] {
      var prefix := keys[..|keys| - 1];
      ConcatMapUnion(prefix, f, e);
      if exists i :: 0 <= i < |prefix| && e in f(prefix[i]) {
        var i :| 0 <= i < |prefix| && e in f(prefix[i]);
        assert keys[i] == prefix[i];
      }
      if exists i :: 0 <= i < |keys| && e in f(keys[i]) {
        var i :| 0 <= i < |keys| && e in f(keys[i]);
        if i < |prefix| {
          assert prefix[i] == keys[i];
        }
      }
    }
  }

  /** `ImagePipeline`'s list for the patients `keys`. */
  ghost function LinkedPairs(fs: FileSystem, dcmPath: string, contPath: string, links: map<string, string>,
                             keys: seq<string>): seq<PairEntry>
  {
    ConcatMap(keys, key => PairsOf(fs, dcmPath, contPath, links, key))
  }

  /** `ImagePipeline2`'s list for the patients `keys`. */
  ghost function LinkedTriples(fs: FileSystem, dcmPath: string, contPath: string, links: map<string, string>,
                               keys: seq<string>): seq<TripleEntry>
  {
    ConcatMap(keys, key => TriplesOf(fs, dcmPath, contPath, links, key))
  }

  /** Some patient of `keys` satisfies `p`. */
  function AnyOf(keys: seq<string>, p: string -> bool): bool
    decreases |keys|
  {
    if keys == [] then false else AnyOf(keys[..|keys| - 1], p) || p(keys[|keys| - 1])
  }

  /** `ImagePipeline` reads patient `key`: it is linked, and its image and inner-contour directories exist. */
  predicate ReadsPair(fs: FileSystem, dcmPath: string, contPath: string, links: map<string, string>, key: string)
  {
    key in links && HasDirs(fs, Join(dcmPath, key), InnerDir(contPath, links[key]))
  }

  /** `ImagePipeline2` reads patient `key`: it is linked, and its image and contour directories exist. */
  predicate ReadsTriple(fs: FileSystem, dcmPath: string, contPath: string, links: map<string, string>, key: string)
  {
    key in links && HasDirs(fs, Join(dcmPath, key), Join(contPath, links[key]))
  }

  /** Some patient of `keys` is read, so `_ndata` gets set. */
  function FoundPair(fs: FileSystem, dcmPath: string, contPath: string, links: map<string, string>,
                     keys: seq<string>): bool
  {
    AnyOf(keys, key => ReadsPair(fs, dcmPath, contPath, links, key))
  }

  function FoundTriple(fs: FileSystem, dcmPath: string, contPath: string, links: map<string, string>,
                       keys: seq<string>): bool
  {
    AnyOf(keys, key => ReadsTriple(fs, dcmPath, contPath, links, key))
  }

  /** Reading one more patient appends its list, and `_ndata` is set once a patient is read. */
  lemma LinkedPairsStep(fs: FileSystem, dcmPath: string, contPath: string, links: map<string, string>,
                         keys: seq<string>, i: nat)
    requires i < |keys|
    ensures LinkedPairs(fs, dcmPath, contPath, links, keys[..i + 1])
            == LinkedPairs(fs, dcmPath, contPath, links, keys[..i]) + PairsOf(fs, dcmPath, contPath, links, keys[i])
    ensures FoundPair(fs, dcmPath, contPath, links, keys[..i + 1])
            == (FoundPair(fs, dcmPath, contPath, links, keys[..i]) || ReadsPair(fs, dcmPath, contPath, links, keys[i]))
  {
    assert keys[..i + 1][..i] == keys[..i];
  }

  lemma LinkedTriplesStep(fs: FileSystem, dcmPath: string, contPath: string, links: map<string, string>,
                           keys: seq<string>, i: nat)
    requires i < |keys|
    ensures LinkedTriples(fs, dcmPath, contPath, links, keys[..i + 1])
            == LinkedTriples(fs, dcmPath, contPath, links, keys[..i]) + TriplesOf(fs, dcmPath, contPath, links, keys[i])
    ensures FoundTriple(fs, dcmPath, contPath, links, keys[..i + 1])
            == (FoundTriple(fs, dcmPath, contPath, links, keys[..i]) || ReadsTriple(fs, dcmPath, contPath, links, keys[i]))
  {
    assert keys[..i + 1][..i] == keys[..i];
  }

  /**
   * The loop of `ImagePipeline.getAllFiles` over the patients `keys`: what it
   * appends, and whether it reads any patient (and so sets `_ndata`).
   */
  method CollectPairs(fs: FileSystem, dcm: string, cont: string, links: map<string, string>, keys: seq<string>)
    returns (added: seq<PairEntry>, found: bool)
    requires forall i :: 0 <= i < |keys| ==> keys[i] in links
    ensures added == LinkedPairs(fs, dcm, cont, links, keys)
    ensures found == FoundPair(fs, dcm, cont, links, keys)
    ensures found || added == []
  {
    added, found := [], false;
    for i := 0 to |keys|
      invariant added == LinkedPairs(fs, dcm, cont, links, keys[..i])
      invariant found == FoundPair(fs, dcm, cont, links, keys[..i])
      invariant found || added == []
    {
      var key := keys[i];
      LinkedPairsStep(fs, dcm, cont, links, keys, i);
      var dcmDir := Join(dcm, key);
      var contDir := Join(Join(cont, links[key]), I_CONTOURS);
      if !(IsDir(fs, dcmDir) && IsDir(fs, contDir)) {
        // "Warning: invalid directories"
        continue;
      }
      var pairs := ReadPairs(fs, dcmDir, contDir);
      added := added + pairs;
      found := true;
    }
    assert keys[..|keys|] == keys;
  }

  /**
   * The loop of `ImagePipeline2.getAllFiles` over the patients `keys`: what it
   * appends, and whether it reads any patient (and so sets `_ndata`).
   */
  method CollectTriples(fs: FileSystem, dcm: string, cont: string, links: map<string, string>, keys: seq<string>)
    returns (added: seq<TripleEntry>, found: bool)
    requires DualLayout(fs, dcm, cont, links)
    requires forall i :: 0 <= i < |keys| ==> keys[i] in links
    ensures added == LinkedTriples(fs, dcm, cont, links, keys)
    ensures found == FoundTriple(fs, dcm, cont, links, keys)
    ensures found || added == []
  {
    added, found := [], false;
    for i := 0 to |keys|
      invariant added == LinkedTriples(fs, dcm, cont, links, keys[..i])
      invariant found == FoundTriple(fs, dcm, cont, links, keys[..i])
      invariant found || added == []
    {
      var key := keys[i];
      LinkedTriplesStep(fs, dcm, cont, links, keys, i);
      var dcmDir := Join(dcm, key);
      var contDir := Join(cont, links[key]);
      if !(IsDir(fs, dcmDir) && IsDir(fs, contDir)) {
        // "Warning: invalid directories"
        continue;
      }
      assert DualReadable(fs, dcm, cont, links, key);
      var triples := ReadTriples(fs, dcmDir, contDir);
      added := added + triples;
      found := true;
    }
    assert keys[..|keys|] == keys;
  }

  /** `DicomContourReader(dcmDir, contDir).getAllFilePairs()` */
  method ReadPairs(fs: FileSystem, dcmDir: string, contDir: string) returns (pairs: seq<PairEntry>)
    requires IsDir(fs, contDir)
    ensures pairs == PatientPairs(fs, dcmDir, contDir)
  {
    var dc := new DicomContourReader(dcmDir, contDir, fs);
    pairs := dc.GetAllFilePairs();
  }

  /** `DicomContourReader2(dcmDir, contDir).getAllFilePairs()` */
  method ReadTriples(fs: FileSystem, dcmDir: string, contDir: string) returns (triples: seq<TripleEntry>)
    requires ContourDirsReadable(fs, contDir)
    ensures triples == PatientTriples(fs, dcmDir, contDir)
  {
    var dc := new DicomContourReader2(dcmDir, contDir, fs);
    triples := dc.GetAllFilePairs();
  }

  /**
   * The collected list is exactly the union of the patients' own lists: an
   * entry is there iff some listed patient contributes it.
   */
  lemma LinkedPairsUnion(fs: FileSystem, dcmPath: string, contPath: string,
                         links: map<string, string>, keys: seq<string>, e: PairEntry)
    ensures e in LinkedPairs(fs, dcmPath, contPath, links, keys)
            <==> exists i :: 0 <= i < |keys| && e in PairsOf(fs, dcmPath, contPath, links, keys[i])
  {
    ConcatMapUnion(keys, key => PairsOf(fs, dcmPath, contPath, links, key), e);
  }

  lemma LinkedTriplesUnion(fs: FileSystem, dcmPath: string, contPath: string,
                           links: map<string, string>, keys: seq<string>, e: TripleEntry)
    ensures e in LinkedTriples(fs, dcmPath, contPath, links, keys)
            <==> exists i :: 0 <= i < |keys| && e in TriplesOf(fs, dcmPath, contPath, links, keys[i])
  {
    ConcatMapUnion(keys, key => TriplesOf(fs, dcmPath, contPath, links, key), e);
  }

  /**
   * The dual-contour readers need `i-contours` under the contour directory
   * of every patient the pipeline reads, and `o-contours` as well where
   * `i-contours` holds contours; the pipeline itself checks only that the
   * contour directory exists.
   */
  ghost predicate DualLayout(fs: FileSystem, dcmPath: string, contPath: string, links: map<string, string>)
  {
    forall key :: DualReadable(fs, dcmPath, contPath, links, key)
  }

  /** The reader of a patient `ImagePipeline2` reads does not raise for want of a contour subdirectory. */
  predicate DualReadable(fs: FileSystem, dcmPath: string, contPath: string, links: map<string, string>, key: string)
  {
    ReadsTriple(fs, dcmPath, contPath, links, key) ==>
      ContourDirsReadable(fs, Join(contPath, links[key]))
  }

  // ---------------------------------------------------------------------
  // The pipelines

  /** `ImagePipeline`: images with the masks of their inner contours. */
  class ImagePipeline {
    const base: ImagePipelineBase
    const dcmPath: string
    const contPath: string
    var allFilePairs: seq<PairEntry>

    /** `_ndata` counts the collected entries (-1 while none were collected). */
    ghost predicate Valid()
      reads this, base
    {
      base.Valid() && |allFilePairs| == if base.ndata < 0 then 0 else base.ndata
    }

    /**
     * `linkFile` is the link file's rows, or `None` when it cannot be
     * opened; `fs` is the disk.
     */
    constructor (dcmPath: string, contPath: string, linkFile: Option<seq<seq<string>>>, fs: FileSystem)
      ensures Valid()
      ensures this.dcmPath == dcmPath && this.contPath == contPath
      ensures base.linkDict == LinkFile(linkFile)
      ensures allFilePairs == LinkedPairs(fs, dcmPath, contPath, base.linkDict, Sorted(base.linkDict.Keys))
      ensures base.ndata == if FoundPair(fs, dcmPath, contPath, base.linkDict, Sorted(base.linkDict.Keys))
                            then |allFilePairs| else -1
      ensures base.dataIndex == [] && base.batchStart == None
    {
      this.dcmPath := dcmPath;
      this.contPath := contPath;
      allFilePairs := [];
      base := new ImagePipelineBase();
      new;
      var warnings := base.ReadLinkFile(linkFile);
      GetAllFiles(fs);
    }

    /**
     * `getAllFiles`: for each linked patient in ascending order whose image
     * and inner-contour directories exist, append its reader's entries and
     * set `_ndata` to the new total. The entries are gathered first and
     * appended in one step; nothing reads the fields in between.
     */
    method GetAllFiles(fs: FileSystem)
      modifies this`allFilePairs, base`ndata
      ensures allFilePairs == old(allFilePairs) + LinkedPairs(fs, dcmPath, contPath, base.linkDict, Sorted(base.linkDict.Keys))
      ensures base.ndata == if FoundPair(fs, dcmPath, contPath, base.linkDict, Sorted(base.linkDict.Keys))
                            then |allFilePairs| else old(base.ndata)
      ensures FoundPair(fs, dcmPath, contPath, base.linkDict, Sorted(base.linkDict.Keys)) || allFilePairs == old(allFilePairs)
    {
      var keys := SortKeys(base.linkDict.Keys);
      var added, found := CollectPairs(fs, dcmPath, contPath, base.linkDict, keys);
      allFilePairs := allFilePairs + added;
      if found {
        base.ndata := |allFilePairs|;
      }
    }

    /**
     * `getNextBatch`: move the batch order on, then fill the slots in order
     * from the entries the batch names. `shuffled` is the order a reshuffle
     * would make; `decode` stands for `parse_dicom_file`.
     */
    method GetNextBatch(shuffled: seq<int>, decode: string -> Option<Dims>) returns (outcome: BatchOutcome<PairEntry>)
      requires Valid()
      requires IsIndexPermutation(shuffled, base.ndata)
      modifies base`batchStart, base`batchEnd, base`dataIndex
      ensures Valid() && base.batchStart.Some?
      ensures base.MovedOn(old(base.batchStart), old(base.batchEnd), old(base.dataIndex), shuffled)
      ensures IsBatch(base.Window(), base.ndata, base.batchSize)
      ensures var served := Served(allFilePairs, base.dataIndex, base.Window());
              Reports(outcome, served, Statuses(served, PairImage, decode))
    {
      var batchIdx := base.GetNextBatchIndices(shuffled);
      var order := base.dataIndex;
      DoubleLookup(order, base.ndata, batchIdx);
      outcome := FillBatch(allFilePairs, order, batchIdx, PairImage, decode);
    }
  }

  /** `ImagePipeline2`: images with the masks of their inner and outer contours. */
  class ImagePipeline2 {
    const base: ImagePipelineBase
    const dcmPath: string
    const contPath: string
    var allFilePairs: seq<TripleEntry>

    ghost predicate Valid()
      reads this, base
    {
      base.Valid() && |allFilePairs| == if base.ndata < 0 then 0 else base.ndata
    }

    /** The source raises in a reader when a patient it reads lacks `i-contours`, or holds inner contours and lacks `o-contours`. */
    constructor (dcmPath: string, contPath: string, linkFile: Option<seq<seq<string>>>, fs: FileSystem)
      requires DualLayout(fs, dcmPath, contPath, LinkFile(linkFile))
      ensures Valid()
      ensures this.dcmPath == dcmPath && this.contPath == contPath
      ensures base.linkDict == LinkFile(linkFile)
      ensures allFilePairs == LinkedTriples(fs, dcmPath, contPath, base.linkDict, Sorted(base.linkDict.Keys))
      ensures base.ndata == if FoundTriple(fs, dcmPath, contPath, base.linkDict, Sorted(base.linkDict.Keys))
                            then |allFilePairs| else -1
      ensures base.dataIndex == [] && base.batchStart == None
    {
      this.dcmPath := dcmPath;
      this.contPath := contPath;
      allFilePairs := [];
      base := new ImagePipelineBase();
      new;
      var warnings := base.ReadLinkFile(linkFile);
      GetAllFiles(fs);
    }

    /**
     * `getAllFiles`: for each linked patient in ascending order whose image
     * and contour directories exist, append its reader's entries and set
     * `_ndata` to the new total. The entries are gathered first and appended
     * in one step; nothing reads the fields in between.
     */
    method GetAllFiles(fs: FileSystem)
      requires DualLayout(fs, dcmPath, contPath, base.linkDict)
      modifies this`allFilePairs, base`ndata
      ensures allFilePairs == old(allFilePairs) + LinkedTriples(fs, dcmPath, contPath, base.linkDict, Sorted(base.linkDict.Keys))
      ensures base.ndata == if FoundTriple(fs, dcmPath, contPath, base.linkDict, Sorted(base.linkDict.Keys))
                            then |allFilePairs| else old(base.ndata)
      ensures FoundTriple(fs, dcmPath, contPath, base.linkDict, Sorted(base.linkDict.Keys)) || allFilePairs == old(allFilePairs)
    {
      var keys := SortKeys(base.linkDict.Keys);
      var added, found := CollectTriples(fs, dcmPath, contPath, base.linkDict, keys);
      allFilePairs := allFilePairs + added;
      if found {
        base.ndata := |allFilePairs|;
      }
    }

    /**
     * `getNextBatch`: move the batch order on, then fill the slots in order
     * from the entries the batch names. `shuffled` is the order a reshuffle
     * would make; `decode` stands for `parse_dicom_file`.
     */
    method GetNextBatch(shuffled: seq<int>, decode: string -> Option<Dims>) returns (outcome: BatchOutcome<TripleEntry>)
      requires Valid()
      requires IsIndexPermutation(shuffled, base.ndata)
      modifies base`batchStart, base`batchEnd, base`dataIndex
      ensures Valid() && base.batchStart.Some?
      ensures base.MovedOn(old(base.batchStart), old(base.batchEnd), old(base.dataIndex), shuffled)
      ensures IsBatch(base.Window(), base.ndata, base.batchSize)
      ensures var served := Served(allFilePairs, base.dataIndex, base.Window());
              Reports(outcome, served, Statuses(served, TripleImage, decode))
    {
      var batchIdx := base.GetNextBatchIndices(shuffled);
      var order := base.dataIndex;
      DoubleLookup(order, base.ndata, batchIdx);
      outcome := FillBatch(allFilePairs, order, batchIdx, TripleImage, decode);
    }
  }
}
