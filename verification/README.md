# DICOM image/contour pipeline: indexing, matching and batch order

This project models the core of a Python 2 training-data pipeline for medical
images. The pipeline pairs DICOM images with the contour files drawn on them.

- Its readers list a patient's image directory and contour directory (one
  contour directory, or `i-contours` and `o-contours` for inner and outer
  contours).
- They keep the files whose names end in `.dcm` or `.txt`, and give each file an
  identifier cut from its name and padded with zeros to at least four
  characters. An image's identifier is its whole name without the extension; a
  contour's is exactly four characters, from positions 8 to 11 of its name.
- They file the names in identifier maps where the first file wins, and match
  images to contours by identifier. A missing partner gives the `(None, None)`
  sentinel.
- The pipelines read a CSV link table from patient to contour directory. They
  concatenate the entries of every linked patient in ascending order. They then
  serve the entries in batches of 8 through a shuffled order, which is reshuffled
  whenever the next window would run past the end.

Both versions of the source are modelled: the indexing, matching and batch-order
core of `ImagePipeline_v2.py`, and the reader-only `ImagePipeline.py`. Image
decoding and mask drawing are outside the model (see "Left out").

`ImagePipeline.py` as written mixes indentation: the docstrings at its lines 12,
93 and 158 are indented with a tab while the surrounding definitions use four
spaces, so Python 2 rejects the file with an `IndentationError`. The model of the
first version describes its statements as written, with consistent
indentation assumed.

The modules follow the program's structure:

- `Options`: `None` or a value.
- `Text`: Python 2 `str.lower()`, string order, and `sorted()` over a key set.
- `Files`: the disk as inputs (`isdir` as a set of directories, `os.walk` as a
  map from directory to names), and POSIX `os.path.join`.
- `FileNames`: the extension filter, `zfill` and the two identifier conventions.
- `IdMaps`: first-writer-wins identifier maps and their duplicate warnings.
- `Matching`: entry datatypes, resolution of an identifier to paths, dual
  matching, and pair/triple listing.
- `Readers`: the second version's `DicomReader`, `DicomContourReader` and
  `DicomContourReader2` as classes. Python inheritance becomes composition: a
  contour reader holds its `DicomReader` as `images`.
- `LegacyReaders`: the first version's `DicomContourReader`. The first version's
  `DicomReader` is line for line the same as the second's and is modelled once.
- `Batches`: link-table reading and the batch-order state machine
  (`ImagePipelineBase`).
- `Pipelines`: `ImagePipeline` and `ImagePipeline2`: collecting all files and
  the slot loop of `getNextBatch`.

Choices that shape the model:

- `np.random.shuffle` is a parameter `shuffled`, which must be an arrangement
  of the positions being shuffled.
- `parse_dicom_file` is a parameter `decode` that returns an image's height and
  width, or `None`.
- A failed open of the link file is `None` in place of its rows.
- Where the source would raise, the model either states a precondition (the
  `len(None)` of a missing contour directory) or returns an outcome (`ReadFailure`
  in `getNextBatch`).

Behaviours of the source the model keeps:

- Dual matching warns only about outer identifiers without an inner partner.
  With inner `{0001, 0002}` and outer `{0001, 0003}`, only `0003` is warned
  about (`Matching.DualMatchExample`).
- `ImagePipeline2.getAllFiles` checks only the patient's contour directory, not
  its `i-contours`/`o-contours` subdirectories.
- A missing contour directory makes `getContourFileList` return `None`, and the
  caller's `len()` then fails. It does not yield an empty index. In
  `DicomContourReader2` the test `len(i) < 1 or len(o) < 1` short-circuits: a
  missing `i-contours` always fails, but a missing `o-contours` fails only when
  `i-contours` holds contours. With an empty `i-contours` the reader is built
  with no matches (`Readers.ContourDirsReadable`).
- A decoder failure in a batch is not a sentinel. Subscripting the `None` the
  decoder returns raises, and so does unpacking the `(None, None)` sentinel into
  three values.
- Each batch slot reads `allFilePairs[dataIndex[batchIdx[k]]]`: the order is
  looked up twice. This is harmless, because `dataIndex` is a permutation, so the
  double lookup still gives distinct valid positions (`Batches.DoubleLookup`).

## Model

| member | source | states |
|---|---|---|
| Text.LessIrreflexive | ImagePipeline_v2.py:136 | No string sorts before itself under Python's string order. |
| Text.LessTransitive | ImagePipeline_v2.py:136 | Python's string order is transitive. |
| Text.LessTotal | ImagePipeline_v2.py:136 | Any two different strings are ordered one way or the other. |
| Text.MinExists | ImagePipeline_v2.py:136 | Every non-empty key set has a least key, so `sorted` can start with it. |
| Text.Sorted | ImagePipeline_v2.py:211 | `sorted(keys)` lists only keys of the set, as many as the set has. |
| Text.SortedAscending | ImagePipeline_v2.py:211 | `sorted(keys)` is strictly ascending. |
| Text.SortedCovers | ImagePipeline_v2.py:211 | Every key of the set appears in `sorted(keys)`. |
| Text.SortedUnique | ImagePipeline_v2.py:451 | Two strictly ascending listings of the same keys are equal, so the order of visits is determined by the key set alone. |
| Text.SortKeys | ImagePipeline_v2.py:136 | Taking the least remaining key repeatedly yields exactly `sorted(keys)`. |
| Files.JoinParts | ImagePipeline_v2.py:158 | `os.path.join(a, b)` ends with `b`. For a relative `b` it starts with `a`, adding one `/` only when `a` lacks one; an absolute `b` replaces `a`. |
| FileNames.ExtensionIsLastFour | ImagePipeline_v2.py:129 | `len(name) > 4 and ext in name.lower()[-4:]` holds, for a four-character extension, exactly when the name is longer than four and its lower-cased last four characters are the extension. |
| FileNames.ImageNameTest | ImagePipeline_v2.py:129 | A listed name is accepted as an image iff it is longer than 4 and its lower-cased last four characters are `.dcm`. The first version (`ImagePipeline.py`, line 115) is the same. |
| FileNames.ContourNameTest | ImagePipeline_v2.py:185 | A listed name is accepted as a contour iff it is longer than 4 and its lower-cased last four characters are `.txt`. The first version (`ImagePipeline.py`, line 180) is the same. |
| FileNames.Filter | ImagePipeline_v2.py:126-130 | The accepted names of a listing are never more than the listing. |
| FileNames.FilterSelects | ImagePipeline_v2.py:182-186 | The append loop keeps every accepted name as often as the listing has it, and drops every other name. |
| FileNames.FilterConcat | ImagePipeline_v2.py:182-186 | The filter keeps listing order: filtering a listing in two parts gives the accepted names of the first part followed by those of the second. |
| FileNames.Zeros | ImagePipeline_v2.py:145 | The padding `zfill` adds is `n` characters, all `'0'`. |
| FileNames.ZFillPadding | ImagePipeline_v2.py:145 | `s.zfill(w)` has length `max(len(s), w)` and leaves `s` alone when it is long enough. Otherwise it puts zeros in front of `s`, behind a leading sign if there is one. |
| FileNames.ZFillAbsorbsLeadingZero | ImagePipeline_v2.py:145 | For an unsigned string shorter than the width, `"0" + s` pads to the same identifier as `s`, so `1.dcm` and `01.dcm` collide. |
| FileNames.IdSpan | ImagePipeline_v2.py:198 | The clamped slice `name[8:12]` has at most four characters. |
| FileNames.ImageIdShape | ImagePipeline_v2.py:145 | `name[:-4].zfill(4)` has length `max(len(name) - 4, 4)`. It is `name[:-4]` itself when that already has four characters, and `"0000"` for names of four characters or fewer. The first version (`ImagePipeline.py`, line 131) is the same. |
| FileNames.ContourIdShape | ImagePipeline_v2.py:198 | `name[8:12].zfill(4)` always has four characters. It is `name[8:12]` for names of twelve or more characters and `"0000"` for names of eight or fewer. The first version (`ImagePipeline.py`, line 200) is the same. |
| IdMaps.FirstWithIdIndex | ImagePipeline_v2.py:144-149 | The reference reading finds a name iff some listed name carries the identifier, and what it finds is the earliest such name. |
| IdMaps.FirstWithIdAppend | ImagePipeline_v2.py:144-149 | Listing one more name changes the earliest match only when there was none and the new name carries the identifier. |
| IdMaps.FirstWriterWins | ImagePipeline_v2.py:141-149 | After the insertion loop, a key already in the map keeps its file. Any other key maps to the earliest listed file with that identifier, and is absent when there is none. |
| IdMaps.InsertFirstWinsKeys | ImagePipeline_v2.py:196-203 | The keys after insertion are the old keys plus the identifiers of all listed names. |
| IdMaps.DuplicateCount | ImagePipeline_v2.py:196-203 | Each listed name either adds a key or is warned about once as a duplicate, and every duplicate's identifier is in the map. |
| IdMaps.IdMapSize | ImagePipeline_v2.py:196-203 | A non-empty listing gives between one and `len(list)` identifiers. |
| Matching.MatchDualAlongEntries | ImagePipeline_v2.py:328-332 | After visiting some outer keys, the added entries are exactly the visited keys that both maps have, each mapped to `(inner, outer)`. The warnings are exactly the visited keys the inner map lacks. |
| Matching.MatchDualAlongStep | ImagePipeline_v2.py:328-332 | One more visited outer key adds its `(inner, outer)` pair when both maps have it, or adds it to the warnings when the inner map lacks it; nothing else changes. |
| Matching.MatchDualAlongAll | ImagePipeline_v2.py:328 | Visiting all outer keys, in any order, gives the intersection match and warns about exactly the outer-only keys, so the dictionary's own iteration order does not matter. |
| Matching.PairListSnoc | ImagePipeline_v2.py:210-213 | Visiting one more identifier appends exactly that identifier's resolved entry. |
| Matching.TripleListSnoc | ImagePipeline_v2.py:210-213 | Visiting one more identifier appends exactly that identifier's resolved triple. |
| Matching.ImageFileFromListing | ImagePipeline_v2.py:151-158 | `getDicomImageFile` gives `dcmPath` joined with the earliest listed image carrying the identifier, and `None` when no image carries it. |
| Matching.ResolvePairFromListings | ImagePipeline_v2.py:244-259 | Resolution gives a pair iff both the image and the contour listing have a file with the identifier, made of the joined earliest of each. Otherwise it gives the sentinel. |
| Matching.MatchDualFromListings | ImagePipeline_v2.py:317-332 | A key is matched iff both the inner and the outer listing have a contour with it, and it maps to the earliest of each. |
| Matching.MatchDualAsymmetry | ImagePipeline_v2.py:328-332 | The matched keys are the intersection whichever side is iterated. The warned keys are disjoint from the inner keys and, with the matched ones, make up the outer keys: inner-only keys produce nothing. |
| Matching.DualMatchExample | ImagePipeline_v2.py:328-332 | Inner `{0001, 0002}` against outer `{0001, 0003}` matches only `0001` and warns only about `0003`. |
| Matching.ResolveTripleFromListings | ImagePipeline_v2.py:335-353 | Dual resolution gives a triple iff the image, inner and outer listings all have a file with the identifier, including when a contour listing was empty and matching was skipped. Otherwise it gives the sentinel. |
| Readers.DicomReader.constructor | ImagePipeline_v2.py:108-116 | A new reader has the listed images of its directory. `_nima` is the number of identifiers, or -1 when no image was found, and the identifiers are ascending. The first version (`ImagePipeline.py`, lines 94-102) is the same. |
| Readers.DicomReader.GetDicomFileNames | ImagePipeline_v2.py:118-139 | Appends the accepted names, and nothing for a missing directory. Only when some name is listed does it build the map, the ascending identifiers and `_nima`; otherwise those are unchanged. The first version (`ImagePipeline.py`, lines 104-125) is the same. |
| Readers.DicomReader.CreateFileIdMap | ImagePipeline_v2.py:141-149 | The map becomes the first-writer-wins insertion of the listed images, and the returned duplicates are exactly those warned about. The first version (`ImagePipeline.py`, lines 127-135) is the same. |
| Readers.DicomReader.GetDicomImageFile | ImagePipeline_v2.py:151-158 | The joined path of the earliest listed image with the identifier, or `None`. The first version (`ImagePipeline.py`, lines 137-144) is the same. |
| Readers.GetContourFileList | ImagePipeline_v2.py:174-188 | `None` for a missing directory, otherwise the accepted contour names in listing order. |
| Readers.CreateContourIdMap | ImagePipeline_v2.py:191-203 | A fresh first-writer-wins map of the contour identifiers, and the duplicates warned about. |
| Readers.DicomContourReader.constructor | ImagePipeline_v2.py:219-228 | Requires the contour directory to exist, since the source calls `len(None)` otherwise. Lists both directories. `_ncontours` is the number of identifiers, or -1 when no contour was found. |
| Readers.DicomContourReader.GetContourFileNames | ImagePipeline_v2.py:230-241 | The contour list is the accepted names. When it is non-empty, the map, the ascending identifiers and `_ncontours` are rebuilt from it; otherwise they are unchanged. |
| Readers.DicomContourReader.GetDicomImageAndContourFiles | ImagePipeline_v2.py:244-259 | A pair iff both listings hold a file with the identifier, made of the joined earliest of each; the `(None, None)` sentinel otherwise. |
| Readers.DicomContourReader.GetAllFilePairs | ImagePipeline_v2.py:206-213 | One resolved entry per contour identifier, in ascending order, sentinels included. |
| Readers.DicomContourReader2.constructor | ImagePipeline_v2.py:284-299 | Requires `i-contours` to exist, and `o-contours` only when `i-contours` holds contours, as the short-circuiting length test demands. Lists images, inner contours and the outer listing (`None` for a missing `o-contours`). The matched map is empty unless both contour listings are non-empty; `_ncontours` counts its keys, or is -1 when matching was skipped. |
| Readers.DicomContourReader2.GetContourFileNames | ImagePipeline_v2.py:302-314 | Lists both directories, the outer one as `None` when it is missing, which is allowed when the inner listing is empty. When both listings are non-empty it builds both maps, matches them and sets the ascending identifiers and `_ncontours`; otherwise all of those are unchanged. |
| Readers.DicomContourReader2.MatchContourIdMap | ImagePipeline_v2.py:317-332 | Builds both identifier maps, then adds exactly the `(inner, outer)` pairs of the keys both maps have, and reports exactly the outer-only keys. |
| Readers.DicomContourReader2.IndexListings | ImagePipeline_v2.py:308-314 | The matched map is the dual match of the two listings. When either listing is empty (the outer one measured only when the inner one holds contours) nothing changes; otherwise both maps, the ascending identifiers and `_ncontours` are rebuilt. |
| Readers.MatchOuterKeys | ImagePipeline_v2.py:328-332 | The loop over the outer keys adds the intersection match to the map and warns about exactly the outer-only keys. |
| Readers.DicomContourReader2.GetDicomImageAndContourFiles | ImagePipeline_v2.py:335-353 | A triple of joined paths iff the image, inner and outer listings all hold a file with the identifier and matching ran; the sentinel otherwise. |
| Readers.DicomContourReader2.GetAllFilePairs | ImagePipeline_v2.py:206-213 | One resolved triple or sentinel per matched identifier, in ascending order. |
| LegacyReaders.DicomContourReader.constructor | ImagePipeline.py:159-168 | A missing contour directory leaves the list empty and `_ncontours` at -1. Otherwise `_ncontours` is the number of distinct identifiers, which is 0 when nothing was listed. |
| LegacyReaders.DicomContourReader.GetContourFileNames | ImagePipeline.py:170-191 | A missing directory changes nothing. Otherwise the accepted names are appended and `_ncontours` becomes their count. When there is any, the map is built, the identifiers are sorted and `_ncontours` becomes the number of identifiers. |
| LegacyReaders.DicomContourReader.CreateContourIdMap | ImagePipeline.py:193-204 | The instance map becomes the first-writer-wins insertion of the listed contours; duplicates leave it unchanged and are reported. |
| LegacyReaders.DicomContourReader.GetDicomImageAndContourFiles | ImagePipeline.py:206-221 | A pair iff both maps have the identifier, made of the earliest listed image and contour; `(None, None)` otherwise. |
| LegacyReaders.DicomContourReader.GetAllFilePairs | ImagePipeline.py:224-231 | Exactly one entry per contour identifier, in ascending order. |
| Batches.LastWriterWins | ImagePipeline_v2.py:385-387 | A patient is linked to the second field of the last two-field row naming it. |
| Batches.UnlinkedUnchanged | ImagePipeline_v2.py:385-389 | A patient that no two-field row names keeps its previous link, or stays unlinked. |
| Batches.LinkTableSize | ImagePipeline_v2.py:385-389 | Every record is either a link or an "unknown format" warning, so links plus warnings never exceed the records. |
| Batches.RangeCount | ImagePipeline_v2.py:401 | `range(n)` holds each of `0 .. n-1` exactly once and nothing else, and is empty for `n <= 0`. |
| Batches.PermutationIndices | ImagePipeline_v2.py:400-403 | A shuffled `range(n)` has `max(n, 0)` entries, all in `[0, n)`, no two alike. |
| Batches.WindowIndices | ImagePipeline_v2.py:406-420 | A window the state machine can produce (the first, or one ending within the entries) is a full batch of distinct positions in `[0, n)`, or all `n` when there are fewer. |
| Batches.WindowsDisjoint | ImagePipeline_v2.py:412-414 | Two windows of one order that do not overlap share no position, and the entries the batches read through them (`dataIndex[a[p]]`, `dataIndex[b[q]]`) differ too, so within an epoch no entry is served twice. |
| Batches.DoubleLookup | ImagePipeline_v2.py:479-482 | Looking the batch's positions up in the order again (`dataIndex[batchIdx[k]]`) still gives valid, pairwise distinct entry positions. |
| Batches.ImagePipelineBase.constructor | ImagePipeline_v2.py:432-443 | Empty link table, `_ndata` -1, no order, no window, batch size 8. |
| Batches.ImagePipelineBase.ReadLinkFile | ImagePipeline_v2.py:378-392 | The header is skipped. Each two-field record sets its patient's link (last writer wins), and every other record is counted as a warning. An unreadable file leaves the table unchanged. |
| Batches.ImagePipelineBase.ResetBatchOrder | ImagePipeline_v2.py:395-403 | The window becomes `[0, batchSize)` and the order becomes the given shuffle of `range(_ndata)`, or of the previous order. |
| Batches.ImagePipelineBase.GetNextBatchIndices | ImagePipeline_v2.py:406-420 | The first call starts a shuffled order at window 0. Later calls move the window on by one batch, or reshuffle and restart when the new end would pass `_ndata`. The result is that window: a full batch of distinct valid positions. |
| Pipelines.ReportsUnique | ImagePipeline_v2.py:479-489 | The slots' statuses determine the outcome of a batch: at most one outcome fits. |
| Pipelines.FillBatch | ImagePipeline_v2.py:479-500 | Slots are filled in order with `allFilePairs[dataIndex[batchIdx[k]]]`. The first image with the wrong format stops the batch with a format mismatch; the first unreadable entry stops it with a failure. Otherwise every served entry is returned. |
| Pipelines.ConcatMapUnion | ImagePipeline_v2.py:451-463 | An entry is in the concatenated list iff some patient's own list has it. |
| Pipelines.LinkedPairsStep | ImagePipeline_v2.py:451-463 | Visiting one more patient appends its entries, and marks `_ndata` as set iff that patient's directories exist. |
| Pipelines.LinkedTriplesStep | ImagePipeline_v2.py:530-544 | The same step for the dual-contour pipeline. |
| Pipelines.CollectPairs | ImagePipeline_v2.py:451-463 | The patient loop gathers exactly the concatenated entries of the patients whose image and `i-contours` directories exist, and reports whether any did; nothing is gathered when none did. |
| Pipelines.CollectTriples | ImagePipeline_v2.py:530-544 | The same loop for the dual-contour pipeline, which checks only the patient's contour directory. |
| Pipelines.ReadPairs | ImagePipeline_v2.py:460-461 | One patient's entries are its single-contour reader's `getAllFilePairs`. |
| Pipelines.ReadTriples | ImagePipeline_v2.py:542-543 | One patient's entries are its dual-contour reader's `getAllFilePairs`, given `i-contours`, and `o-contours` where `i-contours` holds contours. |
| Pipelines.LinkedPairsUnion | ImagePipeline_v2.py:451-463 | The collected list holds an entry iff some linked patient's reader lists it. |
| Pipelines.LinkedTriplesUnion | ImagePipeline_v2.py:530-544 | The same for triples. |
| Pipelines.ImagePipeline.constructor | ImagePipeline_v2.py:427-446 | The link table is read from the file. The entries are those of the linked patients in ascending order, and `_ndata` is their number, or -1 when no patient was read. No batch has started. |
| Pipelines.ImagePipeline.GetAllFiles | ImagePipeline_v2.py:448-464 | Appends the entries of every linked patient whose directories exist, in ascending patient order. `_ndata` becomes the new total if any patient was read, and otherwise stays as it was (so -1 after construction). |
| Pipelines.ImagePipeline.GetNextBatch | ImagePipeline_v2.py:467-500 | Moves the order on as `getNextBatchIndices` does. The window is a batch of distinct valid positions, and the outcome is the slot loop's result over the doubly looked-up entries. |
| Pipelines.ImagePipeline2.constructor | ImagePipeline_v2.py:505-524 | As for `ImagePipeline`, with triples, given that every patient it reads has `i-contours`, and `o-contours` where `i-contours` holds contours. |
| Pipelines.ImagePipeline2.GetAllFiles | ImagePipeline_v2.py:527-546 | Appends the triples of every linked patient whose image and contour directories exist, in ascending order. `_ndata` is set only if some patient was read. |
| Pipelines.ImagePipeline2.GetNextBatch | ImagePipeline_v2.py:549-579 | As for `ImagePipeline`; a sentinel entry, which cannot be unpacked into three paths, ends the batch with a failure. |

## Left out

- `parse_dicom_file` is the parameter `decode`. Only the height and width of an image, or its absence, are modelled. Pixel data and rescaling are floating point and come from a library.
- `parse_contour_file`, `poly_to_mask` and `getContourMask` are left out. They are file parsing, floating point, and polygon rasterisation in an imaging library, so the masks of a batch are not modelled.
- `getDicomImage`, `getDicomImageAndMask` and `getAllData` are left out. They only combine the lookups above with the decoder and the mask drawing.
- The numpy arrays of a batch (allocation, zero padding of a short batch, stacking) are left out. A batch is the list of entries it serves.
- Pipelines.ImagePipeline.GetNextBatch: does not model `getContourMask` failing on an unreadable contour file. Only the image of a slot decides its status.
- Pipelines.ImagePipeline2.GetNextBatch: does not model `getContourMask` raising in `parse_contour_file` (ImagePipeline_v2.py:25-30) on an unreadable or malformed inner or outer contour file, reached from ImagePipeline_v2.py:576-577. Only the image of a slot and the unpacking of its entry decide its status.
- `os.walk` and `os.path.isdir` are the inputs `FileSystem.walk` and `FileSystem.dirs`. The walk's names are taken as one listing in walk order.
- `csv.reader` tokenising is left out: the link file is given as its rows. An `IOError` on opening it is the `None` case.
- The randomness of `np.random.shuffle` is the parameter `shuffled`, which is required to be an arrangement of what is shuffled.
- The `print` diagnostics are left out. The warnings that matter are returned as values: duplicate names, unmatched outer keys and malformed link rows.
- The undefined `main()` is left out.
- Readers.MatchOuterKeys: visits the outer keys in ascending order, where Python 2 uses the dictionary's own order. The result is the same for every order (`Matching.MatchDualAlongAll`).
- Pipelines.ImagePipeline.GetAllFiles: gathers the new entries first and appends them in one step, where the source appends patient by patient. No other code runs between the steps.
- Pipelines.ImagePipeline2.constructor: the crash in a reader when a read patient lacks `i-contours`, or holds inner contours and lacks `o-contours`, is a precondition, not an outcome.
- Readers.DicomContourReader.constructor: the crash on a missing contour directory (`len(None)`) is a precondition, not an outcome.
- Readers.DicomReader.constructor: `dcmFileIds` is modelled as empty until images are found. The source never sets that attribute in that case.
- The first version's `DicomReader` is the same as the second's, line for line. It is modelled once, as `Readers.DicomReader`.
- Integers are unbounded. The source's counters are Python integers and cannot overflow.
