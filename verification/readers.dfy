/**
 * The directory readers of the second version: `DicomReader` (images of one
 * directory), `DicomContourReader` (images with one contour directory) and
 * `DicomContourReader2` (images with `i-contours` and `o-contours`).
 * Python's multiple inheritance becomes composition: a contour reader owns
 * the `DicomReader` its constructor builds, and the helpers of
 * `DicomContourReaderBase` that do not touch the object are module-level
 * methods.
 */
module Readers {
  import opened Options
  import opened Text
  import opened Files
  import opened FileNames
  import opened IdMaps
  import opened Matching

  const I_CONTOURS: string := "i-contours"
  const O_CONTOURS: string := "o-contours"

  /** The image names `getDicomFileNames` collects: none when the directory is missing. */
  function ListedImages(fs: FileSystem, dcmPath: string): seq<string>
  {
    if IsDir(fs, dcmPath) then Filter(Walk(fs, dcmPath), DICOM_EXT) else []
  }

  /** The entries a `DicomContourReader` on these directories lists with `getAllFilePairs`. */
  ghost function PatientPairs(fs: FileSystem, dcmDir: string, contourDir: string): seq<PairEntry>
  {
    var contourMap := IdMap(Filter(Walk(fs, contourDir), CONTOUR_EXT), ContourFiles);
    PairList(dcmDir, IdMap(ListedImages(fs, dcmDir), ImageFiles), contourDir, contourMap, Sorted(contourMap.Keys))
  }

  /** What `getContourFileList` gives for `cpath`: the accepted names, or `None` for a missing directory. */
  function ContourListing(fs: FileSystem, cpath: string): Option<seq<string>>
  {
    if IsDir(fs, cpath) then Some(Filter(Walk(fs, cpath), CONTOUR_EXT)) else None
  }

  /** The names of a listing; none when there was no directory to list. */
  function Names(listing: Option<seq<string>>): seq<string>
  {
    match listing
    case None => []
    case Some(names) => names
  }

  /**
   * A `DicomContourReader2` on `contourPath` does not raise: `i-contours`
   * exists, and `o-contours` too whenever `i-contours` holds contours (the
   * length test of `getContourFileNames` stops at an empty inner listing
   * before it measures the outer one).
   */
  predicate ContourDirsReadable(fs: FileSystem, contourPath: string)
  {
    && IsDir(fs, Join(contourPath, I_CONTOURS))
    && (Filter(Walk(fs, Join(contourPath, I_CONTOURS)), CONTOUR_EXT) != [] ==> IsDir(fs, Join(contourPath, O_CONTOURS)))
  }

  /** The matched inner/outer map of a `DicomContourReader2` (empty when either listing is). */
  ghost function DualMap(iNames: seq<string>, oNames: seq<string>): map<string, (string, string)>
  {
    if iNames != [] && oNames != [] then MatchDual(IdMap(iNames, ContourFiles), IdMap(oNames, ContourFiles))
    else map[]
  }

  /** The entries a `DicomContourReader2` on these directories lists with `getAllFilePairs`. */
  ghost function PatientTriples(fs: FileSystem, dcmDir: string, contourDir: string): seq<TripleEntry>
  {
    var iDir := Join(contourDir, I_CONTOURS);
    var oDir := Join(contourDir, O_CONTOURS);
    var matched := DualMap(Filter(Walk(fs, iDir), CONTOUR_EXT), Names(ContourListing(fs, oDir)));
    TripleList(dcmDir, IdMap(ListedImages(fs, dcmDir), ImageFiles), iDir, oDir, matched, Sorted(matched.Keys))
  }

  /** Updating a merged map updates its right operand. */
  lemma MergeUpdate<V>(a: map<string, V>, b: map<string, V>, k: string, v: V)
    ensures (a + b)[k := v] == a + b[k := v]
  {
  }

  /** `DicomReader`: the DICOM images of one directory, filed by identifier. */
  class DicomReader {
    var dcmPath: string
    var dcmFileList: seq<string>
    var dcmFileMap: map<string, string>
    var dcmFileIds: seq<string>
    var nima: int

    ghost predicate Valid()
      reads this
    {
      dcmFileMap == IdMap(dcmFileList, ImageFiles)
    }

    constructor (dcmPath: string, fs: FileSystem)
      ensures this.dcmPath == dcmPath
      ensures dcmFileList == ListedImages(fs, dcmPath)
      ensures Valid()
      ensures nima == if dcmFileList == [] then -1 else |dcmFileMap|
      ensures dcmFileIds == if dcmFileList == [] then [] else Sorted(dcmFileMap.Keys)
    {
      this.dcmPath := dcmPath;
      dcmFileList := [];
      dcmFileMap := map[];
      dcmFileIds := [];
      nima := -1;
      new;
      GetDicomFileNames(fs);
    }

    /** `getDicomFileNames`: append the accepted names, then file them if there is any. */
    method GetDicomFileNames(fs: FileSystem)
      modifies this`dcmFileList, this`dcmFileMap, this`dcmFileIds, this`nima
      ensures dcmFileList == old(dcmFileList) + ListedImages(fs, dcmPath)
      ensures if IsDir(fs, dcmPath) && dcmFileList != [] then
                && dcmFileMap == InsertFirstWins(old(dcmFileMap), dcmFileList, ImageFiles)
                && dcmFileIds == Sorted(dcmFileMap.Keys)
                && nima == |dcmFileMap|
              else
                dcmFileMap == old(dcmFileMap) && dcmFileIds == old(dcmFileIds) && nima == old(nima)
    {
      if !IsDir(fs, dcmPath) {
        // "Image path does not exist"
        return;
      }
      var fileList := Walk(fs, dcmPath);
      for i := 0 to |fileList|
        modifies this`dcmFileList
        invariant dcmFileList == old(dcmFileList) + Filter(fileList[..i], DICOM_EXT)
      {
        assert fileList[..i + 1][..i] == fileList[..i];
        if IsImageName(fileList[i]) {
          dcmFileList := dcmFileList + [fileList[i]];
        }
      }
      assert fileList[..|fileList|] == fileList;
      if |dcmFileList| < 1 {
        // "No matching dicom files were found."
      } else {
        var duplicates := CreateFileIdMap();
        dcmFileIds := SortKeys(dcmFileMap.Keys);
        nima := |dcmFileIds|;
      }
    }

    /** `createFileIdMap`: file every listed image under its identifier unless that is taken already. */
    method CreateFileIdMap() returns (duplicates: seq<string>)
      modifies this`dcmFileMap
      ensures dcmFileMap == InsertFirstWins(old(dcmFileMap), dcmFileList, ImageFiles)
      ensures duplicates == Duplicates(old(dcmFileMap), dcmFileList, ImageFiles)
    {
      duplicates := [];
      for i := 0 to |dcmFileList|
        invariant dcmFileMap == InsertFirstWins(old(dcmFileMap), dcmFileList[..i], ImageFiles)
        invariant duplicates == Duplicates(old(dcmFileMap), dcmFileList[..i], ImageFiles)
      {
        var dcmFile := dcmFileList[i];
        var key := ImageId(dcmFile);
        assert dcmFileList[..i + 1][..i] == dcmFileList[..i];
        if key in dcmFileMap {
          // "Warning: Directory contains duplicates"
          duplicates := duplicates + [dcmFile];
        } else {
          dcmFileMap := dcmFileMap[key := dcmFile];
        }
      }
      assert dcmFileList[..|dcmFileList|] == dcmFileList;
    }

    /** `getDicomImageFile`: the path of the earliest listed image with the identifier, if any. */
    function GetDicomImageFile(fileId: string): (r: Option<string>)
      reads this
      requires Valid()
      ensures r == match FirstWithId(dcmFileList, ImageFiles, fileId)
                   case None => None
                   case Some(name) => Some(Join(dcmPath, name))
    {
      ImageFileFromListing(dcmPath, dcmFileList, fileId);
      ImageFile(dcmPath, dcmFileMap, fileId)
    }
  }

  /** `getContourFileList`: the accepted contour names, or `None` when the directory is missing. */
  method GetContourFileList(fs: FileSystem, cpath: string) returns (r: Option<seq<string>>)
    ensures r == if IsDir(fs, cpath) then Some(Filter(Walk(fs, cpath), CONTOUR_EXT)) else None
  {
    if !IsDir(fs, cpath) {
      // "Contour path does not exist"
      return None;
    }
    var fileList := Walk(fs, cpath);
    var flist := [];
    for i := 0 to |fileList|
      invariant flist == Filter(fileList[..i], CONTOUR_EXT)
    {
      assert fileList[..i + 1][..i] == fileList[..i];
      if IsContourName(fileList[i]) {
        flist := flist + [fileList[i]];
      }
    }
    assert fileList[..|fileList|] == fileList;
    return Some(flist);
  }

  /** `createContourIdMap`: a fresh map from contour identifier to the first contour file carrying it. */
  method CreateContourIdMap(fileList: seq<string>) returns (fileMap: map<string, string>, duplicates: seq<string>)
    ensures fileMap == IdMap(fileList, ContourFiles)
    ensures duplicates == Duplicates(map[], fileList, ContourFiles)
  {
    fileMap := map[];
    duplicates := [];
    for i := 0 to |fileList|
      invariant fileMap == InsertFirstWins(map[], fileList[..i], ContourFiles)
      invariant duplicates == Duplicates(map[], fileList[..i], ContourFiles)
    {
      var contFile := fileList[i];
      var key := ContourId(contFile);
      assert fileList[..i + 1][..i] == fileList[..i];
      if key in fileMap {
        // "Warning: Directory contains duplicates"
        duplicates := duplicates + [contFile];
      } else {
        fileMap := fileMap[key := contFile];
      }
    }
    assert fileList[..|fileList|] == fileList;
  }

  /**
   * The loop of `matchContourIdMap` over values: visit the outer keys and add
   * `(inner, outer)` to `matched` for each key the inner map has; the keys it
   * warns about are returned. Python 2 visits `keys()` in the dictionary's
   * own order; here they are visited in ascending order, and the result is
   * the same for every order (`MatchDualAlongAll`).
   */
  method MatchOuterKeys(matched: map<string, (string, string)>, iMap: map<string, string>, oMap: map<string, string>)
    returns (merged: map<string, (string, string)>, unmatched: set<string>)
    ensures merged == matched + MatchDual(iMap, oMap)
    ensures unmatched == UnmatchedOuter(iMap, oMap)
  {
    var keys := SortKeys(oMap.Keys);
    merged, unmatched := matched, {};
    for i := 0 to |keys|
      invariant merged == matched + MatchDualAlong(iMap, oMap, keys[..i])
      invariant unmatched == UnmatchedAlong(iMap, keys[..i])
    {
      var key := keys[i];
      MatchDualAlongStep(iMap, oMap, keys, i);
      if key !in iMap {
        // "Warning: no contour match for ..."
        unmatched := unmatched + {key};
      } else {
        MergeUpdate(matched, MatchDualAlong(iMap, oMap, keys[..i]), key, (iMap[key], oMap[key]));
        merged := merged[key := (iMap[key], oMap[key])];
      }
    }
    assert keys[..|keys|] == keys;
    MatchSortedOuterKeys(iMap, oMap);
  }

  /** Visiting the outer keys in ascending order gives the whole dual match and its warnings. */
  lemma MatchSortedOuterKeys(iMap: map<string, string>, oMap: map<string, string>)
    ensures MatchDualAlong(iMap, oMap, Sorted(oMap.Keys)) == MatchDual(iMap, oMap)
    ensures UnmatchedAlong(iMap, Sorted(oMap.Keys)) == UnmatchedOuter(iMap, oMap)
  {
    SortedCovers(oMap.Keys);
    MatchDualAlongAll(iMap, oMap, Sorted(oMap.Keys));
  }

  /** `DicomContourReader` (second version): images of one directory with the contours of another. */
  class DicomContourReader {
    const images: DicomReader
    var contourPath: string
    var contourFileList: seq<string>
    var contourFileMap: map<string, string>
    var contourFileIds: seq<string>
    var ncontours: int

    ghost predicate Valid()
      reads this, images
    {
      images.Valid() && contourFileMap == IdMap(contourFileList, ContourFiles)
    }

    /** The source raises a `TypeError` (`len(None)`) when the contour directory is missing. */
    constructor (dcmPath: string, contourPath: string, fs: FileSystem)
      requires IsDir(fs, contourPath)
      ensures Valid()
      ensures images.dcmPath == dcmPath && images.dcmFileList == ListedImages(fs, dcmPath)
      ensures this.contourPath == contourPath
      ensures contourFileList == Filter(Walk(fs, contourPath), CONTOUR_EXT)
      ensures ncontours == if contourFileList == [] then -1 else |contourFileMap|
      ensures contourFileIds == if contourFileList == [] then [] else Sorted(contourFileMap.Keys)
    {
      images := new DicomReader(dcmPath, fs);
      this.contourPath := contourPath;
      contourFileList := [];
      contourFileMap := map[];
      contourFileIds := [];
      ncontours := -1;
      new;
      GetContourFileNames(fs);
    }

    /** `getContourFileNames` */
    method GetContourFileNames(fs: FileSystem)
      requires IsDir(fs, contourPath)
      modifies this`contourFileList, this`contourFileMap, this`contourFileIds, this`ncontours
      ensures contourFileList == Filter(Walk(fs, contourPath), CONTOUR_EXT)
      ensures if contourFileList == [] then
                contourFileMap == old(contourFileMap) && contourFileIds == old(contourFileIds)
                && ncontours == old(ncontours)
              else
                && contourFileMap == IdMap(contourFileList, ContourFiles)
                && contourFileIds == Sorted(contourFileMap.Keys)
                && ncontours == |contourFileMap|
    {
      var listed := GetContourFileList(fs, contourPath);
      contourFileList := listed.value;
      if |contourFileList| < 1 {
        // "No matching contour files were found."
      } else {
        var duplicates;
        contourFileMap, duplicates := CreateContourIdMap(contourFileList);
        contourFileIds := SortKeys(contourFileMap.Keys);
        ncontours := |contourFileIds|;
      }
    }

    /**
     * `getDicomImageAndContourFiles`: the image and contour paths when both
     * directories hold a file with the identifier, the sentinel otherwise.
     */
    function GetDicomImageAndContourFiles(fileId: string): (r: PairEntry)
      reads this, images
      requires Valid()
      ensures var image := FirstWithId(images.dcmFileList, ImageFiles, fileId);
              var contour := FirstWithId(contourFileList, ContourFiles, fileId);
              && (r.Pair? <==> image.Some? && contour.Some?)
              && (r.Pair? ==> r == Pair(Join(images.dcmPath, image.value), Join(contourPath, contour.value)))
    {
      ResolvePairFromListings(images.dcmPath, images.dcmFileList, contourPath, contourFileList, fileId);
      ResolvePair(images.dcmPath, images.dcmFileMap, contourPath, contourFileMap, fileId)
    }

    /** `getAllFilePairs`: one entry per contour identifier, ascending, sentinels included. */
    method GetAllFilePairs() returns (fileList: seq<PairEntry>)
      ensures fileList == PairList(images.dcmPath, images.dcmFileMap, contourPath, contourFileMap,
                                   Sorted(contourFileMap.Keys))
    {
      var ids := SortKeys(contourFileMap.Keys);
      fileList := [];
      for i := 0 to |ids|
        invariant fileList == PairList(images.dcmPath, images.dcmFileMap, contourPath, contourFileMap, ids[..i])
      {
        assert ids[..i + 1] == ids[..i] + [ids[i]];
        PairListSnoc(images.dcmPath, images.dcmFileMap, contourPath, contourFileMap, ids[..i], ids[i]);
        fileList := fileList + [ResolvePair(images.dcmPath, images.dcmFileMap, contourPath, contourFileMap, ids[i])];
      }
      assert ids[..|ids|] == ids;
    }
  }

  /**
   * `DicomContourReader2`: images with inner and outer contours; an image
   * gets a triple only when its identifier has an outer contour and an inner
   * one.
   */
  class DicomContourReader2 {
    const images: DicomReader
    var iContourPath: string
    var oContourPath: string
    var iContourFileList: seq<string>
    var oContourFileList: Option<seq<string>>
    var iContourFileMap: map<string, string>
    var oContourFileMap: map<string, string>
    var contourFileMap: map<string, (string, string)>
    var contourFileIds: seq<string>
    var ncontours: int

    ghost predicate Valid()
      reads this, images
    {
      && images.Valid()
      && contourFileMap == DualMap(iContourFileList, Names(oContourFileList))
    }

    /**
     * The source raises a `TypeError` (`len(None)`) when `i-contours` is
     * missing under `contourPath`, or when it holds contours and
     * `o-contours` is missing.
     */
    constructor (dcmPath: string, contourPath: string, fs: FileSystem)
      requires ContourDirsReadable(fs, contourPath)
      ensures Valid()
      ensures images.dcmPath == dcmPath && images.dcmFileList == ListedImages(fs, dcmPath)
      ensures iContourPath == Join(contourPath, I_CONTOURS) && oContourPath == Join(contourPath, O_CONTOURS)
      ensures iContourFileList == Filter(Walk(fs, iContourPath), CONTOUR_EXT)
      ensures oContourFileList == ContourListing(fs, oContourPath)
      ensures ncontours == if iContourFileList == [] || Names(oContourFileList) == [] then -1 else |contourFileMap|
      ensures contourFileIds == if iContourFileList == [] || Names(oContourFileList) == [] then []
                                else Sorted(contourFileMap.Keys)
    {
      images := new DicomReader(dcmPath, fs);
      iContourPath := Join(contourPath, I_CONTOURS);
      oContourPath := Join(contourPath, O_CONTOURS);
      iContourFileList := [];
      oContourFileList := Some([]);
      iContourFileMap := map[];
      oContourFileMap := map[];
      contourFileMap := map[];
      contourFileIds := [];
      ncontours := -1;
      new;
      GetContourFileNames(fs);
    }

    /** `getContourFileNames`: list both directories and match them when both hold contours. */
    method GetContourFileNames(fs: FileSystem)
      requires IsDir(fs, iContourPath)
      requires Filter(Walk(fs, iContourPath), CONTOUR_EXT) != [] ==> IsDir(fs, oContourPath)
      requires contourFileMap == map[]
      modifies this`iContourFileList, this`oContourFileList, this`iContourFileMap, this`oContourFileMap
      modifies this`contourFileMap, this`contourFileIds, this`ncontours
      ensures iContourFileList == Filter(Walk(fs, iContourPath), CONTOUR_EXT)
      ensures oContourFileList == ContourListing(fs, oContourPath)
      ensures contourFileMap == DualMap(iContourFileList, Names(oContourFileList))
      ensures if iContourFileList == [] || Names(oContourFileList) == [] then
                && iContourFileMap == old(iContourFileMap) && oContourFileMap == old(oContourFileMap)
                && contourFileIds == old(contourFileIds) && ncontours == old(ncontours)
              else
                && iContourFileMap == IdMap(iContourFileList, ContourFiles)
                && oContourFileMap == IdMap(Names(oContourFileList), ContourFiles)
                && contourFileIds == Sorted(contourFileMap.Keys) && ncontours == |contourFileMap|
    {
      var iListed := GetContourFileList(fs, iContourPath);
      var oListed := GetContourFileList(fs, oContourPath);
      iContourFileList := iListed.value;
      oContourFileList := oListed;
      IndexListings();
    }

    /**
     * The rest of `getContourFileNames`: when both listings hold contours,
     * match them and record the ascending identifiers and their number. The
     * length test measures the outer listing only when the inner one holds
     * contours, and `len(None)` raises there.
     */
    method IndexListings()
      requires iContourFileList != [] ==> oContourFileList.Some?
      requires contourFileMap == map[]
      modifies this`iContourFileMap, this`oContourFileMap, this`contourFileMap, this`contourFileIds, this`ncontours
      ensures contourFileMap == DualMap(iContourFileList, Names(oContourFileList))
      ensures if iContourFileList == [] || Names(oContourFileList) == [] then
                && iContourFileMap == old(iContourFileMap) && oContourFileMap == old(oContourFileMap)
                && contourFileIds == old(contourFileIds) && ncontours == old(ncontours)
              else
                && iContourFileMap == IdMap(iContourFileList, ContourFiles)
                && oContourFileMap == IdMap(Names(oContourFileList), ContourFiles)
                && contourFileIds == Sorted(contourFileMap.Keys) && ncontours == |contourFileMap|
    {
      if |iContourFileList| < 1 || |oContourFileList.value| < 1 {
        // "No matching contour files were found."
        assert DualMap(iContourFileList, Names(oContourFileList)) == map[];
      } else {
        var unmatched := MatchContourIdMap();
        assert contourFileMap == DualMap(iContourFileList, Names(oContourFileList)) by {
          assert contourFileMap == MatchDual(iContourFileMap, oContourFileMap);
        }
        contourFileIds := SortKeys(contourFileMap.Keys);
        ncontours := |contourFileIds|;
      }
    }

    /**
     * `matchContourIdMap`: build both identifier maps, then walk the outer
     * keys (in the dictionary's own order) and add `(inner, outer)` for each
     * key the inner map has; the keys it warns about are returned. Filing a
     * missing outer listing (`None`) raises, so there must be one.
     */
    method MatchContourIdMap() returns (unmatched: set<string>)
      requires oContourFileList.Some?
      modifies this`iContourFileMap, this`oContourFileMap, this`contourFileMap
      ensures iContourFileMap == IdMap(iContourFileList, ContourFiles)
      ensures oContourFileMap == IdMap(oContourFileList.value, ContourFiles)
      ensures contourFileMap == old(contourFileMap) + MatchDual(iContourFileMap, oContourFileMap)
      ensures unmatched == UnmatchedOuter(iContourFileMap, oContourFileMap)
    {
      var iDuplicates, oDuplicates;
      iContourFileMap, iDuplicates := CreateContourIdMap(iContourFileList);
      oContourFileMap, oDuplicates := CreateContourIdMap(oContourFileList.value);
      var merged;
      merged, unmatched := MatchOuterKeys(contourFileMap, iContourFileMap, oContourFileMap);
      contourFileMap := merged;
    }

    /**
     * `getDicomImageAndContourFiles`: the image, inner and outer paths when
     * all three listings hold a file with the identifier, the sentinel
     * otherwise.
     */
    function GetDicomImageAndContourFiles(fileId: string): (r: TripleEntry)
      reads this, images
      requires Valid()
      ensures var image := FirstWithId(images.dcmFileList, ImageFiles, fileId);
              var inner := FirstWithId(iContourFileList, ContourFiles, fileId);
              var outer := FirstWithId(Names(oContourFileList), ContourFiles, fileId);
              && (r.Triple? <==> image.Some? && inner.Some? && outer.Some?)
              && (r.Triple? ==> r == Triple(Join(images.dcmPath, image.value), Join(iContourPath, inner.value),
                                            Join(oContourPath, outer.value)))
    {
      ResolveTripleFromListings(images.dcmPath, images.dcmFileList, iContourPath, iContourFileList,
                                oContourPath, Names(oContourFileList), fileId);
      ResolveTriple(images.dcmPath, images.dcmFileMap, iContourPath, oContourPath, contourFileMap, fileId)
    }

    /** `getAllFilePairs`: one entry per matched identifier, ascending, sentinels included. */
    method GetAllFilePairs() returns (fileList: seq<TripleEntry>)
      ensures fileList == TripleList(images.dcmPath, images.dcmFileMap, iContourPath, oContourPath,
                                     contourFileMap, Sorted(contourFileMap.Keys))
    {
      var ids := SortKeys(contourFileMap.Keys);
      fileList := [];
      for i := 0 to |ids|
        invariant fileList == TripleList(images.dcmPath, images.dcmFileMap, iContourPath, oContourPath,
                                         contourFileMap, ids[..i])
      {
        assert ids[..i + 1] == ids[..i] + [ids[i]];
        TripleListSnoc(images.dcmPath, images.dcmFileMap, iContourPath, oContourPath, contourFileMap, ids[..i], ids[i]);
        fileList := fileList + [ResolveTriple(images.dcmPath, images.dcmFileMap, iContourPath, oContourPath,
                                              contourFileMap, ids[i])];
      }
      assert ids[..|ids|] == ids;
    }
  }
}
