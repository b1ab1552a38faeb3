/**
 * The first version's `DicomContourReader` (a subclass of its
 * `DicomReader`, which is the same as the second version's and is reused
 * here). It differs from the second version in three ways: it checks the
 * contour directory itself instead of failing on a missing one, it fills
 * its fields in place, and it reports zero contours for a directory
 * without contour files.
 */
module LegacyReaders {
  import opened Options
  import opened Text
  import opened Files
  import opened FileNames
  import opened IdMaps
  import opened Matching
  import opened Readers

  class DicomContourReader {
    const images: DicomReader
    var contourPath: string
    var contourFileList: seq<string>
    var contourFileMap: map<string, string>
    var contourFileIds: seq<string>
    var ncontours: int

    ghost predicate Valid()
      reads this, images
    {
      images.Valid() && contourFileMap == IdMap(contourFileList, ContourFiles)
    }

    constructor (dcmPath: string, contourPath: string, fs: FileSystem)
      ensures Valid()
      ensures images.dcmPath == dcmPath && images.dcmFileList == ListedImages(fs, dcmPath)
      ensures this.contourPath == contourPath
      ensures contourFileList == if IsDir(fs, contourPath) then Filter(Walk(fs, contourPath), CONTOUR_EXT) else []
      ensures ncontours == if IsDir(fs, contourPath) then |contourFileMap| else -1
      ensures contourFileIds == Sorted(contourFileMap.Keys)
    {
      images := new DicomReader(dcmPath, fs);
      this.contourPath := contourPath;
      contourFileList := [];
      contourFileMap := map[];
      contourFileIds := [];
      ncontours := -1;
      new;
      GetContourFileNames(fs);
    }

    /**
     * `getContourFileNames`: nothing when the directory is missing;
     * otherwise append the accepted names, count them, and file them if
     * there is any.
     */
    method GetContourFileNames(fs: FileSystem)
      modifies this`contourFileList, this`contourFileMap, this`contourFileIds, this`ncontours
      ensures !IsDir(fs, contourPath) ==>
                && contourFileList == old(contourFileList) && contourFileMap == old(contourFileMap)
                && contourFileIds == old(contourFileIds) && ncontours == old(ncontours)
      ensures IsDir(fs, contourPath) ==>
                contourFileList == old(contourFileList) + Filter(Walk(fs, contourPath), CONTOUR_EXT)
      ensures IsDir(fs, contourPath) && contourFileList == [] ==>
                && contourFileMap == old(contourFileMap) && contourFileIds == old(contourFileIds)
                && ncontours == 0
      ensures IsDir(fs, contourPath) && contourFileList != [] ==>
                && contourFileMap == InsertFirstWins(old(contourFileMap), contourFileList, ContourFiles)
                && contourFileIds == Sorted(contourFileMap.Keys)
                && ncontours == |contourFileMap|
    {
      if !IsDir(fs, contourPath) {
        // "Contour path does not exist"
        return;
      }
      var fileList := Walk(fs, contourPath);
      for i := 0 to |fileList|
        modifies this`contourFileList
        invariant contourFileList == old(contourFileList) + Filter(fileList[..i], CONTOUR_EXT)
      {
        assert fileList[..i + 1][..i] == fileList[..i];
        if IsContourName(fileList[i]) {
          contourFileList := contourFileList + [fileList[i]];
        }
      }
      assert fileList[..|fileList|] == fileList;
      ncontours := |contourFileList|;
      if |contourFileList| < 1 {
        // "No matching contour files were found."
      } else {
        var duplicates := CreateContourIdMap();
        contourFileIds := SortKeys(contourFileMap.Keys);
        ncontours := |contourFileIds|;
      }
    }

    /** `createContourIdMap`: file every listed contour under its identifier unless that is taken already. */
    method CreateContourIdMap() returns (duplicates: seq<string>)
      modifies this`contourFileMap
      ensures contourFileMap == InsertFirstWins(old(contourFileMap), contourFileList, ContourFiles)
      ensures duplicates == Duplicates(old(contourFileMap), contourFileList, ContourFiles)
    {
      duplicates := [];
      for i := 0 to |contourFileList|
        invariant contourFileMap == InsertFirstWins(old(contourFileMap), contourFileList[..i], ContourFiles)
        invariant duplicates == Duplicates(old(contourFileMap), contourFileList[..i], ContourFiles)
      {
        var contFile := contourFileList[i];
        var key := ContourId(contFile);
        assert contourFileList[..i + 1][..i] == contourFileList[..i];
        if key in contourFileMap {
          // "Warning: Directory contains duplicates"
          duplicates := duplicates + [contFile];
        } else {
          contourFileMap := contourFileMap[key := contFile];
        }
      }
      assert contourFileList[..|contourFileList|] == contourFileList;
    }

    /**
     * `getDicomImageAndContourFiles`: the image and contour paths when both
     * directories hold a file with the identifier, the sentinel otherwise.
     */
    function GetDicomImageAndContourFiles(fileId: string): (r: PairEntry)
      reads this, images
      requires Valid()
      ensures var image := FirstWithId(images.dcmFileList, ImageFiles, fileId);
              var contour := FirstWithId(contourFileList, ContourFiles, fileId);
              && (r.Pair? <==> image.Some? && contour.Some?)
              && (r.Pair? ==> r == Pair(Join(images.dcmPath, image.value), Join(contourPath, contour.value)))
    {
      ResolvePairFromListings(images.dcmPath, images.dcmFileList, contourPath, contourFileList, fileId);
      ResolvePair(images.dcmPath, images.dcmFileMap, contourPath, contourFileMap, fileId)
    }

    /** `getAllFilePairs`: one entry per contour identifier, ascending, sentinels included. */
    method GetAllFilePairs() returns (fileList: seq<PairEntry>)
      ensures fileList == PairList(images.dcmPath, images.dcmFileMap, contourPath, contourFileMap,
                                   Sorted(contourFileMap.Keys))
    {
      var ids := SortKeys(contourFileMap.Keys);
      fileList := [];
      for i := 0 to |ids|
        invariant fileList == PairList(images.dcmPath, images.dcmFileMap, contourPath, contourFileMap, ids[..i])
      {
        assert ids[..i + 1] == ids[..i] + [ids[i]];
        PairListSnoc(images.dcmPath, images.dcmFileMap, contourPath, contourFileMap, ids[..i], ids[i]);
        fileList := fileList + [ResolvePair(images.dcmPath, images.dcmFileMap, contourPath, contourFileMap, ids[i])];
      }
      assert ids[..|ids|] == ids;
    }
  }
}
