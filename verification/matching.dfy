/**
 * Resolving an identifier to file paths, and pairing inner with outer
 * contours. The maps are the readers' identifier maps; the lemmas restate
 * each result in terms of the directory listings the maps were built from.
 */
module Matching {
  import opened Options
  import opened Files
  import opened IdMaps

  /** A single-contour entry: `(dcmFile, contourFile)`, or the `(None, None)` sentinel. */
  datatype PairEntry = Pair(dcmFile: string, contourFile: string) | PairNotFound

  /**
   * A dual-contour entry: `(dcmFile, iContourFile, oContourFile)`, or the
   * sentinel, which the source returns as the 2-tuple `(None, None)`.
   */
  datatype TripleEntry = Triple(dcmFile: string, iContourFile: string, oContourFile: string) | TripleNotFound

  /** `getDicomImageFile` */
  function ImageFile(dcmPath: string, dcmFileMap: map<string, string>, fileId: string): Option<string>
  {
    if fileId !in dcmFileMap then None else Some(Join(dcmPath, dcmFileMap[fileId]))
  }

  /** `getDicomImageAndContourFiles` of the single-contour readers. */
  function ResolvePair(dcmPath: string, dcmFileMap: map<string, string>,
                       contourPath: string, contourFileMap: map<string, string>, fileId: string): PairEntry
  {
    if fileId !in contourFileMap then PairNotFound
    else
      match ImageFile(dcmPath, dcmFileMap, fileId)
      case None => PairNotFound
      case Some(dcmFile) => Pair(dcmFile, Join(contourPath, contourFileMap[fileId]))
  }

  /** `matchContourIdMap`: an entry for each outer-contour key that the inner-contour map also has. */
  function MatchDual(iMap: map<string, string>, oMap: map<string, string>): map<string, (string, string)>
  {
    map key | key in oMap && key in iMap :: (iMap[key], oMap[key])
  }

  /**
   * The pairs `matchContourIdMap` adds while it visits `keys` (the outer
   * map's `keys()` list) in order: one for each key both maps have.
   */
  function MatchDualAlong(iMap: map<string, string>, oMap: map<string, string>, keys: seq<string>)
    : map<string, (string, string)>
    decreases |keys|
  {
    if keys == [] then map[]
    else
      var prior := MatchDualAlong(iMap, oMap, keys[..|keys| - 1]);
      var key := keys[|keys| - 1];
      if key in iMap && key in oMap then prior[key := (iMap[key], oMap[key])] else prior
  }

  /** The keys `matchContourIdMap` warns about while it visits `keys` in order. */
  function UnmatchedAlong(iMap: map<string, string>, keys: seq<string>): set<string>
    decreases |keys|
  {
    if keys == [] then {}
    else
      var prior := UnmatchedAlong(iMap, keys[..|keys| - 1]);
      var key := keys[|keys| - 1];
      if key !in iMap then prior + {key} else prior
  }

  /** Visiting one more outer key adds its pair when the inner map has it, and warns about it otherwise. */
  lemma MatchDualAlongStep(iMap: map<string, string>, oMap: map<string, string>, keys: seq<string>, i: nat)
    requires i < |keys|
    ensures var prior, key := MatchDualAlong(iMap, oMap, keys[..i]), keys[i];
            MatchDualAlong(iMap, oMap, keys[..i + 1])
            == if key in iMap && key in oMap then prior[key := (iMap[key], oMap[key])] else prior
    ensures UnmatchedAlong(iMap, keys[..i + 1])
            == if keys[i] !in iMap then UnmatchedAlong(iMap, keys[..i]) + {keys[i]} else UnmatchedAlong(iMap, keys[..i])
  {
    assert keys[..i + 1][..i] == keys[..i];
  }

  /** After visiting `keys`, the added pairs are exactly those of the visited keys both maps have. */
  lemma {:induction false} MatchDualAlongEntries(iMap: map<string, string>, oMap: map<string, string>,
                                                 keys: seq<string>)
    ensures forall k :: k in MatchDualAlong(iMap, oMap, keys) <==> k in keys && k in oMap && k in iMap
    ensures forall k :: k in MatchDualAlong(iMap, oMap, keys) ==> MatchDualAlong(iMap, oMap, keys)[k] == (iMap[k], oMap[k])
    ensures forall k :: k in UnmatchedAlong(iMap, keys) <==> k in keys && k !in iMap
    decreases |keys|
  {
    if keys != [] {
      var prefix := keys[..|keys| - 1];
      assert keys == prefix + [keys[|keys| - 1]];
      MatchDualAlongEntries(iMap, oMap, prefix);
    }
  }

  /**
   * Whatever order `keys()` lists the outer keys in, the loop ends with
   * the whole dual match and warns about exactly the outer-only keys.
   */
  lemma MatchDualAlongAll(iMap: map<string, string>, oMap: map<string, string>, keys: seq<string>)
    requires forall i :: 0 <= i < |keys| ==> keys[i] in oMap
    requires forall k :: k in oMap ==> k in keys
    ensures MatchDualAlong(iMap, oMap, keys) == MatchDual(iMap, oMap)
    ensures UnmatchedAlong(iMap, keys) == UnmatchedOuter(iMap, oMap)
  {
    MatchDualAlongEntries(iMap, oMap, keys);
  }

  /** The keys `matchContourIdMap` warns about ("no contour match"): outer keys without an inner partner. */
  function UnmatchedOuter(iMap: map<string, string>, oMap: map<string, string>): set<string>
  {
    oMap.Keys - iMap.Keys
  }

  /** `getDicomImageAndContourFiles` of the dual-contour reader. */
  function ResolveTriple(dcmPath: string, dcmFileMap: map<string, string>, iContourPath: string,
                         oContourPath: string, contourFileMap: map<string, (string, string)>,
                         fileId: string): TripleEntry
  {
    if fileId !in contourFileMap then TripleNotFound
    else
      match ImageFile(dcmPath, dcmFileMap, fileId)
      case None => TripleNotFound
      case Some(dcmFile) =>
        Triple(dcmFile, Join(iContourPath, contourFileMap[fileId].0), Join(oContourPath, contourFileMap[fileId].1))
  }

  /** `getAllFilePairs` of a single-contour reader, for the given key order. */
  function PairList(dcmPath: string, dcmFileMap: map<string, string>, contourPath: string,
                    contourFileMap: map<string, string>, ids: seq<string>): seq<PairEntry>
  {
    seq(|ids|, i requires 0 <= i < |ids| => ResolvePair(dcmPath, dcmFileMap, contourPath, contourFileMap, ids[i]))
  }

  /** `getAllFilePairs` of the dual-contour reader, for the given key order. */
  function TripleList(dcmPath: string, dcmFileMap: map<string, string>, iContourPath: string,
                      oContourPath: string, contourFileMap: map<string, (string, string)>,
                      ids: seq<string>): seq<TripleEntry>
  {
    seq(|ids|, i requires 0 <= i < |ids| =>
      ResolveTriple(dcmPath, dcmFileMap, iContourPath, oContourPath, contourFileMap, ids[i]))
  }

  /** Listing one more identifier appends its entry. */
  lemma PairListSnoc(dcmPath: string, dcmFileMap: map<string, string>, contourPath: string,
                     contourFileMap: map<string, string>, ids: seq<string>, id: string)
    ensures PairList(dcmPath, dcmFileMap, contourPath, contourFileMap, ids + [id])
            == PairList(dcmPath, dcmFileMap, contourPath, contourFileMap, ids)
               + [ResolvePair(dcmPath, dcmFileMap, contourPath, contourFileMap, id)]
  {
  }

  /** Listing one more identifier appends its entry. */
  lemma TripleListSnoc(dcmPath: string, dcmFileMap: map<string, string>, iContourPath: string,
                       oContourPath: string, contourFileMap: map<string, (string, string)>,
                       ids: seq<string>, id: string)
    ensures TripleList(dcmPath, dcmFileMap, iContourPath, oContourPath, contourFileMap, ids + [id])
            == TripleList(dcmPath, dcmFileMap, iContourPath, oContourPath, contourFileMap, ids)
               + [ResolveTriple(dcmPath, dcmFileMap, iContourPath, oContourPath, contourFileMap, id)]
  {
  }

  /** The image lookup finds the earliest listed image with the identifier, and nothing when none has it. */
  lemma ImageFileFromListing(dcmPath: string, dcmNames: seq<string>, fileId: string)
    ensures ImageFile(dcmPath, IdMap(dcmNames, ImageFiles), fileId)
            == match FirstWithId(dcmNames, ImageFiles, fileId)
               case None => None
               case Some(name) => Some(Join(dcmPath, name))
  {
    FirstWriterWins(map[], dcmNames, ImageFiles, fileId);
  }

  /**
   * Single-contour resolution: a pair exactly when both listings hold a file
   * with the identifier, made of the earliest of each; the sentinel otherwise.
   */
  lemma ResolvePairFromListings(dcmPath: string, dcmNames: seq<string>, contourPath: string,
                                contourNames: seq<string>, fileId: string)
    ensures var e := ResolvePair(dcmPath, IdMap(dcmNames, ImageFiles), contourPath,
                                 IdMap(contourNames, ContourFiles), fileId);
            var image := FirstWithId(dcmNames, ImageFiles, fileId);
            var contour := FirstWithId(contourNames, ContourFiles, fileId);
            && (e.Pair? <==> image.Some? && contour.Some?)
            && (e.Pair? ==> e == Pair(Join(dcmPath, image.value), Join(contourPath, contour.value)))
  {
    ImageFileFromListing(dcmPath, dcmNames, fileId);
    FirstWriterWins(map[], contourNames, ContourFiles, fileId);
  }

  /**
   * Dual matching: a key is matched exactly when both the inner and the outer
   * listing hold a contour with it, and maps to the earliest of each.
   */
  lemma MatchDualFromListings(iNames: seq<string>, oNames: seq<string>, key: string)
    ensures var matched := MatchDual(IdMap(iNames, ContourFiles), IdMap(oNames, ContourFiles));
            var inner := FirstWithId(iNames, ContourFiles, key);
            var outer := FirstWithId(oNames, ContourFiles, key);
            && (key in matched <==> inner.Some? && outer.Some?)
            && (key in matched ==> matched[key] == (inner.value, outer.value))
  {
    FirstWriterWins(map[], iNames, ContourFiles, key);
    FirstWriterWins(map[], oNames, ContourFiles, key);
  }

  /**
   * The matched keys are the same whichever side is iterated: the asymmetry
   * of `matchContourIdMap` lies only in its warnings, which name outer-only
   * keys and never inner-only ones.
   */
  lemma MatchDualAsymmetry(iMap: map<string, string>, oMap: map<string, string>)
    ensures MatchDual(iMap, oMap).Keys == MatchDual(oMap, iMap).Keys == iMap.Keys * oMap.Keys
    ensures UnmatchedOuter(iMap, oMap) !! iMap.Keys
    ensures UnmatchedOuter(iMap, oMap) + MatchDual(iMap, oMap).Keys == oMap.Keys
  {
  }

  /**
   * Inner identifiers {0001, 0002} against outer {0001, 0003}: only 0001 is
   * matched, 0003 is warned about and 0002 is passed over without a warning.
   */
  lemma DualMatchExample()
    ensures var iMap := map["0001" := "i1", "0002" := "i2"];
            var oMap := map["0001" := "o1", "0003" := "o3"];
            && MatchDual(iMap, oMap) == map["0001" := ("i1", "o1")]
            && UnmatchedOuter(iMap, oMap) == {"0003"}
  {
    var iMap := map["0001" := "i1", "0002" := "i2"];
    var oMap := map["0001" := "o1", "0003" := "o3"];
    assert "0002" != "0001" && "0003" != "0001" && "0002" != "0003";
    assert MatchDual(iMap, oMap).Keys == {"0001"};
  }

  /**
   * Dual-contour resolution: a triple exactly when the image, inner and
   * outer listings all hold a file with the identifier (the earliest of
   * each); the sentinel otherwise, including when either contour listing
   * is empty and the match was skipped.
   */
  lemma ResolveTripleFromListings(dcmPath: string, dcmNames: seq<string>, iContourPath: string,
                                  iNames: seq<string>, oContourPath: string, oNames: seq<string>,
                                  fileId: string)
    ensures var matched := if iNames != [] && oNames != []
                           then MatchDual(IdMap(iNames, ContourFiles), IdMap(oNames, ContourFiles))
                           else map[];
            var e := ResolveTriple(dcmPath, IdMap(dcmNames, ImageFiles), iContourPath, oContourPath,
                                   matched, fileId);
            var image := FirstWithId(dcmNames, ImageFiles, fileId);
            var inner := FirstWithId(iNames, ContourFiles, fileId);
            var outer := FirstWithId(oNames, ContourFiles, fileId);
            && (e.Triple? <==> image.Some? && inner.Some? && outer.Some?)
            && (e.Triple? ==> e == Triple(Join(dcmPath, image.value), Join(iContourPath, inner.value),
                                          Join(oContourPath, outer.value)))
  {
    ImageFileFromListing(dcmPath, dcmNames, fileId);
    MatchDualFromListings(iNames, oNames, fileId);
  }
}
