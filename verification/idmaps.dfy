/**
 * The identifier maps of the readers (`dcmFileMap`, `contourFileMap`,
 * `i_contourFileMap`, `o_contourFileMap`): names are inserted in listing
 * order and a name whose identifier already has an entry is only reported
 * as a duplicate, so the first writer wins.
 */
module IdMaps {
  import opened Options
  import opened FileNames

  /** The naming convention an identifier is read with. */
  datatype Convention = ImageFiles | ContourFiles

  function FileId(conv: Convention, name: string): string
  {
    match conv
    case ImageFiles => ImageId(name)
    case ContourFiles => ContourId(name)
  }

  /** `m` after inserting `names` in order, each only if its identifier has no entry yet. */
  function InsertFirstWins(m: map<string, string>, names: seq<string>, conv: Convention): map<string, string>
    decreases |names|
  {
    if names == [] then m
    else
      var prior := InsertFirstWins(m, names[..|names| - 1], conv);
      var name := names[|names| - 1];
      var key := FileId(conv, name);
      if key in prior then prior else prior[key := name]
  }

  /** The names the insertion loop reports as duplicates, in the order it reports them. */
  function Duplicates(m: map<string, string>, names: seq<string>, conv: Convention): seq<string>
    decreases |names|
  {
    if names == [] then []
    else
      var prefix := names[..|names| - 1];
      var name := names[|names| - 1];
      if FileId(conv, name) in InsertFirstWins(m, prefix, conv) then Duplicates(m, prefix, conv) + [name]
      else Duplicates(m, prefix, conv)
  }

  /** The map a reader builds from a fresh dictionary. */
  function IdMap(names: seq<string>, conv: Convention): map<string, string>
  {
    InsertFirstWins(map[], names, conv)
  }

  function Lookup(m: map<string, string>, key: string): Option<string>
  {
    if key in m then Some(m[key]) else None
  }

  /** Reference reading of "first writer wins": the earliest listed name whose identifier is `key`. */
  function FirstWithId(names: seq<string>, conv: Convention, key: string): Option<string>
    decreases |names|
  {
    if names == [] then None
    else if FileId(conv, names[0]) == key then Some(names[0])
    else FirstWithId(names[1..], conv, key)
  }

  /** `i` is the earliest position of `names` whose identifier is `key`. */
  ghost predicate IsFirstWithId(names: seq<string>, conv: Convention, key: string, i: int)
  {
    0 <= i < |names| && FileId(conv, names[i]) == key
    && forall j :: 0 <= j < i ==> FileId(conv, names[j]) != key
  }

  /** `FirstWithId` finds a name iff one carries the key, and what it finds is the earliest such name. */
  lemma {:induction false} FirstWithIdIndex(names: seq<string>, conv: Convention, key: string)
    ensures FirstWithId(names, conv, key).Some? <==> exists i :: 0 <= i < |names| && FileId(conv, names[i]) == key
    ensures FirstWithId(names, conv, key).Some? ==>
              exists i :: IsFirstWithId(names, conv, key, i) && names[i] == FirstWithId(names, conv, key).value
    decreases |names|
  {
    if names == [] {
    } else if FileId(conv, names[0]) == key {
      assert IsFirstWithId(names, conv, key, 0);
    } else {
      var tail := names[1..];
      FirstWithIdIndex(tail, conv, key);
      if FirstWithId(tail, conv, key).Some? {
        var i :| IsFirstWithId(tail, conv, key, i) && tail[i] == FirstWithId(tail, conv, key).value;
        assert names[i + 1] == tail[i];
        forall j | 0 <= j < i + 1
          ensures FileId(conv, names[j]) != key
        {
          if j > 0 {
            assert names[j] == tail[j - 1];
          }
        }
        assert IsFirstWithId(names, conv, key, i + 1);
      } else {
        forall i | 0 <= i < |names|
          ensures FileId(conv, names[i]) != key
        {
          if i > 0 {
            assert names[i] == tail[i - 1];
          }
        }
      }
    }
  }

  lemma {:induction false} FirstWithIdAppend(names: seq<string>, x: string, conv: Convention, key: string)
    ensures FirstWithId(names + [x], conv, key)
            == if FirstWithId(names, conv, key).Some? then FirstWithId(names, conv, key)
               else if FileId(conv, x) == key then Some(x) else None
    decreases |names|
  {
    if names != [] {
      assert (names + [x])[1..] == names[1..] + [x];
      FirstWithIdAppend(names[1..], x, conv, key);
    }
  }

  /** First writer wins: an entry already in `m` stays, otherwise the key maps to the earliest name carrying it. */
  lemma {:induction false} FirstWriterWins(m: map<string, string>, names: seq<string>, conv: Convention, key: string)
    ensures Lookup(InsertFirstWins(m, names, conv), key)
            == if key in m then Some(m[key]) else FirstWithId(names, conv, key)
    decreases |names|
  {
    if names != [] {
      var prefix := names[..|names| - 1];
      var name := names[|names| - 1];
      FirstWriterWins(m, prefix, conv, key);
      assert names == prefix + [name];
      FirstWithIdAppend(prefix, name, conv, key);
      var prior := InsertFirstWins(m, prefix, conv);
      assert InsertFirstWins(m, names, conv)
             == if FileId(conv, name) in prior then prior else prior[FileId(conv, name) := name];
    }
  }

  /** The keys are the old keys plus the identifiers of all inserted names. */
  lemma InsertFirstWinsKeys(m: map<string, string>, names: seq<string>, conv: Convention)
    ensures InsertFirstWins(m, names, conv).Keys == m.Keys + set n | n in names :: FileId(conv, n)
  {
    var r := InsertFirstWins(m, names, conv);
    forall key
      ensures key in r <==> key in m || exists n :: n in names && FileId(conv, n) == key
    {
      FirstWriterWins(m, names, conv, key);
      FirstWithIdIndex(names, conv, key);
      if exists n :: n in names && FileId(conv, n) == key {
        var n :| n in names && FileId(conv, n) == key;
        var i :| 0 <= i < |names| && names[i] == n;
      }
    }
  }

  /** Every inserted name either becomes an entry or is reported once as a duplicate. */
  lemma {:induction false} DuplicateCount(m: map<string, string>, names: seq<string>, conv: Convention)
    ensures |Duplicates(m, names, conv)| + |InsertFirstWins(m, names, conv)| == |m| + |names|
    ensures forall d :: d in Duplicates(m, names, conv) ==> FileId(conv, d) in InsertFirstWins(m, names, conv)
    decreases |names|
  {
    if names != [] {
      var prefix := names[..|names| - 1];
      DuplicateCount(m, prefix, conv);
      var name := names[|names| - 1];
      var prior := InsertFirstWins(m, prefix, conv);
      if FileId(conv, name) !in prior {
        assert |prior[FileId(conv, name) := name]| == |prior| + 1;
      }
    }
  }

  /** A non-empty listing yields at least one and at most one entry per listed name. */
  lemma IdMapSize(names: seq<string>, conv: Convention)
    requires names != []
    ensures 1 <= |IdMap(names, conv)| <= |names|
  {
    DuplicateCount(map[], names, conv);
    FirstWriterWins(map[], names, conv, FileId(conv, names[0]));
    assert FileId(conv, names[0]) in IdMap(names, conv);
  }
}
