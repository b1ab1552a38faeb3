/**
 * Which listed names the readers accept, and the identifier each accepted
 * name is filed under (`DicomReader.createFileIdMap` and
 * `createContourIdMap`).
 */
module FileNames {
  import opened Text

  /** `_IdDigits`: the width identifiers are zero-filled to. */
  const ID_DIGITS: nat := 4
  const DICOM_EXT: string := ".dcm"
  const CONTOUR_EXT: string := ".txt"

  predicate OccursAt(t: string, s: string, i: int)
  {
    0 <= i <= |t| - |s| && t[i..i + |s|] == s
  }

  /** Python's `s in t` on strings: `s` occurs in `t`. */
  predicate Contains(t: string, s: string)
  {
    exists i :: 0 <= i <= |t| && OccursAt(t, s, i)
  }

  /** `len(name) > 4 and ext in name.lower()[-4:]` */
  predicate HasExtension(name: string, ext: string)
  {
    |name| > 4 && Contains(Lower(name)[|name| - 4..], ext)
  }

  /** With a four-character extension the containment test is an equality on the last four characters. */
  lemma ExtensionIsLastFour(name: string, ext: string)
    requires |ext| == 4
    ensures HasExtension(name, ext) <==> |name| > 4 && Lower(name[|name| - 4..]) == ext
  {
    if |name| > 4 {
      var tail := Lower(name)[|name| - 4..];
      assert tail == Lower(name[|name| - 4..]);
      if Contains(tail, ext) {
        var i :| 0 <= i <= |tail| && OccursAt(tail, ext, i);
        assert i == 0 && tail[0..4] == tail;
      }
      if tail == ext {
        assert OccursAt(tail, ext, 0);
      }
    }
  }

  /** The image filter of `getDicomFileNames`. */
  predicate IsImageName(name: string)
  {
    HasExtension(name, DICOM_EXT)
  }

  /** The contour filter of `getContourFileList` / `getContourFileNames`. */
  predicate IsContourName(name: string)
  {
    HasExtension(name, CONTOUR_EXT)
  }

  /** A name is an image exactly when it is longer than four and ends in ".dcm", in any letter case. */
  lemma ImageNameTest(name: string)
    ensures IsImageName(name) <==> |name| > 4 && Lower(name[|name| - 4..]) == DICOM_EXT
  {
    ExtensionIsLastFour(name, DICOM_EXT);
  }

  /** A name is a contour exactly when it is longer than four and ends in ".txt", in any letter case. */
  lemma ContourNameTest(name: string)
    ensures IsContourName(name) <==> |name| > 4 && Lower(name[|name| - 4..]) == CONTOUR_EXT
  {
    ExtensionIsLastFour(name, CONTOUR_EXT);
  }

  /** The names of a listing that pass the filter for `ext`, in listing order: what the append loops collect. */
  function Filter(names: seq<string>, ext: string): (r: seq<string>)
    ensures |r| <= |names|
    decreases |names|
  {
    if names == [] then []
    else
      var prefix := names[..|names| - 1];
      var name := names[|names| - 1];
      if HasExtension(name, ext) then Filter(prefix, ext) + [name] else Filter(prefix, ext)
  }

  /**
   * The filter keeps every accepted name as often as the listing has it and
   * drops every other name.
   */
  lemma {:induction false} FilterSelects(names: seq<string>, ext: string)
    ensures forall n :: multiset(Filter(names, ext))[n] == if HasExtension(n, ext) then multiset(names)[n] else 0
    ensures forall n :: n in Filter(names, ext) <==> n in names && HasExtension(n, ext)
    decreases |names|
  {
    if names != [] {
      var prefix := names[..|names| - 1];
      var name := names[|names| - 1];
      assert names == prefix + [name];
      FilterSelects(prefix, ext);
    }
  }

  /**
   * The filter keeps listing order: filtering a listing in two parts gives
   * the accepted names of the first part followed by those of the second.
   */
  lemma {:induction false} FilterConcat(a: seq<string>, b: seq<string>, ext: string)
    ensures Filter(a + b, ext) == Filter(a, ext) + Filter(b, ext)
    decreases |b|
  {
    if b != [] {
      var prefix := b[..|b| - 1];
      var name := b[|b| - 1];
      assert (a + b)[..|a + b| - 1] == a + prefix;
      FilterConcat(a, prefix, ext);
    } else {
      assert a + b == a;
    }
  }

  predicate HasSign(s: string)
  {
    |s| > 0 && (s[0] == '+' || s[0] == '-')
  }

  function Zeros(n: nat): (r: string)
    ensures |r| == n && forall i :: 0 <= i < n ==> r[i] == '0'
  {
    seq(n, _ => '0')
  }

  /** Python 2's `s.zfill(width)`: pad with '0' on the left to `width`, keeping a leading sign in front. */
  function ZFill(s: string, width: nat): string
  {
    if |s| >= width then s
    else
      var fill := width - |s|;
      if HasSign(s) then [s[0]] + Zeros(fill) + s[1..] else Zeros(fill) + s
  }

  /**
   * `zfill` never shortens, leaves long enough strings alone, and otherwise
   * puts zeros in front of the digits (after the sign, if there is one).
   */
  lemma ZFillPadding(s: string, width: nat)
    ensures var r := ZFill(s, width);
            && |r| == (if |s| >= width then |s| else width)
            && (|s| >= width ==> r == s)
            && (!HasSign(s) ==> r[|r| - |s|..] == s && forall i :: 0 <= i < |r| - |s| ==> r[i] == '0')
            && (HasSign(s) ==> r[0] == s[0] && r[|r| - |s| + 1..] == s[1..]
                               && forall i :: 1 <= i <= |r| - |s| ==> r[i] == '0')
  {
  }

  /** A leading '0' is absorbed by the padding: "1", "01" and "001" all become "0001", so such names collide. */
  lemma ZFillAbsorbsLeadingZero(s: string, width: nat)
    requires !HasSign(s) && |s| < width
    ensures ZFill("0" + s, width) == ZFill(s, width)
  {
    var n := width - |s| - 1;
    assert Zeros(n + 1) == Zeros(n) + "0";
    assert ZFill(s, width) == Zeros(n + 1) + s;
    assert Zeros(n) + "0" + s == Zeros(n) + ("0" + s);
  }

  /** `name[:-4]`: the name without its extension (empty for names shorter than four). */
  function DropExtension(name: string): string
  {
    if |name| >= 4 then name[..|name| - 4] else []
  }

  /** `name[8:12]`, clamped to the name's length as Python slices are. */
  function IdSpan(name: string): (r: string)
    ensures |r| <= 4
  {
    var lo := if |name| < 8 then |name| else 8;
    var hi := if |name| < 12 then |name| else 12;
    name[lo..hi]
  }

  /** The identifier of an image file: `name[:-4].zfill(4)`. */
  function ImageId(name: string): string
  {
    ZFill(DropExtension(name), ID_DIGITS)
  }

  /**
   * An image identifier is the name without its extension, padded to four
   * characters; names of four characters or fewer all get "0000".
   */
  lemma ImageIdShape(name: string)
    ensures |name| >= 4 ==> |ImageId(name)| == if |name| - 4 >= ID_DIGITS then |name| - 4 else ID_DIGITS
    ensures |name| >= 8 ==> ImageId(name) == name[..|name| - 4]
    ensures |name| <= 4 ==> ImageId(name) == "0000"
  {
    ZFillPadding(DropExtension(name), ID_DIGITS);
  }

  /** The identifier of a contour file: `name[8:12].zfill(4)`. */
  function ContourId(name: string): string
  {
    ZFill(IdSpan(name), ID_DIGITS)
  }

  /**
   * A contour identifier always has four characters: characters 8 to 11 of
   * the name when it is long enough, "0000" when the name has eight or fewer.
   */
  lemma ContourIdShape(name: string)
    ensures |ContourId(name)| == ID_DIGITS
    ensures |name| >= 12 ==> ContourId(name) == name[8..12]
    ensures |name| <= 8 ==> ContourId(name) == "0000"
  {
    ZFillPadding(IdSpan(name), ID_DIGITS);
  }
}
