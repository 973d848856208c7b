/**
 * A model of POSIX `pathlib` paths as the code uses them: a path is an
 * absolute flag and a list of segments.  Parsing drops empty and "."
 * segments, `/` appends the segments of its right operand unless that operand
 * is itself absolute, and `str()` joins the segments back with '/'.
 */
module Paths {
  import opened Common

  datatype Path = Path(absolute: bool, parts: seq<string>)

  /** A segment pathlib can hold: not empty, not ".", no separator. */
  predicate ValidPart(p: string)
  {
    p != "" && p != "." && '/' !in p
  }

  predicate Valid(p: Path)
  {
    forall k :: 0 <= k < |p.parts| ==> ValidPart(p.parts[k])
  }

  function KeepPart(p: string): bool { p != "" && p != "." }

  /** `Path(s)` */
  function Parse(s: string): (r: Path)
    ensures Valid(r)
    ensures r.absolute <==> StartsWith(s, "/")
  {
    var pieces := Split(s, '/');
    var kept := Filter(pieces, KeepPart);
    assert forall k :: 0 <= k < |kept| ==> kept[k] in pieces;
    Path(|s| > 0 && s[0] == '/', kept)
  }

  /** `str(p)` */
  function ToString(p: Path): string
  {
    if p.absolute then "/" + Join(p.parts, "/")
    else if p.parts == [] then "."
    else Join(p.parts, "/")
  }

  /** `p / s` */
  function JoinPath(p: Path, s: string): (r: Path)
    ensures Valid(p) ==> Valid(r)
  {
    var q := Parse(s);
    if q.absolute then q else Path(p.absolute, p.parts + q.parts)
  }

  /** `p.name` */
  function Name(p: Path): string
  {
    if p.parts == [] then "" else p.parts[|p.parts| - 1]
  }

  /** `p.parent` */
  function Parent(p: Path): Path
  {
    if p.parts == [] then p else Path(p.absolute, p.parts[..|p.parts| - 1])
  }

  /** The index of the last '.' in `s`, or -1. */
  function LastDot(s: string): (i: int)
    ensures -1 <= i < |s|
    ensures i >= 0 ==> s[i] == '.'
    ensures forall j :: i < j < |s| ==> s[j] != '.'
  {
    if s == [] then -1
    else if s[|s| - 1] == '.' then |s| - 1
    else LastDot(s[..|s| - 1])
  }

  /** `PurePath(name).suffix` for one segment: from the last '.' on, unless that
      dot is the first or the last character. */
  function SuffixOfName(name: string): (r: string)
    ensures r == "" || (r[0] == '.' && EndsWith(name, r))
  {
    var i := LastDot(name);
    if 0 < i < |name| - 1 then name[i..] else ""
  }

  /** `p.suffix` */
  function Suffix(p: Path): string
  {
    SuffixOfName(Name(p))
  }

  predicate IsAbsolute(p: Path) { p.absolute }

  /** `Path(str(p)) == p` for every path pathlib can hold. */
  lemma ParseToString(p: Path)
    requires Valid(p)
    ensures Parse(ToString(p)) == p
  {
    var s := ToString(p);
    if p.parts == [] {
      if p.absolute {
        assert s == "/";
        assert Split(s, '/') == ["", ""];
      } else {
        assert s == ".";
        SplitNoSep(s, '/');
      }
    } else {
      SplitJoin(p.parts, '/');
      FilterAll(p.parts, KeepPart);
      if p.absolute {
        assert s == ['/'] + Join(p.parts, "/");
        assert s[1..] == Join(p.parts, "/");
        assert Split(s, '/') == [""] + p.parts;
        assert Filter(Split(s, '/'), KeepPart) == Filter(p.parts, KeepPart);
      } else {
        assert p.parts[0] != "";
        assert s[0] != '/' by {
          assert Join(p.parts, "/")[0] == p.parts[0][0] by {
            JoinHead(p.parts, "/");
          }
        }
      }
    }
  }

  lemma JoinHead(parts: seq<string>, sep: string)
    requires |parts| >= 1 && parts[0] != ""
    ensures |Join(parts, sep)| > 0 && Join(parts, sep)[0] == parts[0][0]
  {
  }

  /** The parent of `p / seg` is `p` for a plain segment. */
  lemma ParentOfJoin(p: Path, seg: string)
    requires ValidPart(seg)
    ensures Parent(JoinPath(p, seg)) == p
    ensures Name(JoinPath(p, seg)) == seg
  {
    JoinSegment(p, seg);
    assert (p.parts + [seg])[..|p.parts|] == p.parts;
  }

  /** Appending one plain segment adds exactly that segment. */
  lemma JoinSegment(p: Path, seg: string)
    requires ValidPart(seg)
    ensures JoinPath(p, seg) == Path(p.absolute, p.parts + [seg])
  {
    SplitNoSep(seg, '/');
  }
}
