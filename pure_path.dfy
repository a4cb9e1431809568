/**
 * The part of `pathlib.PurePosixPath` the core uses: construction from a
 * string, `/`, `.name`, `.stem`, `.parent`, `.parents[k]` and `.with_name`.
 */
module PurePath {
  import opened Wrappers
  import opened Text

  /** A normalised path: a root flag and the non-empty, non-"." segments. */
  datatype Path = Path(absolute: bool, parts: seq<string>)

  /** An argument typed `Union[str, Path]`. */
  datatype PathLike = PStr(s: string) | PPath(p: Path)

  /** A segment that survives normalisation unchanged. */
  predicate IsSegment(s: string)
  {
    s != "" && s != "." && '/' !in s
  }

  function Segments(pieces: seq<string>): (r: seq<string>)
    ensures forall k | 0 <= k < |r| :: r[k] != "" && r[k] != "."
    ensures forall k | 0 <= k < |pieces| && pieces[k] != "" && pieces[k] != "." :: pieces[k] in r
  {
    if pieces == [] then []
    else if pieces[0] == "" || pieces[0] == "." then Segments(pieces[1..])
    else [pieces[0]] + Segments(pieces[1..])
  }

  /** `PurePosixPath(s)`: slashes separate segments; empty and "." segments vanish. */
  function PathOf(s: string): Path
  {
    Path(|s| > 0 && s[0] == '/', Segments(Split(s, "/")))
  }

  /** `Path(x)` for a string or a path. */
  function ToPath(x: PathLike): Path
  {
    match x
    case PStr(s) => PathOf(s)
    case PPath(p) => p
  }

  /** `str(p)`: the segments joined by '/', after a leading '/' for an absolute path; "." for an empty relative path. */
  function PathText(p: Path): (r: string)
    ensures p.absolute ==> |r| > 0 && r[0] == '/'
  {
    if p.absolute then "/" + Join(p.parts, "/")
    else if p.parts == [] then "."
    else Join(p.parts, "/")
  }

  /** Python truthiness: an empty string is false, every `Path` object is true. */
  predicate Truthy(x: PathLike)
  {
    match x
    case PStr(s) => s != ""
    case PPath(_) => true
  }

  /** `p / q`: an absolute right operand replaces the left one. */
  function Div(p: Path, q: Path): (r: Path)
    ensures q.absolute ==> r == q
    ensures !q.absolute ==> r.absolute == p.absolute && r.parts == p.parts + q.parts
  {
    if q.absolute then q else Path(p.absolute, p.parts + q.parts)
  }

  /** `p.name`: the last segment, or "" for a root or an empty path. */
  function Name(p: Path): string
  {
    if p.parts == [] then "" else p.parts[|p.parts| - 1]
  }

  /** `p.parent`: the path without its last segment (a root is its own parent). */
  function Parent(p: Path): (r: Path)
    ensures r.absolute == p.absolute
    ensures p.parts != [] ==> r.parts + [Name(p)] == p.parts
  {
    if p.parts == [] then p else Path(p.absolute, p.parts[..|p.parts| - 1])
  }

  /** `p.parents[k]`; an index past the last ancestor raises IndexError. */
  function Parents(p: Path, k: nat): (r: Result<Path>)
    ensures r.Ok? <==> k < |p.parts|
    ensures r.Ok? ==> r.value.absolute == p.absolute && |r.value.parts| == |p.parts| - 1 - k
    ensures r.Ok? ==> r.value.parts == p.parts[..|r.value.parts|]
  {
    if k < |p.parts| then Ok(Path(p.absolute, p.parts[..|p.parts| - 1 - k])) else Err(IndexError)
  }

  /** `p.with_name(n)`: ValueError for a path without a name or an invalid name. */
  function WithName(p: Path, n: string): (r: Result<Path>)
    ensures r.Ok? <==> p.parts != [] && IsSegment(n)
    ensures r.Ok? ==> Name(r.value) == n && Parent(r.value) == Parent(p)
  {
    if p.parts == [] then Err(ValueError("path has an empty name"))
    else if !IsSegment(n) then Err(ValueError("Invalid name " + n))
    else Ok(Path(p.absolute, p.parts[..|p.parts| - 1] + [n]))
  }

  /** `p.stem`: the name without its last suffix; a leading dot starts no suffix. */
  function Stem(p: Path): (r: string)
    ensures |r| <= |Name(p)| && r == Name(p)[..|r|]
  {
    var n := Name(p);
    var i := LastDot(n, |n|);
    if 0 < i < |n| - 1 then n[..i] else n
  }

  /** The index of the last '.' before position `end`, or -1. */
  function LastDot(s: string, end: nat): (i: int)
    requires end <= |s|
    ensures -1 <= i < end
    ensures i >= 0 ==> s[i] == '.'
    ensures forall j | i < j < end :: s[j] != '.'
  {
    if end == 0 then -1
    else if s[end - 1] == '.' then end - 1
    else LastDot(s, end - 1)
  }

  /** A single segment parses as a one-segment relative path. */
  lemma SegmentPath(s: string)
    requires IsSegment(s)
    ensures PathOf(s) == Path(false, [s])
  {
    FindChar(s, '/');
    assert Split(s, "/") == [s];
    assert [s][1..] == [];
    assert Segments([s]) == [s];
    assert s[0] != '/';
  }
}
