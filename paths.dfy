/**
 * Filesystem paths as seen by Python's POSIX path functions: `pathlib`
 * (`Path(s)`, `p / q`, `p.parent`) and `os.path` (`dirname`, `basename`,
 * `join`) applied to normalised paths such as `os.path.abspath` returns.
 */
module Paths {

  /** A path: whether it starts at the root `/`, and its components in order. */
  datatype Path = Path(absolute: bool, parts: seq<string>)

  /** The pieces of `s` between `/` separators, empty pieces included. */
  function Segments(s: string): (r: seq<string>)
    ensures |r| >= 1
    decreases |s|
  {
    if s == [] then [""]
    else
      var rest := Segments(s[1..]);
      if s[0] == '/' then [""] + rest else [[s[0]] + rest[0]] + rest[1..]
  }

  /** The pieces that name a component: empty pieces (`//`) and `.` are dropped. */
  function Components(segments: seq<string>): (r: seq<string>)
    ensures forall i :: 0 <= i < |r| ==> r[i] != "" && r[i] != "." && r[i] in segments
    ensures |r| <= |segments|
  {
    if segments == [] then []
    else
      var head := segments[0];
      (if head == "" || head == "." then [] else [head]) + Components(segments[1..])
  }

  /**
   * `pathlib.PurePosixPath(s)`: absolute exactly when `s` starts with `/`, and
   * every component a proper name, neither empty nor `.`, without a `/`.
   */
  function Parse(s: string): (r: Path)
    ensures r.absolute <==> |s| > 0 && s[0] == '/'
    ensures forall i :: 0 <= i < |r.parts| ==> r.parts[i] != "" && r.parts[i] != "." && '/' !in r.parts[i]
  {
    SegmentsHaveNoSlash(s);
    Path(|s| > 0 && s[0] == '/', Components(Segments(s)))
  }

  /** No piece between separators contains a separator. */
  lemma {:induction false} SegmentsHaveNoSlash(s: string)
    ensures forall i :: 0 <= i < |Segments(s)| ==> '/' !in Segments(s)[i]
    decreases |s|
  {
    if s != [] {
      SegmentsHaveNoSlash(s[1..]);
    }
  }

  /** `p / q` on `pathlib` paths: an absolute right operand replaces the left one. */
  function Join(p: Path, q: Path): (r: Path)
    ensures q.absolute ==> r == q
    ensures !q.absolute ==> r.absolute == p.absolute && r.parts == p.parts + q.parts
  {
    if q.absolute then q else Path(p.absolute, p.parts + q.parts)
  }

  /** `os.path.join(p, name)` for a single component `name`. */
  function Child(p: Path, name: string): (r: Path) {
    Path(p.absolute, p.parts + [name])
  }

  /** `os.path.dirname(p)`: the path without its last component; `/` and `` are their own parent. */
  function Dirname(p: Path): (r: Path)
    ensures r.absolute == p.absolute
    ensures |r.parts| == if p.parts == [] then 0 else |p.parts| - 1
    ensures r.parts <= p.parts
  {
    if p.parts == [] then p else Path(p.absolute, p.parts[..|p.parts| - 1])
  }

  /** `os.path.basename(p)`: the last component, or `` for `/` and ``. */
  function Basename(p: Path): (r: string) {
    if p.parts == [] then "" else p.parts[|p.parts| - 1]
  }

  /** A path is a fixed point of `dirname` exactly when it has no components. */
  lemma DirnameFixedPoint(p: Path)
    ensures Dirname(p) == p <==> p.parts == []
  {
  }

  /** The parent of a child is the directory it was joined to, and its basename is the name. */
  lemma ChildInverse(p: Path, name: string)
    ensures Dirname(Child(p, name)) == p
    ensures Basename(Child(p, name)) == name
  {
  }

  /** A path with components is the child of its parent named by its basename. */
  lemma ParentChild(p: Path)
    requires p.parts != []
    ensures Child(Dirname(p), Basename(p)) == p
  {
    assert p.parts[..|p.parts| - 1] + [p.parts[|p.parts| - 1]] == p.parts;
  }

  /** A piece without `/` is split into itself alone. */
  lemma {:induction false} SegmentsWithoutSlash(s: string)
    requires '/' !in s
    ensures Segments(s) == [s]
    decreases |s|
  {
    if s != [] {
      assert '/' !in s[1..] by {
        forall i | 0 <= i < |s[1..]| ensures s[1..][i] != '/' { assert s[1..][i] == s[i + 1]; }
      }
      SegmentsWithoutSlash(s[1..]);
      assert [s[0]] + s[1..] == s;
    }
  }

  /** A single-component string parses to a relative path with that one component. */
  lemma ParseName(name: string)
    requires '/' !in name && name != "" && name != "."
    ensures Parse(name) == Path(false, [name])
  {
    SegmentsWithoutSlash(name);
    assert Components([name]) == [name] + Components([]);
  }

  /** `/b` starts with an empty piece. */
  lemma SegmentsEmptySlash(a: string, b: string)
    requires a == []
    ensures Segments(a + "/" + b) == [""] + Segments(b)
  {
    assert a + "/" + b == "/" + b;
    assert ("/" + b)[1..] == b;
  }

  /** How `Segments` takes the first character off `a/b`. */
  lemma SegmentsSlashStep(a: string, b: string)
    requires a != []
    ensures var rest := Segments(a[1..] + "/" + b);
            Segments(a + "/" + b) == if a[0] == '/' then [""] + rest else [[a[0]] + rest[0]] + rest[1..]
  {
    assert (a + "/" + b)[0] == a[0];
    assert (a + "/" + b)[1..] == a[1..] + "/" + b;
  }

  /** Extending the first piece of `x + y` is extending the first piece of `x`. */
  lemma ExtendFirstPiece(c: char, x: seq<string>, y: seq<string>)
    requires |x| >= 1
    ensures [[c] + (x + y)[0]] + (x + y)[1..] == ([[c] + x[0]] + x[1..]) + y
  {
    assert (x + y)[0] == x[0];
    assert (x + y)[1..] == x[1..] + y;
  }

  /** A `/` between two strings splits them apart and nothing else. */
  lemma {:induction false} SegmentsSlash(a: string, b: string)
    ensures Segments(a + "/" + b) == Segments(a) + Segments(b)
    decreases |a|
  {
    if a == [] {
      SegmentsEmptySlash(a, b);
    } else {
      SegmentsSlashStep(a, b);
      SegmentsSlash(a[1..], b);
      if a[0] != '/' {
        ExtendFirstPiece(a[0], Segments(a[1..]), Segments(b));
      }
    }
  }

  /** How `Components` takes the first piece off `x + y`. */
  lemma ComponentsAppendStep(x: seq<string>, y: seq<string>)
    requires x != []
    ensures Components(x + y)
            == (if x[0] == "" || x[0] == "." then [] else [x[0]]) + Components(x[1..] + y)
  {
    assert (x + y)[0] == x[0];
    assert (x + y)[1..] == x[1..] + y;
  }

  /** Dropping empty and `.` pieces distributes over concatenation. */
  lemma {:induction false} ComponentsAppend(x: seq<string>, y: seq<string>)
    ensures Components(x + y) == Components(x) + Components(y)
    decreases |x|
  {
    if x == [] {
      assert x + y == y;
    } else {
      ComponentsAppendStep(x, y);
      ComponentsAppend(x[1..], y);
      var h := if x[0] == "" || x[0] == "." then [] else [x[0]];
      assert h + (Components(x[1..]) + Components(y)) == (h + Components(x[1..])) + Components(y);
    }
  }

  /**
   * The components a string names are those of its `/`-separated parts in
   * order: `a/b` names the components of `a` followed by those of `b`.
   */
  lemma ParseSlash(a: string, b: string)
    ensures Parse(a + "/" + b).parts == Parse(a).parts + Parse(b).parts
    ensures Parse(a + "/" + b).absolute == (a == [] || Parse(a).absolute)
  {
    SegmentsSlash(a, b);
    ComponentsAppend(Segments(a), Segments(b));
    if a != [] {
      assert (a + "/" + b)[0] == a[0];
    }
  }

  /** A leading `./` never changes which components a path string names. */
  lemma ParseDotSlash(t: string)
    ensures Parse("./" + t).parts == Parse(t).parts
    ensures !Parse("./" + t).absolute
  {
    var s := "./" + t;
    assert s[1..] == "/" + t;
    assert ("/" + t)[1..] == t;
    var rest := [""] + Segments(t);
    assert Segments("/" + t) == rest;
    assert rest[0] == "" && rest[1..] == Segments(t);
    assert [s[0]] + rest[0] == ".";
    assert Segments(s) == ["."] + Segments(t);
    assert (["."] + Segments(t))[1..] == Segments(t);
  }
}
