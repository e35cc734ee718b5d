/**
 * The part of pathlib's PurePosixPath the handler uses: building a path from a
 * string, joining with `/`, `.name` and `str()`. A path is held as pathlib holds
 * it: whether it starts at the root, and its components, with the empty and "."
 * components dropped and ".." kept (pathlib never resolves "..").
 */
module PurePath {

  datatype Path = Path(rooted: bool, parts: seq<string>)

  /** s.split('/') */
  function Split(s: string): (fields: seq<string>)
    ensures |fields| >= 1
    ensures forall i :: 0 <= i < |fields| ==> '/' !in fields[i]
  {
    if s == [] then [""]
    else
      var rest := Split(s[1..]);
      if s[0] == '/' then [""] + rest else [[s[0]] + rest[0]] + rest[1..]
  }

  /** '/'.join(fields) */
  function Slashed(fields: seq<string>): string {
    if |fields| == 0 then ""
    else if |fields| == 1 then fields[0]
    else fields[0] + "/" + Slashed(fields[1..])
  }

  /** A component pathlib keeps. */
  predicate IsComponent(part: string) {
    part != "" && part != "." && '/' !in part
  }

  predicate WellFormed(p: Path) {
    forall i :: 0 <= i < |p.parts| ==> IsComponent(p.parts[i])
  }

  /** The paths pathlib can hold. */
  type WellFormedPath = p: Path | WellFormed(p) witness Path(false, [])

  /** The fields of a split that pathlib keeps as components. */
  function Components(fields: seq<string>): (parts: seq<string>)
    requires forall i :: 0 <= i < |fields| ==> '/' !in fields[i]
    ensures forall i :: 0 <= i < |parts| ==> IsComponent(parts[i])
    ensures |parts| <= |fields|
  {
    if fields == [] then []
    else if fields[0] == "" || fields[0] == "." then Components(fields[1..])
    else [fields[0]] + Components(fields[1..])
  }

  /** PurePosixPath(s) */
  function Parse(s: string): (p: Path)
    ensures WellFormed(p)
    ensures p.rooted <==> |s| > 0 && s[0] == '/'
  {
    Path(|s| > 0 && s[0] == '/', Components(Split(s)))
  }

  /** str(p) */
  function Render(p: Path): string {
    if p.rooted then "/" + Slashed(p.parts)
    else if p.parts == [] then "."
    else Slashed(p.parts)
  }

  /** base / rel: an absolute rel replaces base, anything else is appended unresolved. */
  function Join(base: Path, rel: string): (p: Path)
    ensures WellFormed(base) ==> WellFormed(p)
    ensures Parse(rel).rooted ==> p == Parse(rel)
    ensures !Parse(rel).rooted ==> p.rooted == base.rooted && base.parts <= p.parts
  {
    var r := Parse(rel);
    if r.rooted then r else Path(base.rooted, base.parts + r.parts)
  }

  /** p.name: the last component, or "" when there is none. */
  function Name(p: Path): string {
    if p.parts == [] then "" else p.parts[|p.parts| - 1]
  }

  lemma {:induction false} SplitNoSlash(a: string)
    requires '/' !in a
    ensures Split(a) == [a]
  {
    if a != [] {
      SplitNoSlash(a[1..]);
      assert [a[0]] + a[1..] == a;
    }
  }

  lemma {:induction false} SplitCons(a: string, t: string)
    requires '/' !in a
    ensures Split(a + "/" + t) == [a] + Split(t)
  {
    var s := a + "/" + t;
    if a == [] {
      assert s[1..] == t;
    } else {
      assert s[1..] == a[1..] + "/" + t;
      SplitCons(a[1..], t);
      assert [a[0]] + a[1..] == a;
    }
  }

  /** The '/' between a and t separates a's last field from t's first. */
  lemma {:induction false} SplitJoin(a: string, t: string)
    ensures Split(a + "/" + t) == Split(a) + Split(t)
  {
    var s := a + "/" + t;
    if a == [] {
      assert s[1..] == t;
    } else {
      assert s[1..] == a[1..] + "/" + t;
      SplitJoin(a[1..], t);
    }
  }

  /** Joining the fields of a split gives the string back. */
  lemma {:induction false} SlashedSplit(s: string)
    ensures Slashed(Split(s)) == s
  {
    if s != [] {
      var rest := Split(s[1..]);
      SlashedSplit(s[1..]);
      if s[0] == '/' {
        assert Slashed(Split(s)) == "" + "/" + Slashed(rest);
      } else if |rest| == 1 {
        assert Slashed(Split(s)) == [s[0]] + rest[0];
      } else {
        assert Slashed(rest) == rest[0] + "/" + Slashed(rest[1..]);
        assert Split(s) == [[s[0]] + rest[0]] + rest[1..];
        assert Slashed(Split(s)) == ([s[0]] + rest[0]) + "/" + Slashed(rest[1..]);
      }
      assert [s[0]] + s[1..] == s;
    }
  }

  /** Splitting a join of slash-free fields gives the fields back. */
  lemma {:induction false} SplitSlashed(fields: seq<string>)
    requires |fields| >= 1
    requires forall i :: 0 <= i < |fields| ==> '/' !in fields[i]
    ensures Split(Slashed(fields)) == fields
  {
    if |fields| == 1 {
      SplitNoSlash(fields[0]);
    } else {
      SplitCons(fields[0], Slashed(fields[1..]));
      SplitSlashed(fields[1..]);
      assert [fields[0]] + fields[1..] == fields;
    }
  }

  lemma {:induction false} ComponentsAppend(x: seq<string>, y: seq<string>)
    requires forall i :: 0 <= i < |x| ==> '/' !in x[i]
    requires forall i :: 0 <= i < |y| ==> '/' !in y[i]
    ensures Components(x + y) == Components(x) + Components(y)
  {
    if x == [] {
      assert x + y == y;
    } else {
      assert (x + y)[1..] == x[1..] + y;
      ComponentsAppend(x[1..], y);
    }
  }

  lemma {:induction false} ComponentsOfComponents(parts: seq<string>)
    requires forall i :: 0 <= i < |parts| ==> parts[i] != "" && parts[i] != "." && '/' !in parts[i]
    ensures Components(parts) == parts
  {
    if parts != [] {
      ComponentsOfComponents(parts[1..]);
      assert [parts[0]] + parts[1..] == parts;
    }
  }

  /** A single field is dropped exactly when it is "" or ".", and kept as it is otherwise. */
  lemma ComponentsOfField(f: string)
    requires '/' !in f
    ensures Components([f]) == if f == "" || f == "." then [] else [f]
  {
  }

  /** str() of a path parses back to the same path. */
  lemma ParseRender(p: Path)
    requires WellFormed(p)
    ensures Parse(Render(p)) == p
  {
    var s := Render(p);
    if p.parts != [] {
      SplitSlashed(p.parts);
      ComponentsOfComponents(p.parts);
    }
    if p.rooted {
      assert s == "" + "/" + Slashed(p.parts);
      SplitCons("", Slashed(p.parts));
      if p.parts == [] {
        assert Split(s) == ["", ""];
      } else {
        assert Components(Split(s)) == Components(p.parts);
      }
    } else if p.parts == [] {
      SplitNoSlash(".");
    } else {
      assert s[0] == p.parts[0][0];
    }
  }

  /** The name of dir/f is f, whatever dir is. */
  lemma NameOfFile(dir: string, f: string)
    requires IsComponent(f)
    ensures Name(Parse(dir + "/" + f)) == f
  {
    SplitJoin(dir, f);
    SplitNoSlash(f);
    ComponentsAppend(Split(dir), [f]);
  }

  /** base / rel is named after rel's last component when rel has one. */
  lemma NameOfJoin(base: Path, rel: string)
    requires Parse(rel).parts != []
    ensures Name(Join(base, rel)) == Name(Parse(rel))
  {
  }

  /** Joining a relative string is pathlib's parse of the base's str() followed by "/" and the string. */
  lemma JoinIsConcatenation(base: Path, rel: string)
    requires WellFormed(base)
    requires !Parse(rel).rooted
    ensures Join(base, rel) == Parse(Render(base) + "/" + rel)
  {
    var b := Render(base);
    var s := b + "/" + rel;
    ParseRender(base);
    SplitJoin(b, rel);
    ComponentsAppend(Split(b), Split(rel));
    assert |b| > 0 && s[0] == b[0];
  }
}
