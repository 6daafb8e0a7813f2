/**
 * Unix path handling as Rust's `std::path` does it: `PathBuf::join`, the component
 * view behind `Path::starts_with` / `Path::strip_prefix`, and the facts the ledger
 * migration relies on.
 */
module Paths {

  /** `PathBuf::join` on Unix: an absolute `rel` replaces `base`; otherwise a separator is
      inserted unless `base` is empty or already ends with one. */
  function Join(base: string, rel: string): (r: string)
    ensures rel != [] && rel[0] == '/' ==> r == rel
    ensures (rel == [] || rel[0] != '/') && base != [] && base[|base| - 1] != '/' ==> r == base + "/" + rel
  {
    if rel != [] && rel[0] == '/' then rel
    else if base == [] || base[|base| - 1] == '/' then base + rel
    else base + "/" + rel
  }

  /** `std::path::Component` without the Windows prefix. */
  datatype Component = RootDir | CurDir | ParentDir | Normal(name: string)

  /** The text between separators, empty pieces included. */
  function Split(s: string): (r: seq<string>)
    ensures |r| >= 1
    ensures forall i :: 0 <= i < |r| ==> '/' !in r[i]
  {
    if s == [] then [""]
    else
      var rest := Split(s[1..]);
      if s[0] == '/' then [""] + rest else [[s[0]] + rest[0]] + rest[1..]
  }

  /** A piece inside a path: empty pieces and `.` vanish, `..` is the parent. */
  function Piece(seg: string): seq<Component> {
    if seg == "" || seg == "." then [] else if seg == ".." then [ParentDir] else [Normal(seg)]
  }

  function Body(segs: seq<string>): seq<Component> {
    if segs == [] then [] else Piece(segs[0]) + Body(segs[1..])
  }

  /** `Path::components`: a leading `/` is the root; a leading `.` piece of a relative
      path is kept as `CurDir`; repeated separators and inner `.` pieces are dropped. */
  function Components(p: string): seq<Component> {
    if p != [] && p[0] == '/' then [RootDir] + Body(Split(p[1..])) else Relative(Split(p))
  }

  function Relative(segs: seq<string>): seq<Component>
    requires segs != []
  {
    if segs[0] == "." then [CurDir] + Body(segs[1..]) else Body(segs)
  }

  /** `Path::starts_with`: component-wise prefix. */
  predicate ComponentsStartWith(p: string, base: string) {
    var a, b := Components(p), Components(base);
    |b| <= |a| && a[..|b|] == b
  }

  function Text(c: Component): string {
    match c
    case RootDir => "/"
    case CurDir => "."
    case ParentDir => ".."
    case Normal(n) => n
  }

  /** Components written back as a relative path, separated by single slashes. */
  function RenderRelative(cs: seq<Component>): string {
    if cs == [] then ""
    else if |cs| == 1 then Text(cs[0])
    else Text(cs[0]) + "/" + RenderRelative(cs[1..])
  }

  function Render(cs: seq<Component>): string {
    if cs != [] && cs[0] == RootDir then "/" + RenderRelative(cs[1..]) else RenderRelative(cs)
  }

  /** `Path::strip_prefix` for a path that starts with `base`. */
  function StripPrefix(p: string, base: string): string
    requires ComponentsStartWith(p, base)
  {
    Render(Components(p)[|Components(base)|..])
  }

  /** A component that can follow the first one of a parsed path. */
  predicate Inner(c: Component) {
    c == ParentDir || (c.Normal? && c.name != "" && c.name != "." && c.name != ".." && '/' !in c.name)
  }

  //---------------------------------------------------------------- lemmas

  lemma {:induction false} SplitConcat(a: string, b: string)
    ensures Split(a + "/" + b) == Split(a) + Split(b)
    decreases |a|
  {
    if a == [] {
      assert a + "/" + b == "/" + b;
      assert ("/" + b)[1..] == b;
    } else {
      assert (a + "/" + b)[1..] == a[1..] + "/" + b;
      SplitConcat(a[1..], b);
    }
  }

  lemma {:induction false} SplitNoSlash(a: string)
    requires '/' !in a
    ensures Split(a) == [a]
    decreases |a|
  {
    if a != [] {
      assert '/' !in a[1..] by { assert forall i :: 0 <= i < |a[1..]| ==> a[1..][i] == a[i + 1]; }
      SplitNoSlash(a[1..]);
      assert [a[0]] + a[1..] == a;
    }
  }

  lemma {:induction false} BodyConcat(x: seq<string>, y: seq<string>)
    ensures Body(x + y) == Body(x) + Body(y)
    decreases |x|
  {
    if x == [] {
      assert x + y == y;
    } else {
      assert (x + y)[0] == x[0];
      assert (x + y)[1..] == x[1..] + y;
      BodyConcat(x[1..], y);
    }
  }

  lemma {:induction false} BodyInner(segs: seq<string>)
    requires forall i :: 0 <= i < |segs| ==> '/' !in segs[i]
    ensures forall j :: 0 <= j < |Body(segs)| ==> Inner(Body(segs)[j])
    decreases |segs|
  {
    if segs != [] {
      BodyInner(segs[1..]);
    }
  }

  /** Every component after the first is an inner one. */
  lemma ComponentsTailInner(p: string)
    ensures forall j :: 1 <= j < |Components(p)| ==> Inner(Components(p)[j])
  {
    if p != [] && p[0] == '/' {
      BodyInner(Split(p[1..]));
    } else {
      var segs := Split(p);
      BodyInner(segs);
      if segs[0] == "." {
        BodyInner(segs[1..]);
      }
    }
  }

  lemma {:induction false} RenderRelativeParses(cs: seq<Component>)
    requires forall j :: 0 <= j < |cs| ==> Inner(cs[j])
    ensures Body(Split(RenderRelative(cs))) == cs
    ensures Split(RenderRelative(cs))[0] != "."
    ensures RenderRelative(cs) == [] || RenderRelative(cs)[0] != '/'
    decreases |cs|
  {
    if cs == [] {
      assert Split("") == [""];
    } else {
      var head := Text(cs[0]);
      assert Inner(cs[0]);
      assert '/' !in head && head != "" && head != "." && Piece(head) == [cs[0]];
      SplitNoSlash(head);
      if |cs| == 1 {
        assert RenderRelative(cs) == head;
        assert Body([head]) == Piece(head) + Body([]);
      } else {
        var tail := RenderRelative(cs[1..]);
        RenderRelativeParses(cs[1..]);
        assert RenderRelative(cs) == head + "/" + tail;
        SplitConcat(head, tail);
        assert Split(RenderRelative(cs)) == [head] + Split(tail);
        BodyConcat([head], Split(tail));
        assert Body([head]) == Piece(head) + Body([]);
        assert cs == [cs[0]] + cs[1..];
      }
    }
  }

  /** Joining below a non-empty path appends the pieces of the joined text. */
  lemma JoinBelow(x: string, y: string)
    requires x != []
    ensures Components(x + "/" + y) == Components(x) + Body(Split(y))
  {
    if x[0] == '/' {
      JoinBelowRooted(x, y);
    } else {
      JoinBelowRelative(x, y);
    }
  }

  lemma JoinBelowRooted(x: string, y: string)
    requires x != [] && x[0] == '/'
    ensures Components(x + "/" + y) == Components(x) + Body(Split(y))
  {
    var xy := x + "/" + y;
    assert xy[0] == '/';
    assert xy[1..] == x[1..] + "/" + y;
    SplitConcat(x[1..], y);
    BodyConcat(Split(x[1..]), Split(y));
  }

  lemma JoinBelowRelative(x: string, y: string)
    requires x != [] && x[0] != '/'
    ensures Components(x + "/" + y) == Components(x) + Body(Split(y))
  {
    var xy := x + "/" + y;
    assert xy[0] == x[0];
    SplitConcat(x, y);
    RelativeConcat(Split(x), Split(y));
  }

  lemma RelativeConcat(a: seq<string>, b: seq<string>)
    requires a != []
    ensures Relative(a + b) == Relative(a) + Body(b)
  {
    assert (a + b)[0] == a[0];
    if a[0] == "." {
      assert (a + b)[1..] == a[1..] + b;
      BodyConcat(a[1..], b);
    } else {
      BodyConcat(a, b);
    }
  }

  /** `base.join(rel)` for relative `rel` has `base`'s components followed by `rel`'s pieces. */
  lemma JoinComponents(base: string, rel: string)
    requires rel == [] || rel[0] != '/'
    requires Split(rel)[0] != "."
    ensures Components(Join(base, rel)) == Components(base) + Body(Split(rel))
  {
    if base == [] {
      assert Join(base, rel) == rel;
    } else if base == "/" {
      JoinRoot(rel);
    } else if base[|base| - 1] == '/' {
      JoinAfterSlash(base, rel);
    } else {
      JoinBelow(base, rel);
    }
  }

  lemma JoinRoot(rel: string)
    requires rel == [] || rel[0] != '/'
    ensures Components(Join("/", rel)) == Components("/") + Body(Split(rel))
  {
    assert Join("/", rel) == "/" + rel;
    assert ("/" + rel)[1..] == rel;
    assert Split("/"[1..]) == [""];
    assert Body([""]) == Piece("") + Body([]);
  }

  lemma JoinAfterSlash(base: string, rel: string)
    requires |base| > 1 && base[|base| - 1] == '/'
    requires rel == [] || rel[0] != '/'
    ensures Components(Join(base, rel)) == Components(base) + Body(Split(rel))
  {
    var b' := base[..|base| - 1];
    assert base == b' + "/";
    assert Join(base, rel) == b' + "/" + rel;
    JoinBelow(b', rel);
    TrailingSlashIgnored(b');
  }

  /** A trailing `/` adds no component. */
  lemma TrailingSlashIgnored(x: string)
    requires x != []
    ensures Components(x + "/") == Components(x)
  {
    JoinBelow(x, "");
    assert x + "/" + "" == x + "/";
    assert Body([""]) == Piece("") + Body([]);
  }

  /**
   * Replacing a non-empty matched prefix: `newBase.join(p.strip_prefix(oldBase))` has the
   * components of `newBase` followed by those of `p` after the `oldBase` prefix.
   */
  lemma ReplacePrefixComponents(p: string, oldBase: string, newBase: string)
    requires ComponentsStartWith(p, oldBase)
    requires Components(oldBase) != []
    ensures Components(Join(newBase, StripPrefix(p, oldBase))) ==
            Components(newBase) + Components(p)[|Components(oldBase)|..]
  {
    var rest := Components(p)[|Components(oldBase)|..];
    ComponentsTailInner(p);
    assert forall j :: 0 <= j < |rest| ==> Inner(rest[j]) by {
      forall j | 0 <= j < |rest| ensures Inner(rest[j]) {
        assert rest[j] == Components(p)[|Components(oldBase)| + j];
      }
    }
    assert StripPrefix(p, oldBase) == RenderRelative(rest);
    RenderRelativeParses(rest);
    JoinComponents(newBase, RenderRelative(rest));
  }
}
