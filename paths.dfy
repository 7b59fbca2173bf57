/**
 * POSIX path strings as the scripts build and take them apart: `os.path.join`
 * (and pathlib's `/` on an absolute, normalised base) and `os.path.dirname`.
 */
module Paths {

  /** `os.path.join(a, b)`: an absolute `b` replaces `a`; otherwise one '/' separates them. */
  function Join(a: string, b: string): string
  {
    if b != [] && b[0] == '/' then b
    else if a == [] || a[|a| - 1] == '/' then a + b
    else a + "/" + b
  }

  /** `p.rfind('/') + 1`: the length of the longest prefix of `p` that ends in '/', 0 when there is none. */
  function HeadLength(p: string): (k: nat)
    ensures k <= |p|
    ensures k > 0 ==> p[k - 1] == '/'
    ensures forall j :: k <= j < |p| ==> p[j] != '/'
    decreases |p|
  {
    if p == [] then 0
    else if p[|p| - 1] == '/' then |p|
    else HeadLength(p[..|p| - 1])
  }

  /** `s.rstrip('/')` */
  function TrimSlashes(s: string): (r: string)
    ensures r <= s
    ensures r == [] || r[|r| - 1] != '/'
    ensures forall j :: |r| <= j < |s| ==> s[j] == '/'
    decreases |s|
  {
    if s != [] && s[|s| - 1] == '/' then TrimSlashes(s[..|s| - 1]) else s
  }

  predicate AllSlashes(s: string)
  {
    forall j :: 0 <= j < |s| ==> s[j] == '/'
  }

  /**
   * `posixpath.dirname(p)`: everything up to the last '/', with the trailing
   * slashes removed unless nothing but slashes is left.
   */
  function DirName(p: string): (r: string)
    ensures r <= p
    ensures forall j :: |r| <= j < |p| && j >= HeadLength(p) ==> p[j] != '/'
  {
    var head := p[..HeadLength(p)];
    if head != [] && !AllSlashes(head) then TrimSlashes(head) else head
  }

  /** The directory of `Join(dir, name)` is `dir` again, for a directory without a trailing '/' and a plain name. */
  lemma DirNameOfChild(dir: string, name: string)
    requires dir != [] && dir[|dir| - 1] != '/'
    requires name != [] && forall j :: 0 <= j < |name| ==> name[j] != '/'
    ensures Join(dir, name) == dir + "/" + name
    ensures DirName(Join(dir, name)) == dir
  {
    var p := dir + "/" + name;
    assert p[|dir|] == '/';
    var k := HeadLength(p);
    assert k == |dir| + 1;
    var head := p[..k];
    assert head == dir + "/";
    assert !AllSlashes(head) by {
      assert head[|dir| - 1] == dir[|dir| - 1];
    }
    var r := TrimSlashes(head);
    assert |r| == |dir|;
    assert r == dir;
  }

  /** A relative name without a leading or trailing '/'. */
  predicate Plain(a: string)
  {
    a != [] && a[0] != '/' && a[|a| - 1] != '/'
  }

  /** Joining two plain names one after the other is joining the relative path they make. */
  lemma JoinTwice(root: string, a: string, b: string)
    requires Plain(a) && Plain(b)
    ensures Join(Join(root, a), b) == Join(root, a + "/" + b)
    ensures Plain(a + "/" + b)
  {
    var ra := Join(root, a);
    assert ra[|ra| - 1] == a[|a| - 1];
    assert (a + "/" + b)[0] == a[0];
  }

}
