/**
 * The three `path` operations of the model: `dirname`, `basename` and
 * `join`. Both `\` and `/` separate components; `join` puts a `\` between its
 * two arguments, as it does on Windows, where the updaters run.
 */
module Paths {

  predicate IsSeparator(c: char) {
    c == '\\' || c == '/'
  }

  predicate HasNoSeparator(s: string) {
    forall i :: 0 <= i < |s| ==> !IsSeparator(s[i])
  }

  /** The position of the last separator of `p`, or -1 when there is none. */
  function LastSeparator(p: string): (r: int)
    ensures -1 <= r < |p|
    ensures r == -1 ==> HasNoSeparator(p)
    ensures r >= 0 ==> IsSeparator(p[r]) && HasNoSeparator(p[r + 1..])
    decreases |p|
  {
    if p == [] then -1
    else if IsSeparator(p[|p| - 1]) then |p| - 1
    else
      var init := p[..|p| - 1];
      var r := LastSeparator(init);
      assert p == init + [p[|p| - 1]];
      if r == -1 then
        HasNoSeparatorSnoc(init, p[|p| - 1]);
        r
      else
        assert p[r + 1..] == init[r + 1..] + [p[|p| - 1]];
        HasNoSeparatorSnoc(init[r + 1..], p[|p| - 1]);
        r
  }

  lemma HasNoSeparatorSnoc(s: string, c: char)
    requires HasNoSeparator(s) && !IsSeparator(c)
    ensures HasNoSeparator(s + [c])
  {
    assert forall i :: 0 <= i < |s| ==> (s + [c])[i] == s[i];
  }

  /** `path.dirname`: everything before the last separator ("." when there is none). */
  function Dirname(p: string): string {
    var k := LastSeparator(p);
    if k == -1 then "." else p[..k]
  }

  /** `path.basename`: everything after the last separator. */
  function Basename(p: string): (r: string)
    ensures HasNoSeparator(r)
  {
    p[LastSeparator(p) + 1..]
  }

  /** `path.join(dir, name)`. */
  function PathJoin(dir: string, name: string): string {
    dir + "\\" + name
  }

  /** The last separator of `dir\name` is the one `join` put there, when `name` has none. */
  lemma {:induction false} LastSeparatorOfJoin(dir: string, name: string)
    requires HasNoSeparator(name)
    ensures LastSeparator(PathJoin(dir, name)) == |dir|
    decreases |name|
  {
    var p := PathJoin(dir, name);
    if name == [] {
      assert p[|p| - 1] == '\\';
    } else {
      var shorter := name[..|name| - 1];
      assert p[|p| - 1] == name[|name| - 1];
      assert p[..|p| - 1] == PathJoin(dir, shorter);
      LastSeparatorOfJoin(dir, shorter);
    }
  }

  /** `dirname` and `basename` recover the two arguments of `join`. */
  lemma SplitJoin(dir: string, name: string)
    requires HasNoSeparator(name)
    ensures Dirname(PathJoin(dir, name)) == dir
    ensures Basename(PathJoin(dir, name)) == name
  {
    LastSeparatorOfJoin(dir, name);
  }

  /** Joining `dirname` and `basename` gives back a path whose last separator is `\`. */
  lemma JoinSplit(p: string)
    requires LastSeparator(p) >= 0 && p[LastSeparator(p)] == '\\'
    ensures PathJoin(Dirname(p), Basename(p)) == p
  {
    var k := LastSeparator(p);
    assert p == p[..k] + "\\" + p[k + 1..];
  }
}
