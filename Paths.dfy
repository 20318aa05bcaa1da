/**
  Path helpers: joining a directory and a file name (as Node's `path.join`
  does for a plain file name), the last segment of a path, and the top level
  of a directory tree given as a map from relative path to file contents.
 */
module Paths {
  import opened Strings

  /** A directory tree: relative path (segments separated by '/') to contents. */
  type Tree = map<string, string>

  /** A name that can stand at the top level of a directory: one non-empty segment. */
  predicate IsPlainName(name: string)
  {
    name != "" && '/' !in name
  }

  /** The directory path followed by the file name, with exactly one '/' between them. */
  function Join(dir: string, name: string): (p: string)
    ensures StartsWith(p, dir) && EndsWith(p, name)
    ensures dir != "" ==> |p| > |dir| + |name| - 1 && p[|p| - |name| - 1] == '/'
  {
    if dir == "" then name
    else if dir[|dir| - 1] == '/' then dir + name
    else dir + "/" + name
  }

  /** The last segment of a path: everything after its last '/'. */
  function BaseName(p: string): (b: string)
    ensures '/' !in b && EndsWith(p, b)
    ensures b == p || (|b| < |p| && p[|p| - |b| - 1] == '/')
  {
    if p == "" || p[|p| - 1] == '/' then ""
    else
      var front, last := p[..|p| - 1], p[|p| - 1];
      assert p == front + [last];
      BaseNameStep(front, BaseName(front), last);
      BaseName(front) + [last]
  }

  /** Extending a path by a character other than '/' extends its last segment by that character. */
  lemma BaseNameStep(front: string, b: string, last: char)
    requires last != '/' && '/' !in b && EndsWith(front, b)
    requires b == front || (|b| < |front| && front[|front| - |b| - 1] == '/')
    ensures '/' !in b + [last] && EndsWith(front + [last], b + [last])
    ensures var p, b' := front + [last], b + [last];
      b' == p || (|b'| < |p| && p[|p| - |b'| - 1] == '/')
  {
    assert (front + [last])[|front| - |b|..] == front[|front| - |b|..] + [last];
  }

  /** A '/'-free name placed right after a '/' (or at the very start) is the base name. */
  lemma {:induction false} BaseNameOfSuffix(front: string, name: string)
    requires '/' !in name
    requires front == "" || front[|front| - 1] == '/'
    ensures BaseName(front + name) == name
    decreases |name|
  {
    if name == "" {
      assert front + name == front;
    } else {
      var n', last := name[..|name| - 1], name[|name| - 1];
      assert name == n' + [last];
      assert '/' !in n' && last != '/' by {
        assert forall c :: c in n' ==> c in name;
        assert last in name;
      }
      BaseNameOfSuffix(front, n');
      var p := front + name;
      assert p == (front + n') + [last];
      assert p[..|p| - 1] == front + n' && p[|p| - 1] == last;
    }
  }

  /** Joining a plain name onto any directory and taking the base name gives the name back. */
  lemma JoinBaseName(dir: string, name: string)
    requires IsPlainName(name)
    ensures BaseName(Join(dir, name)) == name
  {
    if dir == "" {
      BaseNameOfSuffix("", name);
      assert "" + name == name;
    } else if dir[|dir| - 1] == '/' {
      BaseNameOfSuffix(dir, name);
    } else {
      BaseNameOfSuffix(dir + "/", name);
    }
  }

  /** The entries of a tree that stand at its top level, i.e. not inside a sub-directory. */
  function TopLevel(tree: Tree): (top: map<string, string>)
    ensures forall name :: name in top ==> IsPlainName(name) && name in tree && top[name] == tree[name]
    ensures forall name :: name in tree && IsPlainName(name) ==> name in top
  {
    map name | name in tree && IsPlainName(name) :: tree[name]
  }
}
