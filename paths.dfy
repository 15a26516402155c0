/** Paths. The script builds paths as strings (`TARGET_FOLDER + "/" + name`,
    `os.path.join`); the filesystem resolves them component by component.
    `SplitPath` is that resolution: empty and "." components vanish, so
    "a//b/./c" and "a/b/c" name the same entry. */
module Paths {
  import opened Text

  type Path = seq<string>

  /** A component the filesystem can hold. */
  predicate GoodName(n: string) {
    n != "" && n != "." && '/' !in n
  }

  function Keep(c: string): (r: Path)
    ensures forall i :: 0 <= i < |r| ==> GoodName(r[i])
    requires '/' !in c
  {
    if c == "" || c == "." then [] else [c]
  }

  function SplitFrom(s: string, acc: string): (r: Path)
    requires '/' !in acc
    ensures forall i :: 0 <= i < |r| ==> GoodName(r[i])
  {
    if s == [] then Keep(acc)
    else if s[0] == '/' then Keep(acc) + SplitFrom(s[1..], "")
    else SplitFrom(s[1..], acc + [s[0]])
  }

  /** The components a path string names. */
  function SplitPath(s: string): (r: Path)
    ensures forall i :: 0 <= i < |r| ==> GoodName(r[i])
  {
    SplitFrom(s, "")
  }

  lemma {:induction false} SplitFromSlash(a: string, b: string, acc: string)
    requires '/' !in acc
    ensures SplitFrom(a + "/" + b, acc) == SplitFrom(a, acc) + SplitFrom(b, "")
    decreases |a|
  {
    if a == [] {
      assert a + "/" + b == "/" + b;
      assert ("/" + b)[1..] == b;
    } else {
      assert (a + "/" + b)[0] == a[0];
      assert (a + "/" + b)[1..] == a[1..] + "/" + b;
      if a[0] == '/' {
        SplitFromSlash(a[1..], b, "");
      } else {
        SplitFromSlash(a[1..], b, acc + [a[0]]);
      }
    }
  }

  /** Joining with "/" concatenates the components. */
  lemma SplitSlash(a: string, b: string)
    ensures SplitPath(a + "/" + b) == SplitPath(a) + SplitPath(b)
  {
    SplitFromSlash(a, b, "");
  }

  lemma {:induction false} SplitFromWord(n: string, acc: string)
    requires '/' !in n && '/' !in acc
    ensures SplitFrom(n, acc) == Keep(acc + n)
    decreases |n|
  {
    if n == [] {
      assert acc + n == acc;
    } else {
      assert acc + n == (acc + [n[0]]) + n[1..];
      SplitFromWord(n[1..], acc + [n[0]]);
    }
  }

  /** A good name is one component. */
  lemma SplitName(n: string)
    requires GoodName(n)
    ensures SplitPath(n) == [n]
  {
    SplitFromWord(n, "");
    assert "" + n == n;
  }

  /** The path `TARGET_FOLDER + "/" + a + "/" + b` the script builds from
      good names. */
  lemma SplitUnder2(root: string, a: string, b: string)
    requires GoodName(a) && GoodName(b)
    ensures SplitPath(root + "/" + a + "/" + b) == SplitPath(root) + [a, b]
  {
    SplitSlash(root + "/" + a, b);
    SplitSlash(root, a);
    SplitName(a);
    SplitName(b);
  }

  function Parent(p: Path): Path
    requires p != []
  {
    p[..|p| - 1]
  }

  /** `p` is `q` or an ancestor of it. */
  predicate IsPrefix(p: Path, q: Path) {
    |p| <= |q| && q[..|p|] == p
  }

  /** Where a symlink at `at` whose text is `target` points: an absolute
      target as it is, a relative one against the link's own directory. */
  function ResolveLink(at: Path, target: string): Path
    requires at != []
  {
    if StartsWith(target, "/") then SplitPath(target) else Parent(at) + SplitPath(target)
  }

  /** `os.path.join(a, b)` for a relative `b`. */
  function Join(a: string, b: string): string {
    if a == "" || EndsWith(a, "/") then a + b else a + "/" + b
  }

  /** `os.path.splitext(p)[0]`: `p` without the extension of its last
      component; a leading run of dots in that component is not an
      extension. */
  function SplitExtRoot(p: string): (r: string)
    ensures |r| <= |p| && r == p[..|r|]
  {
    var sep := LastIndexOf(p, '/');
    var start := if sep == |p| then 0 else sep + 1;
    var dot := LastIndexOf(p, '.');
    if dot < |p| && start <= dot && exists k :: start <= k < dot && p[k] != '.' then p[..dot]
    else p
  }

  /** The extension is dropped when the last component has a stem. */
  lemma SplitExtDrops(base: string, ext: string)
    requires '.' !in ext && '/' !in ext
    requires exists k :: 0 <= k < |base| && base[k] != '.' && base[k] != '/' && '/' !in base[k..]
    ensures SplitExtRoot(base + "." + ext) == base
  {
    var p := base + "." + ext;
    var k :| 0 <= k < |base| && base[k] != '.' && base[k] != '/' && '/' !in base[k..];
    assert p[|base|] == '.';
    assert forall j :: |base| < j < |p| ==> p[j] == ext[j - |base| - 1];
    var dot := LastIndexOf(p, '.');
    assert dot == |base|;
    var sep := LastIndexOf(p, '/');
    assert p[k] == base[k];
    assert forall j :: k <= j < |p| ==> p[j] != '/' by {
      forall j | k <= j < |p| ensures p[j] != '/' {
        if j < |base| { assert p[j] == base[j] && base[j] in base[k..]; }
      }
    }
    assert sep == |p| || sep < k;
    assert p[..dot] == base;
  }
}
