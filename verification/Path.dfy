/** Path resolution: skippath, traverse_inode and traverse_inode_parent of
  kernel/ext2.c, over any directory tree. */
module Path {
  import opened Dirent
  import opened Options

  const SLASH: Byte := 47

  /** ext2_search_dir followed by ext2_get_inode, and S_ISDIR. */
  datatype Tree = Tree(look: (nat, seq<Byte>) -> Option<nat>, isDir: nat -> bool)

  // ---- The meaning of a path

  /** The non-empty pieces between slashes, `cur` being the piece under way. */
  function Words(p: seq<Byte>, cur: seq<Byte>): seq<seq<Byte>>
    decreases |p|
  {
    if p == [] then
      if cur == [] then [] else [cur]
    else if p[0] == SLASH then
      (if cur == [] then [] else [cur]) + Words(p[1..], [])
    else
      Words(p[1..], cur + [p[0]])
  }

  function Components(p: seq<Byte>): seq<seq<Byte>> {
    Words(p, [])
  }

  /** skippath takes names that fit its buffer without the NUL. */
  predicate TooLong(name: seq<Byte>) {
    |name| > NAMEMAX + 1
  }

  /** One lookup per component; a name that is too long fails, and a file in the middle
      of a path ends the walk there. */
  function Fold(t: Tree, pi: nat, comps: seq<seq<Byte>>): Option<nat>
    decreases |comps|
  {
    if comps == [] then Some(pi)
    else if TooLong(comps[0]) then None
    else if !t.isDir(pi) then Some(pi)
    else match t.look(pi, comps[0])
      case None => None
      case Some(next) => Fold(t, next, comps[1..])
  }

  /** The last step of a walk: the name in the directory, or the file itself. */
  function LookOne(t: Tree, pi: nat, name: seq<Byte>): Option<nat> {
    if t.isDir(pi) then t.look(pi, name) else Some(pi)
  }

  // ---- skippath

  predicate NoSlash(s: seq<Byte>) {
    forall i :: 0 <= i < |s| ==> s[i] != SLASH
  }

  predicate AllSlash(s: seq<Byte>) {
    forall i :: 0 <= i < |s| ==> s[i] == SLASH
  }

  /** p is slashes, then a name, then nothing or a slash and the rest. */
  predicate Parsed(p: seq<Byte>, k: nat, name: seq<Byte>, rest: seq<Byte>) {
    && k <= |p| && AllSlash(p[..k]) && NoSlash(name)
    && ((p[k..] == name && rest == []) || p[k..] == name + [SLASH] + rest)
    && (name == [] ==> p[k..] == [])
  }

  lemma {:induction false} WordsName(w: seq<Byte>, rest: seq<Byte>, cur: seq<Byte>)
    requires NoSlash(w)
    ensures Words(w, cur) == if cur + w == [] then [] else [cur + w]
    ensures Words(w + [SLASH] + rest, cur) == (if cur + w == [] then [] else [cur + w]) + Components(rest)
    decreases |w|
  {
    var p := w + [SLASH] + rest;
    if w == [] {
      assert p == [SLASH] + rest && p[1..] == rest;
      assert cur + w == cur;
    } else {
      assert p[1..] == w[1..] + [SLASH] + rest;
      assert cur + [w[0]] + w[1..] == cur + w;
      WordsName(w[1..], rest, cur + [w[0]]);
    }
  }

  lemma {:induction false} WordsSlashes(p: seq<Byte>, k: nat)
    requires k <= |p| && AllSlash(p[..k])
    ensures Components(p) == Components(p[k..])
    decreases k
  {
    if k == 0 {
      assert p[0..] == p;
    } else {
      assert p[0] == p[..k][0] && p[1..][..k - 1] == p[..k][1..];
      WordsSlashes(p[1..], k - 1);
      assert p[1..][k - 1..] == p[k..];
    }
  }

  /** What skippath cuts off is the first component. */
  lemma ParsedComponents(p: seq<Byte>, k: nat, name: seq<Byte>, rest: seq<Byte>)
    requires Parsed(p, k, name, rest)
    ensures Components(p) == if name == [] then [] else [name] + Components(rest)
    ensures name != [] ==> |rest| < |p|
  {
    WordsSlashes(p, k);
    WordsName(name, rest, []);
    assert [] + name == name;
  }

  /** skippath: the first component, and what follows its slash.  None is the error
      return for a component that is too long. */
  method SkipPath(path: seq<Byte>) returns (r: Option<(seq<Byte>, seq<Byte>)>, ghost k: nat)
    ensures r.Some? ==> Parsed(path, k, r.value.0, r.value.1) && !TooLong(r.value.0)
    ensures r.None? ==> Components(path) != [] && TooLong(Components(path)[0])
  {
    var i := 0;
    while i < |path| && path[i] == SLASH
      invariant 0 <= i <= |path| && AllSlash(path[..i])
    {
      i := i + 1;
    }
    k := i;
    var name := [];
    var len := 0;
    while i < |path| && path[i] != SLASH
      invariant k <= i <= |path| && name == path[k..i] && NoSlash(name) && len == |name| <= NAMEMAX + 1
      invariant i == k ==> i == |path| || path[i] != SLASH
    {
      name := name + [path[i]];
      i := i + 1;
      len := len + 1;
      assert name == path[k..i];
      if len > NAMEMAX + 1 {
        LongComponent(path, k, i);
        return None, k;
      }
    }
    if i < |path| {
      i := i + 1;
      assert path[k..] == name + [SLASH] + path[i..];
    } else {
      assert path[k..] == name && path[i..] == [];
    }
    return Some((name, path[i..])), k;
  }

  lemma {:induction false} WordsFirst(p: seq<Byte>, n: nat, cur: seq<Byte>)
    requires n <= |p| && NoSlash(p[..n]) && |cur| + n > 0
    ensures Words(p, cur) != [] && |Words(p, cur)[0]| >= |cur| + n
    decreases |p|
  {
    assert n > 0 ==> p[0] == p[..n][0];
    if p != [] && p[0] != SLASH {
      if n > 0 {
        assert p[1..][..n - 1] == p[..n][1..];
      } else {
        assert p[1..][..0] == [];
      }
      WordsFirst(p[1..], if n > 0 then n - 1 else 0, cur + [p[0]]);
    }
  }

  lemma LongComponent(p: seq<Byte>, k: nat, i: nat)
    requires k < i <= |p| && AllSlash(p[..k]) && NoSlash(p[k..i])
    ensures Components(p) != [] && |Components(p)[0]| >= i - k
  {
    WordsSlashes(p, k);
    assert p[k..][..i - k] == p[k..i];
    WordsFirst(p[k..], i - k, []);
  }

  // ---- traverse_inode

  /** traverse_inode is the fold of directory lookup over the components. */
  method Traverse(t: Tree, pi: nat, path: seq<Byte>) returns (r: Option<nat>)
    ensures r == Fold(t, pi, Components(path))
    decreases |path|
  {
    var parsed;
    ghost var k;
    parsed, k := SkipPath(path);
    match parsed {
      case None => return None;
      case Some((name, rest)) =>
        ParsedComponents(path, k, name, rest);
        if rest == [] && name == [] {
          return Some(pi);
        }
        if !t.isDir(pi) {
          return Some(pi);
        }
        var next := t.look(pi, name);
        if next.None? {
          return None;
        }
        assert Components(path)[1..] == Components(rest);
        r := Traverse(t, next.value, rest);
    }
  }

  // ---- traverse_inode_parent

  /** The path ends in two slashes or more. */
  predicate Doubled(p: seq<Byte>) {
    |p| >= 2 && p[|p| - 1] == SLASH && p[|p| - 2] == SLASH
  }

  /** The walk to the parent stops before the last lookup, with the last name; after
      a doubled slash it makes that lookup too, and has no name left. */
  function FoldParent(t: Tree, pi: nat, comps: seq<seq<Byte>>, doubled: bool): Option<(nat, seq<Byte>)>
    decreases |comps|
  {
    if comps == [] then Some((pi, []))
    else if TooLong(comps[0]) then None
    else if |comps| == 1 && !doubled then Some((pi, comps[0]))
    else if !t.isDir(pi) then Some((pi, comps[0]))
    else match t.look(pi, comps[0])
      case None => None
      case Some(next) => FoldParent(t, next, comps[1..], doubled)
  }

  lemma DoubledRest(p: seq<Byte>, k: nat, name: seq<Byte>, rest: seq<Byte>)
    requires Parsed(p, k, name, rest) && name != []
    ensures rest == [] ==> !Doubled(p)
    ensures rest != [] && Components(rest) == [] ==> Doubled(p)
    ensures Components(rest) != [] ==> rest != [] && Doubled(p) == Doubled(rest)
  {
    var q := p[k..];
    assert forall i :: 0 <= i < |q| ==> q[i] == p[k + i];
    if rest != [] {
      assert q == name + [SLASH] + rest;
      assert q[|q| - 1] == rest[|rest| - 1];
      assert q[|name|] == SLASH;
      if |rest| >= 2 {
        assert q[|q| - 2] == rest[|rest| - 2];
      }
      if Components(rest) == [] {
        NoComponents(rest);
      } else if |rest| == 1 {
        assert rest[1..] == [];
        assert rest[0] == SLASH ==> Components(rest) == Words([], []);
      }
    } else {
      assert name[|name| - 1] != SLASH;
      assert q == name || q == name + [SLASH];
    }
  }

  lemma {:induction false} NoComponents(p: seq<Byte>)
    requires Components(p) == []
    ensures AllSlash(p)
    decreases |p|
  {
    if p != [] {
      if p[0] == SLASH {
        NoComponents(p[1..]);
      } else {
        assert NoSlash(p[..1]);
        WordsFirst(p, 1, []);
      }
    }
  }

  method TraverseParent(t: Tree, pi: nat, path: seq<Byte>) returns (r: Option<(nat, seq<Byte>)>)
    ensures r == FoldParent(t, pi, Components(path), Doubled(path))
    decreases |path|
  {
    var parsed;
    ghost var k;
    parsed, k := SkipPath(path);
    match parsed {
      case None => return None;
      case Some((name, rest)) =>
        ParsedComponents(path, k, name, rest);
        if name != [] {
          DoubledRest(path, k, name, rest);
        }
        if rest == [] {
          return Some((pi, name));
        }
        if !t.isDir(pi) {
          return Some((pi, name));
        }
        var next := t.look(pi, name);
        if next.None? {
          return None;
        }
        assert Components(path)[1..] == Components(rest);
        r := TraverseParent(t, next.value, rest);
    }
  }

  /** Looking the returned name up in the returned directory is resolving the path. */
  predicate Agrees(t: Tree, pi: nat, comps: seq<seq<Byte>>, doubled: bool) {
    Fold(t, pi, comps) == match FoldParent(t, pi, comps, doubled)
      case None => None
      case Some((dir, name)) => LookOne(t, dir, name)
  }

  lemma {:induction false} OneLookup(t: Tree, pi: nat, comps: seq<seq<Byte>>)
    requires comps != []
    ensures Agrees(t, pi, comps, false)
    decreases |comps|
  {
    if t.isDir(pi) && !TooLong(comps[0]) {
      var next := t.look(pi, comps[0]);
      if |comps| == 1 {
        assert comps[1..] == [];
      } else if next.Some? {
        OneLookup(t, next.value, comps[1..]);
      }
    }
  }

  /** A tree in which every name but the empty one leads back to the start. */
  function Loop(): Tree {
    Tree((d: nat, name: seq<Byte>) => if name == [] then None else Some(d), d => true)
  }

  lemma {:induction false} LoopFolds(pi: nat, comps: seq<seq<Byte>>)
    requires forall i :: 0 <= i < |comps| ==> comps[i] != [] && !TooLong(comps[i])
    ensures Fold(Loop(), pi, comps) == Some(pi) && FoldParent(Loop(), pi, comps, true) == Some((pi, []))
    decreases |comps|
  {
    if comps != [] {
      LoopFolds(pi, comps[1..]);
    }
  }

  lemma {:induction false} WordsNonEmpty(p: seq<Byte>, cur: seq<Byte>)
    ensures forall i :: 0 <= i < |Words(p, cur)| ==> Words(p, cur)[i] != []
    decreases |p|
  {
    if p != [] {
      WordsNonEmpty(p[1..], []);
      WordsNonEmpty(p[1..], cur + [p[0]]);
    }
  }

  /** A name that is too long makes both walks fail, unless they stop before it. */
  lemma {:induction false} LongAgrees(t: Tree, pi: nat, comps: seq<seq<Byte>>, doubled: bool, i: nat)
    requires i < |comps| && TooLong(comps[i])
    ensures Agrees(t, pi, comps, doubled)
    decreases |comps|
  {
    if !TooLong(comps[0]) && t.isDir(pi) {
      var next := t.look(pi, comps[0]);
      if next.Some? {
        assert comps[1..][i - 1] == comps[i];
        LongAgrees(t, next.value, comps[1..], doubled, i - 1);
      }
    }
  }

  /** That is so in every tree exactly for a path with a component and at most one
      slash at its end, or with a name that is too long. */
  lemma ParentThenLookup(path: seq<Byte>)
    ensures (forall t: Tree, pi: nat :: Agrees(t, pi, Components(path), Doubled(path))) <==>
      || (Components(path) != [] && !Doubled(path))
      || (exists i: nat :: i < |Components(path)| && TooLong(Components(path)[i]))
  {
    var comps := Components(path);
    if comps != [] && !Doubled(path) {
      forall t: Tree, pi: nat ensures Agrees(t, pi, comps, Doubled(path)) {
        OneLookup(t, pi, comps);
      }
    } else if i: nat :| i < |comps| && TooLong(comps[i]) {
      forall t: Tree, pi: nat ensures Agrees(t, pi, comps, Doubled(path)) {
        LongAgrees(t, pi, comps, Doubled(path), i);
      }
    } else {
      WordsNonEmpty(path, []);
      LoopFolds(0, comps);
      assert !Agrees(Loop(), 0, comps, Doubled(path));
    }
  }
}
