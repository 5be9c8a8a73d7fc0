/** Names and paths together: what linking names into directories (mknod, mkdir) does
  to the resolution of paths. */
module Namespace {
  import opened Options
  import opened Dirent
  import opened Path

  type Dirs = map<nat, seq<seq<Rec>>>

  const DOT: seq<Byte> := [46]
  const DOTDOT: seq<Byte> := [46, 46]

  /** The directory tree that the records of all directories describe. */
  function TreeOf(dirs: Dirs, isDir: nat -> bool): Tree {
    Tree((d: nat, name: seq<Byte>) => Lookup(dirs, d, name), isDir)
  }

  function Lookup(dirs: Dirs, d: nat, name: seq<Byte>): Option<nat> {
    if d in dirs && FindDir(dirs[d], name) > 0 then Some(FindDir(dirs[d], name)) else None
  }

  /** What a successful ext2_dirlink into a directory promises. */
  ghost predicate LinkedIn(rss: seq<seq<Rec>>, rss': seq<seq<Rec>>, name: seq<Byte>, inode: nat) {
    FindDir(rss, name) <= 0 && inode > 0 && Resolves(rss, rss', name, inode)
  }

  lemma LookupLinked(dirs: Dirs, d: nat, rss: seq<seq<Rec>>, name: seq<Byte>, inode: nat, e: nat, other: seq<Byte>)
    requires d in dirs && LinkedIn(dirs[d], rss, name, inode)
    ensures Lookup(dirs[d := rss], e, other) == if e == d && other == name then Some(inode) else Lookup(dirs, e, other)
    ensures Lookup(dirs, d, name) == None
  {
  }

  /** Every lookup that succeeds in dirs gives the same in dirs'. */
  ghost predicate Extends(dirs: Dirs, dirs': Dirs) {
    forall d: nat, name: seq<Byte> :: ExtendsAt(dirs, dirs', d, name)
  }

  predicate ExtendsAt(dirs: Dirs, dirs': Dirs, d: nat, name: seq<Byte>) {
    Lookup(dirs, d, name).Some? ==> Lookup(dirs', d, name) == Lookup(dirs, d, name)
  }

  /** New names change no path that resolved before. */
  lemma {:induction false} ResolvedStays(dirs: Dirs, dirs': Dirs, isDir: nat -> bool, pi: nat, comps: seq<seq<Byte>>)
    requires Extends(dirs, dirs') && Fold(TreeOf(dirs, isDir), pi, comps).Some?
    ensures Fold(TreeOf(dirs', isDir), pi, comps) == Fold(TreeOf(dirs, isDir), pi, comps)
    decreases |comps|
  {
    if comps != [] && isDir(pi) {
      assert ExtendsAt(dirs, dirs', pi, comps[0]);
      ResolvedStays(dirs, dirs', isDir, Lookup(dirs, pi, comps[0]).value, comps[1..]);
    }
  }

  /** The path whose parent walk named the directory and the name now resolves to the
      new inode, whatever else was added. */
  lemma {:induction false} LinkedResolves(dirs: Dirs, dirs': Dirs, isDir: nat -> bool, d: nat, name: seq<Byte>,
                                          inode: nat, pi: nat, comps: seq<seq<Byte>>)
    requires Extends(dirs, dirs') && isDir(d) && Lookup(dirs', d, name) == Some(inode)
    requires comps != [] && FoldParent(TreeOf(dirs, isDir), pi, comps, false) == Some((d, name))
    ensures Fold(TreeOf(dirs', isDir), pi, comps) == Some(inode)
    decreases |comps|
  {
    if |comps| == 1 {
      assert comps[1..] == [];
      assert Fold(TreeOf(dirs', isDir), inode, comps[1..]) == Some(inode);
    } else {
      assert ExtendsAt(dirs, dirs', pi, comps[0]);
      LinkedResolves(dirs, dirs', isDir, d, name, inode, Lookup(dirs, pi, comps[0]).value, comps[1..]);
    }
  }

  lemma LinkExtends(dirs: Dirs, d: nat, rss: seq<seq<Rec>>, name: seq<Byte>, inode: nat)
    requires d in dirs && LinkedIn(dirs[d], rss, name, inode)
    ensures Extends(dirs, dirs[d := rss])
  {
    hide LinkedIn, Lookup;
    var dirs' := dirs[d := rss];
    forall e: nat, other: seq<Byte> ensures ExtendsAt(dirs, dirs', e, other) {
      LookupLinked(dirs, d, rss, name, inode, e, other);
    }
  }

  /** ext2_mknod, as far as names go: the parent walk of a path, a successful
      ext2_dirlink of the name it returns, and the path resolves to the new inode while
      every path that resolved before still does, to the same inode. */
  lemma MakeNode(dirs: Dirs, isDir: nat -> bool, d: nat, rss: seq<seq<Rec>>, name: seq<Byte>, inode: nat, pi: nat,
                 path: seq<Byte>)
    requires d in dirs && isDir(d) && LinkedIn(dirs[d], rss, name, inode)
    requires Components(path) != [] && !Doubled(path)
    requires FoldParent(TreeOf(dirs, isDir), pi, Components(path), false) == Some((d, name))
    ensures Fold(TreeOf(dirs, isDir), pi, Components(path)) == None
    ensures Fold(TreeOf(dirs[d := rss], isDir), pi, Components(path)) == Some(inode)
    ensures Extends(dirs, dirs[d := rss])
  {
    LinkExtends(dirs, d, rss, name, inode);
    LookupLinked(dirs, d, rss, name, inode, d, name);
    OneLookup(TreeOf(dirs, isDir), pi, Components(path));
    hide LinkedIn, Components, Extends;
    LinkedResolves(dirs, dirs[d := rss], isDir, d, name, inode, pi, Components(path));
  }

  lemma {:induction false} FoldOneMore(t: Tree, pi: nat, comps: seq<seq<Byte>>, name: seq<Byte>, n: nat)
    requires Fold(t, pi, comps) == Some(n) && t.isDir(n) && |name| <= NAMEMAX
    ensures Fold(t, pi, comps + [name]) == match t.look(n, name) case None => None case Some(m) => Some(m)
    decreases |comps|
  {
    var more := comps + [name];
    if comps == [] {
      assert more[1..] == [];
    } else {
      assert more[1..] == comps[1..] + [name];
      if t.isDir(pi) {
        FoldOneMore(t, t.look(pi, comps[0]).value, comps[1..], name, n);
      }
    }
  }

  /** ext2_mkdir: the new directory gets the records "." and ".." before its name is
      linked.  Its path then resolves to it, the path followed by "." too, the path
      followed by ".." to its parent, no other name resolves in it, and every path that
      resolved before still does. */
  lemma MakeDirectory(dirs: Dirs, isDir: nat -> bool, d: nat, rss: seq<seq<Rec>>, name: seq<Byte>, inode: nat,
                      size: nat, ftype: Byte, own: seq<seq<Rec>>, pi: nat, path: seq<Byte>)
    requires d in dirs && isDir(d) && LinkedIn(dirs[d], rss, name, inode) && d > 0
    requires inode !in dirs && isDir(inode) && LinkedIn([[Rec(0, size, inode, DOT, ftype)]], own, DOTDOT, d)
    requires Components(path) != [] && !Doubled(path)
    requires FoldParent(TreeOf(dirs, isDir), pi, Components(path), false) == Some((d, name))
    ensures var t := TreeOf(dirs[inode := own][d := rss], isDir);
      && Fold(t, pi, Components(path)) == Some(inode)
      && Fold(t, pi, Components(path) + [DOT]) == Some(inode)
      && Fold(t, pi, Components(path) + [DOTDOT]) == Some(d)
      && forall other: seq<Byte> :: other != DOT && other != DOTDOT ==> t.look(inode, other) == None
    ensures Extends(dirs, dirs[inode := own][d := rss])
  {
    var dirs' := dirs[inode := own];
    assert Extends(dirs, dirs') by {
      forall e: nat, other: seq<Byte> ensures ExtendsAt(dirs, dirs', e, other) {
      }
    }
    LinkExtends(dirs', d, rss, name, inode);
    var dirs2 := dirs'[d := rss];
    LookupLinked(dirs', d, rss, name, inode, d, name);
    forall other: seq<Byte> ensures Lookup(dirs2, inode, other) ==
        if other == DOT then Some(inode) else if other == DOTDOT then Some(d) else None {
      LookupLinked(dirs', d, rss, name, inode, inode, other);
      OwnNames(inode, d, size, ftype, own, other);
    }
    assert Extends(dirs, dirs2) by {
      hide Lookup;
      forall e: nat, other: seq<Byte> ensures ExtendsAt(dirs, dirs2, e, other) {
        assert ExtendsAt(dirs, dirs', e, other) && ExtendsAt(dirs', dirs2, e, other);
      }
    }
    hide LinkedIn, Components, Extends, Lookup;
    LinkedResolves(dirs, dirs2, isDir, d, name, inode, pi, Components(path));
    FoldOneMore(TreeOf(dirs2, isDir), pi, Components(path), DOT, inode);
    FoldOneMore(TreeOf(dirs2, isDir), pi, Components(path), DOTDOT, inode);
  }

  lemma OwnNames(inode: nat, d: nat, size: nat, ftype: Byte, own: seq<seq<Rec>>, other: seq<Byte>)
    requires LinkedIn([[Rec(0, size, inode, DOT, ftype)]], own, DOTDOT, d) && inode > 0 && d > 0
    ensures FindDir(own, other) == if other == DOTDOT then d else if other == DOT then inode else -1
  {
    var rec := Rec(0, size, inode, DOT, ftype);
    assert [rec][1..] == [];
    assert Find([], other) == -1;
    assert Find([rec], other) == if DOT == other then inode as int else Find([], other);
    assert [[rec]][1..] == [];
    assert FindDir([], other) == -1;
    assert FindDir([[rec]], other) == if other == DOT then inode as int else -1;
  }
}
