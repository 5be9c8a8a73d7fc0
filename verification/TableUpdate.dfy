/** What one store into a translation table does to every translation. */
module TableUpdate {
  import opened PhysMem
  import opened PageTable

  function Store(word: Words, t: nat, i: nat, e: nat): Words
    requires t in word && i < |word[t]|
  {
    var page: seq<nat> := word[t][i := e];
    word[t := page]
  }

  /** Every translation of every address space is the same in both memories. */
  ghost predicate SamePtes(word: Words, word': Words, role: Roles) {
    forall root, v :: IsRoot(role, root) && 0 <= v < 0x8000000 ==> Pte(word', root, v) == Pte(word, root, v)
  }

  /** A slot's new owner: hanging c on the empty slot (t, i) of a table. */
  lemma LinkUp(word: Words, role: Roles, t: nat, i: nat, c: nat, e: nat)
    requires Linked(word, role) && IsTable(role, t) && i < 512
    requires Entry(word, t, i) == 0
    requires c in role && role[c] == Pinned && e != 0 && PtePa(e) == c
    ensures LinkedUp(Store(word, t, i, e), role[c := ChildRole(role, t, i)])
  {
    var word', role' := Store(word, t, i, e), role[c := ChildRole(role, t, i)];
    assert OwnerOk(word, role, t);
    forall f | f in role' && role'[f].Node? ensures 1 <= role'[f].level && OwnerOk(word', role', f) {
      if f != c {
        assert OwnerOk(word, role, f);
      }
    }
  }

  /** A zeroed private frame becomes the table of an empty slot. */
  lemma LinkTable(word: Words, role: Roles, t: nat, i: nat, c: nat)
    requires Linked(word, role) && IsTable(role, t) && role[t].level < 3 && i < 512
    requires Entry(word, t, i) == 0
    requires c in role && role[c] == Pinned && word[c] == ZeroPage()
    ensures Linked(Store(word, t, i, TableDesc(c)), role[c := ChildRole(role, t, i)])
  {
    var word', role' := Store(word, t, i, TableDesc(c)), role[c := ChildRole(role, t, i)];
    TableDescRoundTrip(c);
    LinkUp(word, role, t, i, c, TableDesc(c));
    forall x, j | IsTable(role', x) && 0 <= j < 512 ensures SlotOk(word', role', x, j) {
      if x != c {
        assert SlotOk(word, role, x, j);
      }
    }
  }

  lemma LinkTableSamePtes(word: Words, role: Roles, t: nat, i: nat, c: nat)
    requires Linked(word, role) && IsTable(role, t) && role[t].level < 3 && i < 512
    requires Entry(word, t, i) == 0
    requires c in role && role[c] == Pinned && word[c] == ZeroPage()
    ensures SamePtes(word, Store(word, t, i, TableDesc(c)), role)
  {
    var word' := Store(word, t, i, TableDesc(c));
    TableDescRoundTrip(c);
    forall root, v | IsRoot(role, root) && 0 <= v < 0x8000000
      ensures Pte(word', root, v) == Pte(word, root, v)
    {
      WalkRoles(word, role, root, v);
    }
  }

  /** A level-3 store changes one page number of one address space, and no other. */
  ghost predicate OnePteChanged(word: Words, word': Words, role: Roles, root: nat, v: nat, e: nat) {
    forall r, x :: IsRoot(role, r) && 0 <= x < 0x8000000 ==>
      Pte(word', r, x) == if r == root && x == v then e else Pte(word, r, x)
  }

  lemma StoreLeafPtes(word: Words, role: Roles, t: nat, i: nat, e: nat)
    requires Linked(word, role) && IsTable(role, t) && role[t].level == 3 && i < 512
    ensures OnePteChanged(word, Store(word, t, i, e), role, role[t].root, role[t].prefix * 512 + i, e)
  {
    var word' := Store(word, t, i, e);
    forall r, x | IsRoot(role, r) && 0 <= x < 0x8000000
      ensures Pte(word', r, x) ==
        if r == role[t].root && x == role[t].prefix * 512 + i then e else Pte(word, r, x)
    {
      WalkRoles(word, role, r, x);
      WalkReaches(word, role, t, x);
    }
  }

  lemma LinkPage(word: Words, role: Roles, t: nat, i: nat, c: nat, attr: nat)
    requires Linked(word, role) && IsTable(role, t) && role[t].level == 3 && i < 512
    requires Entry(word, t, i) == 0 && AttrOk(attr)
    requires c in role && role[c] == Pinned
    ensures Linked(Store(word, t, i, PageDesc(c, attr)), role[c := ChildRole(role, t, i)])
  {
    var word', role' := Store(word, t, i, PageDesc(c, attr)), role[c := ChildRole(role, t, i)];
    PageDescRoundTrip(c, attr);
    LinkUp(word, role, t, i, c, PageDesc(c, attr));
    forall x, j | IsTable(role', x) && 0 <= j < 512 ensures SlotOk(word', role', x, j) {
      assert SlotOk(word, role, x, j);
    }
  }

  /** No frame records f as its owner. */
  ghost predicate Childless(role: Roles, f: nat) {
    forall g :: g in role && role[g].Node? && role[g].level > 1 ==> role[g].parent != f
  }

  lemma UnlinkUp(word: Words, role: Roles, c: nat, t: nat, i: nat)
    requires Linked(word, role)
    requires c in role && role[c].Node? && role[c].level > 1 && Childless(role, c)
    requires t == role[c].parent && i == role[c].slot
    ensures IsTable(role, t) && LinkedUp(Store(word, t, i, 0), role[c := Pinned])
  {
    assert OwnerOk(word, role, c);
    var word', role' := Store(word, t, i, 0), role[c := Pinned];
    forall f | f in role' && role'[f].Node? ensures 1 <= role'[f].level && OwnerOk(word', role', f) {
      assert OwnerOk(word, role, f);
    }
  }

  lemma UnlinkDown(word: Words, role: Roles, c: nat, t: nat, i: nat)
    requires Linked(word, role)
    requires c in role && role[c].Node? && role[c].level > 1 && Childless(role, c)
    requires t == role[c].parent && i == role[c].slot && IsTable(role, t)
    ensures LinkedDown(Store(word, t, i, 0), role[c := Pinned])
  {
    assert OwnerOk(word, role, c);
    var word', role' := Store(word, t, i, 0), role[c := Pinned];
    forall x, j | IsTable(role', x) && 0 <= j < 512 ensures SlotOk(word', role', x, j) {
      assert SlotOk(word, role, x, j);
    }
  }

  /** Clearing the slot that names a childless frame detaches that frame. */
  lemma Unlink(word: Words, role: Roles, c: nat, t: nat, i: nat)
    requires Linked(word, role)
    requires c in role && role[c].Node? && role[c].level > 1 && Childless(role, c)
    requires t == role[c].parent && i == role[c].slot
    ensures IsTable(role, t) && Linked(Store(word, t, i, 0), role[c := Pinned])
  {
    UnlinkUp(word, role, c, t, i);
    UnlinkDown(word, role, c, t, i);
  }

  /** The contents of a frame that is not a table, and the ledger among frames
      outside every tree, can change freely. */
  lemma LinkedFrame(word: Words, role: Roles, word': Words, role': Roles)
    requires Linked(word, role) && Sized(word', role')
    requires forall f :: f in role ==> f in role' && (role[f].Node? ==> role'[f] == role[f])
    requires forall f :: f in role' && role'[f].Node? ==> f in role && role[f] == role'[f]
    requires forall f :: IsTable(role, f) ==> word'[f] == word[f]
    ensures Linked(word', role') && SamePtes(word, word', role)
  {
    forall f | f in role' && role'[f].Node? ensures 1 <= role'[f].level && OwnerOk(word', role', f) {
      assert OwnerOk(word, role, f);
    }
    forall x, j | IsTable(role', x) && 0 <= j < 512 ensures SlotOk(word', role', x, j) {
      assert SlotOk(word, role, x, j);
    }
    forall root, v | IsRoot(role, root) && 0 <= v < 0x8000000
      ensures Pte(word', root, v) == Pte(word, root, v)
    {
      WalkRoles(word, role, root, v);
    }
  }
}
