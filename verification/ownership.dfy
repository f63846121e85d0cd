/**
  Exclusive ownership of OpenGL object names.

  A `Pool` is one of the driver's name spaces (texture names, framebuffer names):
  the names currently alive, the names already deleted, and the next name the
  driver would hand out. Objects of the renderer hold names in slots; a slot
  holding the pool's sentinel (`none`) holds nothing. `Owns` says every held
  name is alive and held by exactly one slot, and a pool never deletes a name
  twice. The move constructors, move assignments and destructors of RS_Texture,
  RS_Cubemap and RS_Light act on slots through the operations below.
 */
module Ownership {

  /** The sentinel of RS_Texture and RS_Cubemap: 0xFFFFFFFF marks "no texture". */
  const Invalid: nat := 0xFFFF_FFFF

  /** A framebuffer name of 0 marks "no framebuffer" in RS_Light. */
  const NoFramebuffer: nat := 0

  datatype Pool = Pool(live: set<nat>, released: multiset<nat>, next: nat, none: nat)

  /** The bookkeeping every pool keeps: names are issued fresh, the sentinel is never issued, and every deleted name was deleted exactly once and is no longer alive. */
  ghost predicate PoolOk(p: Pool)
  {
    && 0 < p.next
    && p.none !in p.live
    && p.none !in p.released
    && (forall h :: h in p.live ==> 0 < h < p.next)
    && (forall h :: h in p.released ==> 0 < h < p.next && h !in p.live && p.released[h] == 1)
  }

  /** A fresh driver name space; the driver never issues name 0. */
  function EmptyPool(none: nat): (p: Pool)
    ensures PoolOk(p)
    ensures p.live == {} && p.released == multiset{} && p.none == none
  {
    Pool({}, multiset{}, 1, none)
  }

  /** glGen*: hands out a name never issued before, skipping the sentinel. A real driver may
      reissue a deleted name; this pool never does, so "deleted at most once" is a property
      of this pool rather than of GL. */
  function Acquire(p: Pool): (r: (nat, Pool))
    requires PoolOk(p)
    ensures r.0 != p.none && r.0 != 0
    ensures r.0 !in p.live && r.0 !in p.released
    ensures r.1 == Pool(p.live + {r.0}, p.released, r.1.next, p.none)
    ensures PoolOk(r.1)
  {
    var h := if p.next == p.none then p.next + 1 else p.next;
    (h, Pool(p.live + {h}, p.released, h + 1, p.none))
  }

  /** glDelete*: only a live name may be deleted, and it is deleted exactly once. */
  function Release(p: Pool, h: nat): (r: Pool)
    requires PoolOk(p) && h in p.live
    ensures r.live == p.live - {h}
    ensures r.released == p.released + multiset{h}
    ensures r.next == p.next && r.none == p.none
    ensures r.released[h] == 1
    ensures PoolOk(r)
  {
    Pool(p.live - {h}, p.released + multiset{h}, p.next, p.none)
  }

  /** The names one slot holds: nothing for the sentinel. */
  function One(h: nat, none: nat): multiset<nat>
  {
    if h == none then multiset{} else multiset{h}
  }

  /** All names held by a sequence of slots, with multiplicity: the sentinel counts for nothing. */
  function Held(names: seq<nat>, none: nat): multiset<nat>
  {
    multiset(names)[none := 0]
  }

  /** Every held name is alive and held by exactly one slot. */
  ghost predicate Owns(p: Pool, names: seq<nat>)
  {
    && PoolOk(p)
    && forall h :: h in Held(names, p.none) ==> h in p.live && Held(names, p.none)[h] == 1
  }

  lemma HeldAppend(names: seq<nat>, h: nat, none: nat)
    ensures Held(names + [h], none) == Held(names, none) + One(h, none)
  {
    assert multiset(names + [h]) == multiset(names) + multiset{h};
  }

  /** Overwriting one slot removes its name from the held names and adds the new one. */
  lemma HeldUpdate(names: seq<nat>, i: nat, h: nat, none: nat)
    requires i < |names|
    ensures Held(names[i := h], none) + One(names[i], none) == Held(names, none) + One(h, none)
  {
    var old_ := names[i];
    assert multiset(names[i := h]) == multiset(names) - multiset{old_} + multiset{h};
    forall x
      ensures (Held(names[i := h], none) + One(old_, none))[x] == (Held(names, none) + One(h, none))[x]
    {
    }
  }

  /** Each slot's valid name is among the held names. */
  lemma HeldContains(names: seq<nat>, i: nat, none: nat)
    requires i < |names| && names[i] != none
    ensures names[i] in Held(names, none)
  {
    assert names[i] in multiset(names);
  }

  /** `r` is `p` after deleting exactly the name `h`. */
  predicate ReleasedOnly(p: Pool, r: Pool, h: nat)
  {
    r == Pool(p.live - {h}, p.released + multiset{h}, p.next, p.none)
  }

  /** A slot holding a valid name under `Owns` holds a live name. */
  lemma HeldIsLive(p: Pool, names: seq<nat>, i: nat)
    requires Owns(p, names) && i < |names| && names[i] != p.none
    ensures names[i] in p.live && names[i] in Held(names, p.none)
  {
    HeldContains(names, i, p.none);
  }

  /** Ownership survives replacing the slots when the held names stay the same. */
  lemma OwnsSameHeld(p: Pool, names: seq<nat>, names': seq<nat>)
    requires Owns(p, names) && Held(names', p.none) == Held(names, p.none)
    ensures Owns(p, names')
  {
  }

  /** Ownership survives deleting a held name and dropping it from the slots. */
  lemma OwnsAfterRelease(p: Pool, names: seq<nat>, names': seq<nat>, d: nat)
    requires Owns(p, names) && d in Held(names, p.none)
    requires Held(names', p.none) + multiset{d} == Held(names, p.none)
    ensures Owns(Release(p, d), names')
  {
    var r := Release(p, d);
    forall h | h in Held(names', r.none)
      ensures h in r.live && Held(names', r.none)[h] == 1
    {
      assert Held(names', p.none)[h] + multiset{d}[h] == Held(names, p.none)[h];
    }
  }

  /** Ownership survives generating a fresh name into the slots. */
  lemma OwnsAfterAcquire(p: Pool, names: seq<nat>, r: Pool, names': seq<nat>, h: nat)
    requires Owns(p, names) && PoolOk(r) && r.none == p.none
    requires h !in p.live && h != p.none && r.live == p.live + {h}
    requires Held(names', p.none) == Held(names, p.none) + multiset{h}
    ensures Owns(r, names')
  {
    assert h !in Held(names, p.none);
    forall g | g in Held(names', r.none)
      ensures g in r.live && Held(names', r.none)[g] == 1
    {
      assert Held(names', p.none)[g] == Held(names, p.none)[g] + multiset{h}[g];
    }
  }

  /** The slots of an owner together with the pool their names come from. */
  datatype Owned = Owned(pool: Pool, names: seq<nat>)

  /** A constructor that generates a name into a new slot at the end. */
  function Create(o: Owned): (r: Owned)
    requires Owns(o.pool, o.names)
    ensures Owns(r.pool, r.names)
    ensures |r.names| == |o.names| + 1 && r.names[..|o.names|] == o.names
    ensures r.names[|o.names|] != o.pool.none && r.names[|o.names|] !in o.pool.live
    ensures r.pool.live == o.pool.live + {r.names[|o.names|]} && r.pool.released == o.pool.released
    ensures r.pool.none == o.pool.none
  {
    var (h, p) := Acquire(o.pool);
    HeldAppend(o.names, h, o.pool.none);
    OwnsAfterAcquire(o.pool, o.names, p, o.names + [h], h);
    assert (o.names + [h])[..|o.names|] == o.names;
    Owned(p, o.names + [h])
  }

  /** A new slot at the end that holds nothing yet (a member default-initialised to the sentinel). */
  function AddEmpty(o: Owned): (r: Owned)
    requires Owns(o.pool, o.names)
    ensures Owns(r.pool, r.names)
    ensures r.pool == o.pool && r.names == o.names + [o.pool.none]
  {
    HeldAppend(o.names, o.pool.none, o.pool.none);
    OwnsSameHeld(o.pool, o.names, o.names + [o.pool.none]);
    Owned(o.pool, o.names + [o.pool.none])
  }

  /** Generates a name into a slot that holds nothing (glGenFramebuffers after a destroy). */
  function AcquireInto(o: Owned, i: nat): (r: Owned)
    requires Owns(o.pool, o.names) && i < |o.names| && o.names[i] == o.pool.none
    ensures Owns(r.pool, r.names)
    ensures |r.names| == |o.names| && r.names == o.names[i := r.names[i]]
    ensures r.names[i] != o.pool.none && r.names[i] !in o.pool.live && r.names[i] !in o.pool.released
    ensures r.pool.live == o.pool.live + {r.names[i]} && r.pool.released == o.pool.released
    ensures r.pool.none == o.pool.none
  {
    var (h, p) := Acquire(o.pool);
    HeldUpdate(o.names, i, h, o.pool.none);
    OwnsAfterAcquire(o.pool, o.names, p, o.names[i := h], h);
    Owned(p, o.names[i := h])
  }

  /** A destructor: deletes the slot's name only if it is valid, then the slot holds nothing. */
  function Destroy(o: Owned, i: nat): (r: Owned)
    requires Owns(o.pool, o.names) && i < |o.names|
    ensures Owns(r.pool, r.names)
    ensures r.names == o.names[i := o.pool.none]
    ensures o.names[i] == o.pool.none ==> r.pool == o.pool
    ensures o.names[i] != o.pool.none ==> ReleasedOnly(o.pool, r.pool, o.names[i])
    ensures r.pool.live == o.pool.live - {o.names[i]}
    ensures r.pool.released == o.pool.released + One(o.names[i], o.pool.none)
    ensures r.pool.next == o.pool.next && r.pool.none == o.pool.none
  {
    var none := o.pool.none;
    HeldUpdate(o.names, i, none, none);
    if o.names[i] == none then
      OwnsSameHeld(o.pool, o.names, o.names[i := none]);
      Owned(o.pool, o.names[i := none])
    else
      HeldIsLive(o.pool, o.names, i);
      OwnsAfterRelease(o.pool, o.names, o.names[i := none], o.names[i]);
      Owned(Release(o.pool, o.names[i]), o.names[i := none])
  }

  /** A move constructor: a new slot at the end takes `src`'s name and `src` is left holding nothing. */
  function MoveConstruct(o: Owned, src: nat): (r: Owned)
    requires Owns(o.pool, o.names) && src < |o.names|
    ensures Owns(r.pool, r.names)
    ensures r.pool == o.pool
    ensures r.names == (o.names + [o.names[src]])[src := o.pool.none]
  {
    var none := o.pool.none;
    var h := o.names[src];
    HeldAppend(o.names, h, none);
    HeldUpdate(o.names + [h], src, none, none);
    OwnsSameHeld(o.pool, o.names, (o.names + [h])[src := none]);
    Owned(o.pool, (o.names + [h])[src := none])
  }

  /** The transfer half of a move: an empty `dst` takes `src`'s name and `src` is left holding nothing. */
  function Transfer(o: Owned, dst: nat, src: nat): (r: Owned)
    requires Owns(o.pool, o.names) && dst < |o.names| && src < |o.names| && dst != src
    requires o.names[dst] == o.pool.none
    ensures Owns(r.pool, r.names)
    ensures r.pool == o.pool
    ensures r.names == o.names[dst := o.names[src]][src := o.pool.none]
  {
    var none := o.pool.none;
    var n1 := o.names[dst := o.names[src]];
    HeldUpdate(o.names, dst, o.names[src], none);
    HeldUpdate(n1, src, none, none);
    OwnsSameHeld(o.pool, o.names, n1[src := none]);
    Owned(o.pool, n1[src := none])
  }

  /**
    A move assignment `dst = std::move(src)`: a no-op when both are the same
    object; otherwise `dst`'s valid name is deleted, `dst` takes `src`'s name
    and `src` is left holding nothing.
   */
  function MoveAssign(o: Owned, dst: nat, src: nat): (r: Owned)
    requires Owns(o.pool, o.names) && dst < |o.names| && src < |o.names|
    ensures Owns(r.pool, r.names)
    ensures dst == src ==> r == o
    ensures dst != src ==> r.names == o.names[dst := o.names[src]][src := o.pool.none]
    ensures dst != src && o.names[dst] == o.pool.none ==> r.pool == o.pool
    ensures dst != src && o.names[dst] != o.pool.none ==> ReleasedOnly(o.pool, r.pool, o.names[dst])
    ensures dst != src ==> r.pool.live == o.pool.live - {o.names[dst]}
    ensures dst != src ==> r.pool.released == o.pool.released + One(o.names[dst], o.pool.none)
    ensures r.pool.next == o.pool.next && r.pool.none == o.pool.none
  {
    if dst == src then o
    else
      var o1 := Destroy(o, dst);
      assert o1.names[dst := o.names[src]] == o.names[dst := o.names[src]];
      Transfer(o1, dst, src)
  }

  // Two slots at once: an object that owns a pair of names (RS_Light's two
  // framebuffers, its shadow map and depth cubemap).

  /** Two destructors in a row: each deletes its slot's name only when it is valid. */
  function DestroyPair(o: Owned, j: nat, k: nat): (r: Owned)
    requires Owns(o.pool, o.names) && j < |o.names| && k < |o.names| && j != k
    ensures Owns(r.pool, r.names)
    ensures r.names == o.names[j := o.pool.none][k := o.pool.none]
    ensures r.pool.live == o.pool.live - {o.names[j], o.names[k]}
    ensures r.pool.released == o.pool.released + One(o.names[j], o.pool.none) + One(o.names[k], o.pool.none)
    ensures r.pool.next == o.pool.next && r.pool.none == o.pool.none
    ensures o.names[j] == o.pool.none && o.names[k] == o.pool.none ==> r == o
  {
    Destroy(Destroy(o, j), k)
  }

  /** Two names generated into two empty slots. */
  function AcquirePair(o: Owned, j: nat, k: nat): (r: Owned)
    requires Owns(o.pool, o.names) && j < |o.names| && k < |o.names| && j != k
    requires o.names[j] == o.pool.none && o.names[k] == o.pool.none
    ensures Owns(r.pool, r.names)
    ensures |r.names| == |o.names| && r.names == o.names[j := r.names[j]][k := r.names[k]]
    ensures r.names[j] != o.pool.none && r.names[k] != o.pool.none && r.names[j] != r.names[k]
    ensures r.names[j] !in o.pool.live && r.names[j] !in o.pool.released
    ensures r.names[k] !in o.pool.live && r.names[k] !in o.pool.released
    ensures r.pool.live == o.pool.live + {r.names[j], r.names[k]} && r.pool.released == o.pool.released
    ensures r.pool.none == o.pool.none
  {
    var o1 := AcquireInto(o, j);
    var o2 := AcquireInto(o1, k);
    assert o2.names[j] == o1.names[j];
    o2
  }

  /** Two destructors, then two names generated into the same slots (a re-initialisation). */
  function ReplacePair(o: Owned, j: nat, k: nat): (r: Owned)
    requires Owns(o.pool, o.names) && j < |o.names| && k < |o.names| && j != k
    ensures Owns(r.pool, r.names)
    ensures |r.names| == |o.names| && r.names == o.names[j := r.names[j]][k := r.names[k]]
    ensures r.names[j] != o.pool.none && r.names[k] != o.pool.none && r.names[j] != r.names[k]
    ensures r.names[j] !in o.pool.live && r.names[j] !in o.pool.released
    ensures r.names[k] !in o.pool.live && r.names[k] !in o.pool.released
    ensures r.pool.live == o.pool.live - {o.names[j], o.names[k]} + {r.names[j], r.names[k]}
    ensures r.pool.none == o.pool.none
  {
    var d := DestroyPair(o, j, k);
    var r := AcquirePair(d, j, k);
    RefilledPair(o.names, j, k, o.pool.none, r.names[j], r.names[k]);
    r
  }

  lemma RefilledPair<T>(s: seq<T>, j: nat, k: nat, none: T, a: T, b: T)
    requires j < |s| && k < |s| && j != k
    ensures s[j := none][k := none][j := a][k := b] == s[j := a][k := b]
  {
  }

  lemma FilledAppended<T>(s: seq<T>, none: T, a: T, b: T)
    ensures (s + [none, none])[|s| := a][|s| + 1 := b] == s + [a, b]
    ensures (s + [none, none])[|s| + 1 := b][|s| := a] == s + [a, b]
  {
  }

  /** Two empty slots appended (members default-initialised to the sentinel). */
  function AddEmptyPair(o: Owned): (r: Owned)
    requires Owns(o.pool, o.names)
    ensures Owns(r.pool, r.names)
    ensures r.pool == o.pool && r.names == o.names + [o.pool.none, o.pool.none]
  {
    var r := AddEmpty(AddEmpty(o));
    assert r.names == o.names + [o.pool.none, o.pool.none];
    r
  }

  /**
    The two names generated for two new slots; `highFirst` says the second
    slot is generated before the first.
   */
  function FreshPair(p: Pool, highFirst: bool): (r: (nat, nat, Pool))
    requires PoolOk(p)
    ensures PoolOk(r.2) && r.2.none == p.none && r.2.released == p.released
    ensures r.0 != p.none && r.1 != p.none && r.0 != r.1
    ensures r.0 !in p.live && r.0 !in p.released && r.1 !in p.live && r.1 !in p.released
    ensures r.2.live == p.live + {r.0, r.1}
  {
    var (x, p1) := Acquire(p);
    var (y, p2) := Acquire(p1);
    if highFirst then (y, x, p2) else (x, y, p2)
  }

  /** Two slots appended and both filled with the names `FreshPair` generates. */
  function AppendPair(o: Owned, highFirst: bool): (r: Owned)
    requires Owns(o.pool, o.names)
    ensures var (a, b, p) := FreshPair(o.pool, highFirst);
            r == Owned(p, o.names + [a, b])
    ensures Owns(r.pool, r.names)
  {
    var (a, b, p) := FreshPair(o.pool, highFirst);
    var mid := Pool(o.pool.live + {a}, o.pool.released, p.next, o.pool.none);
    HeldAppend(o.names, a, o.pool.none);
    HeldAppend(o.names + [a], b, o.pool.none);
    assert One(a, o.pool.none) == multiset{a} && One(b, o.pool.none) == multiset{b};
    assert o.names + [a] + [b] == o.names + [a, b];
    assert PoolOk(mid);
    OwnsAfterAcquire(o.pool, o.names, mid, o.names + [a], a);
    OwnsAfterAcquire(mid, o.names + [a], p, o.names + [a, b], b);
    Owned(p, o.names + [a, b])
  }


  /** Two transfers over four distinct slots whose destinations are empty. */
  function TransferPair(o: Owned, dj: nat, dk: nat, sj: nat, sk: nat): (r: Owned)
    requires Owns(o.pool, o.names)
    requires dj < |o.names| && dk < |o.names| && sj < |o.names| && sk < |o.names|
    requires dj != dk && dj != sj && dj != sk && dk != sj && dk != sk && sj != sk
    requires o.names[dj] == o.pool.none && o.names[dk] == o.pool.none
    ensures Owns(r.pool, r.names)
    ensures r.pool == o.pool
    ensures r.names == o.names[dj := o.names[sj]][sj := o.pool.none][dk := o.names[sk]][sk := o.pool.none]
  {
    var o1 := Transfer(o, dj, sj);
    assert o1.names[dk] == o.pool.none && o1.names[sk] == o.names[sk];
    Transfer(o1, dk, sk)
  }

  /** Clearing two destinations, then transferring into them, is one update of each of the four slots. */
  lemma MoveUpdates<T>(s: seq<T>, dj: nat, dk: nat, sj: nat, sk: nat, none: T)
    requires dj < |s| && dk < |s| && sj < |s| && sk < |s|
    requires dj != dk && dj != sj && dj != sk && dk != sj && dk != sk && sj != sk
    ensures var c := s[dj := none][dk := none];
            c[dj := c[sj]][sj := none][dk := c[sk]][sk := none] == s[dj := s[sj]][dk := s[sk]][sj := none][sk := none]
  {
    var c := s[dj := none][dk := none];
    var a := c[dj := c[sj]][sj := none][dk := c[sk]][sk := none];
    var b := s[dj := s[sj]][dk := s[sk]][sj := none][sk := none];
    forall x | 0 <= x < |s|
      ensures a[x] == b[x]
    {
    }
  }

  /**
    Two move assignments `dj = move(sj)`, `dk = move(sk)` over four distinct
    slots: the destinations' valid names are deleted, they take the sources'
    names, and the sources are left holding nothing.
   */
  function MovePair(o: Owned, dj: nat, dk: nat, sj: nat, sk: nat): (r: Owned)
    requires Owns(o.pool, o.names)
    requires dj < |o.names| && dk < |o.names| && sj < |o.names| && sk < |o.names|
    requires dj != dk && dj != sj && dj != sk && dk != sj && dk != sk && sj != sk
    ensures Owns(r.pool, r.names)
    ensures r.names == o.names[dj := o.names[sj]][dk := o.names[sk]][sj := o.pool.none][sk := o.pool.none]
    ensures r.pool.live == o.pool.live - {o.names[dj], o.names[dk]}
    ensures r.pool.released == o.pool.released + One(o.names[dj], o.pool.none) + One(o.names[dk], o.pool.none)
    ensures r.pool.next == o.pool.next && r.pool.none == o.pool.none
  {
    var o1 := DestroyPair(o, dj, dk);
    assert o1.names[sj] == o.names[sj] && o1.names[sk] == o.names[sk];
    MoveUpdates(o.names, dj, dk, sj, sk, o.pool.none);
    TransferPair(o1, dj, dk, sj, sk)
  }
}
