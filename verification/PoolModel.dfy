/** The server's resource pool (rpmem_server.c): `res_list`, the size counters and the
    `res` pointer of every unit, with the two critical sections of the map and unmap
    handlers split into their single stores. */
module PoolModel {

  type ResId = nat
  type ConnId = nat

  datatype Option<+T> = None | Some(value: T)

  type Sizes = map<ResId, nat>

  // ---- sums

  ghost function SumSet(sizes: Sizes, s: set<ResId>): (n: nat)
    requires s <= sizes.Keys
  {
    if s == {} then 0 else
      var r :| r in s;
      sizes[r] + SumSet(sizes, s - {r})
  }

  lemma {:induction false} SumSetPick(sizes: Sizes, s: set<ResId>, r: ResId)
    requires s <= sizes.Keys && r in s
    ensures SumSet(sizes, s) == sizes[r] + SumSet(sizes, s - {r})
    decreases |s|
  {
    var x :| x in s && SumSet(sizes, s) == sizes[x] + SumSet(sizes, s - {x});
    if x != r {
      SumSetPick(sizes, s - {x}, r);
      SumSetPick(sizes, s - {r}, x);
      assert s - {x} - {r} == s - {r} - {x};
    }
  }

  lemma {:induction false} SumSetUnion(sizes: Sizes, s: set<ResId>, t: set<ResId>)
    requires s <= sizes.Keys && t <= sizes.Keys && s !! t
    ensures SumSet(sizes, s + t) == SumSet(sizes, s) + SumSet(sizes, t)
    decreases |s|
  {
    if s == {} {
      assert s + t == t;
    } else {
      var r :| r in s;
      SumSetPick(sizes, s, r);
      SumSetPick(sizes, s + t, r);
      SumSetUnion(sizes, s - {r}, t);
      assert s + t - {r} == s - {r} + t;
    }
  }

  function SumSeq(sizes: Sizes, list: seq<ResId>): (n: nat)
    requires forall i :: 0 <= i < |list| ==> list[i] in sizes
  {
    if list == [] then 0 else sizes[list[0]] + SumSeq(sizes, list[1..])
  }

  ghost predicate NoDup(list: seq<ResId>)
  {
    forall i, j :: 0 <= i < j < |list| ==> list[i] != list[j]
  }

  ghost function Elems(list: seq<ResId>): (s: set<ResId>)
  {
    set r | r in list
  }

  lemma {:induction false} SumSeqIsSumSet(sizes: Sizes, list: seq<ResId>)
    requires NoDup(list) && Elems(list) <= sizes.Keys
    requires forall i :: 0 <= i < |list| ==> list[i] in sizes
    ensures SumSeq(sizes, list) == SumSet(sizes, Elems(list))
  {
    if list != [] {
      var tail := list[1..];
      assert Elems(tail) == Elems(list) - {list[0]} by {
        assert forall r :: r in list <==> r == list[0] || r in tail;
        assert list[0] !in tail;
      }
      SumSeqIsSumSet(sizes, tail);
      SumSetPick(sizes, Elems(list), list[0]);
    }
  }

  // ---- the list operations of sys/queue.h on the sequence of resources

  /** SLIST_REMOVE: unlinks the first occurrence. */
  function Without<T(==)>(list: seq<T>, r: T): (rest: seq<T>)
  {
    if list == [] then []
    else if list[0] == r then list[1..]
    else [list[0]] + Without(list[1..], r)
  }

  lemma {:induction false} WithoutAt<T>(list: seq<T>, k: nat)
    requires k < |list| && forall j :: 0 <= j < k ==> list[j] != list[k]
    ensures Without(list, list[k]) == list[..k] + list[k + 1..]
  {
    if k > 0 {
      WithoutAt(list[1..], k - 1);
      assert list[..k] + list[k + 1..] == [list[0]] + (list[1..][..k - 1] + list[1..][k..]);
    }
  }

  lemma {:induction false} SumSeqConcat(sizes: Sizes, a: seq<ResId>, b: seq<ResId>)
    requires forall i :: 0 <= i < |a| ==> a[i] in sizes
    requires forall i :: 0 <= i < |b| ==> b[i] in sizes
    ensures SumSeq(sizes, a + b) == SumSeq(sizes, a) + SumSeq(sizes, b)
  {
    if a == [] {
      assert a + b == b;
    } else {
      SumSeqConcat(sizes, a[1..], b);
      assert (a + b)[1..] == a[1..] + b;
    }
  }

  /** The search loop of rpmem_handle_map: index of the first resource whose size is
      strictly above `len`, or the length of the list. */
  function FirstFit(sz: seq<int>, len: int): (k: nat)
    ensures k <= |sz|
    ensures k < |sz| ==> len < sz[k]
    ensures forall j :: 0 <= j < k ==> sz[j] <= len
  {
    if sz == [] then 0
    else if len < sz[0] then 0
    else 1 + FirstFit(sz[1..], len)
  }

  function SizesOf(sizes: Sizes, list: seq<ResId>): (sz: seq<int>)
    requires forall i :: 0 <= i < |list| ==> list[i] in sizes
    ensures |sz| == |list| && forall i :: 0 <= i < |list| ==> sz[i] == sizes[list[i]]
  {
    seq(|list|, i requires 0 <= i < |list| => sizes[list[i]])
  }

  // ---- the shared fields, and the two critical sections as single steps

  /** The fields guarded by `res_lock`: the list, every unit's `res` pointer, and the
      two counters. */
  datatype Shot = Shot(list: seq<ResId>, owner: map<ConnId, ResId>, free: int, inUse: int)

  predicate Listed(sizes: Sizes, list: seq<ResId>)
  {
    forall i :: 0 <= i < |list| ==> list[i] in sizes
  }

  function Chosen(sizes: Sizes, s: Shot, len: int): (r: Option<ResId>)
    requires Listed(sizes, s.list)
  {
    var i := FirstFit(SizesOf(sizes, s.list), len);
    if i < |s.list| then Some(s.list[i]) else None
  }

  /** What the map section should do, in one step: take the first fitting resource. */
  function Take(sizes: Sizes, s: Shot, c: ConnId, len: int): (t: Shot)
    requires Listed(sizes, s.list)
  {
    var i := FirstFit(SizesOf(sizes, s.list), len);
    if i == |s.list| then s else
      var r := s.list[i];
      Shot(s.list[..i] + s.list[i + 1..], s.owner[c := r], s.free - sizes[r], s.inUse + sizes[r])
  }

  /** First fit: the resource taken is the one that fits and has none before it that does,
      it leaves the list where it stood, and the counters move by its size; if none fits,
      nothing changes. */
  lemma TakesFirst(sizes: Sizes, s: Shot, c: ConnId, len: int, i: nat)
    requires Listed(sizes, s.list) && i <= |s.list|
    requires forall j :: 0 <= j < i ==> sizes[s.list[j]] <= len
    requires i < |s.list| ==> sizes[s.list[i]] > len
    ensures i == |s.list| ==> Chosen(sizes, s, len).None? && Take(sizes, s, c, len) == s
    ensures i < |s.list| ==>
              && Chosen(sizes, s, len) == Some(s.list[i])
              && var t, r := Take(sizes, s, c, len), s.list[i];
                 && t.list == s.list[..i] + s.list[i + 1..]
                 && c in t.owner && t.owner[c] == r
                 && t.owner.Keys == s.owner.Keys + {c}
                 && (forall d :: d in s.owner && d != c ==> t.owner[d] == s.owner[d])
                 && t.free == s.free - sizes[r] && t.inUse == s.inUse + sizes[r]
  {
    var sz := SizesOf(sizes, s.list);
    assert FirstFit(sz, len) == i by {
      assert forall j :: 0 <= j < |sz| ==> sz[j] == sizes[s.list[j]];
    }
  }

  /** What the unmap section should do, in one step: put `r` back at the head. */
  function Give(sizes: Sizes, s: Shot, c: ConnId, r: ResId): (t: Shot)
    requires r in sizes
  {
    Shot([r] + s.list, s.owner - {c}, s.free + sizes[r], s.inUse - sizes[r])
  }

  // ---- what holds outside the lock

  ghost predicate Injective(owner: map<ConnId, ResId>)
  {
    forall c, d :: c in owner && d in owner && c != d ==> owner[c] != owner[d]
  }

  /** Every resource is in the list exactly once or held by exactly one unit, and the
      counters are the sums of the two parts. */
  ghost predicate Consistent(sizes: Sizes, s: Shot)
  {
    && Listed(sizes, s.list)
    && NoDup(s.list)
    && Injective(s.owner)
    && s.owner.Values <= sizes.Keys
    && Elems(s.list) !! s.owner.Values
    && Elems(s.list) + s.owner.Values == sizes.Keys
    && s.free == SumSeq(sizes, s.list)
    && s.inUse == SumSet(sizes, s.owner.Values)
  }

  /** Conservation: the two counters always add up to the total. */
  lemma Conserved(sizes: Sizes, s: Shot)
    requires Consistent(sizes, s)
    ensures s.free + s.inUse == SumSet(sizes, sizes.Keys)
    ensures 0 <= s.free <= SumSet(sizes, sizes.Keys)
  {
    SumSeqIsSumSet(sizes, s.list);
    SumSetUnion(sizes, Elems(s.list), s.owner.Values);
  }

  lemma OwnerAdd(owner: map<ConnId, ResId>, c: ConnId, r: ResId)
    requires c !in owner
    ensures owner[c := r].Values == owner.Values + {r}
  {
    var o := owner[c := r];
    forall v | v in owner.Values + {r} ensures v in o.Values {
      if v == r {
        assert o[c] == r;
      } else {
        var d :| d in owner && owner[d] == v;
        assert o[d] == v;
      }
    }
  }

  lemma OwnerDrop(owner: map<ConnId, ResId>, c: ConnId)
    requires c in owner && Injective(owner)
    ensures (owner - {c}).Values == owner.Values - {owner[c]}
  {
    var o := owner - {c};
    forall v | v in owner.Values - {owner[c]} ensures v in o.Values {
      var d :| d in owner && owner[d] == v;
      assert o[d] == v;
    }
    forall v | v in o.Values ensures v in owner.Values - {owner[c]} {
      var d :| d in o && o[d] == v;
      assert owner[d] == v && d != c;
    }
  }

  lemma {:induction false} CutList(sizes: Sizes, list: seq<ResId>, i: nat)
    requires Listed(sizes, list) && NoDup(list) && i < |list|
    ensures var rest := list[..i] + list[i + 1..];
            && Listed(sizes, rest) && NoDup(rest)
            && Elems(rest) == Elems(list) - {list[i]}
            && SumSeq(sizes, list) == SumSeq(sizes, rest) + sizes[list[i]]
  {
    var rest := list[..i] + list[i + 1..];
    forall r | r in Elems(list) - {list[i]} ensures r in rest {
      var j :| 0 <= j < |list| && list[j] == r;
      assert rest[if j < i then j else j - 1] == r;
    }
    assert list == list[..i] + ([list[i]] + list[i + 1..]);
    SumSeqConcat(sizes, list[..i], [list[i]] + list[i + 1..]);
    SumSeqConcat(sizes, list[..i], list[i + 1..]);
  }

  /** The map section, taken as a whole, keeps the pool consistent for a unit that
      holds nothing; it takes nothing exactly when no pooled resource is large enough,
      and otherwise the first one that is. */
  lemma TakeKeepsPool(sizes: Sizes, s: Shot, c: ConnId, len: int)
    requires Consistent(sizes, s) && c !in s.owner
    ensures Consistent(sizes, Take(sizes, s, c, len))
    ensures c !in Take(sizes, s, c, len).owner <==> forall r :: r in s.list ==> sizes[r] <= len
    ensures forall d :: d != c ==> (d in s.owner <==> d in Take(sizes, s, c, len).owner)
    ensures forall d :: d in s.owner ==> Take(sizes, s, c, len).owner[d] == s.owner[d]
  {
    TakeConsistent(sizes, s, c, len);
    TakeFits(sizes, s, c, len);
  }

  lemma TakeConsistent(sizes: Sizes, s: Shot, c: ConnId, len: int)
    requires Consistent(sizes, s) && c !in s.owner
    ensures Consistent(sizes, Take(sizes, s, c, len))
  {
    var i := FirstFit(SizesOf(sizes, s.list), len);
    if i < |s.list| {
      var r := s.list[i];
      CutList(sizes, s.list, i);
      OwnerAdd(s.owner, c, r);
      SumSetUnion(sizes, s.owner.Values, {r});
      SumSetPick(sizes, {r}, r);
    }
  }

  lemma TakeFits(sizes: Sizes, s: Shot, c: ConnId, len: int)
    requires Listed(sizes, s.list) && c !in s.owner
    ensures c !in Take(sizes, s, c, len).owner <==> forall r :: r in s.list ==> sizes[r] <= len
  {
    var i := FirstFit(SizesOf(sizes, s.list), len);
    if i < |s.list| {
      assert s.list[i] in s.list && sizes[s.list[i]] > len;
    } else {
      forall r | r in s.list ensures sizes[r] <= len {
        var j :| 0 <= j < |s.list| && s.list[j] == r;
        assert SizesOf(sizes, s.list)[j] <= len;
      }
    }
  }

  lemma GiveKeepsPool(sizes: Sizes, s: Shot, c: ConnId)
    requires Consistent(sizes, s) && c in s.owner
    ensures Consistent(sizes, Give(sizes, s, c, s.owner[c]))
  {
    var r := s.owner[c];
    OwnerDrop(s.owner, c);
    SumSetPick(sizes, s.owner.Values, r);
    var t := Give(sizes, s, c, r);
    assert Elems(t.list) == Elems(s.list) + {r};
    assert t.list[1..] == s.list;
  }

  /** Unmapping and mapping again at once, with a length that fits, gives a unit the
      same resource and leaves the pool exactly as it was. */
  lemma GiveThenTake(sizes: Sizes, s: Shot, c: ConnId, len: int)
    requires Consistent(sizes, s) && c in s.owner && len < sizes[s.owner[c]]
    ensures Take(sizes, Give(sizes, s, c, s.owner[c]), c, len) == s
  {
    var g := Give(sizes, s, c, s.owner[c]);
    assert FirstFit(SizesOf(sizes, g.list), len) == 0;
    assert g.list[..0] + g.list[1..] == s.list;
    assert (s.owner - {c})[c := s.owner[c]] == s.owner;
  }

  // ---- the critical sections, store by store

  /** Who holds `res_lock` and how many stores of its section are done.
      Taking: 0 locked, 1 searched, 2 unit->res stored, 3 free_size stored,
              4 in_use_size stored, 5 unlinked, or nothing found.
      Giving: 0 locked, 1 linked at the head, 2 unit->res cleared,
              3 free_size stored, 4 in_use_size stored.
      `was` is the pool when the lock was taken; no step reads it. */
  datatype Lock =
    | Unlocked
    | Taking(who: ConnId, was: Shot, len: int, res: Option<ResId>, k: nat)
    | Giving(who: ConnId, was: Shot, gave: ResId, k: nat)

  datatype Pool = Pool(now: Shot, lock: Lock)

  predicate Holds(p: Pool, c: ConnId) { !p.lock.Unlocked? && p.lock.who == c }

  function LockToTake(p: Pool, c: ConnId, len: int): (p': Pool)
  {
    Pool(p.now, Taking(c, p.now, len, None, 0))
  }

  function LockToGive(p: Pool, c: ConnId, r: ResId): (p': Pool)
  {
    Pool(p.now, Giving(c, p.now, r, 0))
  }

  predicate CanStore(sizes: Sizes, p: Pool)
  {
    match p.lock
    case Unlocked => false
    case Taking(_, _, _, res, k) =>
      && Listed(sizes, p.now.list)
      && k < 5
      && (k > 0 ==> res.Some? && res.value in sizes)
    case Giving(_, _, r, k) => k < 4 && r in sizes
  }

  /** The next store of the section that holds the lock. */
  function Store(sizes: Sizes, p: Pool): (p': Pool)
    requires CanStore(sizes, p)
  {
    var s := p.now;
    match p.lock
    case Taking(c, was, len, res, k) =>
      if k == 0 then
        var found := Chosen(sizes, s, len);
        Pool(s, Taking(c, was, len, found, if found.Some? then 1 else 5))
      else
        var next := Taking(c, was, len, res, k + 1);
        if k == 1 then Pool(s.(owner := s.owner[c := res.value]), next)
        else if k == 2 then Pool(s.(free := s.free - sizes[res.value]), next)
        else if k == 3 then Pool(s.(inUse := s.inUse + sizes[res.value]), next)
        else Pool(s.(list := Without(s.list, res.value)), next)
    case Giving(c, was, r, k) =>
      var next := Giving(c, was, r, k + 1);
      if k == 0 then Pool(s.(list := [r] + s.list), next)
      else if k == 1 then Pool(s.(owner := s.owner - {c}), next)
      else if k == 2 then Pool(s.(free := s.free + sizes[r]), next)
      else Pool(s.(inUse := s.inUse - sizes[r]), next)
  }

  predicate SectionDone(p: Pool)
  {
    || (p.lock.Taking? && p.lock.k == 5)
    || (p.lock.Giving? && p.lock.k == 4)
  }

  function Unlock(p: Pool): (p': Pool) { Pool(p.now, Unlocked) }

  /** The pool that the running section will leave behind. */
  function After(sizes: Sizes, p: Pool): (t: Shot)
    requires p.lock.Taking? ==> Listed(sizes, p.lock.was.list)
    requires p.lock.Giving? ==> p.lock.gave in sizes
  {
    match p.lock
    case Unlocked => p.now
    case Taking(c, was, len, _, _) => Take(sizes, was, c, len)
    case Giving(c, was, r, _) => Give(sizes, was, c, r)
  }

  /** Invariant of the pool at every store: the section started from a consistent pool
      and has done its first k stores. */
  ghost predicate PoolInv(sizes: Sizes, p: Pool)
  {
    match p.lock
    case Unlocked => Consistent(sizes, p.now)
    case Taking(c, was, len, res, k) =>
      && Consistent(sizes, was) && c !in was.owner && k <= 5
      && (k == 0 ==> p.now == was && res == None)
      && (k > 0 ==> res == Chosen(sizes, was, len))
      && (k > 0 && res.None? ==> k == 5 && p.now == was)
      && (k > 0 && res.Some? ==>
            && p.now.list == (if k < 5 then was.list else Take(sizes, was, c, len).list)
            && p.now.owner == (if k < 2 then was.owner else was.owner[c := res.value])
            && p.now.free == (if k < 3 then was.free else was.free - sizes[res.value])
            && p.now.inUse == (if k < 4 then was.inUse else was.inUse + sizes[res.value]))
    case Giving(c, was, r, k) =>
      && Consistent(sizes, was) && c in was.owner && was.owner[c] == r && k <= 4
      && p.now.list == (if k < 1 then was.list else [r] + was.list)
      && p.now.owner == (if k < 2 then was.owner else was.owner - {c})
      && p.now.free == (if k < 3 then was.free else was.free + sizes[r])
      && p.now.inUse == (if k < 4 then was.inUse else was.inUse - sizes[r])
  }

  /** Every store of a critical section keeps the invariant, and neither the pool it
      started from nor the pool it is heading for moves. */
  lemma StoreKeepsPool(sizes: Sizes, p: Pool)
    requires PoolInv(sizes, p) && CanStore(sizes, p)
    ensures PoolInv(sizes, Store(sizes, p))
    ensures Store(sizes, p).lock.was == p.lock.was
    ensures After(sizes, Store(sizes, p)) == After(sizes, p)
  {
    if p.lock.Taking? && p.lock.k == 4 {
      var was := p.lock.was;
      var i := FirstFit(SizesOf(sizes, was.list), p.lock.len);
      WithoutAt(was.list, i);
    }
  }

  /** A store touches no `res` pointer but that of the unit that holds the lock. */
  lemma StoreFrame(sizes: Sizes, p: Pool)
    requires CanStore(sizes, p)
    ensures var p' := Store(sizes, p);
            && p'.lock.Taking? == p.lock.Taking? && p'.lock.Giving? == p.lock.Giving?
            && p'.lock.who == p.lock.who
            && forall d :: d != p.lock.who ==>
                 && (d in p.now.owner <==> d in p'.now.owner)
                 && (d in p.now.owner ==> p'.now.owner[d] == p.now.owner[d])
  {
  }

  /** A section that has not finished can always do its next store. */
  lemma SectionAdvances(sizes: Sizes, p: Pool)
    requires PoolInv(sizes, p) && !p.lock.Unlocked?
    ensures CanStore(sizes, p) || SectionDone(p)
  {
  }

  /** Refinement of the sections: the stores add up to the one-step operation, and the
      pool that the lock is released on is consistent again. */
  lemma UnlockIsAtomic(sizes: Sizes, p: Pool)
    requires PoolInv(sizes, p) && SectionDone(p)
    ensures p.now == After(sizes, p)
    ensures PoolInv(sizes, Unlock(p)) && Consistent(sizes, Unlock(p).now)
  {
    match p.lock
    case Taking(c, was, len, res, _) => TakeKeepsPool(sizes, was, c, len);
    case Giving(c, was, r, _) => GiveKeepsPool(sizes, was, c);
  }

  /** `v` is the sum of the pooled sizes, or, inside a critical section, the sum before or
      after that section. */
  ghost predicate NearSum(sizes: Sizes, p: Pool, v: int)
    requires PoolInv(sizes, p)
  {
    if p.lock.Unlocked? then v == SumSeq(sizes, p.now.list)
    else
      && Consistent(sizes, p.lock.was) && Consistent(sizes, After(sizes, p))
      && (v == SumSeq(sizes, p.lock.was.list) || v == SumSeq(sizes, After(sizes, p).list))
  }

  /** The unlocked read in rpmem_handle_open: `free_size`, read between any two stores
      of any critical section, is the sum of the pooled sizes before or after that
      section, and lies between 0 and the total. */
  lemma UnlockedRead(sizes: Sizes, p: Pool)
    requires PoolInv(sizes, p)
    ensures NearSum(sizes, p, p.now.free)
    ensures 0 <= p.now.free <= SumSet(sizes, sizes.Keys)
  {
    match p.lock
    case Unlocked => Conserved(sizes, p.now);
    case Taking(c, was, len, _, _) =>
      TakeKeepsPool(sizes, was, c, len);
      Conserved(sizes, was);
      Conserved(sizes, Take(sizes, was, c, len));
    case Giving(c, was, r, _) =>
      GiveKeepsPool(sizes, was, c);
      Conserved(sizes, was);
      Conserved(sizes, Give(sizes, was, c, r));
  }

  /** At every store, no resource has two owners. */
  lemma OwnersDistinct(sizes: Sizes, p: Pool)
    requires PoolInv(sizes, p)
    ensures Injective(p.now.owner) && p.now.owner.Values <= sizes.Keys
  {
    match p.lock
    case Unlocked =>
    case Taking(c, was, len, res, _) =>
      if res.Some? { OwnerAdd(was.owner, c, res.value); }
    case Giving(c, was, _, _) => OwnerDrop(was.owner, c);
  }

  /** Pool initialisation in main, for any list of distinct resources. */
  lemma InitialPool(sizes: Sizes, list: seq<ResId>)
    requires Listed(sizes, list) && NoDup(list) && Elems(list) == sizes.Keys
    ensures PoolInv(sizes, Pool(Shot(list, map[], SumSeq(sizes, list), 0), Unlocked))
  {
    var owner: map<ConnId, ResId> := map[];
    assert owner.Values == {};
  }
}
