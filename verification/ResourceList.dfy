/** The resource pool as the server builds it: resources linked through a field of their
    own (sys/queue.h SLIST), a list head, two counters, and one `res` pointer per unit. The
    critical sections of the map and unmap handlers are the methods Take and Give. */
module ResourceList {
  import PoolModel

  class Resource {
    const size: int
    var next: Resource?

    constructor (size: int)
      ensures this.size == size && next == null
    {
      this.size := size;
      this.next := null;
    }
  }

  class Unit {
    var res: Resource?

    constructor ()
      ensures res == null
    {
      res := null;
    }
  }

  ghost function NodeAt(list: seq<Resource>, k: nat): (r: Resource?)
  {
    if k < |list| then list[k] else null
  }

  /** `list` is the sequence of nodes of the null-terminated list at `head`. */
  ghost predicate Linked(head: Resource?, list: seq<Resource>)
    reads set r | r in list
  {
    && head == NodeAt(list, 0)
    && forall k {:trigger list[k].next} :: 0 <= k < |list| ==> list[k].next == NodeAt(list, k + 1)
  }

  /** No node occurs twice: the list has no cycle. */
  ghost predicate Distinct(list: seq<Resource>)
  {
    forall i, j :: 0 <= i < j < |list| ==> list[i] != list[j]
  }

  ghost function Sizes(list: seq<Resource>): (sz: seq<int>)
    ensures |sz| == |list| && forall i :: 0 <= i < |list| ==> sz[i] == list[i].size
  {
    seq(|list|, i requires 0 <= i < |list| => list[i].size)
  }

  ghost function Total(list: seq<Resource>): (n: int)
  {
    if list == [] then 0 else list[0].size + Total(list[1..])
  }

  lemma {:induction false} TotalConcat(a: seq<Resource>, b: seq<Resource>)
    ensures Total(a + b) == Total(a) + Total(b)
  {
    if a == [] {
      assert a + b == b;
    } else {
      TotalConcat(a[1..], b);
      assert (a + b)[1..] == a[1..] + b;
    }
  }

  ghost function Cut(list: seq<Resource>, k: nat): (rest: seq<Resource>)
    requires k < |list|
  {
    list[..k] + list[k + 1..]
  }

  lemma TotalCut(list: seq<Resource>, k: nat)
    requires k < |list|
    ensures Total(list) == Total(Cut(list, k)) + list[k].size
  {
    hide Total;
    var a, x, b := list[..k], list[k], list[k + 1..];
    assert list == a + ([x] + b);
    TotalConcat(a, [x] + b);
    TotalFirst(x, b);
    TotalConcat(a, b);
  }

  lemma TotalFirst(x: Resource, b: seq<Resource>)
    ensures Total([x] + b) == x.size + Total(b)
  {
    assert ([x] + b)[1..] == b;
  }

  /** Moving a node from one of two disjoint lists to the other keeps them disjoint. */
  lemma DistinctMove(a: seq<Resource>, b: seq<Resource>, k: nat)
    requires Distinct(a + b) && k < |a|
    ensures Distinct(Cut(a, k) + ([a[k]] + b))
  {
    var u, v := a + b, Cut(a, k) + ([a[k]] + b);
    forall i, j | 0 <= i < j < |v| ensures v[i] != v[j] {
      assert v[i] == u[Source(|a|, k, i)] && v[j] == u[Source(|a|, k, j)];
    }
  }

  ghost function Source(n: nat, k: nat, i: nat): (s: nat)
    requires k < n
  {
    if i < k then i else if i < n - 1 then i + 1 else if i == n - 1 then k else i
  }

  class Server {
    var head: Resource?
    var totalSize: int
    var inUseSize: int
    var freeSize: int
    ghost var list: seq<Resource>
    ghost var out: seq<Resource>
    ghost var units: set<Unit>

    /** The resources handed out are those that the units hold, each held by one unit. */
    ghost predicate Held()
      reads this, units
    {
      && (forall u :: u in units && u.res != null ==> u.res in out)
      && (forall u, v :: u in units && v in units && u != v && u.res != null ==> u.res != v.res)
      && (forall r :: r in out ==> exists u :: u in units && u.res == r)
    }

    /** The list is well linked, no resource occurs twice in the list and the handed-out
        resources together, and the counters are the sums of the two parts. */
    ghost predicate Pooled()
      reads this, set r | r in list
    {
      && Linked(head, list)
      && Distinct(list + out)
      && freeSize == Total(list)
      && inUseSize == Total(out)
      && totalSize == freeSize + inUseSize
    }

    /** Every resource is in the list exactly once or held by exactly one unit. */
    ghost predicate Valid()
      reads this, units, set r | r in list
    {
      Pooled() && Held()
    }

    /** main: a pool of one resource. */
    constructor (res: Resource)
      modifies res
      ensures Valid() && list == [res] && out == [] && units == {} && totalSize == res.size
    {
      head := res;
      totalSize := res.size;
      freeSize := res.size;
      inUseSize := 0;
      list := [res];
      out := [];
      units := {};
      new;
      res.next := null;
      assert Total(list) == list[0].size + Total(list[1..]);
    }

    /** rpmem_connect_request_handler: a zeroed unit for a new connection. */
    method NewUnit() returns (unit: Unit)
      requires Valid()
      modifies this`units
      ensures Valid() && fresh(unit) && unit.res == null && units == old(units) + {unit}
    {
      unit := new Unit();
      units := units + {unit};
    }

    /** SLIST_REMOVE: walk to the predecessor of `res` and unlink it. */
    method Unlink(res: Resource, ghost k: nat)
      requires Linked(head, list) && Distinct(list) && k < |list| && list[k] == res
      modifies this`head, this`list, set r | r in list
      ensures list == Cut(old(list), k)
      ensures Linked(head, list)
    {
      ghost var was := list;
      if head == res {
        head := res.next;
        list := Cut(was, k);
        assert k == 0 && list == was[1..];
        assert forall j :: 0 <= j < |list| ==> list[j] == was[j + 1];
      } else {
        var cur: Resource? := head;
        ghost var i := 0;
        while cur.next != res
          invariant 0 <= i < k && cur == was[i]
          decreases k - i
        {
          cur := cur.next;
          i := i + 1;
        }
        assert was[i].next == was[i + 1] && i + 1 == k;
        cur.next := res.next;
        list := Cut(was, k);
        assert forall j :: 0 <= j < |list| ==> list[j] == was[if j < k then j else j + 1];
        assert was[k].next == NodeAt(was, k + 1);
      }
    }

    /** The search loop of rpmem_handle_map: the first resource larger than `len`. */
    method Search(len: int) returns (res: Resource?, ghost k: nat)
      requires Linked(head, list)
      ensures k == PoolModel.FirstFit(Sizes(list), len)
      ensures res == NodeAt(list, k)
    {
      ghost var sz := Sizes(list);
      k := 0;
      res := head;
      while res != null
        invariant k <= |list| && res == NodeAt(list, k)
        invariant forall j :: 0 <= j < k ==> sz[j] <= len
        decreases |list| - k
      {
        var next := res.next;
        assert list[k].next == next;
        if len < res.size {
          FitsAt(sz, len, k);
          return;
        }
        res := next;
        k := k + 1;
      }
      FitsAt(sz, len, k);
    }

    /** The critical section of rpmem_handle_map for a unit that holds nothing. It takes
        the first resource whose size exceeds `len`, keeps the others in order, and
        returns its loop variable, which then equals unit->res; it takes nothing exactly
        when no pooled resource is large enough. No other unit is touched. */
    method Take(unit: Unit, len: int) returns (res: Resource?)
      requires Valid() && unit in units && unit.res == null
      modifies this`head, this`freeSize, this`inUseSize, this`list, this`out, unit, set r | r in list
      ensures Valid() && totalSize == old(totalSize)
      ensures res == unit.res
      ensures var k := PoolModel.FirstFit(Sizes(old(list)), len);
              if k < |old(list)| then
                res == old(list)[k] && list == Cut(old(list), k) && out == [res] + old(out)
              else
                res == null && list == old(list) && out == old(out)
    {
      hide Distinct, Linked;
      ghost var k;
      res, k := Search(len);
      if res != null {
        ghost var was, had := list, out;
        unit.res := res;
        freeSize := freeSize - res.size;
        inUseSize := inUseSize + res.size;
        assert Distinct(was) by { DistinctPart(was, had); }
        Unlink(res, k);
        out := [res] + had;
        assert forall u :: u in units && u != unit ==> u.res == old(u.res);
        assert Pooled() by {
          TotalCut(was, k);
          DistinctMove(was, had, k);
          assert out[1..] == had;
        }
        assert res !in had by { NotHeld(was, had, k); }
        assert unit.res == res && forall r :: r in out <==> r == res || r in had;
      }
    }

    /** SLIST_INSERT_HEAD. */
    method InsertHead(res: Resource)
      requires Linked(head, list) && res !in list
      modifies this`head, this`list, res`next
      ensures Linked(head, list) && list == [res] + old(list)
    {
      ghost var was := list;
      res.next := head;
      head := res;
      list := [res] + was;
      assert forall j :: 0 < j < |list| ==> list[j] == was[j - 1];
    }

    /** The critical section of rpmem_handle_unmap: the unit's resource goes back to the
        head of the list. */
    method Give(unit: Unit)
      requires Valid() && unit in units && unit.res != null
      modifies this`head, this`freeSize, this`inUseSize, this`list, this`out, unit, unit.res
      ensures Valid() && totalSize == old(totalSize)
      ensures unit.res == null
      ensures list == [old(unit.res)] + old(list)
      ensures multiset(out) == multiset(old(out)) - multiset{old(unit.res)}
    {
      hide Distinct, Linked;
      var res := unit.res;
      ghost var was, had := list, out;
      ghost var k :| 0 <= k < |had| && had[k] == res;
      assert res !in was by { NotInBoth(was, had, k); }
      InsertHead(res);
      unit.res := null;
      freeSize := freeSize + res.size;
      inUseSize := inUseSize - res.size;
      out := Cut(had, k);
      assert Pooled() by {
        assert list[1..] == was;
        TotalCut(had, k);
        DistinctBack(was, had, k);
      }
      CutMembers(was, had, k);
      CutMultiset(had, k);
    }

    /** Unmap followed at once by a map of a length that fits: the same resource again,
        and the list as it was. */
    method GiveAndTake(unit: Unit, len: int) returns (res: Resource?)
      requires Valid() && unit in units && unit.res != null && len < unit.res.size
      modifies this`head, this`freeSize, this`inUseSize, this`list, this`out, unit, unit.res, set r | r in list
      ensures Valid() && res == unit.res == old(unit.res) && list == old(list)
      ensures multiset(out) == multiset(old(out))
    {
      Give(unit);
      FitsAt(Sizes(list), len, 0);
      assert Cut(list, 0) == list[1..];
      res := Take(unit, len);
    }
  }

  lemma CutMultiset(list: seq<Resource>, k: nat)
    requires k < |list|
    ensures multiset(Cut(list, k)) == multiset(list) - multiset{list[k]}
  {
    assert list == list[..k] + [list[k]] + list[k + 1..];
  }

  lemma CutMembers(a: seq<Resource>, b: seq<Resource>, k: nat)
    requires Distinct(a + b) && k < |b|
    ensures forall r :: r in Cut(b, k) <==> r in b && r != b[k]
  {
    var u := a + b;
    assert forall i :: 0 <= i < |b| ==> u[|a| + i] == b[i];
    forall r | r in b && r != b[k] ensures r in Cut(b, k) {
      var i :| 0 <= i < |b| && b[i] == r;
      assert Cut(b, k)[if i < k then i else i - 1] == r;
    }
  }

  lemma DistinctPart(a: seq<Resource>, b: seq<Resource>)
    requires Distinct(a + b)
    ensures Distinct(a)
  {
    assert forall i :: 0 <= i < |a| ==> a[i] == (a + b)[i];
  }

  lemma NotHeld(a: seq<Resource>, b: seq<Resource>, k: nat)
    requires Distinct(a + b) && k < |a|
    ensures a[k] !in b
  {
    var u := a + b;
    assert u[k] == a[k] && forall i :: 0 <= i < |b| ==> u[|a| + i] == b[i];
  }

  lemma NotInBoth(a: seq<Resource>, b: seq<Resource>, k: nat)
    requires Distinct(a + b) && k < |b|
    ensures b[k] !in a
  {
    var u := a + b;
    assert u[|a| + k] == b[k];
    assert forall i :: 0 <= i < |a| ==> u[i] == a[i];
  }

  lemma DistinctBack(a: seq<Resource>, b: seq<Resource>, k: nat)
    requires Distinct(a + b) && k < |b|
    ensures Distinct(([b[k]] + a) + Cut(b, k))
  {
    var u, v := a + b, ([b[k]] + a) + Cut(b, k);
    forall i, j | 0 <= i < j < |v| ensures v[i] != v[j] {
      assert v[i] == u[BackSource(|a|, k, i)] && v[j] == u[BackSource(|a|, k, j)];
    }
  }

  ghost function BackSource(n: nat, k: nat, i: nat): (s: nat)
  {
    if i == 0 then n + k else if i < n + 1 + k then i - 1 else i
  }

  /** The first fit is the only index with a fit and none before it. */
  lemma FitsAt(sz: seq<int>, len: int, k: nat)
    requires k <= |sz| && (k < |sz| ==> len < sz[k]) && forall j :: 0 <= j < k ==> sz[j] <= len
    ensures PoolModel.FirstFit(sz, len) == k
  {
  }
}
