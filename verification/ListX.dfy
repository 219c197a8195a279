/** headers/listx.h: circular doubly linked lists whose links live inside the objects they chain.
    A link is the sentinel of a list or the list_head embedded in pool element e. The two maps are the
    memory holding the next and prev fields; Q is the ghost contents, list by list. */
module ListX {
  import opened Lists

  /** Size of every static pool of the nucleus; 20 in the shipped configuration. */
  const MAXPROC: Positive

  /** Position in a pool: a PCB of pcbFree_table or a descriptor of semd_table. */
  type Idx = i: nat | i < MAXPROC witness 0

  datatype Ref = Head(h: nat) | Elem(e: Idx)

  function At(h: nat, s: seq<Idx>, j: int): Ref {
    if 0 <= j < |s| then Elem(s[j]) else Head(h)
  }

  /** The next fields lead from the sentinel through s and back. */
  ghost predicate Forth(next: map<Ref, Ref>, h: nat, s: seq<Idx>) {
    && Head(h) in next && next[Head(h)] == At(h, s, 0)
    && forall j {:trigger next[Elem(s[j])]} {:trigger Elem(s[j]) in next} ::
         0 <= j < |s| ==> Elem(s[j]) in next && next[Elem(s[j])] == At(h, s, j + 1)
  }

  /** The prev fields lead from the sentinel through s backwards. */
  ghost predicate Back(prev: map<Ref, Ref>, h: nat, s: seq<Idx>) {
    && Head(h) in prev && prev[Head(h)] == At(h, s, |s| - 1)
    && forall j {:trigger prev[Elem(s[j])]} {:trigger Elem(s[j]) in prev} ::
         0 <= j < |s| ==> Elem(s[j]) in prev && prev[Elem(s[j])] == At(h, s, j - 1)
  }

  ghost predicate Ring(next: map<Ref, Ref>, prev: map<Ref, Ref>, h: nat, s: seq<Idx>) {
    Forth(next, h, s) && Back(prev, h, s)
  }

  /** No element is chained into two of the lists. */
  ghost predicate Disjoint(q: seq<seq<Idx>>) {
    forall g, h, x :: 0 <= g < |q| && 0 <= h < |q| && g != h && x in q[g] ==> x !in q[h]
  }

  ghost predicate Chained(q: seq<seq<Idx>>, x: Idx) {
    exists h :: 0 <= h < |q| && x in q[h]
  }

  ghost predicate Separate(q: seq<seq<Idx>>) {
    Disjoint(q) && forall h :: 0 <= h < |q| ==> NoDup(q[h])
  }

  /** A ring only depends on the links of its own sentinel and elements. */
  ghost predicate SameLink(m: map<Ref, Ref>, m': map<Ref, Ref>, r: Ref) {
    r in m ==> r in m' && m'[r] == m[r]
  }

  lemma ForthFrame(m: map<Ref, Ref>, m': map<Ref, Ref>, h: nat, s: seq<Idx>)
    requires Forth(m, h, s) && SameLink(m, m', Head(h)) && forall x :: x in s ==> SameLink(m, m', Elem(x))
    ensures Forth(m', h, s)
  {
    forall j | 0 <= j < |s| ensures Elem(s[j]) in m' && m'[Elem(s[j])] == At(h, s, j + 1) {
      assert s[j] in s && Elem(s[j]) in m;
    }
  }

  lemma BackFrame(m: map<Ref, Ref>, m': map<Ref, Ref>, h: nat, s: seq<Idx>)
    requires Back(m, h, s) && SameLink(m, m', Head(h)) && forall x :: x in s ==> SameLink(m, m', Elem(x))
    ensures Back(m', h, s)
  {
    forall j | 0 <= j < |s| ensures Elem(s[j]) in m' && m'[Elem(s[j])] == At(h, s, j - 1) {
      assert s[j] in s && Elem(s[j]) in m;
    }
  }

  lemma ForthInsert(m: map<Ref, Ref>, m': map<Ref, Ref>, h: nat, s: seq<Idx>, i: nat, x: Idx)
    requires Forth(m, h, s) && NoDup(s) && i <= |s| && x !in s
    requires m' == m[Elem(x) := At(h, s, i)][At(h, s, i - 1) := Elem(x)]
    ensures Forth(m', h, InsertAt(s, i, x))
  {
    var t := InsertAt(s, i, x);
    forall j | 0 <= j < |t| ensures Elem(t[j]) in m' && m'[Elem(t[j])] == At(h, t, j + 1) {
      if j < i {
        assert t[j] == s[j] && Elem(s[j]) in m;
      } else if i < j {
        assert t[j] == s[j - 1] && Elem(s[j - 1]) in m;
      }
    }
  }

  lemma BackInsert(m: map<Ref, Ref>, m': map<Ref, Ref>, h: nat, s: seq<Idx>, i: nat, x: Idx)
    requires Back(m, h, s) && NoDup(s) && i <= |s| && x !in s
    requires m' == m[At(h, s, i) := Elem(x)][Elem(x) := At(h, s, i - 1)]
    ensures Back(m', h, InsertAt(s, i, x))
  {
    var t := InsertAt(s, i, x);
    forall j | 0 <= j < |t| ensures Elem(t[j]) in m' && m'[Elem(t[j])] == At(h, t, j - 1) {
      if j < i {
        assert t[j] == s[j] && Elem(s[j]) in m;
      } else if i < j {
        assert t[j] == s[j - 1] && Elem(s[j - 1]) in m;
      }
    }
  }

  lemma ForthDelete(m: map<Ref, Ref>, m': map<Ref, Ref>, h: nat, s: seq<Idx>, i: nat)
    requires Forth(m, h, s) && NoDup(s) && i < |s|
    requires m' == m[At(h, s, i - 1) := At(h, s, i + 1)][Elem(s[i]) := Elem(s[i])]
    ensures Forth(m', h, RemoveAt(s, i))
  {
    var t := RemoveAt(s, i);
    forall j | 0 <= j < |t| ensures Elem(t[j]) in m' && m'[Elem(t[j])] == At(h, t, j + 1) {
      var k := if j < i then j else j + 1;
      assert t[j] == s[k] && Elem(s[k]) in m;
    }
  }

  lemma BackDelete(m: map<Ref, Ref>, m': map<Ref, Ref>, h: nat, s: seq<Idx>, i: nat)
    requires Back(m, h, s) && NoDup(s) && i < |s|
    requires m' == m[At(h, s, i + 1) := At(h, s, i - 1)][Elem(s[i]) := Elem(s[i])]
    ensures Back(m', h, RemoveAt(s, i))
  {
    var t := RemoveAt(s, i);
    forall j | 0 <= j < |t| ensures Elem(t[j]) in m' && m'[Elem(t[j])] == At(h, t, j - 1) {
      var k := if j < i then j else j + 1;
      assert t[j] == s[k] && Elem(s[k]) in m;
    }
  }

  /** The memory of a whole field: the lists share no element and each is a ring. */
  ghost predicate Linked(next: map<Ref, Ref>, prev: map<Ref, Ref>, q: seq<seq<Idx>>) {
    && Separate(q)
    && (forall e: Idx :: Elem(e) in next && Elem(e) in prev)
    && (forall h :: 0 <= h < |q| ==> Ring(next, prev, h, q[h]))
  }

  lemma SeparateInsert(q: seq<seq<Idx>>, h: nat, i: nat, x: Idx)
    requires Separate(q) && h < |q| && i <= |q[h]| && !Chained(q, x)
    ensures Separate(q[h := InsertAt(q[h], i, x)])
  {
    InsertAtMembers(q[h], i, x);
    InsertAtNoDup(q[h], i, x);
  }

  lemma SeparateDelete(q: seq<seq<Idx>>, h: nat, i: nat)
    requires Separate(q) && h < |q| && i < |q[h]|
    ensures Separate(q[h := RemoveAt(q[h], i)])
    ensures !Chained(q[h := RemoveAt(q[h], i)], q[h][i])
  {
    RemoveAtMembers(q[h], i);
    assert q[h][i] in q[h];
  }

  lemma LinkedInsert(next: map<Ref, Ref>, prev: map<Ref, Ref>, q: seq<seq<Idx>>, h: nat, i: nat, x: Idx,
                     next': map<Ref, Ref>, prev': map<Ref, Ref>)
    requires Linked(next, prev, q) && h < |q| && i <= |q[h]| && !Chained(q, x)
    requires next' == next[Elem(x) := At(h, q[h], i)][At(h, q[h], i - 1) := Elem(x)]
    requires prev' == prev[At(h, q[h], i) := Elem(x)][Elem(x) := At(h, q[h], i - 1)]
    ensures Linked(next', prev', q[h := InsertAt(q[h], i, x)])
  {
    SeparateInsert(q, h, i, x);
    var q' := q[h := InsertAt(q[h], i, x)];
    forall g | 0 <= g < |q'| ensures Ring(next', prev', g, q'[g]) {
      if g == h {
        ForthInsert(next, next', h, q[h], i, x);
        BackInsert(prev, prev', h, q[h], i, x);
      } else {
        var a, b := At(h, q[h], i - 1), At(h, q[h], i);
        Apart(q, g, h, i - 1);
        Apart(q, g, h, i);
        TwoWrites(next, g, q[g], Elem(x), b, a, Elem(x));
        TwoWrites(prev, g, q[g], b, Elem(x), Elem(x), a);
        ForthFrame(next, next', g, q[g]);
        BackFrame(prev, prev', g, q[g]);
      }
    }
  }

  lemma LinkedDelete(next: map<Ref, Ref>, prev: map<Ref, Ref>, q: seq<seq<Idx>>, h: nat, i: nat,
                     next': map<Ref, Ref>, prev': map<Ref, Ref>)
    requires Linked(next, prev, q) && h < |q| && i < |q[h]|
    requires next' == next[At(h, q[h], i - 1) := At(h, q[h], i + 1)][Elem(q[h][i]) := Elem(q[h][i])]
    requires prev' == prev[At(h, q[h], i + 1) := At(h, q[h], i - 1)][Elem(q[h][i]) := Elem(q[h][i])]
    ensures Linked(next', prev', q[h := RemoveAt(q[h], i)])
  {
    SeparateDelete(q, h, i);
    var q' := q[h := RemoveAt(q[h], i)];
    forall g | 0 <= g < |q'| ensures Ring(next', prev', g, q'[g]) {
      if g == h {
        ForthDelete(next, next', h, q[h], i);
        BackDelete(prev, prev', h, q[h], i);
      } else {
        var a, e, b := At(h, q[h], i - 1), At(h, q[h], i), At(h, q[h], i + 1);
        Apart(q, g, h, i - 1);
        Apart(q, g, h, i);
        Apart(q, g, h, i + 1);
        TwoWrites(next, g, q[g], a, b, e, e);
        TwoWrites(prev, g, q[g], b, a, e, e);
        ForthFrame(next, next', g, q[g]);
        BackFrame(prev, prev', g, q[g]);
      }
    }
  }

  /** Writing two links that belong to neither the sentinel nor the elements of a list. */
  lemma TwoWrites(m: map<Ref, Ref>, g: nat, s: seq<Idx>, a: Ref, va: Ref, b: Ref, vb: Ref)
    requires a != Head(g) && b != Head(g)
    requires forall x :: x in s ==> a != Elem(x) && b != Elem(x)
    ensures SameLink(m, m[a := va][b := vb], Head(g))
    ensures forall x :: x in s ==> SameLink(m, m[a := va][b := vb], Elem(x))
  {
  }

  /** A link of list h is no link of list g. */
  lemma Apart(q: seq<seq<Idx>>, g: nat, h: nat, j: int)
    requires Disjoint(q) && g < |q| && h < |q| && g != h
    ensures At(h, q[h], j) != Head(g)
    ensures forall x :: x in q[g] ==> At(h, q[h], j) != Elem(x)
  {
    if 0 <= j < |q[h]| {
      assert q[h][j] in q[h];
    }
  }

  /** The links of one list_head field (p_list, p_sib or s_link) of every pool element, with the
      sentinels of the lists built from that field. */
  class ListHeap {
    var next: map<Ref, Ref>
    var prev: map<Ref, Ref>
    ghost var Q: seq<seq<Idx>>

    ghost predicate Valid()
      reads this
    {
      Linked(next, prev, Q)
    }

    /** Every sentinel and every element starts as its own neighbour. */
    constructor (heads: nat)
      ensures Valid() && |Q| == heads && forall h :: 0 <= h < heads ==> Q[h] == []
    {
      next := (map h | 0 <= h < heads :: Head(h) := Head(h)) + (map e: Idx | true :: Elem(e) := Elem(e));
      prev := (map h | 0 <= h < heads :: Head(h) := Head(h)) + (map e: Idx | true :: Elem(e) := Elem(e));
      Q := seq(heads, _ => []);
    }

    /** INIT_LIST_HEAD on a sentinel: whatever hung from it is dropped. */
    method InitHead(h: nat)
      requires Valid() && h < |Q|
      modifies this
      ensures Valid() && Q == old(Q)[h := []]
    {
      next := next[Head(h) := Head(h)];
      prev := prev[Head(h) := Head(h)];
      forall g | 0 <= g < |Q| && g != h ensures Ring(next, prev, g, Q[g]) {
        ForthFrame(old(next), next, g, Q[g]);
        BackFrame(old(prev), prev, g, Q[g]);
      }
      Q := Q[h := []];
    }

    /** INIT_LIST_HEAD on the field of an element that is in no list. */
    method InitElem(x: Idx)
      requires Valid() && !Chained(Q, x)
      modifies this
      ensures Valid() && Q == old(Q)
    {
      next := next[Elem(x) := Elem(x)];
      prev := prev[Elem(x) := Elem(x)];
      forall g | 0 <= g < |Q| ensures Ring(next, prev, g, Q[g]) {
        ForthFrame(old(next), next, g, Q[g]);
        BackFrame(old(prev), prev, g, Q[g]);
      }
    }

    /** __list_add: links x between two neighbours; the ghosts name the list and the position. */
    method AddBetween(x: Idx, p: Ref, n: Ref, ghost h: nat, ghost i: nat)
      requires Valid() && h < |Q| && i <= |Q[h]|
      requires p == At(h, Q[h], i - 1) && n == At(h, Q[h], i)
      requires !Chained(Q, x)
      modifies this
      ensures Valid() && Q == old(Q)[h := InsertAt(old(Q)[h], i, x)]
    {
      prev := prev[n := Elem(x)];
      next := next[Elem(x) := n];
      prev := prev[Elem(x) := p];
      next := next[p := Elem(x)];
      LinkedInsert(old(next), old(prev), Q, h, i, x, next, prev);
      Q := Q[h := InsertAt(Q[h], i, x)];
    }

    /** list_add: x becomes the first element of list h. */
    method Add(x: Idx, h: nat)
      requires Valid() && h < |Q| && !Chained(Q, x)
      modifies this
      ensures Valid() && Q == old(Q)[h := [x] + old(Q)[h]]
    {
      assert [x] + Q[h] == InsertAt(Q[h], 0, x);
      AddBetween(x, Head(h), next[Head(h)], h, 0);
    }

    /** list_add_tail: x goes just before pos, which may be a sentinel or an element. */
    method AddBefore(x: Idx, pos: Ref, ghost h: nat, ghost i: nat)
      requires Valid() && h < |Q| && i <= |Q[h]| && pos == At(h, Q[h], i)
      requires !Chained(Q, x)
      modifies this
      ensures Valid() && Q == old(Q)[h := InsertAt(old(Q)[h], i, x)]
    {
      AddBetween(x, prev[pos], pos, h, i);
    }

    method AddTail(x: Idx, h: nat)
      requires Valid() && h < |Q| && !Chained(Q, x)
      modifies this
      ensures Valid() && Q == old(Q)[h := old(Q)[h] + [x]]
    {
      ghost var s := Q[h];
      AddBefore(x, Head(h), h, |s|);
      assert InsertAt(s, |s|, x) == s + [x];
    }

    /** list_del: unlinks x from the list it is in and leaves it self-linked. */
    method Delete(x: Idx, ghost h: nat)
      requires Valid() && h < |Q| && x in Q[h]
      modifies this
      ensures Valid() && Q == old(Q)[h := Without(old(Q)[h], x)]
      ensures !Chained(Q, x)
    {
      ghost var i := IndexOf(Q[h], x);
      assert Elem(Q[h][i]) in next && Elem(Q[h][i]) in prev;
      SeparateDelete(Q, h, i);
      var p, n := prev[Elem(x)], next[Elem(x)];
      prev := prev[n := p];
      next := next[p := n];
      next := next[Elem(x) := Elem(x)];
      prev := prev[Elem(x) := Elem(x)];
      LinkedDelete(old(next), old(prev), Q, h, i, next, prev);
      Q := Q[h := RemoveAt(Q[h], i)];
    }

    method Empty(h: nat) returns (b: bool)
      requires Valid() && h < |Q|
      ensures b == (Q[h] == [])
    {
      b := next[Head(h)] == Head(h);
    }

    /** listRemoveFirst of phase1/pcb.c and its twin in phase3/initProc.c. */
    method RemoveFirst(h: nat) returns (r: Ref)
      requires Valid() && h < |Q|
      modifies this
      ensures Valid()
      ensures old(Q)[h] == [] ==> r == Head(h) && Q == old(Q)
      ensures old(Q)[h] != [] ==>
                r == Elem(old(Q)[h][0]) && Q == old(Q)[h := old(Q)[h][1..]] && !Chained(Q, r.e)
    {
      var none := Empty(h);
      r := next[Head(h)];
      if !none {
        ghost var s := Q[h];
        IndexUnique(s, 0);
        Delete(r.e, h);
        assert RemoveAt(s, 0) == s[1..];
      }
    }
  }
}
