/** Facts about sequences that every queue of the kernel is reasoned about with. */
module Lists {

  datatype Option<T> = None | Some(value: T)

  type Positive = n: nat | n > 0 witness 1

  ghost predicate NoDup<T>(s: seq<T>) {
    forall i, j :: 0 <= i < j < |s| ==> s[i] != s[j]
  }

  function InsertAt<T>(s: seq<T>, i: nat, x: T): seq<T>
    requires i <= |s|
  {
    s[..i] + [x] + s[i..]
  }

  function RemoveAt<T>(s: seq<T>, i: nat): seq<T>
    requires i < |s|
  {
    s[..i] + s[i + 1..]
  }

  function IndexOf<T(==)>(s: seq<T>, x: T): (i: nat)
    requires x in s
    ensures i < |s| && s[i] == x && x !in s[..i]
  {
    if s[0] == x then 0
    else
      assert s == [s[0]] + s[1..];
      var r := 1 + IndexOf(s[1..], x);
      assert s[..r] == [s[0]] + s[1..][..r - 1];
      r
  }

  /** s with its first occurrence of x taken out. */
  function Without<T(==)>(s: seq<T>, x: T): seq<T> {
    if x in s then RemoveAt(s, IndexOf(s, x)) else s
  }

  lemma InsertAtMembers<T>(s: seq<T>, i: nat, x: T)
    requires i <= |s|
    ensures forall y :: y in InsertAt(s, i, x) <==> y == x || y in s
  {
    assert s == s[..i] + s[i..];
  }

  lemma InsertAtIndex<T>(s: seq<T>, i: nat, x: T, j: nat)
    requires i <= |s| && j <= |s|
    ensures InsertAt(s, i, x)[j] == if j < i then s[j] else if j == i then x else s[j - 1]
  {
  }

  lemma RemoveAtIndex<T>(s: seq<T>, i: nat, j: nat)
    requires i < |s| && j < |s| && j != i
    ensures RemoveAt(s, i)[if j < i then j else j - 1] == s[j]
  {
  }

  lemma InsertAtNoDup<T>(s: seq<T>, i: nat, x: T)
    requires i <= |s| && NoDup(s) && x !in s
    ensures NoDup(InsertAt(s, i, x))
  {
  }

  lemma RemoveAtMembers<T>(s: seq<T>, i: nat)
    requires i < |s| && NoDup(s)
    ensures NoDup(RemoveAt(s, i))
    ensures forall y :: y in RemoveAt(s, i) <==> y in s && y != s[i]
  {
    var r := RemoveAt(s, i);
    assert s == s[..i] + [s[i]] + s[i + 1..];
    forall y | y in s && y != s[i] ensures y in r {
      var k :| 0 <= k < |s| && s[k] == y;
      assert y == r[if k < i then k else k - 1];
    }
  }

  lemma WithoutMembers<T>(s: seq<T>, x: T)
    requires NoDup(s)
    ensures NoDup(Without(s, x))
    ensures forall y :: y in Without(s, x) <==> y in s && y != x
  {
    if x in s {
      RemoveAtMembers(s, IndexOf(s, x));
    }
  }

  lemma IndexUnique<T>(s: seq<T>, i: nat)
    requires i < |s| && NoDup(s)
    ensures IndexOf(s, s[i]) == i
  {
  }

  lemma HeadIsMember<T>(s: seq<T>)
    ensures s == [] || s[0] in s
  {
  }

  lemma Removed<T>(s: set<T>, x: T)
    ensures |s| == |s - {x}| + if x in s then 1 else 0
  {
    assert x in s ==> s == s - {x} + {x};
    assert x !in s ==> s == s - {x};
  }

  /** x stands somewhere before y in s. */
  ghost predicate Before<T>(s: seq<T>, x: T, y: T) {
    exists i, j :: 0 <= i < j < |s| && s[i] == x && s[j] == y
  }

  /** The elements of a sequence. */
  ghost function Members<T(!new)>(s: seq<T>): set<T> { set x: T | x in s }

  lemma {:induction false} PrefixCount<T(!new)>(s: seq<T>, k: nat)
    requires NoDup(s) && k <= |s|
    ensures |Members(s[..k])| == k
  {
    if k > 0 {
      PrefixCount(s, k - 1);
      assert s[..k] == s[..k - 1] + [s[k - 1]];
      assert Members(s[..k]) == Members(s[..k - 1]) + {s[k - 1]};
    }
  }

  lemma MemberCount<T(!new)>(s: seq<T>)
    requires NoDup(s)
    ensures |Members(s)| == |s|
  {
    PrefixCount(s, |s|);
    assert s[..|s|] == s;
  }
}
