/** Insertion-ordered dictionaries, as Python's dict and JavaScript's Map keep them, and the
    increasing listing of a finite set of numbers. */
module Dicts {

  ghost predicate Distinct<T>(s: seq<T>) {
    forall i, j :: 0 <= i < j < |s| ==> s[i] != s[j]
  }

  /** s without the occurrences of x, in the same order. */
  function Without<T(==, !new)>(s: seq<T>, x: T): (r: seq<T>)
    ensures forall y :: y in r <==> y in s && y != x
  {
    if s == [] then []
    else if s[0] == x then Without(s[1..], x)
    else [s[0]] + Without(s[1..], x)
  }

  lemma {:induction false} WithoutDistinct<T(!new)>(s: seq<T>, x: T)
    requires Distinct(s)
    ensures Distinct(Without(s, x))
    ensures |Without(s, x)| == if x in s then |s| - 1 else |s|
  {
    if s != [] {
      WithoutDistinct(s[1..], x);
      if s[0] == x {
        assert x !in s[1..];
      } else {
        assert s[0] !in Without(s[1..], x);
      }
    }
  }

  datatype Dict<K(==, !new), V> = Dict(order: seq<K>, at: map<K, V>) {
    ghost predicate Wf() {
      Distinct(order) && forall k :: k in order <==> k in at
    }

    /** d[k] = v: a new key goes last, a known one keeps its place. */
    function Put(k: K, v: V): Dict<K, V> {
      Dict(if k in at then order else order + [k], at[k := v])
    }

    function Drop(k: K): Dict<K, V> {
      if k in at then Dict(Without(order, k), at - {k}) else this
    }
  }

  function EmptyDict<K(!new), V>(): Dict<K, V> {
    Dict([], map[])
  }

  lemma PutWf<K(!new), V>(d: Dict<K, V>, k: K, v: V)
    requires d.Wf()
    ensures d.Put(k, v).Wf()
  {
    if k !in d.at {
      assert k !in d.order;
    }
  }

  lemma DropWf<K(!new), V>(d: Dict<K, V>, k: K)
    requires d.Wf()
    ensures d.Drop(k).Wf()
  {
    WithoutDistinct(d.order, k);
  }

  /** Below every element of a finite set of numbers there is a least one. */
  lemma HasLeast(s: set<nat>, x: nat)
    requires x in s
    ensures exists m :: m in s && forall y :: y in s ==> m <= y
    decreases x
  {
    if y :| y in s && y < x {
      HasLeast(s, y);
    }
  }

  function Least(s: set<nat>): (x: nat)
    requires s != {}
    ensures x in s && forall y :: y in s ==> x <= y
  {
    assert exists m :: m in s && forall y :: y in s ==> m <= y by {
      var start :| start in s;
      HasLeast(s, start);
    }
    var x :| x in s && forall y :: y in s ==> x <= y;
    x
  }

  /** The elements of s in increasing order, as Python's sorted() lists them. */
  function Sorted(s: set<nat>): (r: seq<nat>)
    ensures forall x :: x in r <==> x in s
    ensures forall i, j :: 0 <= i < j < |r| ==> r[i] < r[j]
  {
    if s == {} then [] else [Least(s)] + Sorted(s - {Least(s)})
  }

  /** Every value of at put through f, with its key. */
  function Mapped<V, W>(at: map<nat, V>, f: (nat, V) -> W): (r: map<nat, W>)
    ensures r.Keys == at.Keys
    ensures forall k :: k in at ==> r[k] == f(k, at[k])
    decreases |at|
  {
    if at == map[] then map[]
    else
      var k := Least(at.Keys);
      Mapped(at - {k}, f)[k := f(k, at[k])]
  }

  /** The entries of at whose value p takes. */
  function Filtered<V>(at: map<nat, V>, p: V -> bool): (r: map<nat, V>)
    ensures forall k :: k in r <==> k in at && p(at[k])
    ensures forall k :: k in r ==> r[k] == at[k]
    decreases |at|
  {
    if at == map[] then map[]
    else
      var k := Least(at.Keys);
      var rest := Filtered(at - {k}, p);
      if p(at[k]) then rest[k := at[k]] else rest
  }
}
