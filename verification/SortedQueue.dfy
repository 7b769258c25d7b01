/** The sorted list as a priority queue: it always holds the stable sort of what was inserted. */
module SortedQueue {
  import opened Wrappers
  import opened ListSpec

  ghost predicate Sorted(s: seq<Entry>) {
    forall i, j :: 0 <= i < j < |s| ==> s[i].key <= s[j].key
  }

  /** The entries with key k, in order. */
  function ByKey(s: seq<Entry>, k: int): seq<Entry> {
    if s == [] then []
    else if s[0].key == k then [s[0]] + ByKey(s[1..], k)
    else ByKey(s[1..], k)
  }

  /** l is sorted and has the entries of b, those with equal keys in the order of b. */
  ghost predicate StableSortOf(l: seq<Entry>, b: seq<Entry>) {
    Sorted(l) && forall k :: ByKey(l, k) == ByKey(b, k)
  }

  lemma {:induction false} ByKeyConcat(a: seq<Entry>, b: seq<Entry>, k: int)
    ensures ByKey(a + b, k) == ByKey(a, k) + ByKey(b, k)
    decreases a
  {
    if a == [] {
      assert a + b == b;
    } else {
      ByKeyConcat(a[1..], b, k);
      assert (a + b)[1..] == a[1..] + b;
    }
  }

  /** Who is found by key is there, and the other way round. */
  lemma {:induction false} ByKeyFinds(s: seq<Entry>, k: int)
    ensures ByKey(s, k) != [] <==> exists i :: 0 <= i < |s| && s[i].key == k
    ensures forall i :: 0 <= i < |ByKey(s, k)| ==> ByKey(s, k)[i].key == k
    decreases s
  {
    if s != [] {
      ByKeyFinds(s[1..], k);
      if ByKey(s[1..], k) != [] {
        var i :| 0 <= i < |s[1..]| && s[1..][i].key == k;
        assert s[i+1].key == k;
      }
      forall i | 0 <= i < |s| && s[i].key == k ensures ByKey(s, k) != [] {
        assert i > 0 ==> s[1..][i-1].key == k;
      }
    }
  }

  /** A stable sort is unique. */
  lemma {:induction false} StableSortIsUnique(l: seq<Entry>, m: seq<Entry>, b: seq<Entry>)
    requires StableSortOf(l, b) && StableSortOf(m, b)
    ensures l == m
  {
    SameByKey(l, m);
  }

  lemma {:induction false} SameByKey(l: seq<Entry>, m: seq<Entry>)
    requires Sorted(l) && Sorted(m) && forall k :: ByKey(l, k) == ByKey(m, k)
    ensures l == m
    decreases l
  {
    assert m != [] ==> ByKey(l, m[0].key) == ByKey(m, m[0].key) != [];
    if l != [] {
      var k := l[0].key;
      assert ByKey(m, k) == ByKey(l, k) != [];
      ByKeyFinds(m, k);
      ByKeyFinds(l, m[0].key);
      assert ByKey(l, m[0].key) == ByKey(m, m[0].key) != [];
      assert m[0].key == k;
      assert l[0] == ByKey(l, k)[0] && m[0] == ByKey(m, k)[0];
      forall j ensures ByKey(l[1..], j) == ByKey(m[1..], j) {
        assert ByKey(l, j) == ByKey(m, j);
        assert j == k ==> ByKey(l[1..], j) == ByKey(l, j)[1..] && ByKey(m[1..], j) == ByKey(m, j)[1..];
      }
      SameByKey(l[1..], m[1..]);
      assert l == [l[0]] + l[1..] && m == [m[0]] + m[1..];
    }
  }

  // ----- inserting -----

  lemma {:induction false} InsertKeepsSorted(s: seq<Entry>, e: Entry)
    requires Sorted(s)
    ensures Sorted(Insert(s, e))
    ensures forall x :: x in Insert(s, e) <==> x in s || x == e
    decreases s
  {
    if s != [] && e.key >= s[0].key {
      InsertKeepsSorted(s[1..], e);
      var r := Insert(s[1..], e);
      assert Insert(s, e) == [s[0]] + r;
      forall x | x in r ensures s[0].key <= x.key {
        assert x in s[1..] || x == e;
      }
    } else if s != [] {
      assert Insert(s, e) == [e] + s;
    }
  }

  lemma {:induction false} InsertIsStable(s: seq<Entry>, e: Entry, k: int)
    requires Sorted(s)
    ensures ByKey(Insert(s, e), k) == ByKey(s, k) + if e.key == k then [e] else []
    decreases s
  {
    if s == [] {
    } else if e.key < s[0].key {
      assert Insert(s, e)[1..] == s;
      if e.key == k {
        ByKeyFinds(s, k);
        assert ByKey(s, k) == [];
      }
    } else {
      InsertIsStable(s[1..], e, k);
      assert Insert(s, e)[0] == s[0] && Insert(s, e)[1..] == Insert(s[1..], e);
    }
  }

  // ----- the reference: a bag in insertion order -----

  /** The position of the first entry with the least key. */
  function Least(b: seq<Entry>): (i: nat)
    requires b != []
    ensures i < |b|
    ensures forall j :: 0 <= j < |b| ==> b[i].key <= b[j].key
    ensures forall j :: 0 <= j < i ==> b[i].key < b[j].key
  {
    if |b| == 1 then 0
    else
      var i := 1 + Least(b[1..]);
      assert forall j :: 0 < j < |b| ==> b[j] == b[1..][j-1];
      if b[0].key <= b[i].key then 0 else i
  }

  function Without(b: seq<Entry>, i: nat): seq<Entry>
    requires i < |b|
  {
    b[..i] + b[i+1..]
  }

  /** Taking the head of a stable sort takes the first entry with the least key from the bag. */
  lemma HeadIsLeast(l: seq<Entry>, b: seq<Entry>)
    requires StableSortOf(l, b) && b != []
    ensures l != [] && l[0] == b[Least(b)]
    ensures StableSortOf(l[1..], Without(b, Least(b)))
  {
    var i := Least(b);
    var k := b[i].key;
    SplitBag(b, i);
    assert ByKey(l, k) == ByKey(b, k);
    ByKeyFinds(l, k);
    var p :| 0 <= p < |l| && l[p].key == k;
    assert ByKey(l, l[0].key) == ByKey(b, l[0].key);
    ByKeyFinds(b, l[0].key);
    var q :| 0 <= q < |b| && b[q].key == l[0].key;
    assert l[0].key <= l[p].key && b[i].key <= b[q].key;
    assert l[0].key == k;
    assert l[0] == ByKey(l, k)[0] == b[i];
    forall j ensures ByKey(l[1..], j) == ByKey(Without(b, i), j) {
      assert ByKey(l, j) == ByKey(b, j);
      ByKeyWithout(b, i, j);
      assert j == k ==> ByKey(l[1..], j) == ByKey(l, j)[1..];
    }
  }

  lemma SplitBag(b: seq<Entry>, i: nat)
    requires i < |b| && forall j :: 0 <= j < i ==> b[j].key != b[i].key
    ensures ByKey(b, b[i].key) == [b[i]] + ByKey(b[i+1..], b[i].key)
  {
    var k := b[i].key;
    assert b == b[..i] + b[i..];
    ByKeyConcat(b[..i], b[i..], k);
    ByKeyFinds(b[..i], k);
    assert b[i..][1..] == b[i+1..];
  }

  lemma ByKeyWithout(b: seq<Entry>, i: nat, j: int)
    requires i < |b| && forall m :: 0 <= m < i ==> b[m].key != b[i].key
    ensures ByKey(b, j) == (if j == b[i].key then [b[i]] else []) + ByKey(Without(b, i), j)
  {
    ByKeyConcat(b[..i], b[i+1..], j);
    assert b == b[..i] + b[i..];
    ByKeyConcat(b[..i], b[i..], j);
    assert b[i..][1..] == b[i+1..];
    if j == b[i].key {
      ByKeyFinds(b[..i], j);
      assert ByKey(b[..i], j) == [];
    }
  }

  // ----- runs -----

  datatype Op = Ins(e: Entry) | Rem

  function Cons(x: Option<Entry>, s: seq<Option<Entry>>): seq<Option<Entry>> {
    [x] + s
  }

  /** The list and what it returned, after a run of SortedInsert and SortedRemove. */
  function RunList(l: seq<Entry>, ops: seq<Op>): (seq<Entry>, seq<Option<Entry>>)
    decreases ops
  {
    if ops == [] then (l, [])
    else match ops[0]
      case Ins(e) => RunList(Insert(l, e), ops[1..])
      case Rem =>
        var r := RunList(Tail(l), ops[1..]);
        (r.0, Cons(if l == [] then None else Some(l[0]), r.1))
  }

  /** The same run on a bag that gives away the earliest of its least entries. */
  function RunBag(b: seq<Entry>, ops: seq<Op>): (seq<Entry>, seq<Option<Entry>>)
    decreases ops
  {
    if ops == [] then (b, [])
    else match ops[0]
      case Ins(e) => RunBag(b + [e], ops[1..])
      case Rem =>
        var r := RunBag(if b == [] then b else Without(b, Least(b)), ops[1..]);
        (r.0, Cons(if b == [] then None else Some(b[Least(b)]), r.1))
  }

  /** Any interleaving of SortedInsert and SortedRemove returns a least entry, the earliest among
      equals, every time; and what is left on the list, and so what draining it returns, is the
      stable sort of what is left in insertion order. */
  lemma {:induction false} PriorityQueue(l: seq<Entry>, b: seq<Entry>, ops: seq<Op>)
    requires StableSortOf(l, b)
    ensures RunList(l, ops).1 == RunBag(b, ops).1
    ensures StableSortOf(RunList(l, ops).0, RunBag(b, ops).0)
    decreases ops
  {
    if ops != [] {
      match ops[0]
      case Ins(e) =>
        InsertKeepsSorted(l, e);
        forall k ensures ByKey(Insert(l, e), k) == ByKey(b + [e], k) {
          InsertIsStable(l, e, k);
          ByKeyConcat(b, [e], k);
          assert ByKey(l, k) == ByKey(b, k);
        }
        PriorityQueue(Insert(l, e), b + [e], ops[1..]);
      case Rem =>
        if b == [] {
          SameByKey(l, b);
          PriorityQueue(Tail(l), b, ops[1..]);
        } else {
          HeadIsLeast(l, b);
          PriorityQueue(l[1..], Without(b, Least(b)), ops[1..]);
        }
    }
  }

  function Drain(n: nat): seq<Op> {
    if n == 0 then [] else [Rem] + Drain(n - 1)
  }

  function Somes(s: seq<Entry>): seq<Option<Entry>> {
    if s == [] then [] else Cons(Some(s[0]), Somes(s[1..]))
  }

  /** Draining returns the list from first to last. */
  lemma {:induction false} DrainReturnsAll(l: seq<Entry>)
    ensures RunList(l, Drain(|l|)) == ([], Somes(l))
    decreases l
  {
    if l != [] {
      DrainReturnsAll(l[1..]);
      assert Drain(|l|)[1..] == Drain(|l| - 1);
    }
  }
}
