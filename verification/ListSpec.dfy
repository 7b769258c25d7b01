/** The list of list.cc as a sequence: what its operations do to the items and their keys. */
module ListSpec {
  /** A pointer to anything; NULL is the null pointer. */
  type Item = int
  const NULL: Item := 0

  datatype Entry = Entry(item: Item, key: int)

  /** A stable insertion: behind every entry up to the first one with a greater key. */
  function Insert(s: seq<Entry>, e: Entry): seq<Entry> {
    if s == [] then [e]
    else if e.key < s[0].key then [e] + s
    else [s[0]] + Insert(s[1..], e)
  }

  function InsertAt<T>(q: seq<T>, i: nat, x: T): (r: seq<T>)
    requires i <= |q|
    ensures |r| == |q| + 1
    ensures forall j :: 0 <= j < |r| ==> r[j] == if j < i then q[j] else if j == i then x else q[j-1]
  {
    q[..i] + [x] + q[i..]
  }

  function Tail(s: seq<Entry>): seq<Entry> {
    if s == [] then [] else s[1..]
  }

  /** What follows the first NULL item; nothing if there is none. */
  function AfterFirstNull(s: seq<Entry>): seq<Entry> {
    if s == [] then [] else if s[0].item == NULL then s[1..] else AfterFirstNull(s[1..])
  }

  lemma {:induction false} InsertAtPlace(s: seq<Entry>, e: Entry, i: nat)
    requires i <= |s|
    requires forall k :: 0 <= k < i ==> s[k].key <= e.key
    requires i < |s| ==> e.key < s[i].key
    ensures Insert(s, e) == InsertAt(s, i, e)
    decreases i
  {
    if i > 0 {
      InsertAtPlace(s[1..], e, i - 1);
      assert s[1..][..i-1] == s[1..i] && s[1..][i-1..] == s[i..];
      assert [s[0]] + s[1..i] == s[..i];
    }
  }

  /** Nothing is left behind the first NULL item exactly when only the last item may be NULL. */
  lemma {:induction false} AllFreed(s: seq<Entry>)
    ensures AfterFirstNull(s) == [] <==> forall i :: 0 <= i < |s| - 1 ==> s[i].item != NULL
    decreases s
  {
    if s != [] && s[0].item != NULL {
      AllFreed(s[1..]);
      assert forall i :: 0 < i < |s| ==> s[i] == s[1..][i-1];
    }
  }

  /** What is left behind the first NULL item, when that is the one at index i. */
  lemma {:induction false} BehindFirstNull(s: seq<Entry>, i: nat)
    requires i < |s| && s[i].item == NULL && forall j :: 0 <= j < i ==> s[j].item != NULL
    ensures AfterFirstNull(s) == s[i+1..]
    decreases s
  {
    if i > 0 {
      assert s[1..][i-1] == s[i] && forall j :: 0 <= j < i - 1 ==> s[1..][j] == s[j+1];
      BehindFirstNull(s[1..], i - 1);
    }
  }
}
