/**
 The list of list.cc: list elements on the heap, linked through next, with pointers to the first
 and the last one. The methods are proved against functions on the sequence of (item, key)
 pairs; SortedQueue.dfy proves what those functions are for.
 */
module LinkedList {
  import opened ListSpec

  class ListElement {
    var next: ListElement?
    var key: int
    var item: Item

    constructor (itemPtr: Item, sortKey: int)
      ensures item == itemPtr && key == sortKey && next == null
    {
      item := itemPtr;
      key := sortKey;
      next := null;
    }
  }

  class List {
    var first: ListElement?
    var last: ListElement?

    /** The items and keys on the list, the elements that hold them from first to last, every
        element ever made for the list, and the ones that were deleted. */
    ghost var Contents: seq<Entry>
    ghost var nodes: seq<ListElement>
    ghost var made: set<ListElement>
    ghost var deleted: set<ListElement>

    /** The chain from first is acyclic, visits exactly the nodes, and ends in last. */
    ghost predicate ChainOk()
      reads this, nodes
    {
      && (nodes == [] ==> first == null && last == null)
      && (nodes != [] ==> first == nodes[0] && last == nodes[|nodes|-1] && last.next == null)
      && (forall i :: 0 <= i < |nodes| - 1 ==> nodes[i].next == nodes[i+1])
      && (forall i, j :: 0 <= i < j < |nodes| ==> nodes[i] != nodes[j])
    }

    /** An element that was made is either on the chain or deleted, never both. */
    ghost predicate MadeOk()
      reads this
    {
      && made == NodeSet(nodes) + deleted
      && (forall n :: n in nodes ==> n !in deleted)
    }

    ghost predicate ContentsOk()
      reads this, nodes
    {
      && |Contents| == |nodes|
      && (forall i :: 0 <= i < |nodes| ==> Contents[i] == Entry(nodes[i].item, nodes[i].key))
    }

    ghost predicate Valid()
      reads this, nodes
    {
      ChainOk() && MadeOk() && ContentsOk()
    }

    constructor ()
      ensures Valid() && Contents == [] && made == {}
    {
      first := null;
      last := null;
      nodes, Contents, made, deleted := [], [], {}, {};
    }

    method IsEmpty() returns (empty: bool)
      requires Valid()
      ensures empty <==> Contents == []
    {
      if first == null {
        return true;
      } else {
        return false;
      }
    }

    // ----- the assignments that put an element on the list -----

    method LinkOnly(element: ListElement)
      requires Valid() && nodes == [] && element !in made && element.next == null
      modifies this
      ensures Valid() && made == old(made) + {element} && deleted == old(deleted)
      ensures NodeSet(nodes) == NodeSet(old(nodes)) + {element}
      ensures nodes == [element] && Contents == [Entry(element.item, element.key)]
    {
      first := element;
      last := element;
      nodes, Contents, made := [element], [Entry(element.item, element.key)], made + {element};
    }

    method LinkFirst(element: ListElement)
      requires Valid() && nodes != [] && element !in made
      modifies this, element
      ensures Valid() && made == old(made) + {element} && deleted == old(deleted)
      ensures NodeSet(nodes) == NodeSet(old(nodes)) + {element}
      ensures nodes == [element] + old(nodes)
      ensures Contents == [old(Entry(element.item, element.key))] + old(Contents)
    {
      element.next := first;
      first := element;
      nodes, Contents := [element] + nodes, [Entry(element.item, element.key)] + Contents;
      made := made + {element};
    }

    method LinkLast(element: ListElement)
      requires Valid() && nodes != [] && element !in made && element.next == null
      modifies this, last
      ensures Valid() && made == old(made) + {element} && deleted == old(deleted)
      ensures NodeSet(nodes) == NodeSet(old(nodes)) + {element}
      ensures nodes == old(nodes) + [element]
      ensures Contents == old(Contents) + [old(Entry(element.item, element.key))]
    {
      last.next := element;
      last := element;
      nodes, Contents := nodes + [element], Contents + [Entry(element.item, element.key)];
      made := made + {element};
    }

    method LinkAfter(ptr: ListElement, element: ListElement, ghost i: nat)
      requires Valid() && i < |nodes| - 1 && ptr == nodes[i] && element !in made
      modifies this, ptr, element
      ensures Valid() && made == old(made) + {element} && deleted == old(deleted)
      ensures NodeSet(nodes) == NodeSet(old(nodes)) + {element}
      ensures nodes == InsertAt(old(nodes), i + 1, element)
      ensures Contents == InsertAt(old(Contents), i + 1, old(Entry(element.item, element.key)))
    {
      NodeSetInsert(nodes, i + 1, element);
      LinkContents(ptr, element, i);
      made := made + {element};
    }

    /** The chain and its contents, and the chain alone. */
    method LinkContents(ptr: ListElement, element: ListElement, ghost i: nat)
      requires ChainOk() && ContentsOk() && i < |nodes| - 1 && ptr == nodes[i] && element !in nodes
      modifies this`nodes, this`Contents, ptr`next, element`next
      ensures ChainOk() && ContentsOk() && nodes == InsertAt(old(nodes), i + 1, element)
      ensures Contents == InsertAt(old(Contents), i + 1, Entry(element.item, element.key))
    {
      LinkChain(ptr, element, i);
      Contents := InsertAt(Contents, i + 1, Entry(element.item, element.key));
    }

    method LinkChain(ptr: ListElement, element: ListElement, ghost i: nat)
      requires ChainOk() && i < |nodes| - 1 && ptr == nodes[i] && element !in nodes
      modifies this`nodes, ptr`next, element`next
      ensures ChainOk() && nodes == InsertAt(old(nodes), i + 1, element)
    {
      element.next := ptr.next;
      ptr.next := element;
      nodes := InsertAt(nodes, i + 1, element);
    }

    // ----- the operations -----

    method Append(item: Item)
      requires Valid()
      modifies this, nodes
      ensures Valid() && fresh(made - old(made)) && deleted == old(deleted)
      ensures forall i :: 0 <= i < |nodes| ==> nodes[i] in old(nodes) || fresh(nodes[i])
      ensures Contents == old(Contents) + [Entry(item, 0)]
    {
      var element := new ListElement(item, 0);
      var empty := IsEmpty();
      if empty {
        LinkOnly(element);
      } else {
        LinkLast(element);
      }
    }

    method Prepend(item: Item)
      requires Valid()
      modifies this, nodes
      ensures Valid() && fresh(made - old(made)) && deleted == old(deleted)
      ensures forall i :: 0 <= i < |nodes| ==> nodes[i] in old(nodes) || fresh(nodes[i])
      ensures Contents == [Entry(item, 0)] + old(Contents)
    {
      var element := new ListElement(item, 0);
      var empty := IsEmpty();
      if empty {
        LinkOnly(element);
      } else {
        LinkFirst(element);
      }
    }

    /** Inserts before the first element with a greater key, at the end if there is none. */
    method SortedInsert(item: Item, sortKey: int)
      requires Valid()
      modifies this, nodes
      ensures Valid() && fresh(made - old(made)) && deleted == old(deleted)
      ensures forall i :: 0 <= i < |nodes| ==> nodes[i] in old(nodes) || fresh(nodes[i])
      ensures Contents == Insert(old(Contents), Entry(item, sortKey))
    {
      var element := new ListElement(item, sortKey);
      LinkSorted(element);
    }

    /** SortedInsert with its element made. */
    method LinkSorted(element: ListElement)
      requires Valid() && element !in made && element.next == null
      modifies this, nodes, element
      ensures Valid() && made == old(made) + {element} && deleted == old(deleted)
      ensures NodeSet(nodes) == NodeSet(old(nodes)) + {element}
      ensures Contents == Insert(old(Contents), old(Entry(element.item, element.key)))
    {
      var empty := IsEmpty();
      if empty {
        LinkOnly(element);
      } else if element.key < first.key {
        InsertAtPlace(Contents, Entry(element.item, element.key), 0);
        LinkFirst(element);
      } else {
        var ptr := first;
        ghost var i := 0;
        while ptr.next != null
          invariant unchanged(this) && unchanged(nodes) && unchanged(element)
          invariant 0 <= i < |nodes| && ptr == nodes[i]
          invariant forall k :: 0 <= k <= i ==> Contents[k].key <= element.key
          decreases |nodes| - i
        {
          assert i < |nodes| - 1;
          if element.key < ptr.next.key {
            InsertAtPlace(Contents, Entry(element.item, element.key), i + 1);
            LinkAfter(ptr, element, i);
            return;
          }
          ptr := ptr.next;
          i := i + 1;
        }
        InsertAtPlace(Contents, Entry(element.item, element.key), i + 1);
        LinkLast(element);
      }
    }

    /** Removes the first element. The key is reported when the caller asks for it. */
    method SortedRemove() returns (thing: Item, key: int)
      requires Valid()
      modifies this
      ensures Valid() && made == old(made) && nodes == old(nodes)[if old(nodes) == [] then 0 else 1..]
      ensures forall i :: 0 <= i < |nodes| ==> nodes[i] in old(nodes)
      ensures old(Contents) == [] ==> thing == NULL && Contents == []
      ensures old(Contents) != [] ==> old(Contents) == [Entry(thing, key)] + Contents
    {
      var element := first;
      key := 0;
      var empty := IsEmpty();
      if empty {
        return NULL, key;
      }
      thing := first.item;
      if first == last {
        first := null;
        last := null;
      } else {
        first := element.next;
      }
      key := element.key;
      deleted := deleted + {element};
      nodes, Contents := nodes[1..], Contents[1..];
    }

    method Remove() returns (thing: Item)
      requires Valid()
      modifies this
      ensures Valid() && made == old(made) && nodes == old(nodes)[if old(nodes) == [] then 0 else 1..]
      ensures forall i :: 0 <= i < |nodes| ==> nodes[i] in old(nodes)
      ensures old(Contents) == [] ==> thing == NULL && Contents == []
      ensures old(Contents) != [] ==> thing == old(Contents)[0].item && Contents == old(Contents)[1..]
    {
      var key;
      thing, key := SortedRemove();
    }

    /** The destructor's loop: it removes until Remove returns NULL, and so it stops behind the first
        NULL item. It terminates on every list, and it frees every element ever made if and only if
        no item but possibly the last one is NULL. */
    method Destroy()
      requires Valid()
      modifies this
      ensures Valid() && made == old(made) && Contents == AfterFirstNull(old(Contents))
      ensures deleted == made <==> forall i :: 0 <= i < |old(Contents)| - 1 ==> old(Contents)[i].item != NULL
    {
      var thing := Remove();
      while thing != NULL
        invariant Valid() && made == old(made)
        invariant AfterFirstNull(old(Contents)) == if thing == NULL then Contents else AfterFirstNull(Contents)
        decreases |Contents|, thing != NULL
      {
        thing := Remove();
      }
      AllFreed(old(Contents));
      assert Contents == [] <==> deleted == made by {
        assert nodes != [] ==> nodes[0] in made && nodes[0] !in deleted;
      }
    }
  }

  ghost function NodeSet(q: seq<ListElement>): set<ListElement> {
    set n | n in q
  }

  lemma NodeSetInsert(q: seq<ListElement>, i: nat, n: ListElement)
    requires i <= |q|
    ensures NodeSet(InsertAt(q, i, n)) == NodeSet(q) + {n}
  {
    assert q == q[..i] + q[i..];
  }
}
