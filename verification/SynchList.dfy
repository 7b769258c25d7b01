/** SynchList with its list on the heap: the code between Acquire and Release. */
module SynchList {
  import opened ListSpec
  import opened LinkedList

  /** The item of each entry, from first to last. */
  function Items(s: seq<Entry>): (r: seq<Item>)
    ensures |r| == |s| && forall i :: 0 <= i < |s| ==> r[i] == s[i].item
  {
    if s == [] then [] else [s[0].item] + Items(s[1..])
  }

  lemma ItemsConcat(a: seq<Entry>, b: seq<Entry>)
    ensures Items(a + b) == Items(a) + Items(b)
  {}

  class SynchList {
    var list: List

    ghost predicate Valid()
      reads this, list, list.nodes
    {
      list.Valid()
    }

    constructor ()
      ensures Valid() && fresh(list) && list.made == {} && Items(list.Contents) == []
    {
      list := new List();
    }

    /** Append with the lock held: list->Append; Condition::Signal does nothing. */
    method Append(item: Item)
      requires Valid()
      modifies list, list.nodes
      ensures Valid() && fresh(list.made - old(list.made)) && list.deleted == old(list.deleted)
      ensures forall i :: 0 <= i < |list.nodes| ==> list.nodes[i] in old(list.nodes) || fresh(list.nodes[i])
      ensures Items(list.Contents) == Items(old(list.Contents)) + [item]
    {
      list.Append(item);
      ItemsConcat(old(list.Contents), [Entry(item, 0)]);
    }

    /** Remove with the lock held. On an empty list Condition::Wait aborts the program; otherwise
        ASSERT(item != NULL) does so when the first item is NULL. */
    method Remove() returns (item: Item, waits: bool, aborts: bool)
      requires Valid()
      modifies list
      ensures Valid() && list.made == old(list.made)
      ensures forall i :: 0 <= i < |list.nodes| ==> list.nodes[i] in old(list.nodes)
      ensures waits <==> old(list.Contents) == []
      ensures waits ==> list.Contents == old(list.Contents)
      ensures !waits ==> Items(old(list.Contents)) == [item] + Items(list.Contents)
      ensures aborts <==> !waits && item == NULL
    {
      item, aborts := NULL, false;
      waits := list.IsEmpty();
      if !waits {
        item := list.Remove();
        aborts := item == NULL;
      }
    }
  }
}
