/** The doubly linked list of src/double_linked_list.c over a heap of nodes. */
module LinkedList {
  import opened Numbers
  import opened TaskObject

  class Node {
    var data: TaskRecord?
    var id: U32
    var tickets: U32
    var work: U32
    var next: Node?
    var prev: Node?
  }

  /** What a node holds besides its links. */
  datatype Entry = Entry(data: TaskRecord?, id: U32, tickets: U32, work: U32)

  /** The first position holding `id`, or the length. */
  function FirstIndex(entries: seq<Entry>, id: U32): (i: nat)
    ensures i <= |entries|
    ensures i < |entries| ==> entries[i].id == id
    ensures forall j :: 0 <= j < i ==> entries[j].id != id
  {
    if entries == [] then 0
    else if entries[0].id == id then 0
    else 1 + FirstIndex(entries[1..], id)
  }

  /** Only one position can be the first. */
  lemma FirstIndexUnique(entries: seq<Entry>, id: U32, i: nat)
    requires i <= |entries| && (i < |entries| ==> entries[i].id == id)
    requires forall j :: 0 <= j < i ==> entries[j].id != id
    ensures i == FirstIndex(entries, id)
  {
  }

  /** The node at position `i` of `nodes`, null outside. */
  ghost function NodeAt(nodes: seq<Node>, i: int): Node? {
    if 0 <= i < |nodes| then nodes[i] else null
  }

  /** The node at position `i` points to its neighbours. */
  ghost predicate LinkedAt(nodes: seq<Node>, i: nat)
    requires i < |nodes|
    reads nodes[i]
  {
    nodes[i].next == NodeAt(nodes, i + 1) && nodes[i].prev == NodeAt(nodes, i - 1)
  }

  /** The sequence without its element at position `k`, the others in order. */
  ghost function Without<T>(s: seq<T>, k: nat): (r: seq<T>)
    requires k < |s|
    ensures |r| == |s| - 1
    ensures forall i :: 0 <= i < |r| ==> r[i] == s[if i < k then i else i + 1]
  {
    s[..k] + s[k + 1..]
  }

  /** The node at position `j` points to its neighbours as if position `k` were not there. */
  ghost predicate BypassedAt(nodes: seq<Node>, j: nat, k: nat)
    requires j < |nodes|
    reads nodes[j]
  {
    && nodes[j].next == NodeAt(nodes, if j + 1 == k then k + 1 else j + 1)
    && nodes[j].prev == NodeAt(nodes, if j == k + 1 then k - 1 else j - 1)
  }

  class List {
    var head: Node?
    /** The nodes in order. */
    ghost var spine: seq<Node>

    ghost function At(i: int): Node?
      reads this
    {
      NodeAt(spine, i)
    }

    /** No node twice, `next` and `prev` mutually inverse, nothing before the head or after the last node. */
    ghost predicate Valid()
      reads this, spine
    {
      && head == At(0)
      && (forall i, j :: 0 <= i < j < |spine| ==> spine[i] != spine[j])
      && (forall i :: 0 <= i < |spine| ==> LinkedAt(spine, i))
    }

    ghost function EntryAt(i: nat): Entry
      requires i < |spine|
      reads this, spine
    {
      Entry(spine[i].data, spine[i].id, spine[i].tickets, spine[i].work)
    }

    ghost function Entries(): (es: seq<Entry>)
      reads this, spine
      ensures |es| == |spine| && forall i :: 0 <= i < |es| ==> es[i] == EntryAt(i)
    {
      seq(|spine|, i requires 0 <= i < |spine| reads this, spine => EntryAt(i))
    }

    /** The links of a valid list: from the head both ways through all nodes, each once, with an end on both sides. */
    lemma Links(i: nat)
      requires Valid() && i < |spine|
      ensures head == spine[0] && spine[0].prev == null && spine[|spine| - 1].next == null
      ensures i + 1 < |spine| ==> spine[i].next == spine[i + 1] && spine[i + 1].prev == spine[i]
      ensures forall j :: 0 <= j < |spine| && j != i ==> spine[j] != spine[i]
    {
      assert LinkedAt(spine, 0) && LinkedAt(spine, i) && LinkedAt(spine, |spine| - 1);
      assert i + 1 < |spine| ==> LinkedAt(spine, i + 1);
    }

    /** `dll_init_list`. */
    constructor ()
      ensures Valid() && spine == [] && Entries() == []
    {
      head := null;
      spine := [];
    }

    /** The traversal of `dll_insert_node`. */
    method Last() returns (last: Node)
      requires Valid() && head != null
      ensures spine != [] && last == spine[|spine| - 1]
    {
      last := head;
      ghost var k := 0;
      while last.next != null
        invariant 0 <= k < |spine| && last == spine[k]
        decreases |spine| - k
      {
        assert LinkedAt(spine, k);
        last := last.next;
        k := k + 1;
      }
      assert LinkedAt(spine, k);
    }

    /** Hooks a node behind the last one. */
    method Attach(node: Node)
      requires Valid() && node !in spine
      modifies this`head, spine, node`next, node`prev
      ensures spine == old(spine)
      ensures head == NodeAt(spine + [node], 0)
      ensures forall i :: 0 <= i <= |spine| ==> LinkedAt(spine + [node], i)
      ensures forall i :: 0 <= i < |spine| ==> EntryAt(i) == old(EntryAt(i))
    {
      assert forall i :: 0 <= i < |spine| ==> old(LinkedAt(spine, i));
      if head == null {
        head := node;
        node.next := null;
        node.prev := null;
      } else {
        var last := Last();
        last.next := node;
        node.prev := last;
        node.next := null;
      }
      forall i | 0 <= i <= |spine|
        ensures LinkedAt(spine + [node], i)
      {
        if i < |spine| {
          assert old(LinkedAt(spine, i));
        }
      }
    }

    /** `dll_insert_node`; allocation always succeeds here. */
    method Insert(data: TaskRecord?, id: U32, tickets: U32, work: U32) returns (ok: bool)
      requires Valid()
      modifies this, spine
      ensures ok && Valid()
      ensures Entries() == old(Entries()) + [Entry(data, id, tickets, work)]
      ensures |spine| == |old(spine)| + 1 && spine[..|old(spine)|] == old(spine) && fresh(spine[|old(spine)|])
    {
      var node := new Node;
      node.data, node.id, node.tickets, node.work := data, id, tickets, work;
      ghost var entries := Entries();
      assert forall i :: 0 <= i < |spine| ==> entries[i] == EntryAt(i) == old(EntryAt(i));
      Attach(node);
      assert forall i :: 0 <= i < |spine| ==> EntryAt(i) == entries[i];
      spine := spine + [node];
      Appended(entries, Entry(data, id, tickets, work));
      ok := true;
    }

    lemma Appended(entries: seq<Entry>, last: Entry)
      requires |spine| == |entries| + 1 && EntryAt(|entries|) == last
      requires forall i :: 0 <= i < |entries| ==> EntryAt(i) == entries[i]
      ensures Entries() == entries + [last]
    {
    }

    /** `dll_find_node`. */
    method Find(id: U32) returns (ok: bool, found: Node?)
      requires Valid()
      ensures ok <==> FirstIndex(Entries(), id) < |spine|
      ensures found == At(FirstIndex(Entries(), id))
    {
      var current := head;
      ghost var k := 0;
      while current != null
        invariant 0 <= k <= |spine| && current == At(k)
        invariant forall j :: 0 <= j < k ==> spine[j].id != id
        decreases |spine| - k
      {
        if current.id == id {
          FirstIndexUnique(Entries(), id, k);
          return true, current;
        }
        assert LinkedAt(spine, k);
        current := current.next;
        k := k + 1;
      }
      FirstIndexUnique(Entries(), id, k);
      return false, null;
    }

    /** `dll_remove_node`: unlinks the first node with the id and drops its data. */
    method Remove(id: U32) returns (ok: bool)
      requires Valid()
      modifies this, spine
      ensures Valid()
      ensures ok <==> FirstIndex(old(Entries()), id) < |old(spine)|
      ensures !ok ==> Entries() == old(Entries()) && spine == old(spine)
      ensures ok ==>
        var i := FirstIndex(old(Entries()), id);
        && Entries() == Without(old(Entries()), i)
        && spine == Without(old(spine), i)
        && old(spine)[i].data == null
    {
      var current := head;
      ghost var k := 0;
      while current != null
        invariant 0 <= k <= |spine| && current == At(k)
        invariant forall j :: 0 <= j < k ==> spine[j].id != id
        decreases |spine| - k
      {
        if current.id == id {
          FirstIndexUnique(Entries(), id, k);
          Unlink(current, k);
          return true;
        }
        assert LinkedAt(spine, k);
        current := current.next;
        k := k + 1;
      }
      FirstIndexUnique(Entries(), id, k);
      return false;
    }

    /** The relinking of `dll_remove_node` on the node at position `k`: its neighbours now pass it by. */
    method Bypass(node: Node, ghost k: nat)
      requires Valid() && k < |spine| && node == spine[k]
      modifies this`head, spine
      ensures spine == old(spine) && node.data == null
      ensures head == NodeAt(spine, if k == 0 then 1 else 0)
      ensures forall j :: 0 <= j < |spine| && j != k ==> BypassedAt(spine, j, k)
      ensures forall j :: 0 <= j < |spine| && j != k ==> EntryAt(j) == old(EntryAt(j))
    {
      assert LinkedAt(spine, k);
      assert forall j :: 0 <= j < |spine| ==> old(LinkedAt(spine, j));
      if node.prev != null {
        node.prev.next := node.next;
      } else {
        head := node.next;
      }
      if node.next != null {
        node.next.prev := node.prev;
      }
      node.data := null;
      forall j | 0 <= j < |spine| && j != k
        ensures BypassedAt(spine, j, k)
      {
        assert old(LinkedAt(spine, j));
      }
    }

    method Unlink(node: Node, ghost k: nat)
      requires Valid() && k < |spine| && node == spine[k]
      modifies this, spine
      ensures Valid()
      ensures spine == Without(old(spine), k) && node.data == null
      ensures Entries() == Without(old(Entries()), k)
    {
      ghost var s := spine;
      Bypass(node, k);
      spine := Without(s, k);
      forall i | 0 <= i < |spine|
        ensures LinkedAt(spine, i) && EntryAt(i) == old(Entries())[if i < k then i else i + 1]
      {
        assert BypassedAt(s, if i < k then i else i + 1, k);
      }
    }

    /** `dll_clean_list`. */
    method Clean() returns (ok: bool)
      requires Valid()
      modifies this, spine
      ensures ok && Valid() && spine == [] && head == null && Entries() == []
      ensures forall n :: n in old(spine) ==> n.data == null
    {
      var current := head;
      ghost var k := 0;
      while current != null
        invariant 0 <= k <= |spine| && current == At(k) && spine == old(spine)
        invariant forall i :: 0 <= i < |spine| ==> LinkedAt(spine, i)
        invariant forall j :: 0 <= j < k ==> spine[j].data == null
        decreases |spine| - k
      {
        assert LinkedAt(spine, k);
        var next := current.next;
        current.data := null;
        assert forall i :: 0 <= i < |spine| ==> old(LinkedAt(spine, i));
        current := next;
        k := k + 1;
      }
      head := null;
      spine := [];
      ok := true;
    }
  }
}
