/**
 * The intrusive doubly linked list (src/util/list.c). Nodes are blocks of
 * the list's allocator; `Nodes` is the ghost sequence of nodes from head to
 * tail that the prev/next links must spell out.
 */
module Lists {
  import opened Alloc

  /** sizeof(ListNode) on the 64-bit targets: two links and a value pointer. */
  const NODE_BYTES: nat := 24

  /** ListNode: the links of one element; `block` is the memory it lives in. */
  class ListNode {
    var prev: ListNode?
    var next: ListNode?
    const block: Ptr

    /** A node in a zero-filled block: both links NULL. */
    constructor (block: Ptr)
      ensures prev == null && next == null && this.block == block
    {
      prev := null;
      next := null;
      this.block := block;
    }
  }

  /** The blocks behind a sequence of nodes, in the same order. */
  function Blocks(ns: seq<ListNode>): (r: seq<Ptr>)
    ensures |r| == |ns| && forall i :: 0 <= i < |ns| ==> r[i] == ns[i].block
  {
    if ns == [] then [] else [ns[0].block] + Blocks(ns[1..])
  }

  /** The blocks behind a sequence of nodes, as a set. */
  ghost function BlockSet(ns: seq<ListNode>): set<Ptr>
    reads ns
  {
    set n | n in ns :: n.block
  }

  /** Extending the nodes by one extends both views of their blocks by its block. */
  lemma BlocksSnoc(ns: seq<ListNode>, n: ListNode)
    ensures Blocks(ns + [n]) == Blocks(ns) + [n.block]
    ensures BlockSet(ns + [n]) == BlockSet(ns) + {n.block}
  {
  }

  /** The position of `n` in `ns`. */
  function IndexOf(ns: seq<ListNode>, n: ListNode): (i: nat)
    requires n in ns
    ensures i < |ns| && ns[i] == n
    ensures forall k :: 0 <= k < i ==> ns[k] != n
  {
    if ns[0] == n then 0 else 1 + IndexOf(ns[1..], n)
  }

  class List {
    var head: ListNode?
    var tail: ListNode?
    const elemSize: nat
    const allocator: Backing
    ghost var Nodes: seq<ListNode>

    /** The links spell out `Nodes`, and every node sits in its own live block. */
    ghost predicate Valid()
      reads this, Nodes, allocator
    {
      && allocator.Valid()
      && (Nodes == [] ==> head == null && tail == null)
      && (Nodes != [] ==> head == Nodes[0] && tail == Nodes[|Nodes| - 1])
      && (Nodes != [] ==> Nodes[0].prev == null && Nodes[|Nodes| - 1].next == null)
      && (forall i, j :: 0 <= i && j == i + 1 && j < |Nodes| ==> Nodes[i].next == Nodes[j] && Nodes[j].prev == Nodes[i])
      && (forall i, j :: 0 <= i < j < |Nodes| ==> Nodes[i] != Nodes[j] && Nodes[i].block != Nodes[j].block)
      && (forall i :: 0 <= i < |Nodes| ==> Nodes[i].block in allocator.blocks)
    }

    /** List_create: an empty list drawing nodes of `elemSize` bytes (or bare nodes, if 0) from `allocator`. */
    constructor (allocator: Backing, elemSize: nat)
      requires allocator.Valid()
      ensures Valid() && Nodes == []
      ensures this.allocator == allocator && this.elemSize == elemSize
    {
      head := null;
      tail := null;
      this.allocator := allocator;
      this.elemSize := elemSize;
      Nodes := [];
    }

    /** How many bytes List_push asks the allocator for. */
    function NodeSize(): (n: nat)
      ensures n > 0
      ensures elemSize > 0 ==> n == elemSize
    {
      if elemSize > 0 then elemSize else NODE_BYTES
    }

    /** List_push: allocates a node and links it in after the tail. */
    method Push() returns (node: ListNode)
      requires Valid()
      modifies this, Nodes, allocator
      ensures Valid()
      ensures fresh(node) && Nodes == old(Nodes) + [node]
      ensures node.block !in old(allocator.blocks) && allocator.blocks == old(allocator.blocks)[node.block := NodeSize()]
      ensures allocator.released == old(allocator.released)
    {
      var p := allocator.Alloc(NodeSize(), 1);
      node := new ListNode(p);
      if head == null {
        head := node;
        tail := node;
        node.prev := null;
        Nodes := [node];
        return;
      }
      tail.next := node;
      node.prev := tail;
      tail := node;
      Nodes := Nodes + [node];
    }

    /**
     * List_pop: unlinks the tail and returns it with its links cleared, or
     * null when the list is empty. The node's block is not freed.
     */
    method Pop() returns (node: ListNode?)
      requires Valid()
      modifies this, Nodes
      ensures Valid()
      ensures old(Nodes) == [] ==> node == null && Nodes == []
      ensures old(Nodes) != [] ==> node == old(Nodes[|Nodes| - 1]) && Nodes == old(Nodes[..|Nodes| - 1])
      ensures node != null ==> node.prev == null && node.next == null
      ensures allocator.blocks == old(allocator.blocks)
    {
      if tail == null {
        return null;
      }
      ghost var n := |Nodes|;
      node := tail;
      if tail == head {
        assert node.prev == null && node.next == null;
        head := null;
        tail := null;
        Nodes := [];
        return;
      }
      var prev := tail.prev;
      assert prev == Nodes[n - 2];
      tail := prev;
      prev.next := null;
      node.prev := null;
      Nodes := Nodes[..n - 1];
    }

    /**
     * List_remove: unlinks `node` wherever it is (head, tail or middle) and
     * clears its links; a null node is ignored. The node must belong to
     * this list, since its neighbours are reached through its links.
     */
    method Remove(node: ListNode?)
      requires Valid()
      requires node == null || node in Nodes
      modifies this, Nodes
      ensures Valid()
      ensures node == null ==> Nodes == old(Nodes)
      ensures node != null ==>
                var i := IndexOf(old(Nodes), node);
                Nodes == old(Nodes[..i] + Nodes[i + 1..])
      ensures node != null ==> node.prev == null && node.next == null
      ensures allocator.blocks == old(allocator.blocks)
    {
      if node == null {
        return;
      }
      ghost var i := IndexOf(Nodes, node);
      if head == node {
        if head == tail {
          UnlinkOnly();
        } else {
          UnlinkHead();
        }
      } else if tail == node {
        UnlinkTail();
      } else {
        UnlinkMiddle(node, i);
      }
    }

    /** List_remove on a one-node list: both ends become NULL. */
    method UnlinkOnly()
      requires Valid() && head != null && head == tail
      modifies this, Nodes
      ensures Valid()
      ensures |old(Nodes)| == 1 && Nodes == []
      ensures old(head).prev == null && old(head).next == null
    {
      assert Nodes[0] == Nodes[|Nodes| - 1];
      head := null;
      tail := null;
      Nodes := [];
    }

    /** The head case of List_remove on a list of two or more nodes. */
    method UnlinkHead()
      requires Valid() && |Nodes| >= 2
      modifies this, Nodes
      ensures Valid()
      ensures Nodes == old(Nodes[1..]) && old(head) == old(Nodes[0])
      ensures old(head).prev == null && old(head).next == null
    {
      ghost var ns := Nodes;
      var node := head;
      var next := head.next;
      assert next == ns[1];
      head := next;
      next.prev := null;
      node.next := null;
      Nodes := ns[1..];
      forall a, b | 0 <= a && b == a + 1 && b < |Nodes|
        ensures Nodes[a].next == Nodes[b] && Nodes[b].prev == Nodes[a]
      {
        assert Nodes[a] == ns[a + 1] && Nodes[b] == ns[b + 1];
        assert ns[a + 1] != ns[0] && ns[b + 1] != ns[0] && ns[b + 1] != ns[1];
      }
    }

    /** The tail case of List_remove on a list of two or more nodes. */
    method UnlinkTail()
      requires Valid() && |Nodes| >= 2
      modifies this, Nodes
      ensures Valid()
      ensures Nodes == old(Nodes[..|Nodes| - 1]) && old(tail) == old(Nodes[|Nodes| - 1])
      ensures old(tail).prev == null && old(tail).next == null
    {
      ghost var ns := Nodes;
      ghost var n := |ns|;
      var node := tail;
      var prev := tail.prev;
      assert prev == ns[n - 2];
      tail := prev;
      prev.next := null;
      node.prev := null;
      Nodes := ns[..n - 1];
      forall a, b | 0 <= a && b == a + 1 && b < |Nodes|
        ensures Nodes[a].next == Nodes[b] && Nodes[b].prev == Nodes[a]
      {
        assert Nodes[a] == ns[a] && Nodes[b] == ns[b];
        assert ns[a] != ns[n - 1] && ns[a] != ns[n - 2] && ns[b] != ns[n - 1];
      }
    }

    /** The middle case of List_remove: the node's neighbours are linked to each other. */
    method UnlinkMiddle(node: ListNode, ghost i: nat)
      requires Valid()
      requires 0 < i < |Nodes| - 1 && Nodes[i] == node
      modifies this, Nodes
      ensures Valid()
      ensures Nodes == old(Nodes[..i] + Nodes[i + 1..])
      ensures node.prev == null && node.next == null
      ensures head == old(head) && tail == old(tail)
    {
      ghost var ns := Nodes;
      var prev, next := node.prev, node.next;
      assert prev == ns[i - 1] && next == ns[i + 1];
      prev.next := next;
      next.prev := prev;
      node.next := null;
      node.prev := null;
      Nodes := ns[..i] + ns[i + 1..];
      forall a, b | 0 <= a && b == a + 1 && b < |Nodes|
        ensures Nodes[a].next == Nodes[b] && Nodes[b].prev == Nodes[a]
      {
        if b < i {
          assert Nodes[a] == ns[a] && Nodes[b] == ns[b];
          assert ns[a] != ns[i - 1] && ns[a] != ns[i];
          assert ns[b] != ns[i + 1] && ns[b] != ns[i];
        } else if b == i {
          assert Nodes[a] == prev && Nodes[b] == next;
        } else {
          assert Nodes[a] == ns[a + 1] && Nodes[b] == ns[b + 1];
          assert ns[a + 1] != ns[i - 1] && ns[a + 1] != ns[i];
          assert ns[b + 1] != ns[i + 1] && ns[b + 1] != ns[i];
        }
      }
    }

    /**
     * List_destroy: walks the links from the head and frees every node's
     * block, in list order. `head` and `tail` are left as they were, so a
     * non-empty list is left pointing at freed memory.
     */
    method Destroy()
      requires Valid()
      modifies allocator
      ensures allocator.Valid()
      ensures allocator.released == old(allocator.released) + Blocks(Nodes)
      ensures allocator.blocks == old(allocator.blocks) - BlockSet(Nodes)
      ensures Nodes != [] ==> !Valid()
    {
      var node := head;
      ghost var i := 0;
      while node != null
        invariant 0 <= i <= |Nodes|
        invariant node == if i < |Nodes| then Nodes[i] else null
        invariant allocator.Valid()
        invariant allocator.released == old(allocator.released) + Blocks(Nodes[..i])
        invariant allocator.blocks == old(allocator.blocks) - BlockSet(Nodes[..i])
        invariant forall k :: i <= k < |Nodes| ==> Nodes[k].block in allocator.blocks
        decreases |Nodes| - i
      {
        var next := node.next;
        assert Nodes[..i + 1] == Nodes[..i] + [node];
        BlocksSnoc(Nodes[..i], node);
        allocator.Free(node.block);
        node := next;
        i := i + 1;
      }
      assert Nodes[..i] == Nodes;
    }
  }
}
