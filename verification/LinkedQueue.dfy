/**
  The queue of actions of an event and of operations of a worker: a singly linked list with
  a pointer to its last node, updated in place under one lock.
  */
module LinkedQueue {
  import opened Options

  class Node<T> {
    var next: Node?<T>
    var value: Option<T>

    constructor (value: T)
      ensures this.value == Some(value) && next == null
    {
      this.value := Some(value);
      next := null;
    }
  }

  function Successor<T>(nodes: seq<Node<T>>, i: nat): Node?<T> {
    if i + 1 < |nodes| then nodes[i + 1] else null
  }

  /** `contents` is the queue as a sequence, front first; `nodes` are the nodes reachable
      from `head`.  Nodes that were popped are not among them. */
  class Queue<T> {
    var head: Node?<T>
    var tail: Node?<T>
    ghost var nodes: seq<Node<T>>
    ghost var contents: seq<T>

    ghost predicate Valid()
      reads this, nodes
    {
      && |nodes| == |contents|
      && (forall i, j :: 0 <= i < j < |nodes| ==> nodes[i] != nodes[j])
      && head == (if nodes == [] then null else nodes[0])
      && tail == (if nodes == [] then null else nodes[|nodes| - 1])
      && (forall i :: 0 <= i < |nodes| ==> nodes[i].value == Some(contents[i]))
      && (forall i :: 0 <= i < |nodes| ==> nodes[i].next == Successor(nodes, i))
    }

    lemma Sizes()
      requires Valid()
      ensures |nodes| == |contents|
    {
    }

    constructor ()
      ensures Valid() && contents == [] && nodes == []
    {
      head, tail, nodes, contents := null, null, [], [];
    }

    method Emplace(x: T)
      requires Valid()
      modifies this, nodes
      ensures Valid() && contents == old(contents) + [x]
      ensures |nodes| == |old(nodes)| + 1 && nodes[..|old(nodes)|] == old(nodes) && fresh(nodes[|old(nodes)|])
    {
      var node := new Node(x);
      if head == null {
        head, tail := node, node;
      } else {
        assert tail.next == Successor(nodes, |nodes| - 1);
        assert tail.next == null;
        tail.next := node;
        tail := node;
      }
      nodes, contents := nodes + [node], contents + [x];
    }

    /** Hands the front value to the caller.  Swapping `head` with `head.next` leaves the node
        that was popped linked to itself. */
    method ConsumeOne() returns (value: Option<T>)
      requires Valid()
      modifies this, nodes
      ensures Valid()
      ensures old(contents) == [] ==> value == None && contents == [] && nodes == old(nodes)
      ensures old(contents) != [] ==>
                && value == Some(old(contents)[0]) && contents == old(contents)[1..] && nodes == old(nodes)[1..]
                && old(nodes)[0].next == old(nodes)[0] && old(nodes)[0].value == None
    {
      if head == null {
        return None;
      }
      assert nodes[0].next == Successor(nodes, 0);
      value, head.value := head.value, None;
      if tail == head {
        tail := null;
      }
      head, head.next := head.next, head;
      nodes, contents := nodes[1..], contents[1..];
    }

    /** Runs through the whole queue, front to back. */
    method ConsumeAll() returns (consumed: nat, values: seq<T>)
      requires Valid()
      modifies this, nodes
      ensures Valid() && contents == []
      ensures values == old(contents) && consumed == |old(contents)|
    {
      hide Valid;
      consumed, values := 0, [];
      var more := true;
      while more
        invariant Valid() && values + contents == old(contents) && consumed == |values|
        invariant !more ==> contents == []
        invariant consumed <= |old(nodes)| && nodes == old(nodes)[consumed..]
        decreases |contents|, more
      {
        Sizes();
        var value := ConsumeOne();
        if value.Some? {
          consumed, values := consumed + 1, values + [value.value];
        } else {
          more := false;
        }
      }
    }

    method Pop() returns (popped: Option<T>)
      requires Valid()
      modifies this, nodes
      ensures Valid()
      ensures popped == (if old(contents) == [] then None else Some(old(contents)[0]))
      ensures contents == if old(contents) == [] then [] else old(contents)[1..]
    {
      popped := ConsumeOne();
    }

    /** Takes the front value only if the caller wants it; a refusal leaves everything as it
        was. */
    method PeakAndPopIf(shouldPop: T -> bool) returns (ok: bool, popped: Option<T>)
      requires Valid()
      modifies this, nodes
      ensures Valid()
      ensures ok <==> old(contents) != [] && shouldPop(old(contents)[0])
      ensures popped == if ok then Some(old(contents)[0]) else None
      ensures contents == if ok then old(contents)[1..] else old(contents)
      ensures nodes == if ok then old(nodes)[1..] else old(nodes)
      ensures !ok ==> forall n :: n in nodes ==> n.next == old(n.next) && n.value == old(n.value)
    {
      if head == null {
        return false, None;
      }
      assert nodes[0].next == Successor(nodes, 0);
      var value := head.value;
      head.value := None;
      if shouldPop(value.value) {
        if tail == head {
          tail := null;
        }
        head, head.next := head.next, head;
        nodes, contents := nodes[1..], contents[1..];
        return true, value;
      } else {
        head.value := value;
        return false, None;
      }
    }
  }
}
