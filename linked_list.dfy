/** The generic singly linked list of spouses/LinkedList.cs (namespace
    `Utility`). Nothing in the program uses it. Its `Insert` builds a node
    whose successor is `first` and then writes `first.Next`; since `first`
    starts null and no member ever assigns it, that write always dereferences
    null. `LinkedList` models the code as written; `CorrectedList` is the
    prepend that the code evidently intends. */
module Utility {

  class Node<T> {
    var value: T
    var next: Node?<T>

    /** A node holds exactly the value and the successor it was built with. */
    constructor (value: T, next: Node?<T>)
      ensures this.value == value && this.next == next
    {
      this.value := value;
      this.next := next;
    }
  }

  /** The list as written. */
  class LinkedList<T> {
    var first: Node?<T>

    /** What `Insert` needs in order not to dereference null at its write
        of `first.Next`. */
    predicate CanInsert()
      reads this
    {
      first != null
    }

    /** A new list is empty, so `Insert` cannot be run on it. */
    constructor ()
      ensures first == null
    {
      first := null;
    }

    /** `Insert` as written. Writing `first.Next` needs a non-null `first`;
        when that holds the new node and `first` point at each other. The
        new node is returned so that its fields can be spoken about. */
    method Insert(value: T) returns (newNode: Node<T>)
      requires CanInsert()
      modifies first
      ensures fresh(newNode)
      ensures first.value == old(first.value)
      ensures newNode.value == value && newNode.next == first
      ensures first == old(first) && first.next == newNode
      ensures first.next.next == first  // a two-node cycle
    {
      newNode := new Node(value, first);
      first.next := newNode;
    }
  }

  /** The smallest run of the code as written: a new list followed by one
      `Insert`. The result is whether that `Insert`'s need of a non-null
      `first` is met; it never is, so the write at `first.Next` always
      dereferences null. Since `Insert` never assigns `first` either, no
      sequence of calls ever makes it met. */
  method InsertIntoNewList<T>() returns (insertDefined: bool)
    ensures !insertDefined
  {
    var l := new LinkedList<T>();
    insertDefined := l.CanInsert();
  }

  /** The list as evidently intended: `Insert` puts the new node in front.
      The ghost sequence `nodes` lists the nodes from `first` on. */
  class CorrectedList<T> {
    var first: Node?<T>
    ghost var nodes: seq<Node<T>>

    ghost predicate Valid()
      reads this, nodes
    {
      (if |nodes| == 0 then first == null else first == nodes[0]) &&
      (forall i :: 0 <= i < |nodes| - 1 ==> nodes[i].next == nodes[i + 1]) &&
      (|nodes| > 0 ==> nodes[|nodes| - 1].next == null) &&
      // no node occurs twice, so the chain from `first` has no cycle
      (forall i, j :: 0 <= i < j < |nodes| ==> nodes[i] != nodes[j])
    }

    /** The values held by the list, from `first` on. */
    ghost function Contents(): seq<T>
      reads this, nodes
    {
      Values(nodes)
    }

    constructor ()
      ensures Valid() && Contents() == []
    {
      first := null;
      nodes := [];
    }

    /** Prepends `value`: the new node becomes `first`. */
    method Insert(value: T)
      requires Valid()
      modifies this
      ensures Valid()
      ensures Contents() == [value] + old(Contents())
      ensures first != null && first.value == value && fresh(first)
    {
      var newNode := new Node(value, first);
      first := newNode;
      nodes := [newNode] + nodes;
    }
  }

  ghost function Values<T>(ns: seq<Node<T>>): (vs: seq<T>)
    reads ns
    ensures |vs| == |ns|
    ensures forall i :: 0 <= i < |ns| ==> vs[i] == ns[i].value
  {
    if |ns| == 0 then [] else [ns[0].value] + Values(ns[1..])
  }
}
