/** The thread-safe queue as a heap list: one operation at a time.

    The links `first`, `last` and `next` refine a sequence. What happens when threads interleave
    inside the operations is the subject of QueueInterleaving. */
module TaskQueue {
  import opened Prelude

  /** A counting semaphore of the platform, or a Pharo semaphore, whose wait does nothing here
      because the image has already waited. */
  class Semaphore {
    const platform: bool
    var value: nat

    constructor (platform: bool)
      ensures this.platform == platform && value == 0
    {
      this.platform, value := platform, 0;
    }

    method Signal()
      modifies this
      ensures value == old(value) + 1
    {
      value := value + 1;
    }

    /** A platform wait ends only when there is a signal to consume. */
    method Wait()
      requires platform ==> value > 0
      modifies this
      ensures value == if platform then old(value) - 1 else old(value)
    {
      if platform { value := value - 1; }
    }
  }

  class Node<T> {
    const element: T
    var next: Node?<T>

    constructor (element: T)
      ensures this.element == element && next == null
    {
      this.element, next := element, null;
    }
  }

  class TSQueue<T> {
    var first: Node?<T>
    var last: Node?<T>
    const semaphore: Semaphore
    ghost var nodes: seq<Node<T>>   // the list from `first`, in order
    ghost var contents: seq<T>      // the elements in the queue, oldest first

    ghost predicate Valid()
      reads this, nodes
    {
      && (forall i, j :: 0 <= i < j < |nodes| ==> nodes[i] != nodes[j])
      && |contents| == |nodes| && (forall i :: 0 <= i < |nodes| ==> nodes[i].element == contents[i])
      && (forall i :: 0 <= i < |nodes| - 1 ==> nodes[i].next == nodes[i + 1])
      && (nodes != [] ==> Last(nodes).next == null)
      && (if nodes == [] then first == null && last == null else first == nodes[0] && last == Last(nodes))
    }

    constructor (semaphore: Semaphore)
      ensures Valid() && contents == [] && this.semaphore == semaphore
    {
      this.semaphore := semaphore;
      first, last, nodes, contents := null, null, [], [];
    }

    method Size() returns (size: nat)
      requires Valid()
      ensures size == |contents|
    {
      size := 0;
      var node := first;
      while node != null
        invariant size <= |nodes|
        invariant node == if size < |nodes| then nodes[size] else null
        decreases |nodes| - size
      {
        assert node == nodes[size];
        size := size + 1;
        node := node.next;
      }
    }

    method Put(element: T)
      requires Valid()
      modifies this, last, semaphore
      ensures Valid() && contents == old(contents) + [element]
      ensures fresh(Last(nodes)) && Front(nodes) == old(nodes)
      ensures semaphore.value == old(semaphore.value) + 1
    {
      var node := new Node(element);
      if first == null {
        first, last := node, node;
      } else {
        last.next := node;
        last := node;
      }
      nodes, contents := nodes + [node], contents + [element];
      semaphore.Signal();
    }

    /** None stands for the NULL answered when the list is empty. */
    method Take() returns (element: Option<T>)
      requires Valid() && (semaphore.platform ==> semaphore.value > 0)
      modifies this, semaphore
      ensures Valid()
      ensures old(contents) == [] ==> element == None && contents == []
      ensures old(contents) != [] ==>
        element == Some(old(contents)[0]) && contents == old(contents)[1..] && nodes == old(nodes)[1..]
      ensures semaphore.value == if semaphore.platform then old(semaphore.value) - 1 else old(semaphore.value)
    {
      semaphore.Wait();
      var node := first;
      if node == null { return None; }
      element := Some(node.element);
      assert first == last ==> |nodes| == 1;
      if first == last {
        first, last := null, null;
      } else {
        first := node.next;
        assert nodes[0].next == nodes[1];
      }
      nodes, contents := nodes[1..], contents[1..];
      assert forall i :: 0 <= i < |nodes| ==> nodes[i] == old(nodes)[i + 1];
    }
  }
}
