/**
 `containers::set_node<T>` as a heap object: a key and three nullable links,
 the four constructors, and the copy and move assignment operators with the
 framing they promise (which objects change, which links become null).
 */
module SetNodeObject {
  import opened NodeRecord
  import NodeStore

  /** A link of the record model, seen as a nullable node pointer. */
  function AsPointer<T>(l: Link<SetNode<T>>): SetNode?<T>
  {
    match l
    case Null => null
    case Ptr(n) => n
  }

  /**
   A nullable node pointer, seen as a link of the record model; the two views
   are inverse to each other, so a record describes the pointers exactly.
   */
  function AsLink<T>(p: SetNode?<T>): (l: Link<SetNode<T>>)
    ensures AsPointer(l) == p
    ensures l.Null? <==> p == null
  {
    if p == null then Null else Ptr(p as SetNode<T>)
  }

  lemma LinkPointerRoundTrip<T>(l: Link<SetNode<T>>)
    ensures AsLink(AsPointer(l)) == l
  {
  }

  class SetNode<T> {
    var key: T
    var parent: SetNode?<T>
    var left: SetNode?<T>
    var right: SetNode?<T>

    /** The four data members of this node as a record. */
    function Record(): Node<T, SetNode<T>>
      reads this
    {
      Node(key, AsLink(parent), AsLink(left), AsLink(right))
    }

    /** `set_node(void)`; `defaultKey` stands for the key type's default value `T{}`. */
    constructor Default(defaultKey: T)
      ensures Record() == DefaultNode(defaultKey)
      ensures parent == null && left == null && right == null
    {
      key := defaultKey;
      parent := null;
      left := null;
      right := null;
    }

    /** `set_node(const T &key)`. */
    constructor CopyKey(k: T)
      ensures Record() == CopyKeyNode(k)
      ensures key == k && parent == null && left == null && right == null
    {
      key := k;
      parent := null;
      left := null;
      right := null;
    }

    /** `set_node(T &&key)`; `k` is the value of the argument before it is moved from. */
    constructor MoveKey(k: T)
      ensures Record() == MoveKeyNode(k)
      ensures key == k && parent == null && left == null && right == null
    {
      key := k;
      parent := null;
      left := null;
      right := null;
    }

    /**
     `set_node(Args &&...args)`: the key type's constructor `make` builds the key
     from the argument pack `args`.
     */
    constructor Forwarding<X>(make: X -> T, args: X)
      ensures Record() == ForwardingNode(make, args)
      ensures key == make(args) && parent == null && left == null && right == null
    {
      key := make(args);
      parent := null;
      left := null;
      right := null;
    }

    /**
     `operator=(const set_node &other)`: a shallow field-by-field copy. Only this
     node is written; `other` and every node its links point at keep their fields.
     On the two nodes the method does exactly what `NodeStore.CopyAssign` does
     to their records.
     */
    method CopyAssign(other: SetNode<T>) returns (r: SetNode<T>)
      modifies this
      ensures r == this
      ensures Record() == old(other.Record())
      ensures key == old(other.key)
      ensures parent == old(other.parent) && left == old(other.left) && right == old(other.right)
      ensures var m := NodeStore.CopyAssign(old(map[other := other.Record(), this := Record()]), this, other).store;
              Record() == m[this] && other.Record() == m[other]
    {
      key := other.key;
      parent := other.parent;
      left := other.left;
      right := other.right;
      r := this;
    }

    /**
     `operator=(set_node &&other)`: moves the key, copies the links of `other`,
     then nulls the links of `other`. `residue` is supplied by the caller and
     stands for whatever the key type's move assignment leaves in `other.key`;
     the contract sets `other.key` to it, also on a self-move.
     Only this node and `other` are written. On the two nodes the method does
     exactly what `NodeStore.MoveAssign` does to their records.
     */
    method MoveAssign(other: SetNode<T>, residue: T) returns (r: SetNode<T>)
      modifies this, other
      ensures r == this
      ensures other != this ==> Record() == old(other.Record())
      ensures other.parent == null && other.left == null && other.right == null
      ensures other == this ==> Unlinked(Record())
      ensures var m := NodeStore.MoveAssign(old(map[other := other.Record(), this := Record()]), this, other, residue).store;
              Record() == m[this] && other.Record() == m[other]
    {
      var moved := other.key;
      key := moved;
      other.key := residue;
      parent := other.parent;
      left := other.left;
      right := other.right;
      other.parent := null;
      other.left := null;
      other.right := null;
      r := this;
    }
  }
}
