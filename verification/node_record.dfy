/**
 The data members of `containers::set_node<T>` as an immutable record, and the
 four ways a node is constructed.

 A node holds a key and three links (parent, left child, right child). A link is
 either null or points to another node, named here by an address of type `A`;
 the imperative model instantiates `A` with the node class itself, the store
 model with any type that has equality.
 */
module NodeRecord {

  /** A pointer field of a node: `nullptr`, or a pointer to the node at `target`. */
  datatype Link<A> = Null | Ptr(target: A)

  /** The four data members of a set node. */
  datatype Node<T, A> = Node(key: T, parent: Link<A>, left: Link<A>, right: Link<A>)

  /** The three pointer fields of a node; used to speak about one link at a time. */
  datatype Field = Parent | Left | Right

  function GetLink<T, A>(n: Node<T, A>, f: Field): Link<A>
  {
    match f
    case Parent => n.parent
    case Left => n.left
    case Right => n.right
  }

  function SetLink<T, A>(n: Node<T, A>, f: Field, l: Link<A>): (r: Node<T, A>)
    ensures GetLink(r, f) == l
    ensures forall g :: g != f ==> GetLink(r, g) == GetLink(n, g)
    ensures r.key == n.key
  {
    match f
    case Parent => n.(parent := l)
    case Left => n.(left := l)
    case Right => n.(right := l)
  }

  /** True when none of the three links of `n` points anywhere. */
  predicate Unlinked<T, A>(n: Node<T, A>)
  {
    forall f: Field :: GetLink(n, f).Null?
  }

  /** True when some link of `n` points at `b`. */
  predicate LinksTo<T, A(==)>(n: Node<T, A>, b: A)
  {
    exists f: Field :: GetLink(n, f) == Ptr(b)
  }

  /**
   `set_node(void)`: the key is default-constructed and every link is null.
   The key type's default value `T{}` is not expressible for an arbitrary `T`,
   so the caller passes it in as `defaultKey`.
   */
  function DefaultNode<T, A>(defaultKey: T): (n: Node<T, A>)
    ensures n.key == defaultKey
    ensures Unlinked(n)
  {
    Node(defaultKey, Null, Null, Null)
  }

  /** `set_node(const T &key)`: stores a copy of `key`; every link is null. */
  function CopyKeyNode<T, A>(key: T): (n: Node<T, A>)
    ensures n.key == key
    ensures Unlinked(n)
  {
    Node(key, Null, Null, Null)
  }

  /**
   `set_node(T &&key)`: stores the value `key` held before the move; every link
   is null. The moved-from state of the caller's argument is not part of the node.
   */
  function MoveKeyNode<T, A>(key: T): (n: Node<T, A>)
    ensures n.key == key
    ensures Unlinked(n)
  {
    Node(key, Null, Null, Null)
  }

  /**
   The forwarding constructor `set_node(Args &&...args)`: the key is built in
   place by the key type's own constructor, `make`, from the argument pack
   `args` (one value standing for the whole pack); every link is null.
   */
  function ForwardingNode<X, T, A>(make: X -> T, args: X): (n: Node<T, A>)
    ensures n.key == make(args)
    ensures Unlinked(n)
  {
    Node(make(args), Null, Null, Null)
  }

  /** Unlinked is exactly "links to no node at all". */
  lemma UnlinkedIffLinksNowhere<T, A>(n: Node<T, A>)
    ensures Unlinked(n) <==> forall b: A :: !LinksTo(n, b)
  {
    if !Unlinked(n) {
      var f: Field :| GetLink(n, f) != Null;
      assert LinksTo(n, GetLink(n, f).target);
    }
  }
}
