/**
 The two assignment operators of `containers::set_node<T>` over a heap of nodes.

 A store maps each live node's address to its record. Every statement of an
 operator body is one field write, except the key move `key = std::move(other.key)`,
 which writes the target's key and, through the key type's move assignment, the
 source's key; it becomes two writes here, target first. The operators below are
 written as the same sequence of writes in the same order as the C++ source;
 what they do when the target and the source are the same node follows from
 that order rather than being stated separately.
 */
module NodeStore {
  import opened NodeRecord

  type Store<T, A> = map<A, Node<T, A>>

  /** The result of an assignment operator: the new store, and the node whose reference it returns. */
  datatype Assigned<T, A> = Assigned(store: Store<T, A>, returned: A)

  /** A store without dangling links: every non-null link points at a node of the store. */
  predicate Closed<T, A(==)>(s: Store<T, A>)
  {
    forall a, f: Field :: a in s && GetLink(s[a], f).Ptr? ==> GetLink(s[a], f).target in s
  }

  /**
   The ordering the node's documentation describes: the left child's key is
   less than the node's key and the right child's key is greater. Nothing in a
   node enforces it; it is defined here for a tree engine to maintain.
   */
  predicate ChildKeysOrdered<T, A(==)>(s: Store<T, A>, a: A, less: (T, T) -> bool)
    requires a in s
  {
    && (s[a].left.Ptr? && s[a].left.target in s ==> less(s[s[a].left.target].key, s[a].key))
    && (s[a].right.Ptr? && s[a].right.target in s ==> less(s[a].key, s[s[a].right.target].key))
  }

  /** The statement `a.key = k`. */
  function WriteKey<T, A(==)>(s: Store<T, A>, a: A, k: T): (r: Store<T, A>)
    requires a in s
    ensures r.Keys == s.Keys
    ensures r[a] == s[a].(key := k)
    ensures forall b :: b in s && b != a ==> r[b] == s[b]
  {
    s[a := s[a].(key := k)]
  }

  /** The statement `a.f = l` for one of the three pointer fields `f`. */
  function WriteLink<T, A(==)>(s: Store<T, A>, a: A, f: Field, l: Link<A>): (r: Store<T, A>)
    requires a in s
    ensures r.Keys == s.Keys
    ensures r[a] == SetLink(s[a], f, l)
    ensures forall b :: b in s && b != a ==> r[b] == s[b]
  {
    s[a := SetLink(s[a], f, l)]
  }

  /**
   Copy assignment `target = other` (set_node.hpp, lines 106-114): copies the
   key and the three links of `other` into `target`, field by field, and
   returns `target`. It is shallow: `other`, and the nodes the copied links
   point at, are left as they were.
   */
  function CopyAssign<T, A(==)>(s: Store<T, A>, target: A, other: A): (r: Assigned<T, A>)
    requires target in s && other in s
    ensures r.returned == target
    ensures r.store.Keys == s.Keys
    ensures r.store[target] == s[other]
    ensures forall b :: b in s && b != target ==> r.store[b] == s[b]
    ensures Closed(s) ==> Closed(r.store)
  {
    var s1 := WriteKey(s, target, s[other].key);
    var s2 := WriteLink(s1, target, Parent, s1[other].parent);
    var s3 := WriteLink(s2, target, Left, s2[other].left);
    var s4 := WriteLink(s3, target, Right, s3[other].right);
    Assigned(s4, target)
  }

  /**
   Move assignment `target = std::move(other)` (set_node.hpp, lines 121-133):
   moves the key, copies the three links of `other` into `target`, then nulls
   the three links of `other`, and returns `target`.

   Moving the key is the key type's own move assignment. It leaves the source
   key in a state C++ does not specify. The caller supplies that state as
   `residue`, and the model writes it into the source's key after the target's
   key, so a self-move also ends holding `residue`. The postconditions below do
   not mention the source's key, but the body fixes it to `residue`.

   Because `other`'s links are nulled after they were copied, a self-move
   (`target == other`) ends with every link of the node null.
   */
  function MoveAssign<T, A(==)>(s: Store<T, A>, target: A, other: A, residue: T): (r: Assigned<T, A>)
    requires target in s && other in s
    ensures r.returned == target
    ensures r.store.Keys == s.Keys
    ensures target != other ==> r.store[target] == s[other]
    ensures Unlinked(r.store[other])
    ensures target == other ==> Unlinked(r.store[target])
    ensures forall b :: b in s && b != target && b != other ==> r.store[b] == s[b]
    ensures Closed(s) ==> Closed(r.store)
  {
    var moved := s[other].key;
    var s0 := WriteKey(s, target, moved);
    var s1 := WriteKey(s0, other, residue);
    var s2 := WriteLink(s1, target, Parent, s1[other].parent);
    var s3 := WriteLink(s2, target, Left, s2[other].left);
    var s4 := WriteLink(s3, target, Right, s3[other].right);
    var s5 := WriteLink(s4, other, Parent, Null);
    var s6 := WriteLink(s5, other, Left, Null);
    var s7 := WriteLink(s6, other, Right, Null);
    Assigned(s7, target)
  }

  /** Copy assignment of a node to itself changes nothing. */
  lemma SelfCopyAssignIsIdentity<T, A>(s: Store<T, A>, a: A)
    requires a in s
    ensures CopyAssign(s, a, a).store == s
  {
  }

  /**
   Between two distinct nodes, move assignment is copy assignment followed by
   giving the source its moved-from key and nulling the source's three links.
   */
  lemma MoveIsCopyThenClearSource<T, A>(s: Store<T, A>, target: A, other: A, residue: T)
    requires target in s && other in s && target != other
    ensures MoveAssign(s, target, other, residue).store
         == CopyAssign(s, target, other).store[other := Node(residue, Null, Null, Null)]
  {
  }

  /** One call of an assignment operator, as a tree engine would issue it while relinking. */
  datatype Step<T, A> = Copy(target: A, other: A) | Move(target: A, other: A, residue: T)

  /** The nodes a step may write to. */
  function Touched<T, A(==)>(st: Step<T, A>): set<A>
  {
    {st.target, st.other}
  }

  predicate Applicable<T, A(==)>(s: Store<T, A>, steps: seq<Step<T, A>>)
  {
    forall i :: 0 <= i < |steps| ==> steps[i].target in s && steps[i].other in s
  }

  function Apply<T, A(==)>(s: Store<T, A>, st: Step<T, A>): Store<T, A>
    requires st.target in s && st.other in s
  {
    match st
    case Copy(t, o) => CopyAssign(s, t, o).store
    case Move(t, o, res) => MoveAssign(s, t, o, res).store
  }

  /**
   The effect of a sequence of assignments: the store keeps its nodes, never
   acquires a dangling link, and a node no step names is left unchanged.
   */
  function Run<T, A(==)>(s: Store<T, A>, steps: seq<Step<T, A>>): (r: Store<T, A>)
    requires Applicable(s, steps)
    ensures r.Keys == s.Keys
    ensures Closed(s) ==> Closed(r)
    ensures forall b :: b in s && (forall i :: 0 <= i < |steps| ==> b !in Touched(steps[i])) ==> r[b] == s[b]
    decreases |steps|
  {
    if |steps| == 0 then s
    else
      var s1 := Apply(s, steps[0]);
      assert Applicable(s1, steps[1..]) by {
        forall i | 0 <= i < |steps[1..]|
          ensures steps[1..][i].target in s1 && steps[1..][i].other in s1
        {
          assert steps[1..][i] == steps[i + 1];
        }
      }
      var r := Run(s1, steps[1..]);
      assert forall b :: b in s && (forall i :: 0 <= i < |steps| ==> b !in Touched(steps[i])) ==> r[b] == s[b] by {
        forall b | b in s && (forall i :: 0 <= i < |steps| ==> b !in Touched(steps[i]))
          ensures r[b] == s[b]
        {
          assert b !in Touched(steps[0]);
          assert forall i :: 0 <= i < |steps[1..]| ==> b !in Touched(steps[1..][i]) by {
            forall i | 0 <= i < |steps[1..]|
              ensures b !in Touched(steps[1..][i])
            {
              assert steps[1..][i] == steps[i + 1];
            }
          }
        }
      }
      r
  }

  /**
   Assignment is shallow: it never makes a third node link to the target, so
   the target's new parent does not link back to it, and a parent link copied
   from the source still names the source's parent.
   */
  lemma CopyAssignIsShallow<T, A>(s: Store<T, A>, target: A, other: A, p: A)
    requires target in s && other in s && p in s && p != target
    requires !LinksTo(s[p], target)
    ensures !LinksTo(CopyAssign(s, target, other).store[p], target)
    ensures s[other].parent == Ptr(p) ==> CopyAssign(s, target, other).store[target].parent == Ptr(p)
  {
  }
}
