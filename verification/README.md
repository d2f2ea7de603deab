# set_node: the node record of a binary-search-tree set

This project models `containers::set_node<T>`, the node of the binary search
tree behind the `containers::set` container. A node holds a `key` and three
pointers: `parent`, `left` and `right`. It has four constructors: default,
copy-key, move-key and forwarding. It has two assignment operators: copy and
move. The node enforces no tree invariant. It is a record with precise rules
about which fields each operation writes and which pointers it nulls.

The project views the node in three ways, built on one record type:

- `NodeRecord` (`node_record.dfy`) holds the record `Node<T, A>`. Its three
  links have type `Link<A> = Null | Ptr(A)`, where `A` is the type of node
  addresses. The module also holds the four constructors as functions.
- `NodeStore` (`node_store.dfy`) models a heap of nodes as a map from address
  to record. It writes both assignment operators as the source's sequence of
  field writes, in the source's order. The result of a self-move therefore
  follows from the order of the statements and is not a separate rule. This
  module also states:
  - that a store without dangling links keeps that property;
  - what a sequence of assignments leaves unchanged;
  - the child-ordering predicate `ChildKeysOrdered` from the node's
    documentation. Nothing here proves that any operation preserves it.
- `SetNodeObject` (`set_node.dfy`) is the class `SetNode<T>`, with nullable
  links. It has the four constructors and the two operators as methods. Their
  `modifies` clauses and `old(...)` postconditions state which objects change.
  `Record()` maps the object onto the record model. Each assignment method
  is proved to agree with the matching `NodeStore` function on the records of
  the two objects involved. The properties proved for the store therefore
  carry over to the objects.

Parameters replace what the node takes from its key type:

- `defaultKey` is the key type's default value `T{}`.
- `make` is the key type's constructor that the forwarding constructor calls.
- `residue` is the moved-from value that the key type's move assignment leaves
  in the source.

## Model

| member | source | states |
|---|---|---|
| NodeRecord.DefaultNode | container-classes/Set/set_node.hpp:50-56 | the default constructor gives a node whose key is the key type's default value and whose three links are all null |
| NodeRecord.CopyKeyNode | container-classes/Set/set_node.hpp:63-69 | the copy-key constructor stores the given key and leaves all three links null |
| NodeRecord.MoveKeyNode | container-classes/Set/set_node.hpp:76-82 | the move-key constructor stores the value the argument held before the move and leaves all three links null |
| NodeRecord.ForwardingNode | container-classes/Set/set_node.hpp:89-96 | the forwarding constructor stores the key that the key type's constructor builds from the arguments and leaves all three links null |
| NodeRecord.UnlinkedIffLinksNowhere | container-classes/Set/set_node.hpp:39 | a node has all three of its pointer fields null exactly when it points at no node at all; this ties the constructors' `Unlinked` result to the absence of any link |
| NodeStore.CopyAssign | container-classes/Set/set_node.hpp:104-114 | after copy assignment the target's key and three links equal the source's from before the call; every other node, including the source and the nodes its links point to, is unchanged; no node is added or removed; a store with no dangling links keeps none; the returned reference is the target |
| NodeStore.MoveAssign | container-classes/Set/set_node.hpp:119-133 | for distinct nodes the target gets the source's key and links from before the call; the source's three links are null afterwards; on a self-move the node ends with all three links null; no third node changes; no dangling link appears; the returned reference is the target; the postconditions leave the source's key unstated, while the body sets it to the caller-supplied `residue` |
| NodeStore.SelfCopyAssignIsIdentity | container-classes/Set/set_node.hpp:106-114 | copy-assigning a node to itself leaves the whole store unchanged |
| NodeStore.MoveIsCopyThenClearSource | container-classes/Set/set_node.hpp:104-133 | between distinct nodes, move assignment equals copy assignment followed by replacing the source with an unlinked node that holds its moved-from key |
| NodeStore.CopyAssignIsShallow | container-classes/Set/set_node.hpp:108-111 | copy assignment is shallow for every store. It never makes a node other than the target link to the target, so the target's new parent does not link back to it. A parent link copied from the source keeps naming the source's parent |
| NodeStore.Run | container-classes/Set/set_node.hpp:104-133 | a sequence of copy and move assignments keeps the same set of nodes; it never introduces a dangling link; it leaves unchanged every node that no step names as target or source |
| SetNodeObject.AsLink | container-classes/Set/set_node.hpp:24 | a nullable node pointer and a record link hold the same information: converting the pointer to a link and back gives the original pointer, and the link is null exactly when the pointer is |
| SetNodeObject.SetNode.Default | container-classes/Set/set_node.hpp:50-56 | the default constructor gives an object whose record is `DefaultNode(defaultKey)`: the key type's default value and three null links |
| SetNodeObject.SetNode.CopyKey | container-classes/Set/set_node.hpp:63-69 | the copy-key constructor gives an object that holds the given key and three null links |
| SetNodeObject.SetNode.MoveKey | container-classes/Set/set_node.hpp:76-82 | the move-key constructor gives an object that holds the argument's value from before the move and three null links |
| SetNodeObject.SetNode.Forwarding | container-classes/Set/set_node.hpp:89-96 | the forwarding constructor gives an object whose key is built by the key type's constructor from the arguments and whose three links are null |
| SetNodeObject.SetNode.CopyAssign | container-classes/Set/set_node.hpp:104-114 | the object's record afterwards equals the source's record from before the call; only this object is modified; the method returns this object; on the two objects the method agrees with `NodeStore.CopyAssign` applied to their old records |
| SetNodeObject.SetNode.MoveAssign | container-classes/Set/set_node.hpp:119-133 | for a distinct source, the object's record afterwards equals the source's record from before the call; the source's three links are null afterwards; a self-move leaves the object unlinked; only this object and the source are modified; the method returns this object; on the two objects the method agrees with `NodeStore.MoveAssign` applied to their old records |

## Left out

- The moved-from state of a key is not specified by C++. The caller supplies a value `residue` that stands for whatever the key type's move leaves behind. The contracts of `SetNodeObject.SetNode.MoveAssign` and `NodeStore.MoveIsCopyThenClearSource`, and the body of `NodeStore.MoveAssign`, set the source's key to `residue`; on a self-move the node's key becomes `residue`. A caller that passes the old key as `residue` can therefore prove the key is kept, which C++ does not promise for a generic key type.
- Variadic perfect forwarding is not modelled. The forwarding constructor takes one argument value `args` that stands for the whole pack, plus the key type's constructor `make`.
- The model has no failure path for the key type's copy, move or construction operations. That code belongs to the key type and is not part of this model.
- Allocation and deallocation of nodes are not modelled. Addresses in a store are given, not allocated. The `<iostream>` include at line 4 is unused.
- `ChildKeysOrdered` is defined but not proved to be preserved. The node does not enforce the ordering; the tree engine that would maintain it is not part of this model.
- The tree engine (search, insert, erase, successor, predecessor) and the iterator are not part of this model.
