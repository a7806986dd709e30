/**
 * The part of the ZooKeeper client the datastream store relies on, over a
 * flat tree: every znode is a path string mapped to its content string.
 * Reads are functions of the current tree, writes are methods that change
 * exactly the one path they name.
 */
module Zk {

  class ZkClient {
    /** The znodes of the remote tree and their data. */
    var nodes: map<string, string>
    /** Paths on which a child-change listener has been registered, in order. */
    var childWatches: seq<string>

    constructor (initial: map<string, string>)
      ensures nodes == initial && childWatches == []
    {
      nodes := initial;
      childWatches := [];
    }

    /** exists(path): a query with no side effect. */
    function Exists(path: string): (present: bool)
      reads this`nodes
      ensures present <==> path in nodes
    {
      path in nodes
    }

    /** ensureReadData(path): the data of the znode. The model assumes it is
        called only on a present znode, as the store does right after exists
        returned true; what the library does otherwise is not modelled. */
    function EnsureReadData(path: string): (data: string)
      reads this`nodes
      requires path in nodes
      ensures data == nodes[path]
    {
      nodes[path]
    }

    /** subscribeChildChanges(path, listener): registers one more watch. */
    method SubscribeChildChanges(path: string)
      modifies this`childWatches
      ensures childWatches == old(childWatches) + [path]
    {
      childWatches := childWatches + [path];
    }

    /** ensurePath(path): creates the znode, with empty data, when it is
        missing, and does nothing when it is present. */
    method EnsurePath(path: string)
      modifies this`nodes
      ensures path in nodes
      ensures nodes == if path in old(nodes) then old(nodes) else old(nodes)[path := ""]
    {
      if path !in nodes {
        nodes := nodes[path := ""];
      }
    }

    /** writeData(path, data): overwrites the data of an existing znode
        (ZooKeeper's setData fails on a missing one). */
    method WriteData(path: string, data: string)
      requires path in nodes
      modifies this`nodes
      ensures nodes == old(nodes)[path := data]
    {
      nodes := nodes[path := data];
    }

    /** delete(path): removes the znode and reports whether it was there. */
    method Delete(path: string) returns (deleted: bool)
      modifies this`nodes
      ensures deleted == (path in old(nodes))
      ensures nodes == old(nodes) - {path}
    {
      deleted := path in nodes;
      nodes := nodes - {path};
    }
  }
}
