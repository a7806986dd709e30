/**
 * The datastream metadata store backed by ZooKeeper: one record per key at
 * <rootPath>/<key>, create / read / delete over the client's tree, and a
 * cached key list that each child-change notification replaces.
 *
 * The pure functions ZnodePath, Get, Create and Delete say what each
 * operation does to a tree of znodes; the class performs the same steps on
 * a ZkClient and is proved to end in the state those functions describe.
 * Datastream records are a type parameter D, and their JSON encoding is a
 * pair of functions given to the store.
 */
module Dms {
  import opened Zk
  import opened StringOrder

  /** A Java reference that may be null. */
  datatype Option<T> = None | Some(value: T)

  /** The exceptions the store raises. */
  datatype StoreError =
    | IllegalArgument(message: string)      // Validate.notNull on a null argument
    | DatastreamException(message: string)  // create on a key that already has a record
    | NullPointer                           // a null child list handed to the listener

  /** How a call returns: normally, or by throwing. */
  datatype Outcome = Done | Failed(error: StoreError)

  /** The tree after an operation, with the way the operation returned. */
  datatype Transition = Transition(nodes: map<string, string>, outcome: Outcome)

  /** What the tree holds for one key. */
  datatype KeyState = Nonexistent | Created(content: string)

  /** getZnodePath: the record of a key lives directly below the root. */
  function ZnodePath(root: string, key: string): (path: string)
    ensures |path| == |root| + 1 + |key|
    ensures path[..|root|] == root && path[|root|] == '/' && path[|root| + 1..] == key
  {
    root + "/" + key
  }

  /** The key whose record path is `path`, if it is one. */
  function KeyOf(root: string, path: string): Option<string>
  {
    if |root| < |path| && path[..|root| + 1] == root + "/" then Some(path[|root| + 1..]) else None
  }

  function State(nodes: map<string, string>, root: string, key: string): KeyState
  {
    var path := ZnodePath(root, key);
    if path in nodes then Created(nodes[path]) else Nonexistent
  }

  /** `part` occurs in `text` starting at index i. */
  predicate OccursAt(text: string, part: string, i: int)
  {
    0 <= i <= |text| - |part| && text[i..i + |part|] == part
  }

  /** `part` occurs somewhere in `text`. */
  ghost predicate Contains(text: string, part: string)
  {
    exists i :: OccursAt(text, part, i)
  }

  /** The message of the exception raised by a colliding create: a fixed
      text, then the key (which the Java format labels "path"), then the
      stored content. */
  function AlreadyExistsMessage(key: string, content: string): (m: string)
    ensures OccursAt(m, "Datastream already exists: path=", 0)
    ensures OccursAt(m, key, 32)
    ensures OccursAt(m, ", content=", 32 + |key|)
    ensures OccursAt(m, content, 42 + |key|) && |m| == 42 + |key| + |content|
    ensures Contains(m, key) && Contains(m, content)
  {
    var prefix := "Datastream already exists: path=";
    var middle := ", content=";
    var m := prefix + key + middle + content;
    assert m[32..32 + |key|] == key;
    assert m[32 + |key|..42 + |key|] == middle;
    assert m[42 + |key|..42 + |key| + |content|] == content;
    assert OccursAt(m, key, 32) && OccursAt(m, content, 42 + |key|);
    m
  }

  /** getDatastream over a tree: null for a null key, null for a key without
      a record (readData(path, true)), otherwise the decoded record. */
  function Get<D>(nodes: map<string, string>, root: string, key: Option<string>,
                  fromJson: string -> D): (r: Option<D>)
    ensures key.None? ==> r.None?
    ensures key.Some? ==> (r.Some? <==> ZnodePath(root, key.value) in nodes)
    ensures r.Some? ==> r.value == fromJson(nodes[ZnodePath(root, key.value)])
  {
    if key.None? then None
    else
      var path := ZnodePath(root, key.value);
      if path in nodes then Some(fromJson(nodes[path])) else None
  }

  /** createDatastream over a tree: null checks (datastream first), then the
      existence check, then the write of the encoded record. */
  function Create<D>(nodes: map<string, string>, root: string, key: Option<string>,
                     datastream: Option<D>, toJson: D -> string): (t: Transition)
    ensures t.outcome.Failed? ==> t.nodes == nodes
    ensures t.outcome.Failed? && t.outcome.error.IllegalArgument? <==> datastream.None? || key.None?
    ensures t.outcome == Done ==>
      && datastream.Some? && key.Some?
      && ZnodePath(root, key.value) !in nodes
      && t.nodes == nodes[ZnodePath(root, key.value) := toJson(datastream.value)]
    ensures t.outcome.Failed? && t.outcome.error.DatastreamException? ==>
      && datastream.Some? && key.Some?
      && ZnodePath(root, key.value) in nodes
      && Contains(t.outcome.error.message, key.value)
      && Contains(t.outcome.error.message, nodes[ZnodePath(root, key.value)])
  {
    if datastream.None? then Transition(nodes, Failed(IllegalArgument("null datastream")))
    else if key.None? then Transition(nodes, Failed(IllegalArgument("null key for datastream")))
    else
      var path := ZnodePath(root, key.value);
      if path in nodes then
        Transition(nodes, Failed(DatastreamException(AlreadyExistsMessage(key.value, nodes[path]))))
      else
        Transition(nodes[path := toJson(datastream.value)], Done)
  }

  /** deleteDatastream over a tree: null check, then removal of the record
      if there is one. */
  function Delete(nodes: map<string, string>, root: string, key: Option<string>): (t: Transition)
    ensures t.outcome == Done <==> key.Some?
    ensures key.None? ==> t.nodes == nodes && t.outcome.error.IllegalArgument?
    ensures key.Some? ==> t.nodes == nodes - {ZnodePath(root, key.value)}
  {
    if key.None? then Transition(nodes, Failed(IllegalArgument("null key")))
    else
      var path := ZnodePath(root, key.value);
      if path in nodes then Transition(nodes - {path}, Done) else Transition(nodes, Done)
  }

  class ZookeeperBackedDatastreamStore<D> {
    const zk: ZkClient
    const rootPath: string
    const toJson: D -> string
    const fromJson: string -> D
    /** Cache of the datastream key list: a private copy of the last
        notified child list, replaced wholesale and never changed in place. */
    var datastreamList: array<string>

    /** Starts with an empty cache and subscribes once to child changes of
        the root. */
    constructor (zk: ZkClient, rootPath: string, toJson: D -> string, fromJson: string -> D)
      modifies zk`childWatches
      ensures this.zk == zk && this.rootPath == rootPath
      ensures this.toJson == toJson && this.fromJson == fromJson
      ensures fresh(datastreamList) && datastreamList[..] == []
      ensures zk.childWatches == old(zk.childWatches) + [rootPath]
    {
      this.zk := zk;
      this.rootPath := rootPath;
      this.toJson := toJson;
      this.fromJson := fromJson;
      datastreamList := new string[0];
      new;
      zk.SubscribeChildChanges(rootPath);
    }

    /** The child-change listener: publishes a fresh copy of the notified
        list, so that later changes to that list do not reach the cache. */
    method HandleChildChange(parentPath: string, currentChildren: array?<string>) returns (r: Outcome)
      modifies this`datastreamList
      ensures currentChildren == null ==> r == Failed(NullPointer) && datastreamList == old(datastreamList)
      ensures currentChildren != null ==>
        && r == Done
        && fresh(datastreamList)
        && datastreamList[..] == currentChildren[..]
    {
      if currentChildren == null {
        return Failed(NullPointer);
      }
      var copy := new string[currentChildren.Length];
      var i := 0;
      while i < currentChildren.Length
        invariant 0 <= i <= currentChildren.Length
        invariant copy[..i] == currentChildren[..i]
      {
        copy[i] := currentChildren[i];
        i := i + 1;
      }
      datastreamList := copy;
      r := Done;
    }

    /** getDatastream: absence of the key or of its record reads as null. */
    function GetDatastream(key: Option<string>): (r: Option<D>)
      reads zk`nodes
      ensures key.None? ==> r.None?
      ensures key.Some? ==> (r.Some? <==> ZnodePath(rootPath, key.value) in zk.nodes)
      ensures r.Some? ==> r.value == fromJson(zk.nodes[ZnodePath(rootPath, key.value)])
    {
      Get(zk.nodes, rootPath, key, fromJson)
    }

    /** getAllDatastreams: the cached keys in String order. */
    function GetAllDatastreams(): (r: seq<string>)
      reads this, datastreamList
      ensures IsSorted(r)
      ensures multiset(r) == multiset(datastreamList[..])
    {
      Sort(datastreamList[..])
    }

    /** updateDatastream: accepts anything and changes nothing. */
    method UpdateDatastream(key: Option<string>, datastream: Option<D>) returns (r: Outcome)
      ensures r == Done
    {
      r := Done;
    }

    method CreateDatastream(key: Option<string>, datastream: Option<D>) returns (r: Outcome)
      modifies zk`nodes
      ensures Transition(zk.nodes, r) == Create(old(zk.nodes), rootPath, key, datastream, toJson)
      ensures r.Failed? ==> zk.nodes == old(zk.nodes)
      ensures r == Done ==> GetDatastream(key) == Some(fromJson(toJson(datastream.value)))
    {
      if datastream.None? {
        return Failed(IllegalArgument("null datastream"));
      }
      if key.None? {
        return Failed(IllegalArgument("null key for datastream"));
      }
      var path := ZnodePath(rootPath, key.value);
      if zk.Exists(path) {
        var content := zk.EnsureReadData(path);
        return Failed(DatastreamException(AlreadyExistsMessage(key.value, content)));
      }
      zk.EnsurePath(path);
      var json := toJson(datastream.value);
      zk.WriteData(path, json);
      r := Done;
    }

    method DeleteDatastream(key: Option<string>) returns (r: Outcome)
      modifies zk`nodes
      ensures Transition(zk.nodes, r) == Delete(old(zk.nodes), rootPath, key)
      ensures key.Some? ==> r == Done && GetDatastream(key).None?
    {
      if key.None? {
        return Failed(IllegalArgument("null key"));
      }
      var path := ZnodePath(rootPath, key.value);
      if zk.Exists(path) {
        var _ := zk.Delete(ZnodePath(rootPath, key.value));
      }
      r := Done;
    }
  }
}
