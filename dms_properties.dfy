/**
 * Properties of the datastream store's operations over a tree of znodes:
 * record paths are injective, each key follows the life cycle
 * Nonexistent -> Created -> Nonexistent, a colliding create changes nothing,
 * delete is idempotent, every operation touches one path only, and the key
 * listing is the unique sorted permutation of the cache.
 */
module DmsProperties {
  import opened Dms
  import opened StringOrder

  // ----- record paths -----

  /** The key can be read back from its record path. */
  lemma ZnodePathRoundTrip(root: string, key: string)
    ensures KeyOf(root, ZnodePath(root, key)) == Some(key)
  {
  }

  /** Every path that KeyOf accepts is the record path of the key it yields. */
  lemma KeyOfSound(root: string, path: string)
    ensures KeyOf(root, path).Some? ==> ZnodePath(root, KeyOf(root, path).value) == path
  {
  }

  /** Distinct keys have distinct record paths under the same root. */
  lemma ZnodePathInjective(root: string, k1: string, k2: string)
    ensures ZnodePath(root, k1) == ZnodePath(root, k2) <==> k1 == k2
  {
  }

  /** A change to one record path leaves the state of every other key alone. */
  lemma OtherKeysUnchanged(a: map<string, string>, b: map<string, string>, root: string, key: string)
    requires forall p :: p != ZnodePath(root, key) ==> (p in a <==> p in b)
    requires forall p :: p != ZnodePath(root, key) && p in a ==> a[p] == b[p]
    ensures forall other :: other != key ==> State(a, root, other) == State(b, root, other)
  {
  }

  // ----- reads -----

  /** A read decodes what the key's state holds, and finds nothing for a
      null key or a key without a record. */
  lemma GetReadsState<D>(nodes: map<string, string>, root: string, key: string, fromJson: string -> D)
    ensures Get(nodes, root, Some(key), fromJson) ==
      match State(nodes, root, key)
      case Nonexistent => None
      case Created(content) => Some(fromJson(content))
    ensures Get(nodes, root, None, fromJson) == None
  {
  }

  // ----- create -----

  /** A null datastream or key is rejected before the tree is looked at,
      the datastream being checked first. */
  lemma CreateRejectsNull<D>(nodes: map<string, string>, root: string, key: Option<string>,
                             datastream: Option<D>, toJson: D -> string)
    requires datastream.None? || key.None?
    ensures Create(nodes, root, key, datastream, toJson).nodes == nodes
    ensures datastream.None? ==>
      Create(nodes, root, key, datastream, toJson).outcome == Failed(IllegalArgument("null datastream"))
    ensures datastream.Some? ==>
      Create(nodes, root, key, datastream, toJson).outcome == Failed(IllegalArgument("null key for datastream"))
  {
  }

  /** A create on a key that already has a record throws a DatastreamException
      whose message names the key and the stored content, and leaves the
      tree as it was. */
  lemma CreateCollision<D>(nodes: map<string, string>, root: string, key: string,
                           datastream: D, toJson: D -> string)
    requires ZnodePath(root, key) in nodes
    ensures Create(nodes, root, Some(key), Some(datastream), toJson).nodes == nodes
    ensures Create(nodes, root, Some(key), Some(datastream), toJson).outcome.Failed?
    ensures Create(nodes, root, Some(key), Some(datastream), toJson).outcome.error.DatastreamException?
    ensures Contains(Create(nodes, root, Some(key), Some(datastream), toJson).outcome.error.message, key)
    ensures Contains(Create(nodes, root, Some(key), Some(datastream), toJson).outcome.error.message,
                     nodes[ZnodePath(root, key)])
  {
  }

  /** A create succeeds exactly when both arguments are given and the key
      has no record yet. */
  lemma CreateSucceedsIffAbsent<D>(nodes: map<string, string>, root: string, key: Option<string>,
                                   datastream: Option<D>, toJson: D -> string)
    ensures Create(nodes, root, key, datastream, toJson).outcome == Done <==>
      datastream.Some? && key.Some? && State(nodes, root, key.value) == Nonexistent
  {
  }

  /** Create moves the key from Nonexistent to Created(toJson(datastream)),
      keeps a Created key as it was, and changes no other path or key. */
  lemma CreateTransition<D>(nodes: map<string, string>, root: string, key: string,
                            datastream: D, toJson: D -> string)
    ensures var after := Create(nodes, root, Some(key), Some(datastream), toJson).nodes;
      State(after, root, key) ==
        if State(nodes, root, key) == Nonexistent then Created(toJson(datastream)) else State(nodes, root, key)
    ensures var after := Create(nodes, root, Some(key), Some(datastream), toJson).nodes;
      forall p :: p != ZnodePath(root, key) ==> (p in after <==> p in nodes) && (p in nodes ==> after[p] == nodes[p])
    ensures var after := Create(nodes, root, Some(key), Some(datastream), toJson).nodes;
      forall other :: other != key ==> State(after, root, other) == State(nodes, root, other)
  {
  }

  /** A read after a successful create returns the decoding of the encoded
      datastream. */
  lemma CreateThenGet<D>(nodes: map<string, string>, root: string, key: Option<string>,
                         datastream: Option<D>, toJson: D -> string, fromJson: string -> D)
    requires Create(nodes, root, key, datastream, toJson).outcome == Done
    ensures Get(Create(nodes, root, key, datastream, toJson).nodes, root, key, fromJson) ==
      Some(fromJson(toJson(datastream.value)))
  {
  }

  /** A second create on the same key fails and keeps the first record. */
  lemma CreateTwice<D>(nodes: map<string, string>, root: string, key: string,
                       first: D, second: D, toJson: D -> string)
    requires State(nodes, root, key) == Nonexistent
    ensures var once := Create(nodes, root, Some(key), Some(first), toJson);
      var twice := Create(once.nodes, root, Some(key), Some(second), toJson);
      && once.outcome == Done
      && twice.nodes == once.nodes
      && twice.outcome == Failed(DatastreamException(AlreadyExistsMessage(key, toJson(first))))
      && State(twice.nodes, root, key) == Created(toJson(first))
  {
  }

  // ----- delete -----

  /** A null key is rejected and the tree is left alone. */
  lemma DeleteRejectsNull(nodes: map<string, string>, root: string)
    ensures Delete(nodes, root, None) == Transition(nodes, Failed(IllegalArgument("null key")))
  {
  }

  /** Delete always succeeds on a key, leaves it Nonexistent, is a no-op
      when there was no record, and changes no other path or key. */
  lemma DeleteTransition(nodes: map<string, string>, root: string, key: string)
    ensures Delete(nodes, root, Some(key)).outcome == Done
    ensures State(Delete(nodes, root, Some(key)).nodes, root, key) == Nonexistent
    ensures State(nodes, root, key) == Nonexistent ==> Delete(nodes, root, Some(key)).nodes == nodes
    ensures Delete(nodes, root, Some(key)).nodes == nodes - {ZnodePath(root, key)}
    ensures forall other :: other != key ==>
      State(Delete(nodes, root, Some(key)).nodes, root, other) == State(nodes, root, other)
  {
  }

  /** Deleting twice is the same as deleting once. */
  lemma DeleteIdempotent(nodes: map<string, string>, root: string, key: Option<string>)
    ensures Delete(Delete(nodes, root, key).nodes, root, key) == Delete(nodes, root, key)
  {
  }

  /** A read after a delete finds nothing. */
  lemma DeleteThenGet<D>(nodes: map<string, string>, root: string, key: Option<string>, fromJson: string -> D)
    ensures Get(Delete(nodes, root, key).nodes, root, key, fromJson) == None
  {
  }

  /** Deleting a key just created restores the tree it was created in. */
  lemma CreateThenDeleteRestores<D>(nodes: map<string, string>, root: string, key: Option<string>,
                                    datastream: Option<D>, toJson: D -> string)
    requires Create(nodes, root, key, datastream, toJson).outcome == Done
    ensures Delete(Create(nodes, root, key, datastream, toJson).nodes, root, key) == Transition(nodes, Done)
  {
  }

  /** The walk-through of one record's life: create, read, colliding create,
      delete, read, delete again. */
  lemma RecordLifecycle<D>(root: string, first: D, second: D, toJson: D -> string, fromJson: string -> D)
    ensures var t1 := Create(map[], root, Some("ds1"), Some(first), toJson);
      var t2 := Create(t1.nodes, root, Some("ds1"), Some(second), toJson);
      var t3 := Delete(t2.nodes, root, Some("ds1"));
      var t4 := Delete(t3.nodes, root, Some("ds1"));
      && t1.outcome == Done
      && Get(t1.nodes, root, Some("ds1"), fromJson) == Some(fromJson(toJson(first)))
      && t2.outcome.Failed? && t2.outcome.error.DatastreamException?
      && Contains(t2.outcome.error.message, "ds1")
      && t3.outcome == Done && Get(t3.nodes, root, Some("ds1"), fromJson) == None
      && t4 == Transition(t3.nodes, Done)
      && t4.nodes == map[]
  {
  }

  // ----- listing -----

  /** The listener keeps its own copy: overwriting any element of the
      notified list afterwards changes neither the cache nor the listing. */
  method NotifiedListIsCopied<D>(store: ZookeeperBackedDatastreamStore<D>, children: array<string>,
                                 i: int, v: string)
    requires 0 <= i < children.Length
    modifies store`datastreamList, children
    ensures store.datastreamList[..] == old(children[..])
    ensures store.GetAllDatastreams() == Sort(old(children[..]))
  {
    var r := store.HandleChildChange(store.rootPath, children);
    children[i] := v;
  }

  /** The listing depends only on which keys the cache holds, not on the
      order in which the notification delivered them. */
  lemma ListingIgnoresNotificationOrder(s: seq<string>, t: seq<string>)
    requires multiset(s) == multiset(t)
    ensures Sort(s) == Sort(t)
  {
    SortedPermutationUnique(Sort(s), Sort(t));
  }

  /** A cache holding b, a is listed as a, b. */
  lemma ListingExample()
    ensures Sort(["b", "a"]) == ["a", "b"]
  {
  }
}
