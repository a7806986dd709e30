# Datastream metadata store, modelled in Dafny

This project models `ZookeeperBackedDatastreamStore`, the store in which the
datastream management service keeps datastream definitions. Each datastream
is serialised to JSON and kept in the znode `<rootPath>/<key>`. The store
creates, reads and deletes these records through a ZooKeeper client. It also
caches the list of keys below the root and refreshes that cache from
child-change notifications.

Files and modules:

- `zk.dfy`, module `Zk`: the ZooKeeper client as a class `ZkClient`. Its tree
  of znodes is a `map<string, string>` from path to data. `exists` and
  `ensureReadData` are functions of the tree. `ensurePath`, `writeData`,
  `delete` and `subscribeChildChanges` are methods that change one path, or
  the list of watched paths, and nothing else.
- `string_order.dfy`, module `StringOrder`: Java's `String.compareTo`, the
  sortedness it induces, and `Sort`, a reference sort. `Sort` is proved to be
  the only sorted permutation of its input, so it pins down what
  `Stream.sorted()` returns.
- `dms.dfy`, module `Dms`: `ZnodePath`, plus pure `Get`, `Create` and
  `Delete` over a tree. It also holds the class `ZookeeperBackedDatastreamStore`.
  The class's methods take the same steps as the Java code on a `ZkClient`
  and are proved to end in the state the pure functions describe. Datastream
  records are the type parameter `D`. `toJSON` and `fromJSON` are functions
  passed to the constructor.
- `dms_properties.dfy`, module `DmsProperties`: the properties. Record paths
  are injective. Each key follows the life cycle `Nonexistent -> Created ->
  Nonexistent`. A colliding create changes nothing. Delete is idempotent.
  Every operation touches one path only, and the listing is the sorted cache.

How Java constructs are modelled:

- A Java `null` argument is `Option.None`.
- A thrown exception is an `Outcome` of `Failed(error)`:
  - `Validate.notNull` becomes `IllegalArgument(message)`;
  - a colliding create becomes `DatastreamException(message)`;
  - a null child list given to the listener becomes `NullPointer`.
- `ensureReadData` and `writeData` carry `requires path in nodes`. The model
  assumes each one is reached only when the znode is present:
  `ensureReadData` right after `exists` returned true, `writeData` right after
  `ensurePath`. The store is proved to meet this at every call. What the
  library does on a missing znode is not part of this model.

## Model

| member | source | states |
|---|---|---|
| `Dms.ZnodePath` | datastream-server/src/main/java/com/linkedin/datastream/server/dms/ZookeeperBackedDatastreamStore.java:41-43 | the record path is the root, then `/`, then the key, with nothing else in between or after |
| `Dms.AlreadyExistsMessage` | datastream-server/src/main/java/com/linkedin/datastream/server/dms/ZookeeperBackedDatastreamStore.java:88 | the collision message is the fixed text `Datastream already exists: path=`, then the key, then `, content=`, then the stored content; it contains both the key and the content |
| `Dms.Get` | datastream-server/src/main/java/com/linkedin/datastream/server/dms/ZookeeperBackedDatastreamStore.java:46-56 | a null key gives null; a key whose record path is missing gives null; otherwise the result is `fromJSON` of the content stored at that path |
| `Dms.Create` | datastream-server/src/main/java/com/linkedin/datastream/server/dms/ZookeeperBackedDatastreamStore.java:80-95 | every failure leaves the tree unchanged; IllegalArgument is raised exactly when the datastream or the key is null; a DatastreamException is raised only when the record path exists, and its message contains the key and the stored content; success happens only on an absent path and adds exactly `toJSON(datastream)` at that path |
| `Dms.Delete` | datastream-server/src/main/java/com/linkedin/datastream/server/dms/ZookeeperBackedDatastreamStore.java:97-104 | returns normally exactly when the key is non-null; a null key fails with IllegalArgument and leaves the tree unchanged; otherwise the new tree is the old one without the record path, whether or not that path was present |
| `Zk.ZkClient.Exists` | datastream-server/src/main/java/com/linkedin/datastream/server/dms/ZookeeperBackedDatastreamStore.java:86 | true exactly when the znode is present; it is a query of the tree and changes nothing (also used at line 101) |
| `Zk.ZkClient.EnsureReadData` | datastream-server/src/main/java/com/linkedin/datastream/server/dms/ZookeeperBackedDatastreamStore.java:87 | returns the data stored at a present znode; the precondition that the znode is present is met because `exists` has just returned true |
| `Zk.ZkClient.SubscribeChildChanges` | datastream-server/src/main/java/com/linkedin/datastream/server/dms/ZookeeperBackedDatastreamStore.java:37 | appends exactly one watch on the given path and leaves the tree unchanged |
| `DmsProperties.ZnodePathRoundTrip` | datastream-server/src/main/java/com/linkedin/datastream/server/dms/ZookeeperBackedDatastreamStore.java:41-43 | the key is recovered from its record path `rootPath + "/" + key` |
| `DmsProperties.KeyOfSound` | datastream-server/src/main/java/com/linkedin/datastream/server/dms/ZookeeperBackedDatastreamStore.java:41-43 | every path that decodes to a key is that key's record path |
| `DmsProperties.ZnodePathInjective` | datastream-server/src/main/java/com/linkedin/datastream/server/dms/ZookeeperBackedDatastreamStore.java:41-43 | under one root, two keys share a record path if and only if they are equal |
| `DmsProperties.OtherKeysUnchanged` | datastream-server/src/main/java/com/linkedin/datastream/server/dms/ZookeeperBackedDatastreamStore.java:41-43 | a change confined to one key's record path leaves the state of every other key as it was |
| `Dms.ZookeeperBackedDatastreamStore.constructor` | datastream-server/src/main/java/com/linkedin/datastream/server/dms/ZookeeperBackedDatastreamStore.java:26-39 | the cache starts as an empty list (Java shares `Collections.emptyList()`, the model allocates a fresh empty array; no difference is observable because the cache is never changed in place); exactly one child-change watch, on the root, is added and the tree is untouched |
| `Dms.ZookeeperBackedDatastreamStore.HandleChildChange` | datastream-server/src/main/java/com/linkedin/datastream/server/dms/ZookeeperBackedDatastreamStore.java:35-38 | the cache is replaced wholesale by a freshly allocated array equal, element by element, to the notified list; a null list throws and keeps the cache |
| `DmsProperties.NotifiedListIsCopied` | datastream-server/src/main/java/com/linkedin/datastream/server/dms/ZookeeperBackedDatastreamStore.java:35-38 | overwriting any element of the notified list with any value after the listener ran changes neither the cache nor the listing |
| `Dms.ZookeeperBackedDatastreamStore.GetDatastream` | datastream-server/src/main/java/com/linkedin/datastream/server/dms/ZookeeperBackedDatastreamStore.java:46-56 | null key: null; key whose path is absent: null; otherwise `fromJSON` of the stored content; reads the tree and changes nothing |
| `DmsProperties.GetReadsState` | datastream-server/src/main/java/com/linkedin/datastream/server/dms/ZookeeperBackedDatastreamStore.java:46-56 | a read is determined by the key's state: `Nonexistent` reads as null, `Created(c)` as `fromJSON(c)` |
| `Dms.ZookeeperBackedDatastreamStore.GetAllDatastreams` | datastream-server/src/main/java/com/linkedin/datastream/server/dms/ZookeeperBackedDatastreamStore.java:69-71 | the result is sorted by `String.compareTo` and is a permutation of the cache; a function of the cache, so nothing changes |
| `StringOrder.SortCharacterized` | datastream-server/src/main/java/com/linkedin/datastream/server/dms/ZookeeperBackedDatastreamStore.java:70 | a list equals the sort of the cache if and only if it is sorted and a permutation of the cache |
| `StringOrder.SortedPermutationUnique` | datastream-server/src/main/java/com/linkedin/datastream/server/dms/ZookeeperBackedDatastreamStore.java:70 | two sorted permutations of one list are equal, so the listing does not depend on the sorting algorithm |
| `DmsProperties.ListingIgnoresNotificationOrder` | datastream-server/src/main/java/com/linkedin/datastream/server/dms/ZookeeperBackedDatastreamStore.java:37-38 | notifications that carry the same children in any order give the same listing |
| `DmsProperties.ListingExample` | datastream-server/src/main/java/com/linkedin/datastream/server/dms/ZookeeperBackedDatastreamStore.java:69-71 | the children `b, a` are listed as `a, b` |
| `Dms.ZookeeperBackedDatastreamStore.UpdateDatastream` | datastream-server/src/main/java/com/linkedin/datastream/server/dms/ZookeeperBackedDatastreamStore.java:73-78 | always returns normally; it has no modifies clause, so neither the tree nor the cache changes |
| `Dms.ZookeeperBackedDatastreamStore.CreateDatastream` | datastream-server/src/main/java/com/linkedin/datastream/server/dms/ZookeeperBackedDatastreamStore.java:80-95 | the new tree and the outcome are those of `Create`; a failure leaves the tree unchanged; after a success the key reads back as `fromJSON(toJSON(datastream))`; the cache is never touched |
| `DmsProperties.CreateRejectsNull` | datastream-server/src/main/java/com/linkedin/datastream/server/dms/ZookeeperBackedDatastreamStore.java:82-83 | a null datastream (checked first) or a null key fails with IllegalArgument before the tree is read, and the tree is unchanged |
| `DmsProperties.CreateCollision` | datastream-server/src/main/java/com/linkedin/datastream/server/dms/ZookeeperBackedDatastreamStore.java:85-91 | a key that already has a record gives a DatastreamException whose message contains the key and the stored content; the tree is unchanged |
| `DmsProperties.CreateSucceedsIffAbsent` | datastream-server/src/main/java/com/linkedin/datastream/server/dms/ZookeeperBackedDatastreamStore.java:82-94 | create returns normally if and only if both arguments are non-null and the key is `Nonexistent` |
| `DmsProperties.CreateTransition` | datastream-server/src/main/java/com/linkedin/datastream/server/dms/ZookeeperBackedDatastreamStore.java:85-94 | `Nonexistent` becomes `Created(toJSON(d))`; a `Created` key stays as it was; every other path and every other key keeps its content |
| `DmsProperties.CreateThenGet` | datastream-server/src/main/java/com/linkedin/datastream/server/dms/ZookeeperBackedDatastreamStore.java:92-94 | after a successful create, a read of the key returns `fromJSON(toJSON(d))` |
| `DmsProperties.CreateTwice` | datastream-server/src/main/java/com/linkedin/datastream/server/dms/ZookeeperBackedDatastreamStore.java:85-94 | a second create on a fresh key fails with the "already exists" message that carries the first record, which stays stored |
| `Dms.ZookeeperBackedDatastreamStore.DeleteDatastream` | datastream-server/src/main/java/com/linkedin/datastream/server/dms/ZookeeperBackedDatastreamStore.java:97-104 | the new tree and the outcome are those of `Delete`; with a key it always returns normally and the key then reads as null; the cache is never touched |
| `DmsProperties.DeleteRejectsNull` | datastream-server/src/main/java/com/linkedin/datastream/server/dms/ZookeeperBackedDatastreamStore.java:99 | a null key fails with IllegalArgument and the tree is unchanged |
| `DmsProperties.DeleteTransition` | datastream-server/src/main/java/com/linkedin/datastream/server/dms/ZookeeperBackedDatastreamStore.java:100-103 | delete returns normally and leaves the key `Nonexistent`; it is a no-op when there was no record; it removes exactly the record path, and every other key keeps its state |
| `DmsProperties.DeleteIdempotent` | datastream-server/src/main/java/com/linkedin/datastream/server/dms/ZookeeperBackedDatastreamStore.java:98-104 | deleting twice gives the same tree and outcome as deleting once, whether or not the key is null |
| `DmsProperties.DeleteThenGet` | datastream-server/src/main/java/com/linkedin/datastream/server/dms/ZookeeperBackedDatastreamStore.java:98-104 | after a delete, a read of the same key returns null |
| `DmsProperties.CreateThenDeleteRestores` | datastream-server/src/main/java/com/linkedin/datastream/server/dms/ZookeeperBackedDatastreamStore.java:81-104 | deleting a key that was just created restores the tree it was created in |
| `DmsProperties.RecordLifecycle` | datastream-server/src/main/java/com/linkedin/datastream/server/dms/ZookeeperBackedDatastreamStore.java:46-104 | this sequence holds from an empty tree: create `ds1` succeeds; a read returns the decoded record; a second create fails with a message containing `ds1`; delete succeeds; a read returns null; a second delete succeeds and changes nothing |
| `Zk.ZkClient.EnsurePath` | datastream-server/src/main/java/com/linkedin/datastream/server/dms/ZookeeperBackedDatastreamStore.java:92 | the target path exists afterwards; only that path is added, and only when it was missing |
| `Zk.ZkClient.WriteData` | datastream-server/src/main/java/com/linkedin/datastream/server/dms/ZookeeperBackedDatastreamStore.java:94 | the data of the existing path is replaced and nothing else changes |
| `Zk.ZkClient.Delete` | datastream-server/src/main/java/com/linkedin/datastream/server/dms/ZookeeperBackedDatastreamStore.java:102 | exactly the given path is removed; the result says whether it was there |

## Left out

- Concurrency is not modelled:
  - the race between `exists` and `writeData` in `createDatastream`;
  - the `volatile` publication of the cache;
  - the watcher thread that delivers notifications.
  Every operation, the listener included, runs sequentially.
- The listener is called with whatever child list it is given. How ZooKeeper
  computes and delivers that list is not modelled, so neither is how stale
  the cache may be.
- The ZooKeeper client's transport, sessions, timeouts and replication are
  not modelled; they belong to a foreign library.
- The tree is flat. These ZooKeeper behaviours are not modelled:
  - `ensurePath` creating ancestor znodes;
  - path validation, which rejects an empty key because it gives a path
    ending in `/`;
  - `delete` failing on a znode that has children, as with a key containing `/`.
- `ensurePath`: ZooKeeper creates the target with null data; the model
  stores the empty string. `writeData` overwrites it at once, so the state
  after `createDatastream` is the same either way. A znode that exists with
  null data cannot be represented, because every present path has a string.
  In Java, `getDatastream` on such a znode returns null, and a colliding
  create reports `content=null`. In the model, every present path decodes.
  In Java such a znode arises in three ways:
  - a create interrupted between `ensurePath` and `writeData`;
  - a `toJSON` that throws between those two calls (lines 92-94), which needs
    no concurrency;
  - a create of a key containing `/`, such as `a/b`, whose `ensurePath`
    leaves the ancestor `<root>/a` with null data.
  After the third, Java and the model part ways for key `a`. In Java, a
  create of `a` throws a DatastreamException with `content=null` and a delete
  of `a` fails because the znode has a child. In the model, `a` stays
  `Nonexistent`, so its create succeeds and its delete is a no-op. Hence
  `CreateSucceedsIffAbsent` and `CreateTransition`, including "every other
  key keeps its state", describe Java only while no key, followed by `/`, is
  a prefix of another key.
- `DmsProperties.CreateSucceedsIffAbsent`: describes Java only while no key,
  followed by `/`, is a prefix of another key, because the tree is flat.
- `DmsProperties.CreateTransition`: describes Java only under the same
  condition, because an ancestor znode left by a nested key is not modelled.
- `toJSON` and `fromJSON`: the JSON encoding is a foreign call and is kept
  abstract as two total functions. A `fromJSON` that fails on corrupt content
  is not modelled.
- `CreateDatastream`: the null-key message is modelled as
  `"null key for datastream"` without the datastream's `toString`, because
  that method is not part of this model.
- `KeyBuilder.datastreams` is not part of this model. The root path is a
  parameter of the constructor.
- Logging (`LOG.warn`) is not modelled.
- `GetAllDatastreams` returns a sequence, not a lazy `Stream`.
- `StringOrder.CompareTo` compares Dafny characters, which are Unicode scalar
  values. Java compares UTF-16 code units. The two orders differ only between
  supplementary characters and characters in U+E000..U+FFFF.
- `Connector.java` is an interface without logic. Its implementations are not
  part of this model.
- `UpdateDatastream`: the source's own comment at
  datastream-server/src/main/java/com/linkedin/datastream/server/dms/ZookeeperBackedDatastreamStore.java:75-77
  suggests that updates might later be limited to the metadata field. The
  method body is empty, so the model is a no-op that always returns
  normally. A metadata-only check, or rejecting changes to source or
  target, would be a different operation, and neither is modelled.
- A null key given to `GetDatastream` reads as null, as in the code. It is
  not treated as a caller error.
- The collision message labels the key `path=` but prints the key itself,
  as the code does.
- Record paths are proved distinct only for keys under one root. Roots of
  different clusters could collide when keys contain `/`, but the root's
  construction is not part of this model.
