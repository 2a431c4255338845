/**
 * The object store used to stage a clip for the long-running recognizer: one bucket of keys.
 * Object contents and the provider's answers are not modelled; every request is recorded in `log`.
 */
module Storage {

  /** The key a clip is staged under: its Telegram `file_id` followed by `.oga`. */
  function ObjectKey(fileId: string): (key: string)
    ensures |key| == |fileId| + 4
    ensures key[..|fileId|] == fileId && key[|fileId|..] == ".oga"
  {
    fileId + ".oga"
  }

  /** Distinct clips are staged under distinct keys, so concurrent long-path clips never collide. */
  lemma ObjectKeyInjective(a: string, b: string)
    requires ObjectKey(a) == ObjectKey(b)
    ensures a == b
  {
    assert a == ObjectKey(a)[..|a|];
    assert b == ObjectKey(b)[..|b|];
  }

  /** A request sent to the object store. */
  datatype StoreOp = Upload(key: string) | Delete(key: string)

  /** The set of keys present after the given requests, starting from `objects`. */
  function ApplyOps(objects: set<string>, ops: seq<StoreOp>): (r: set<string>)
    ensures forall k :: k !in objects && (forall i :: 0 <= i < |ops| ==> ops[i].key != k) ==> k !in r
    ensures forall k :: k in objects && (forall i :: 0 <= i < |ops| ==> ops[i].key != k) ==> k in r
    decreases |ops|
  {
    if ops == [] then objects
    else
      var last := ops[|ops| - 1];
      var before := ApplyOps(objects, ops[..|ops| - 1]);
      match last
      case Upload(k) => before + {k}
      case Delete(k) => before - {k}
  }

  /** Number of delete requests for `key` in `ops`. */
  function DeleteCount(ops: seq<StoreOp>, key: string): nat
  {
    if ops == [] then 0
    else DeleteCount(ops[..|ops| - 1], key) + (if ops[|ops| - 1] == Delete(key) then 1 else 0)
  }

  /** The bucket `BUCKET_NAME`, with the keys it holds and every request sent to it. */
  class ObjectStore {
    const bucket: string
    var objects: set<string>
    var log: seq<StoreOp>

    constructor (bucket: string, objects: set<string>)
      ensures this.bucket == bucket && this.objects == objects && log == []
    {
      this.bucket := bucket;
      this.objects := objects;
      log := [];
    }

    /** `upload_fileobj(..., bucket, key)`: creates or overwrites the object. */
    method Put(key: string)
      modifies this
      ensures objects == old(objects) + {key}
      ensures log == old(log) + [Upload(key)]
    {
      objects := objects + {key};
      log := log + [Upload(key)];
    }

    /** `delete_object(Bucket=bucket, Key=key)`: removes the object if present. */
    method Remove(key: string)
      modifies this
      ensures objects == old(objects) - {key}
      ensures log == old(log) + [Delete(key)]
    {
      objects := objects - {key};
      log := log + [Delete(key)];
    }
  }
}
