/**
 The object store: bounded reads, create-only writes and compare-and-swap by content
 digest.  The conditional requests of an S3 store (If-Match and If-None-Match, sections
 13.1.1 and 13.1.2 of RFC 9110) keep the same contract.
 */
module ObjectStores {
  import opened Common
  import opened Segments

  type Objects = map<string, Bytes>

  const MAX_READ: int := MAX_PAYLOAD + 0x10_0000

  datatype Failure = NotFound | TooLarge | AlreadyExists | Conflict | WriteFailed

  function Get(objects: Objects, key: string): Result<Bytes, Failure> {
    if key !in objects then Err(NotFound)
    else if |objects[key]| > MAX_READ then Err(TooLarge)
    else Ok(objects[key])
  }

  /** Creates a missing key.  What lands need not be what was sent; an existing object is never touched. */
  function Create(objects: Objects, key: string, landed: Bytes): Objects {
    if key in objects then objects else objects[key := landed]
  }

  /** Replaces a key if its content still has the given digest; the empty revision only creates. */
  function Swap(sha: Bytes -> string, objects: Objects, key: string, data: Bytes, revision: string): Option<Objects> {
    var current := match Get(objects, key) case Ok(d) => Some(sha(d)) case Err(NotFound) => Some("") case _ => None;
    if current == Some(revision) then Some(objects[key := data]) else None
  }

  ghost predicate CollisionFree(sha: Bytes -> string, bytes: set<Bytes>) {
    forall a, b :: a in bytes && b in bytes && sha(a) == sha(b) ==> a == b
  }

  function RevisionOf(sha: Bytes -> string, loaded: Option<Bytes>): string {
    if loaded.Some? then sha(loaded.value) else ""
  }

  /**
   A swap succeeds exactly when the key still holds what was loaded, even if it was
   replaced and restored in between: equal content is the same version.
   */
  lemma SwapSucceedsIff(sha: Bytes -> string, objects: Objects, key: string, loaded: Option<Bytes>, data: Bytes, bytes: set<Bytes>)
    requires forall d :: sha(d) != ""
    requires CollisionFree(sha, bytes) && (loaded.Some? ==> loaded.value in bytes && |loaded.value| <= MAX_READ)
    requires key in objects ==> objects[key] in bytes
    ensures Swap(sha, objects, key, data, RevisionOf(sha, loaded)).Some? <==>
              (if loaded.Some? then key in objects && objects[key] == loaded.value else key !in objects)
  {
  }

  class LocalObjectStore {
    const sha: Bytes -> string
    var objects: Objects

    constructor (sha: Bytes -> string)
      ensures this.sha == sha && objects == map[]
    {
      this.sha, objects := sha, map[];
    }

    method GetVersioned(key: string) returns (r: Result<(Bytes, string), Failure>)
      ensures r == match Get(objects, key) case Ok(d) => Ok((d, sha(d))) case Err(e) => Err(e)
    {
      if key !in objects { return Err(NotFound); }
      var data := objects[key];
      if |data| > MAX_READ { return Err(TooLarge); }
      return Ok((data, sha(data)));
    }

    /** Reads, compares and writes while it holds the lock of the key. */
    method CompareAndSwap(key: string, data: Bytes, revision: string) returns (r: Result<string, Failure>)
      modifies `objects
      ensures var swapped := Swap(sha, old(objects), key, data, revision);
              if swapped.Some? then r == Ok(sha(data)) && objects == swapped.value
              else r.Err? && objects == old(objects)
    {
      var current := "";
      var found := GetVersioned(key);
      match found {
        case Ok(p) => current := p.1;
        case Err(e) => if e != NotFound { return Err(e); }
      }
      if current != revision { return Err(Conflict); }
      objects := objects[key := data];
      return Ok(sha(data));
    }

    /** `landed` is what the write leaves behind; nothing when it fails. */
    method PutIfAbsent(key: string, landed: Option<Bytes>) returns (e: Option<Failure>)
      modifies `objects
      ensures objects == if landed.Some? then Create(old(objects), key, landed.value) else old(objects)
      ensures e == if landed.None? then Some(WriteFailed) else if key in old(objects) then Some(AlreadyExists) else None
    {
      if landed.None? { return Some(WriteFailed); }
      if key in objects { return Some(AlreadyExists); }
      objects := objects[key := landed.value];
      return None;
    }
  }
}
