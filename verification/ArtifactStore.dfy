/** The write-once artifact store of internal/artifacts/s3.go.

    The bucket is the server's state. `PutImmutable` writes with If-None-Match
    (section 13.1.2 of RFC 9110), so an object once stored is never replaced. */
module ArtifactStore {
  import opened Api
  import Paths

  datatype Result<+T> = Ok(value: T) | Err

  /** A stored object and the sha256 metadata it was uploaded with. */
  datatype Object = Object(content: Content, sha: Digest)

  type Bucket = map<string, Object>

  /** How far the conditional write gets, and whether the two requests that compare a taken key with
      the content are answered. */
  datatype Sent = Delivered | RequestLost | ReplyLost
  datatype Transport = Transport(put: Sent, head: bool, get: bool)

  predicate ValidKey(key: string) {
    key != "" && key[0] != '/' && Paths.Clean(key) == key && '\\' !in key
  }

  /** A key is accepted exactly when it is "." or a relative path without backslash whose parts are in
      order; ".." may lead it. */
  lemma KeyIsValidExactly(key: string)
    ensures ValidKey(key) <==> '\\' !in key && (key == "." || Paths.Normal(Paths.Split(key)))
  {
    Paths.CleanExactly(key);
    if key != "" && key[0] == '/' { assert Paths.Split(key)[0] == ""; }
  }

  /** A read that succeeds only for the content the reference was made from. */
  function Read(bucket: Bucket, ref: Ref): Result<Content> {
    if ValidKey(ref.key) && ref.key in bucket && Sha(bucket[ref.key].content) == ref.digest
    then Ok(bucket[ref.key].content) else Err
  }

  predicate Readable(bucket: Bucket, ref: Ref) { Read(bucket, ref).Ok? }

  /** GetVerifiedByKey: the digest comes from the object's own metadata. */
  function ReadByKey(bucket: Bucket, key: string): Result<(Ref, Content)> {
    if ValidKey(key) && key in bucket && Sha(bucket[key].content) == bucket[key].sha
    then Ok((Ref(key, bucket[key].sha), bucket[key].content)) else Err
  }

  /** Every object carries the digest of its own content. */
  predicate Faithful(bucket: Bucket) { forall k | k in bucket :: bucket[k].sha == Sha(bucket[k].content) }

  function Stored(bucket: Bucket, key: string, content: Content): Bucket {
    if key in bucket then bucket else bucket[key := Object(content, Sha(content))]
  }

  function PutEffect(bucket: Bucket, key: string, content: Content, t: Transport): Bucket {
    if ValidKey(key) && !t.put.RequestLost? then Stored(bucket, key, content) else bucket
  }

  class Store {
    var bucket: Bucket

    constructor ()
      ensures bucket == map[]
    {
      bucket := map[];
    }

    method PutImmutable(key: string, content: Content, t: Transport) returns (r: Result<Ref>)
      requires Faithful(bucket)
      modifies this
      ensures bucket == PutEffect(old(bucket), key, content, t) && Faithful(bucket)
      ensures r.Ok? <==> && ValidKey(key) && t.put.Delivered? && bucket[key].content == content
                         && (key in old(bucket) ==> t.head && t.get)
      ensures r.Ok? ==> r.value == Ref(key, Sha(content)) && Read(bucket, r.value) == Ok(content)
    {
      if !ValidKey(key) || t.put.RequestLost? { return Err; }
      var digestValue := Sha(content);
      if key !in bucket {
        bucket := bucket[key := Object(content, digestValue)];
        return if t.put.ReplyLost? then Err else Ok(Ref(key, digestValue));
      }
      if t.put.ReplyLost? { return Err; }
      // Precondition failed: the key is taken. Accept only the very same content.
      if !t.head { return Err; }
      var existing := Ref(key, bucket[key].sha);
      if existing.digest == digestValue {
        if !t.get { return Err; }
        var verified := GetVerified(existing);
        return if verified.Ok? then Ok(existing) else Err;
      }
      return Err;
    }

    /** The content the reference was made from, if the store has it, and never anything else. */
    method GetVerified(ref: Ref) returns (r: Result<Content>)
      ensures r.Ok? ==> Sha(r.value) == ref.digest && ref.key in bucket && bucket[ref.key].content == r.value
      ensures forall content | Sha(content) == ref.digest && ValidKey(ref.key) && ref.key in bucket && bucket[ref.key].content == content ::
        r == Ok(content)
      ensures r == Read(bucket, ref)
    {
      if !ValidKey(ref.key) || ref.key !in bucket { return Err; }
      var content := bucket[ref.key].content;
      if Sha(content) != ref.digest { return Err; }
      return Ok(content);
    }

    /** The content stored under the key, if it still is what its own metadata was made from. */
    method GetVerifiedByKey(key: string) returns (r: Result<(Ref, Content)>)
      ensures r.Ok? ==> && key in bucket && r.value.0 == Ref(key, Sha(r.value.1)) && r.value.1 == bucket[key].content
                        && bucket[key].sha == Sha(bucket[key].content) && Read(bucket, r.value.0) == Ok(r.value.1)
      ensures Faithful(bucket) && ValidKey(key) && key in bucket ==> r.Ok?
      ensures r == ReadByKey(bucket, key)
    {
      if !ValidKey(key) || key !in bucket { return Err; }
      var ref := Ref(key, bucket[key].sha);
      var content := GetVerified(ref);
      if content.Err? { return Err; }
      return Ok((ref, content.value));
    }
  }

  // ------------------------------------------------------------ whole runs

  datatype Put = Put(key: string, content: Content, transport: Transport)

  /** The bucket after `puts`, in order, on an empty bucket. */
  function After(puts: seq<Put>): Bucket {
    if puts == [] then map[] else
    var p := puts[|puts| - 1];
    PutEffect(After(puts[..|puts| - 1]), p.key, p.content, p.transport)
  }

  predicate Arrives(p: Put, key: string) { p.key == key && ValidKey(key) && !p.transport.put.RequestLost? }

  predicate IsFirst(puts: seq<Put>, n: int, key: string) {
    0 <= n < |puts| && Arrives(puts[n], key) && forall m | 0 <= m < n :: !Arrives(puts[m], key)
  }

  /** A key holds the content of the first put that reached it, for ever after. */
  lemma {:induction false} FirstWriteWins(puts: seq<Put>, key: string)
    ensures Faithful(After(puts))
    ensures key in After(puts) <==> exists n | 0 <= n < |puts| :: Arrives(puts[n], key)
    ensures forall n | IsFirst(puts, n, key) :: key in After(puts) && After(puts)[key].content == puts[n].content
  {
    if puts != [] {
      var last := |puts| - 1;
      var front := puts[..last];
      FirstWriteWins(front, key);
      if n :| 0 <= n < last && Arrives(puts[n], key) { assert Arrives(front[n], key); }
      forall n | IsFirst(puts, n, key)
        ensures key in After(puts) && After(puts)[key].content == puts[n].content
      {
        assert forall m | 0 <= m < n :: !Arrives(front[m], key);
        if n < last { assert IsFirst(front, n, key); }
      }
    }
  }

  /** A reference that reads back keeps reading back the same content, whatever is put later. */
  lemma {:induction false} ReadsAreStable(before: seq<Put>, later: seq<Put>, ref: Ref)
    requires Readable(After(before), ref)
    ensures Read(After(before + later), ref) == Read(After(before), ref)
  {
    if later == [] {
      assert before + later == before;
    } else {
      var n := |later| - 1;
      var all := before + later;
      assert all[..|all| - 1] == before + later[..n] && all[|all| - 1] == later[n];
      ReadsAreStable(before, later[..n], ref);
    }
  }
}
