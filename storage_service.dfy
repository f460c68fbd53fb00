/** The cloud storage service: objects are addressed by URLs of the form
    "https://storage.googleapis.com/<bucket>/<object>", and moving an object is a
    copy followed by a delete. The store maps each bucket to its object names. */
module StorageService {

  import opened Common
  import opened PyStr

  const Host := "https://storage.googleapis.com/"

  /** The host part of every URL, piece by piece between its "/" separators. */
  lemma HostPieces()
    ensures Host == "https:" + "/" + "" + "/" + "storage.googleapis.com" + "/"
  {
  }

  /** The URL prefix of a bucket. */
  function Prefix(bucket: string): string
  {
    Host + bucket + "/"
  }

  /** `url.split("/")[3]`: the bucket named by a URL; too few "/" is an `IndexError`. */
  function BucketOf(url: string): (r: Result<string>)
    ensures r.Err? <==> Count(url, '/') < 3
    ensures r.Ok? ==> '/' !in r.value
  {
    var parts := Split(url, '/');
    SplitCount(url, '/');
    SplitPiecesFree(url, '/');
    if |parts| <= 3 then Err(IndexError) else Ok(parts[3])
  }

  /** `url.replace(prefix, "")`: the object path of a URL. */
  function ObjectPath(url: string, bucket: string): string
  {
    ReplaceAll(url, Prefix(bucket), "")
  }

  /** The object name `upload` writes. */
  function UploadObject(path: string, filename: string): string
  {
    "temp/part-price/" + path + "/" + filename
  }

  /** The URL `delete_file` returns for an object path. */
  function DeletedUrl(bucket: string, objectPath: string): string
  {
    Prefix(bucket) + "deleted/" + objectPath
  }

  /** The store after `move_file`: the source object copied to the destination, then
      the source deleted. */
  function Moved(store: map<string, set<string>>, fromBucket: string, fromPath: string,
                 toBucket: string, toPath: string): map<string, set<string>>
    requires fromBucket in store && toBucket in store
  {
    var copied := store[toBucket := store[toBucket] + {toPath}];
    copied[fromBucket := copied[fromBucket] - {fromPath}]
  }

  /** A move to a distinct place adds the destination and removes the source; a move
      of an object onto itself loses it. */
  lemma MovedContents(store: map<string, set<string>>, fromBucket: string, fromPath: string,
                      toBucket: string, toPath: string)
    requires fromBucket in store && toBucket in store
    ensures var s := Moved(store, fromBucket, fromPath, toBucket, toPath);
      s.Keys == store.Keys &&
      ((fromBucket, fromPath) != (toBucket, toPath) ==> toPath in s[toBucket] && fromPath !in s[fromBucket]) &&
      ((fromBucket, fromPath) == (toBucket, toPath) ==> fromPath !in s[fromBucket]) &&
      (forall b, o :: b in store && (b, o) != (fromBucket, fromPath) && (b, o) != (toBucket, toPath) ==>
        (o in s[b] <==> o in store[b]))
  {
  }

  /** Moving an object within a bucket and back restores the store, provided the
      destination did not exist before. */
  lemma MoveBack(store: map<string, set<string>>, bucket: string, a: string, b: string)
    requires bucket in store && a in store[bucket] && b !in store[bucket]
    ensures Moved(Moved(store, bucket, a, bucket, b), bucket, b, bucket, a) == store
  {
    var s2 := Moved(Moved(store, bucket, a, bucket, b), bucket, b, bucket, a);
    assert s2[bucket] == store[bucket];
  }

  /** The URL `delete_file` returns, when the move succeeds. */
  function DeleteUrl(url: string): Result<string>
  {
    match BucketOf(url)
    case Err(e) => Err(e)
    case Ok(bucket) => Ok(DeletedUrl(bucket, ObjectPath(url, bucket)))
  }

  /** The URL `retrieve_file` returns, when the move succeeds. */
  function RetrieveUrl(url: string): Result<string>
  {
    match BucketOf(url)
    case Err(e) => Err(e)
    case Ok(bucket) => Ok(Prefix(bucket) + ReplaceAll(ObjectPath(url, bucket), "deleted/", ""))
  }

  /** A separator-free piece in front of a separator splits off as one piece. */
  lemma SplitCons(piece: string, rest: string, c: char)
    requires c !in piece
    ensures Split(piece + [c] + rest, c) == [piece] + Split(rest, c)
  {
    SplitConcat(piece, rest, c);
    SplitFree(piece, c);
  }

  /** Three separator-free pieces, each followed by the separator, split off one by one. */
  lemma SplitThree(a: string, b: string, c: string, rest: string, sep: char)
    requires sep !in a && sep !in b && sep !in c
    ensures Split(a + [sep] + b + [sep] + c + [sep] + rest, sep) == [a, b, c] + Split(rest, sep)
  {
    var rest2 := c + [sep] + rest;
    var rest1 := b + [sep] + rest2;
    assert a + [sep] + b + [sep] + c + [sep] + rest == a + [sep] + rest1;
    SplitCons(c, rest, sep);
    SplitCons(b, rest2, sep);
    SplitCons(a, rest1, sep);
  }

  /** Text behind the host splits after the scheme, an empty piece and the host. */
  lemma SplitHost(rest: string)
    ensures Split(Host + rest, '/') == ["https:", "", "storage.googleapis.com"] + Split(rest, '/')
  {
    HostPieces();
    SplitThree("https:", "", "storage.googleapis.com", rest, '/');
  }

  /** The URL of an object splits into the scheme, an empty piece, the host, the
      bucket and the pieces of the object name. */
  lemma SplitUrl(bucket: string, objectPath: string)
    requires '/' !in bucket
    ensures Split(Prefix(bucket) + objectPath, '/') ==
      ["https:", "", "storage.googleapis.com", bucket] + Split(objectPath, '/')
  {
    var rest := bucket + "/" + objectPath;
    assert Prefix(bucket) + objectPath == Host + rest;
    SplitHost(rest);
    SplitCons(bucket, objectPath, '/');
  }

  /** A bucket without "/" and an object path in which the bucket's prefix does not
      occur make a URL that gives both back. */
  lemma UrlParts(bucket: string, objectPath: string)
    requires '/' !in bucket
    requires !Occurs(objectPath, Prefix(bucket))
    ensures BucketOf(Prefix(bucket) + objectPath) == Ok(bucket)
    ensures ObjectPath(Prefix(bucket) + objectPath, bucket) == objectPath
  {
    SplitUrl(bucket, objectPath);
    ReplaceLeading(Prefix(bucket), objectPath, "");
    ReplaceAbsent(objectPath, Prefix(bucket), "");
  }

  /** The URL `upload` returns names the bucket and the object it wrote. */
  lemma UploadUrlParts(bucket: string, path: string, filename: string)
    requires '/' !in bucket
    requires !Occurs(UploadObject(path, filename), Prefix(bucket))
    ensures BucketOf(Prefix(bucket) + UploadObject(path, filename)) == Ok(bucket)
    ensures ObjectPath(Prefix(bucket) + UploadObject(path, filename), bucket) == UploadObject(path, filename)
  {
    UrlParts(bucket, UploadObject(path, filename));
  }

  /** Round trip: retrieving the URL that deleting `url` returned gives `url` back,
      when the object path contains neither the bucket's prefix nor "deleted/". */
  lemma DeleteRetrieve(bucket: string, objectPath: string)
    requires '/' !in bucket
    requires !Occurs(objectPath, Prefix(bucket))
    requires !Occurs(objectPath, "deleted/")
    ensures DeleteUrl(Prefix(bucket) + objectPath) == Ok(DeletedUrl(bucket, objectPath))
    ensures RetrieveUrl(DeletedUrl(bucket, objectPath)) == Ok(Prefix(bucket) + objectPath)
  {
    UrlParts(bucket, objectPath);
    var d := "deleted/" + objectPath;
    assert Prefix(bucket)[0] == 'h';
    AbsentAcross("deleted/", objectPath, Prefix(bucket));
    assert DeletedUrl(bucket, objectPath) == Prefix(bucket) + d;
    UrlParts(bucket, d);
    assert BucketOf(DeletedUrl(bucket, objectPath)) == Ok(bucket);
    assert ObjectPath(DeletedUrl(bucket, objectPath), bucket) == d;
    ReplaceLeading("deleted/", objectPath, "");
    ReplaceAbsent(objectPath, "deleted/", "");
    assert ReplaceAll(d, "deleted/", "") == objectPath;
  }

  /** The client side of the store, `StorageService`. */
  class StorageService {
    var store: map<string, set<string>>

    constructor (store: map<string, set<string>>)
      ensures this.store == store
    {
      this.store := store;
    }

    /** `upload(file, config)`: writes "temp/part-price/<path>/<filename>" in the
        bucket and returns its URL. */
    method Upload(bucket: string, path: string, filename: string) returns (r: Result<string>)
      modifies this
      ensures r.Ok? <==> bucket in old(store)
      ensures r.Ok? ==> r.value == Prefix(bucket) + UploadObject(path, filename)
      ensures r.Ok? ==> store == old(store)[bucket := old(store)[bucket] + {UploadObject(path, filename)}]
      ensures r.Err? ==> r.error == BlobNotFound && store == old(store)
    {
      if bucket !in store {
        return Err(BlobNotFound);
      }
      var name := "temp/part-price/" + path + "/" + filename;
      store := store[bucket := store[bucket] + {name}];
      r := Ok(Host + bucket + "/temp/part-price/" + path + "/" + filename);
    }

    /** `move_file(from_bucket, from_path, to_bucket, to_path)`: copy, then delete the
        source; a missing bucket or source object is refused by the store. */
    method MoveFile(fromBucket: string, fromPath: string, toBucket: string, toPath: string)
      returns (o: Outcome)
      modifies this
      ensures o.Pass? <==> fromBucket in old(store) && toBucket in old(store) && fromPath in old(store)[fromBucket]
      ensures o.Pass? ==> store == Moved(old(store), fromBucket, fromPath, toBucket, toPath)
      ensures o.Fail? ==> o.error == BlobNotFound && store == old(store)
    {
      if fromBucket !in store || toBucket !in store || fromPath !in store[fromBucket] {
        return Fail(BlobNotFound);
      }
      store := store[toBucket := store[toBucket] + {toPath}];
      store := store[fromBucket := store[fromBucket] - {fromPath}];
      o := Pass;
    }

    /** `move_temp_file(path)`: drops every "temp/" from the object path; the object
        moves only when its path starts with "temp/", but the rewritten URL is returned
        either way. */
    method MoveTempFile(url: string) returns (r: Result<string>)
      modifies this
      ensures BucketOf(url).Err? ==> r == Err(IndexError) && store == old(store)
      ensures BucketOf(url).Ok? ==>
        var bucket := BucketOf(url).value;
        var from := ObjectPath(url, bucket);
        var to := ReplaceAll(from, "temp/", "");
        if !StartsWith(from, "temp/") then
          r == Ok(Prefix(bucket) + to) && store == old(store)
        else if bucket in old(store) && from in old(store)[bucket] then
          r == Ok(Prefix(bucket) + to) && store == Moved(old(store), bucket, from, bucket, to)
        else
          r == Err(BlobNotFound) && store == old(store)
    {
      var b := BucketOf(url);
      if b.Err? {
        return Err(IndexError);
      }
      var bucket := b.value;
      var prefix := Host + bucket + "/";
      var fromPath := ReplaceAll(url, prefix, "");
      var toPath := ReplaceAll(fromPath, "temp/", "");
      if StartsWith(fromPath, "temp/") {
        var o := MoveFile(bucket, fromPath, bucket, toPath);
        if o.Fail? {
          return Err(o.error);
        }
      }
      r := Ok(prefix + toPath);
    }

    /** `delete_file(path)`: moves the object to "deleted/<object path>" and returns
        that URL. */
    method DeleteFile(url: string) returns (r: Result<string>)
      modifies this
      ensures BucketOf(url).Err? ==> r == Err(IndexError) && store == old(store)
      ensures BucketOf(url).Ok? ==>
        var bucket := BucketOf(url).value;
        var from := ObjectPath(url, bucket);
        if bucket in old(store) && from in old(store)[bucket] then
          r == Ok(DeletedUrl(bucket, from)) &&
          store == Moved(old(store), bucket, from, bucket, "deleted/" + from)
        else
          r == Err(BlobNotFound) && store == old(store)
    {
      var b := BucketOf(url);
      if b.Err? {
        return Err(IndexError);
      }
      var bucket := b.value;
      var prefix := Host + bucket + "/";
      var fromPath := ReplaceAll(url, prefix, "");
      var toPath := "deleted/" + fromPath;
      var o := MoveFile(bucket, fromPath, bucket, toPath);
      if o.Fail? {
        return Err(o.error);
      }
      r := Ok(prefix + toPath);
      assert prefix + toPath == DeletedUrl(bucket, fromPath);
    }

    /** `retrieve_file(path)`: drops every "deleted/" from the object path, moves the
        object there and returns that URL. */
    method RetrieveFile(url: string) returns (r: Result<string>)
      modifies this
      ensures BucketOf(url).Err? ==> r == Err(IndexError) && store == old(store)
      ensures BucketOf(url).Ok? ==>
        var bucket := BucketOf(url).value;
        var from := ObjectPath(url, bucket);
        var to := ReplaceAll(from, "deleted/", "");
        if bucket in old(store) && from in old(store)[bucket] then
          r == Ok(Prefix(bucket) + to) && store == Moved(old(store), bucket, from, bucket, to)
        else
          r == Err(BlobNotFound) && store == old(store)
    {
      var b := BucketOf(url);
      if b.Err? {
        return Err(IndexError);
      }
      var bucket := b.value;
      var prefix := Host + bucket + "/";
      var fromPath := ReplaceAll(url, prefix, "");
      var toPath := ReplaceAll(fromPath, "deleted/", "");
      var o := MoveFile(bucket, fromPath, bucket, toPath);
      if o.Fail? {
        return Err(o.error);
      }
      r := Ok(prefix + toPath);
    }
  }
}
