/**
 * Disk-backed memoisation (`from_cache_or`).  A value is looked up in the file
 * "cache" joined with a relative path: a file that exists is decoded and the
 * producer is never run; otherwise the producer runs and its value is written
 * to that file and returned.  The disk is a map from path to contents.
 */
module FileCache {
  import opened Wrappers

  const CACHE_DIR: string := "cache"

  /** `PathBuf::from("cache").join(path)`: an absolute path replaces the base. */
  function CachePath(path: string): string
  {
    if |path| > 0 && path[0] == '/' then path else CACHE_DIR + "/" + path
  }

  /** Distinct paths are cached in distinct files. */
  lemma CachePathInjective(p: string, q: string)
    ensures CachePath(p) == CachePath(q) ==> p == q
  {
    if CachePath(p) == CachePath(q) {
      var pa := |p| > 0 && p[0] == '/';
      var qa := |q| > 0 && q[0] == '/';
      if !pa && !qa {
        assert p == CachePath(p)[|CACHE_DIR| + 1..];
        assert q == CachePath(q)[|CACHE_DIR| + 1..];
      }
    }
  }

  /** A serialisation format: encoding always succeeds, decoding is partial. */
  datatype Codec<!T> = Codec(encode: T -> string, decode: string -> Option<T>)

  /**
   * What the JSON codec guarantees: decoding an encoding gives the value back,
   * and an empty (truncated) file decodes to nothing.
   */
  ghost predicate Sound<T(!new)>(c: Codec<T>)
  {
    && (forall x: T :: c.decode(c.encode(x)) == Some(x))
    && c.decode("") == None
  }

  /**
   * The file system: contents by path, and the paths at which the operations
   * fail.  Creating a file truncates it, so a write that fails after the file
   * was created leaves it empty.
   */
  class Disk {
    var files: map<string, string>
    /** Paths that cannot be created (a missing parent, no permission). */
    const createFails: set<string>
    /** Paths that can be created but whose contents fail to be written. */
    const writeFails: set<string>
    /** Paths whose removal fails. */
    const removeFails: set<string>

    constructor (files: map<string, string>, createFails: set<string>, writeFails: set<string>, removeFails: set<string>)
      ensures this.files == files && this.createFails == createFails
      ensures this.writeFails == writeFails && this.removeFails == removeFails
    {
      this.files := files;
      this.createFails := createFails;
      this.writeFails := writeFails;
      this.removeFails := removeFails;
    }

    /** `File::create` followed by writing the contents. */
    method Write(path: string, contents: string) returns (ok: bool)
      modifies this
      ensures ok <==> path !in createFails && path !in writeFails
      ensures files == AfterWrite(old(files), createFails, writeFails, path, contents)
    {
      if path in createFails {
        ok := false;
      } else if path in writeFails {
        files := files[path := ""];
        ok := false;
      } else {
        files := files[path := contents];
        ok := true;
      }
    }

    /** `fs::remove_file`. */
    method Remove(path: string) returns (ok: bool)
      modifies this
      ensures ok <==> path in old(files) && path !in removeFails
      ensures files == if ok then old(files) - {path} else old(files)
    {
      ok := path in files && path !in removeFails;
      if ok {
        files := files - {path};
      }
    }
  }

  /** The disk after creating `path` and writing `contents` into it. */
  function AfterWrite(files: map<string, string>, createFails: set<string>, writeFails: set<string>,
                      path: string, contents: string): (r: map<string, string>)
    ensures forall q :: q != path ==> (q in r <==> q in files) && (q in r ==> r[q] == files[q])
    ensures path !in createFails ==> path in r
  {
    if path in createFails then files
    else if path in writeFails then files[path := ""]
    else files[path := contents]
  }

  /** What opening and decoding the cache file finds. */
  datatype Lookup<T> = Hit(value: T) | Undecodable | Miss

  function Look<T>(files: map<string, string>, codec: Codec<T>, path: string): (l: Lookup<T>)
    ensures l.Miss? <==> CachePath(path) !in files
  {
    var file := CachePath(path);
    if file !in files then Miss
    else match codec.decode(files[file])
      case Some(v) => Hit(v)
      case None => Undecodable
  }

  /** The callback: an asynchronous computation with a fixed result; `calls` counts its runs. */
  class Producer<T> {
    const result: Result<T>
    var calls: nat

    constructor (result: Result<T>)
      ensures this.result == result && calls == 0
    {
      this.result := result;
      calls := 0;
    }

    method Run() returns (r: Result<T>)
      modifies this
      ensures r == result && calls == old(calls) + 1
    {
      r := result;
      calls := calls + 1;
    }
  }

  /** One call of `from_cache_or`: its result, the disk afterwards, and whether the producer ran. */
  datatype Outcome<T> = Outcome(result: Result<T>, files: map<string, string>, ranProducer: bool)

  function Memoised<T>(files: map<string, string>, createFails: set<string>, writeFails: set<string>,
                       codec: Codec<T>, path: string, produced: Result<T>): Outcome<T>
  {
    match Look(files, codec, path)
    case Hit(v) => Outcome(Ok(v), files, false)
    case Undecodable => Outcome(Err("couldn't decode cached value"), files, false)
    case Miss =>
      match produced
      case Err(e) => Outcome(Err(e), files, true)
      case Ok(v) =>
        var file := CachePath(path);
        var after := AfterWrite(files, createFails, writeFails, file, codec.encode(v));
        if file in createFails || file in writeFails then Outcome(Err("couldn't write cached value"), after, true)
        else Outcome(Ok(v), after, true)
  }

  /** Opens and decodes the cache file for `path`. */
  method Probe<T>(disk: Disk, codec: Codec<T>, path: string) returns (l: Lookup<T>)
    ensures l == Look(disk.files, codec, path)
  {
    var file := CachePath(path);
    if file in disk.files {
      var decoded := codec.decode(disk.files[file]);
      l := if decoded.Some? then Hit(decoded.value) else Undecodable;
    } else {
      l := Miss;
    }
  }

  /** Writes a freshly computed value to the cache file for `path`; a failed write is an error. */
  method Store<T>(disk: Disk, codec: Codec<T>, path: string, v: T) returns (r: Result<T>)
    modifies disk
    ensures disk.files == AfterWrite(old(disk.files), disk.createFails, disk.writeFails, CachePath(path), codec.encode(v))
    ensures r == if CachePath(path) in disk.createFails || CachePath(path) in disk.writeFails
                 then Err("couldn't write cached value") else Ok(v)
  {
    var ok := disk.Write(CachePath(path), codec.encode(v));
    r := if ok then Ok(v) else Err("couldn't write cached value");
  }

  /** `from_cache_or(path, callback)`. */
  method FromCacheOr<T>(disk: Disk, codec: Codec<T>, path: string, producer: Producer<T>) returns (r: Result<T>)
    modifies disk, producer
    ensures var o := Memoised(old(disk.files), disk.createFails, disk.writeFails, codec, path, producer.result);
            && r == o.result && disk.files == o.files
            && producer.calls == old(producer.calls) + (if o.ranProducer then 1 else 0)
  {
    var l := Probe(disk, codec, path);
    match l {
      case Hit(v) => r := Ok(v);
      case Undecodable => r := Err("couldn't decode cached value");
      case Miss =>
        var produced := producer.Run();
        match produced {
          case Err(e) => r := Err(e);
          case Ok(v) => r := Store(disk, codec, path, v);
        }
    }
  }

  /** A hit returns the decoded file, leaves the disk alone and never runs the producer. */
  lemma HitNeverProduces<T>(files: map<string, string>, createFails: set<string>, writeFails: set<string>,
                            codec: Codec<T>, path: string, produced: Result<T>)
    requires CachePath(path) in files
    ensures var o := Memoised(files, createFails, writeFails, codec, path, produced);
            && !o.ranProducer && o.files == files
            && (o.result.Ok? <==> codec.decode(files[CachePath(path)]).Some?)
            && (o.result.Ok? ==> Some(o.result.value) == codec.decode(files[CachePath(path)]))
  {
  }

  /** On a miss the producer runs; its error is returned as is and nothing is written. */
  lemma ProducerErrorWritesNothing<T>(files: map<string, string>, createFails: set<string>, writeFails: set<string>,
                                      codec: Codec<T>, path: string, e: string)
    requires CachePath(path) !in files
    ensures Memoised(files, createFails, writeFails, codec, path, Err(e)) == Outcome(Err(e), files, true)
  {
  }

  /** A value the producer computed but could not store is not returned: the error is. */
  lemma WriteErrorPropagates<T>(files: map<string, string>, createFails: set<string>, writeFails: set<string>,
                                codec: Codec<T>, path: string, v: T)
    requires CachePath(path) !in files
    requires CachePath(path) in createFails || CachePath(path) in writeFails
    ensures Memoised(files, createFails, writeFails, codec, path, Ok(v)).result.Err?
  {
  }

  /** Only the cache file of `path` can change. */
  lemma OnlyTheCacheFileChanges<T>(files: map<string, string>, createFails: set<string>, writeFails: set<string>,
                                   codec: Codec<T>, path: string, produced: Result<T>, q: string)
    requires q != CachePath(path)
    ensures var after := Memoised(files, createFails, writeFails, codec, path, produced).files;
            && (q in after <==> q in files)
            && (q in after ==> after[q] == files[q])
  {
  }

  /**
   * A miss whose value is stored makes the next call with the same path a hit
   * that returns that value without running its producer, whatever it would produce.
   */
  lemma {:induction false} StoredValueIsReused<T(!new)>(files: map<string, string>, createFails: set<string>, writeFails: set<string>,
                                                   codec: Codec<T>, path: string, v: T, next: Result<T>)
    requires Sound(codec)
    requires CachePath(path) !in files
    requires CachePath(path) !in createFails && CachePath(path) !in writeFails
    ensures var first := Memoised(files, createFails, writeFails, codec, path, Ok(v));
            && first.result == Ok(v) && first.ranProducer
            && Memoised(first.files, createFails, writeFails, codec, path, next) == Outcome(Ok(v), first.files, false)
  {
    var first := Memoised(files, createFails, writeFails, codec, path, Ok(v));
    assert first.files == files[CachePath(path) := codec.encode(v)];
    assert codec.decode(codec.encode(v)) == Some(v);
  }

  /**
   * A write that fails after creating the file leaves it empty, so every later
   * call with the same path is an error that does not run the producer.
   */
  lemma {:induction false} FailedWriteLeavesUndecodableFile<T(!new)>(files: map<string, string>, createFails: set<string>,
                                                               writeFails: set<string>, codec: Codec<T>, path: string,
                                                               v: T, next: Result<T>)
    requires Sound(codec)
    requires CachePath(path) !in files
    requires CachePath(path) !in createFails && CachePath(path) in writeFails
    ensures var first := Memoised(files, createFails, writeFails, codec, path, Ok(v));
            && first.result.Err?
            && Memoised(first.files, createFails, writeFails, codec, path, next).result.Err?
            && !Memoised(first.files, createFails, writeFails, codec, path, next).ranProducer
  {
    var first := Memoised(files, createFails, writeFails, codec, path, Ok(v));
    assert first.files == files[CachePath(path) := ""];
    assert codec.decode("") == None;
  }
}
