/**
 * `hdfsClient`: the filesystem capability set the generic file pipe needs,
 * built on an HDFS client. The client itself is an oracle (`Hdfs`): each of its
 * calls is a function from its arguments to the outcome the cluster gives.
 */
module Client {
  import opened Errors
  import Retry

  /** Go's `os.FileMode`, a 32-bit unsigned value passed through unchanged. */
  type FileMode = m: int | 0 <= m < 0x1_0000_0000

  /** An open HDFS file: its path and its current read or write position. */
  datatype Handle = Handle(path: string, pos: int)

  /** A call made on the HDFS client, in the order the adapter makes it. */
  datatype Call = Open(path: string) | Seek(file: Handle, offset: int) | Append(path: string) | Create(path: string)

  /**
   * The HDFS client. The one-shot calls give one outcome per argument; the calls
   * made through the retry wrapper give the outcome of each successive attempt.
   */
  datatype Hdfs = Hdfs(
    open: string -> Result<Handle>,
    seek: (Handle, int) -> Option<Error>,
    append: string -> Result<Handle>,
    create: string -> Result<Handle>,
    mkdirAll: (string, FileMode) -> Retry.Operation,
    rename: (string, string) -> Retry.Operation,
    remove: string -> Retry.Operation,
    close: Handle -> Retry.Operation)

  /** The handle `h` after a successful absolute seek to `offset`. */
  function Seeked(h: Handle, offset: int): Handle {
    h.(pos := offset)
  }

  /**
   * `OpenRead(name, offset)`: open the file, then seek it to `offset`; either
   * failure is returned as it is, and a failed open is not followed by a seek.
   */
  method OpenRead(fs: Hdfs, name: string, offset: int) returns (r: Result<Handle>, calls: seq<Call>)
    ensures |calls| >= 1 && calls[0] == Open(name)
    ensures (exists h, o :: Seek(h, o) in calls) <==> fs.open(name).Success?
    ensures fs.open(name).Failure? ==> r == Failure(fs.open(name).error)
    ensures fs.open(name).Success? ==>
      calls == [Open(name), Seek(fs.open(name).value, offset)] &&
      r == match fs.seek(fs.open(name).value, offset)
           case None => Success(Seeked(fs.open(name).value, offset))
           case Some(e) => Failure(e)
    ensures r.Success? ==> r.value.pos == offset && r.value.path == fs.open(name).value.path
  {
    calls := [Open(name)];
    var f := fs.open(name);
    if f.Failure? {
      return Failure(f.error), calls;
    }
    calls := calls + [Seek(f.value, offset)];
    var err := fs.seek(f.value, offset);
    if err.Some? {
      return Failure(err.value), calls;
    }
    r := Success(Seeked(f.value, offset));
  }

  /**
   * `OpenWrite(name)`: open the file for append, and create it only if the
   * append failed. The returned seeker is always nil.
   */
  method OpenWrite(fs: Hdfs, name: string) returns (w: Result<Handle>, seeker: Option<Handle>, calls: seq<Call>)
    ensures seeker == None
    ensures |calls| >= 1 && calls[0] == Append(name)
    ensures Create(name) in calls <==> fs.append(name).Failure?
    ensures fs.append(name).Success? ==> calls == [Append(name)] && w == fs.append(name)
    ensures fs.append(name).Failure? ==> calls == [Append(name), Create(name)] && w == fs.create(name)
  {
    calls := [Append(name)];
    w := fs.append(name);
    if w.Failure? {
      calls := calls + [Create(name)];
      w := fs.create(name);
    }
    seeker := None;
  }

  /** `MkdirAll(path, perm)`: the client's mkdir under the retry wrapper. */
  method MkdirAll(fs: Hdfs, path: string, perm: FileMode) returns (err: Option<Error>, calls: nat)
    ensures Retry.RetryRun(Retry.RetryTimeout, fs.mkdirAll(path, perm), calls, err)
  {
    var sleptMs;
    err, calls, sleptMs := Retry.WithRetry(Retry.RetryTimeout, fs.mkdirAll(path, perm));
  }

  /** `Rename(oldpath, newpath)`: the client's rename under the retry wrapper. */
  method Rename(fs: Hdfs, oldpath: string, newpath: string) returns (err: Option<Error>, calls: nat)
    ensures Retry.RetryRun(Retry.RetryTimeout, fs.rename(oldpath, newpath), calls, err)
  {
    var sleptMs;
    err, calls, sleptMs := Retry.WithRetry(Retry.RetryTimeout, fs.rename(oldpath, newpath));
  }

  /** `Remove(path)`: the client's remove under the retry wrapper. */
  method Remove(fs: Hdfs, path: string) returns (err: Option<Error>, calls: nat)
    ensures Retry.RetryRun(Retry.RetryTimeout, fs.remove(path), calls, err)
  {
    var sleptMs;
    err, calls, sleptMs := Retry.WithRetry(Retry.RetryTimeout, fs.remove(path));
  }

  /** `Close(f)`: closing a write handle under the retry wrapper. */
  method Close(fs: Hdfs, f: Handle) returns (err: Option<Error>, calls: nat)
    ensures Retry.RetryRun(Retry.RetryTimeout, fs.close(f), calls, err)
  {
    var sleptMs;
    err, calls, sleptMs := Retry.WithRetry(Retry.RetryTimeout, fs.close(f));
  }
}
