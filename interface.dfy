/**
 * The types shared by the three adapters of browser-source: the traversal
 * options, the record each adapter yields, the browser File object, and the
 * outcome of running one of the (lazy, single-pass) generators to its end.
 */
module Interface {

  datatype Option<+T> = None | Some(value: T) {
    /** `x ?? default` in the source's terms. */
    function GetOr(default: T): T {
      match this
      case Some(v) => v
      case None => default
    }
  }

  /** What a capability promise settles to: a value, or a rejection with its reason. */
  datatype Result<+T> = Ok(value: T) | Err(reason: string)

  /** The ipfs-unixfs timestamp: whole seconds and a remainder meant in nanoseconds. */
  datatype Mtime = Mtime(secs: int, nsecs: int)

  /**
   * A browser File, with the two properties the adapters read. `bytes`
   * stands for its contents, which the model never reads: a record's
   * content is the file it streams from, and `bytes` only keeps two files
   * with the same path and time apart.
   */
  datatype FileObject = FileObject(webkitRelativePath: string, lastModified: int, bytes: nat)

  /**
   * BrowserFsItemSourceOptions. Every field is optional; a boolean option
   * is read either as "exactly false" or as "truthy", as the source does.
   */
  datatype Options = Options(
    hidden: Option<bool>,
    onlyFiles: Option<bool>,
    prefix: Option<string>,
    preserveMtime: Option<bool>,
    mode: Option<int>,
    mtime: Option<Mtime>)

  /** The `{}` the traversal falls back to when no options are given. */
  const NoOptions := Options(None, None, None, None, None, None)

  /** JavaScript truthiness of an optional boolean. */
  predicate Truthy(b: Option<bool>) {
    b == Some(true)
  }

  /** BrowserFsItemSourceResult: `content` is None for a directory record. */
  datatype Record = Record(path: string, content: Option<FileObject>, mtime: Option<Mtime>, mode: Option<int>)

  /** What a generator can throw: the traversal's own TypeError, or a capability's rejection. */
  datatype Error = TypeError(message: string) | Rejected(reason: string)

  const UnsupportedKind := "Unsupported filesystem kind."

  datatype Outcome = Done | Threw(error: Error)

  /** Everything a generator yields before it returns or throws, and how it ended. */
  datatype Trace = Trace(records: seq<Record>, outcome: Outcome)

  /** `yield* next` after `first`: nothing of `next` runs once `first` has thrown. */
  function Then(first: Trace, next: Trace): Trace {
    if first.outcome.Threw? then first
    else Trace(first.records + next.records, next.outcome)
  }

  lemma ThenAssociative(a: Trace, b: Trace, c: Trace)
    ensures Then(Then(a, b), c) == Then(a, Then(b, c))
  {
  }

  /**
   * An item as the three capabilities of the generic traversal see it:
   * getKind picks the constructor, getEntries yields `children` in order and
   * then rejects with `failure` if it is present, getFile settles to `file`.
   */
  datatype Item =
    | Dir(name: string, children: seq<Item>, failure: Option<string>)
    | File(name: string, file: Result<FileObject>)
    | Other(name: string)
}
