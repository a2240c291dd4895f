/**
 * src/fs-entry.ts: the webkit FileSystemEntry adapter. A directory entry's
 * children come from a reader that answers in batches and must be polled
 * until it answers an empty one.
 */
module FsEntry {
  import opened Interface
  import opened Util
  import opened UtilProperties

  /** One answer of readEntries: a batch of entries, or a rejection. */
  datatype Poll = Batch(entries: seq<Entry>) | Rejection(reason: string)

  /**
   * A FileSystemEntry. A directory entry is described by the answers its
   * reader gives, poll after poll; a file entry by what `file()` settles to.
   */
  datatype Entry =
    | DirectoryEntry(name: string, polls: seq<Poll>)
    | FileEntry(name: string, file: Result<FileObject>)
  {
    predicate IsDirectory() {
      DirectoryEntry?
    }
  }

  /** The reader's answer at `cursor`; once its answers run out it keeps answering an empty batch. */
  function PollAt(polls: seq<Poll>, cursor: nat): Poll {
    if cursor < |polls| then polls[cursor] else Batch([])
  }

  /** The stateful cursor that `createReader()` hands out. */
  class DirectoryReader {
    const polls: seq<Poll>
    var cursor: nat

    constructor (polls: seq<Poll>)
      ensures this.polls == polls && cursor == 0
    {
      this.polls := polls;
      cursor := 0;
    }

    method ReadEntries() returns (p: Poll)
      modifies this
      ensures p == PollAt(polls, old(cursor))
      ensures cursor == old(cursor) + 1
    {
      p := PollAt(polls, cursor);
      cursor := cursor + 1;
    }
  }

  /** What getDirEntryEntries yields, how it ends, and how many times it polled. */
  datatype Drained = Drained(entries: seq<Entry>, failure: Option<string>, polled: nat)

  /** Polling from `cursor` on until an empty batch or a rejection. */
  function ReadAll(polls: seq<Poll>, cursor: nat): Drained
    decreases |polls| - cursor
  {
    match PollAt(polls, cursor)
    case Rejection(reason) => Drained([], Some(reason), 1)
    case Batch(es) =>
      if es == [] then Drained([], None, 1)
      else
        var rest := ReadAll(polls, cursor + 1);
        Drained(es + rest.entries, rest.failure, rest.polled + 1)
  }

  /** What the whole drain comes to, when `yielded` came from the polls before `cursor` and `rest` is the drain from `cursor` on. */
  function Resume(yielded: seq<Entry>, cursor: nat, rest: Drained): Drained {
    Drained(yielded + rest.entries, rest.failure, cursor + rest.polled)
  }

  /** One poll of the reader, in terms of Resume. */
  lemma PollStep(polls: seq<Poll>, cursor: nat, yielded: seq<Entry>)
    ensures var whole := Resume(yielded, cursor, ReadAll(polls, cursor));
      match PollAt(polls, cursor)
      case Rejection(reason) => whole == Drained(yielded, Some(reason), cursor + 1)
      case Batch(es) =>
        if es == [] then whole == Drained(yielded, None, cursor + 1)
        else whole == Resume(yielded + es, cursor + 1, ReadAll(polls, cursor + 1))
  {
    match PollAt(polls, cursor)
    case Rejection(_) =>
      assert yielded + [] == yielded;
    case Batch(es) =>
      if es == [] {
        assert yielded + [] == yielded;
      } else {
        var rest := ReadAll(polls, cursor + 1);
        assert yielded + (es + rest.entries) == (yielded + es) + rest.entries;
      }
  }

  /** The do-while loop of getDirEntryEntries, over a fresh reader of `dir`. */
  method GetDirEntryEntries(dir: Entry) returns (d: Drained)
    requires dir.DirectoryEntry?
    ensures d == ReadAll(dir.polls, 0)
  {
    var reader := new DirectoryReader(dir.polls);
    var yielded: seq<Entry> := [];
    var failure: Option<string> := None;
    var polling := true;
    ghost var whole := ReadAll(dir.polls, 0);
    assert whole == Resume(yielded, 0, whole);
    while polling
      invariant reader.polls == dir.polls
      invariant polling ==> reader.cursor <= |dir.polls| && failure == None && whole == Resume(yielded, reader.cursor, ReadAll(dir.polls, reader.cursor))
      invariant !polling ==> whole == Drained(yielded, failure, reader.cursor)
      decreases if polling then |dir.polls| + 1 - reader.cursor else 0
    {
      PollStep(dir.polls, reader.cursor, yielded);
      var batch := reader.ReadEntries();
      match batch
      case Rejection(reason) =>
        failure := Some(reason);
        polling := false;
      case Batch(es) =>
        yielded := yielded + es;
        polling := es != [];
    }
    d := Drained(yielded, failure, reader.cursor);
  }

  /** Every entry ReadAll yields sits in one of the batches it polled. */
  lemma {:induction false} ReadAllFromBatches(polls: seq<Poll>, cursor: nat)
    ensures forall x :: x in ReadAll(polls, cursor).entries ==>
      exists j :: cursor <= j < |polls| && j < cursor + ReadAll(polls, cursor).polled && polls[j].Batch? && x in polls[j].entries
    decreases |polls| - cursor
  {
    match PollAt(polls, cursor)
    case Rejection(_) =>
    case Batch(es) =>
      if es != [] {
        ReadAllFromBatches(polls, cursor + 1);
      }
  }

  /** A poll after which getDirEntryEntries polls again: a non-empty batch. */
  predicate Continues(p: Poll) {
    p.Batch? && p.entries != []
  }

  /** The entries of the batches among `polls`, in order. */
  function Concat(polls: seq<Poll>): seq<Entry> {
    if polls == [] then []
    else (if polls[0].Batch? then polls[0].entries else []) + Concat(polls[1..])
  }

  /**
   * When `stop` is the first poll from `cursor` on that is an empty batch
   * or a rejection, draining yields the concatenation of the batches before
   * it, fails exactly when it is a rejection, and polls up to and including
   * it (at least once).
   */
  lemma {:induction false} ReadAllIsBatchesBeforeStop(polls: seq<Poll>, cursor: nat, stop: nat)
    requires cursor <= stop <= |polls|
    requires forall j :: cursor <= j < stop ==> Continues(polls[j])
    requires !Continues(PollAt(polls, stop))
    ensures ReadAll(polls, cursor).entries == Concat(polls[cursor..stop])
    ensures ReadAll(polls, cursor).failure == if PollAt(polls, stop).Rejection? then Some(PollAt(polls, stop).reason) else None
    ensures ReadAll(polls, cursor).polled == stop - cursor + 1
    decreases stop - cursor
  {
    if cursor < stop {
      ReadAllIsBatchesBeforeStop(polls, cursor + 1, stop);
      assert polls[cursor..stop][1..] == polls[cursor + 1..stop];
    }
  }

  /** getFsEntryKind: an entry that is not a directory is taken for a file. */
  function GetFsEntryKind(entry: Entry): (k: Kind)
    ensures k != KindOther
    ensures k == KindDirectory <==> entry.IsDirectory()
  {
    if entry.IsDirectory() then KindDirectory else KindFile
  }

  /** getFileEntryFile: what `fileEntry.file()` settles to. */
  function GetFileEntryFile(entry: Entry): Result<FileObject>
    requires entry.FileEntry?
  {
    entry.file
  }

  /**
   * An entry as the traversal's capabilities see it: its kind from
   * getFsEntryKind, its children from getDirEntryEntries, its file from
   * getFileEntryFile.
   */
  function EntryView(entry: Entry): (item: Item)
    ensures item.name == entry.name
    ensures Supported(item)
    ensures item.Dir? <==> entry.IsDirectory()
    decreases entry
  {
    if GetFsEntryKind(entry) == KindDirectory then
      var d := ReadAll(entry.polls, 0);
      ReadAllFromBatches(entry.polls, 0);
      var children := seq(|d.entries|, i requires 0 <= i < |d.entries| =>
        // the entry is below `entry`: it sits in one of `entry`'s batches
        assert d.entries[i] in d.entries;
        assert exists j :: 0 <= j < |entry.polls| && entry.polls[j].Batch? && d.entries[i] in entry.polls[j].entries;
        EntryView(d.entries[i]));
      Dir(entry.name, children, d.failure)
    else
      File(entry.name, GetFileEntryFile(entry))
  }

  /** fsEntrySource: the generic traversal over the entry capabilities; no options means `{}`. */
  function FsEntrySource(entry: Entry, options: Option<Options>): Trace {
    BrowserFsItemSource(EntryView(entry), options.GetOr(NoOptions))
  }

  /** getFsEntryKind only answers "directory" or "file", so the traversal of an entry never throws the unsupported-kind TypeError. */
  lemma EntrySourceNeverUnsupported(entry: Entry, options: Option<Options>)
    ensures !ThrewUnsupported(FsEntrySource(entry, options))
  {
    SupportedNeverUnsupported(EntryView(entry), options.GetOr(NoOptions));
  }

  /**
   * A file entry yields one record streaming the File that `file()`
   * settles to, or throws the rejection `file()` settles to; nothing when
   * `hidden: false` hides it.
   */
  lemma FileEntrySource(entry: Entry, options: Option<Options>)
    requires entry.FileEntry?
    ensures var o := options.GetOr(NoOptions);
      var t := FsEntrySource(entry, options);
      if o.hidden == Some(false) && StartsWithDot(entry.name) then t == Trace([], Done)
      else match GetFileEntryFile(entry)
        case Err(reason) => t == Trace([], Threw(Rejected(reason)))
        case Ok(f) =>
          && t.outcome == Done
          && t.records == [Record(o.prefix.GetOr("") + entry.name, Some(f),
                                  if Truthy(o.preserveMtime) then Some(MsToMtime(f.lastModified)) else o.mtime, o.mode)]
  {
    var item := EntryView(entry);
    assert item == File(entry.name, entry.file);
  }

  /** The `= {}` default of browserFsItemSource, built into FsEntrySource: leaving the options out is passing `{}`. */
  lemma FsEntrySourceWithoutOptions(entry: Entry)
    ensures FsEntrySource(entry, None) == FsEntrySource(entry, Some(NoOptions))
  {
  }
}
