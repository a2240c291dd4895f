# browser-source in Dafny

A model of browser-source. This library turns what a user drags into a web page
into import candidates for a content-addressed file importer. Three browser APIs
are covered: a legacy `FileList`, a webkit `FileSystemEntry` tree, and a
`FileSystemHandle` tree.

The core is one generic depth-first traversal, `browserFsItemSource`. It walks a
directory tree through three capabilities: list a directory's children, get a
file, and tell an item's kind. It yields one record per item, with `path`,
`content`, `mtime` and `mode`. Three options shape the output:
- `hidden: false` drops dot-named items; an absent `hidden` keeps them.
- `onlyFiles` drops directory records.
- `preserveMtime` picks the file's own modification time.

The entry adapter feeds the traversal from a directory reader. That reader
answers in batches and must be polled until it answers an empty batch. The
file-list adapter maps a flat list of files to candidates, one per file.

The model:

- `interface.dfy` (module `Interface`): the options, the record, the browser
  File, and `Trace`. A `Trace` is what a generator yields until it returns or
  throws. `Item` is an item as the three capabilities see it:
  `Dir(name, children, failure)`, `File(name, file)` or `Other(name)`.
- `util.dfy` (module `Util`): `MsToMtime` and the kind tests.
  - `BrowserFsItemSource` is the traversal as a recursive function. Each call
    gets its own prefix.
  - `WalkSharingOptions` is the traversal as the source writes it. One options
    object is shared by the whole walk, and `options.prefix` is overwritten
    before each child. The method is proved to yield exactly what the function
    yields. It is also proved to leave `PrefixAfter` in the caller's object.
- `util_properties.dfy` (module `UtilProperties`): what every traversal
  guarantees:
  - the mode and mtime policy;
  - each record's path and the tree node it stands for;
  - the hidden-file filter;
  - pre-order, and the order of children;
  - stopping at the first error;
  - record counts on trees with no rejected listing or file read, made only
    of directories and files;
  - a worked three-level tree.
- `fs_entry.dfy` (module `FsEntry`): the directory reader as a class with a
  cursor. `GetDirEntryEntries` is the do-while polling loop, proved equal to
  `ReadAll`. Also here: `GetFsEntryKind`, the entry-to-item view, and
  `FsEntrySource`.
- `file_list.dfy` (module `FileList`): `FileListSource` and its path, mtime
  and mode policy.

Three behaviours of the code are easy to misread; the model follows the code:

- `hidden`: only an explicit `hidden: false` drops dot-named items
  (src/util.ts:45), although the option's comment (src/interface.ts:38-41)
  reads as if dotfiles were left out unless asked for. When the option is
  absent, dotfiles are kept.
  `UtilProperties.ExampleTreeTraversals` shows `A/.b` in the output with no
  options.
- The flat-list path is `webkitRelativePath`, or absent when that is empty. It
  is never the file's bare name (src/file-list.ts:15-16).
- The flat-list mtime is `options.mtime` when one is given, and the file's own
  time otherwise. `preserveMtime` plays no part (src/file-list.ts:17).

## Model

| member | source | states |
|---|---|---|
| `Util.BrowserFsItemSource` | src/util.ts:38-83 | The traversal, with each call's prefix passed by value: the hidden filter, then the directory record and its children in pre-order, a file's one record, or the unsupported-kind TypeError. Its properties are the `UtilProperties` rows below and `Util.WalkSharingOptions`, which proves the source's shared-object loop equal to it. |
| `Util.Children` | src/util.ts:61-64 | The `for await` over a directory's children, each traversed with the parent's path plus "/" as prefix, stopping at the first throw. Its properties: `UtilProperties.ChildrenConcatenate`, `UtilProperties.ChildrenStopAtFirstThrow`, `Util.ChildrenStopAfterThrow`. |
| `Util.PrefixAfter` | src/util.ts:62 | The prefix line 62 leaves in a shared options object after a traversal. `Util.WalkSharingOptions` proves the caller's object ends with it, and `Util.PrefixAfterLeaks` says what it is. |
| `Util.PrefixAfterChildren` | src/util.ts:61-64 | The same for a directory's children: the prefix the last child reached leaves behind. |
| `Util.PrefixAfterLeaks` | src/util.ts:62 | A traversal leaves the caller's prefix unchanged exactly when the item is skipped, is not a directory, or has no children. Otherwise it leaves a path that ends in "/" and begins with the item's own path plus "/". |
| `Util.PrefixAfterChildrenLeaks` | src/util.ts:61-64 | Non-empty children leave a path ending in "/" that begins with the prefix they were given. |
| `Util.MsToMtime` | src/util.ts:15-22 | `secs` is `ms` divided by 1000 and rounded down. `nsecs` is the leftover milliseconds times 1000: between 0 and 999000, a multiple of 1000, and `secs*1000 + nsecs/1000 == ms`. |
| `Util.MtimeRoundTrip` | src/util.ts:15-22 | MsToMtime inverts `MtimeToMs` on every mtime it can produce, those whose `nsecs` is a multiple of 1000 below 1000000. |
| `Util.MsToMtimeNanos` | src/util.ts:20 | The conversion evidently intended: `nsecs` below one second, and `secs*10^9 + nsecs` is exactly `ms` in nanoseconds. |
| `Util.MsToMtimeWrongUnits` | src/util.ts:20 | msToMtime as written stands for the right instant in nanoseconds exactly when `ms` is a whole number of seconds. It has the intended `secs`, and an `nsecs` 1000 times smaller than intended: 1500 ms gives 1 s and 500000 ns instead of 500000000 ns. |
| `Util.IsDirectory` | src/util.ts:24-29 | getKind answers "directory" exactly for directory items. |
| `Util.IsFile` | src/util.ts:31-36 | getKind answers "file" exactly for file items. |
| `Util.WalkSharingOptions` | src/util.ts:38-83 | The traversal with one shared, mutable options object yields exactly the per-call traversal `BrowserFsItemSource`. Each child still sees its parent's path plus "/" as its prefix. Afterwards the caller's object holds the same options except `prefix`, which is now `PrefixAfter`. |
| `Util.ChildrenStopAfterThrow` | src/util.ts:61-64 | Once a child's traversal has thrown, the later children change neither what the directory yields nor the prefix it leaves behind. |
| `Util.ReusedOptionsSeeStalePrefix` | src/util.ts:62 | A directory `A` holding `a.txt` leaves prefix `A/` in the caller's options. A second traversal with those options reports a lone file `b.txt` as `A/b.txt`. With fresh options it is `b.txt`. |
| `UtilProperties.RecordsFollowOptions` | src/util.ts:51-79 | Every record has the configured mode. A record without content is a directory record: it carries the configured mtime and never appears with a truthy `onlyFiles`. A file record's mtime is msToMtime of the file's lastModified when `preserveMtime` is truthy, and the configured mtime otherwise, even when that is undefined. |
| `UtilProperties.ChildrenFollowOptions` | src/util.ts:61-64 | The same mode, mtime and content policy for every record of a directory's children. |
| `UtilProperties.RecordPathsFollowTree` | src/util.ts:45-64 | Every record stands for a node reached by a chain of names from the root. Its path is the original prefix followed by those names joined by "/". A file record holds that node's file, and a directory record names a directory. With `hidden: false`, no name on the chain starts with a dot. |
| `UtilProperties.ChildrenPathsFollowTree` | src/util.ts:61-64 | Every record yielded for a directory's children stands for a node under one of those children, with the path as above. |
| `UtilProperties.DirectoryRecordFirst` | src/util.ts:51-64 | Without `onlyFiles`, a directory yields its own record first: its path, no content, the configured mtime and mode. Every later record's path starts with the directory's path plus "/". |
| `UtilProperties.DotItemDroppedOnlyWhenHiddenFalse` | src/util.ts:45-47 | A dot-named item yields nothing, and nothing under it, when `hidden` is exactly false. When `hidden` is true or absent, a readable dot-named file yields its record, and a dot-named directory yields its own record first unless `onlyFiles` is truthy. |
| `UtilProperties.ChildrenConcatenate` | src/util.ts:61-64 | While no child throws, a directory's children yield the concatenation of each child's records, in enumeration order. |
| `UtilProperties.ChildrenStopAtFirstThrow` | src/util.ts:61-64 | The first child that throws ends the directory. Its records are the last ones yielded, and its error is the outcome. |
| `UtilProperties.CleanTreeRecordCount` | src/util.ts:45-79 | For a tree with no rejected listing or file read, made only of directories and files, the traversal completes. It yields one record per node the hidden filter keeps, leaving out directories when `onlyFiles` is truthy. |
| `UtilProperties.CleanChildrenRecordCount` | src/util.ts:61-64 | The same count for a directory's children. |
| `UtilProperties.SupportedNeverUnsupported` | src/util.ts:51-82 | A tree made only of directories and files never throws "Unsupported filesystem kind.". |
| `UtilProperties.SupportedChildrenNeverUnsupported` | src/util.ts:61-64 | The same for a directory's children. |
| `UtilProperties.UnknownKindThrowsAfterSiblings` | src/util.ts:61-82 | When its earlier siblings all finish without throwing, an item of unknown kind that the hidden filter keeps throws the TypeError, after the records those siblings yielded. A dot-named unknown item under `hidden: false` yields nothing instead. |
| `UtilProperties.ExampleFileRecords` | src/util.ts:68-79 | A file under prefix `p` yields `p + name`, unless the hidden filter drops it. |
| `UtilProperties.ExampleSubdirRecords` | src/util.ts:51-64 | Directory `C` under `A/` yields `A/C` (unless `onlyFiles`), then `A/C/c.txt`. |
| `UtilProperties.ExampleTreeRecords` | src/util.ts:38-83 | The full record list of the tree A {a.txt, .b, C {c.txt}} for any `hidden` and `onlyFiles`. |
| `UtilProperties.ExampleTreeTraversals` | src/util.ts:45-59 | With no options, the tree yields A, A/a.txt, A/.b, A/C, A/C/c.txt. With `hidden: false`, `.b` is gone. With `onlyFiles`, only the three files remain. |
| `FsEntry.DirectoryReader.constructor` | src/fs-entry.ts:11 | A fresh reader starts at its first answer. |
| `FsEntry.DirectoryReader.ReadEntries` | src/fs-entry.ts:12-15 | Each poll returns the reader's next answer (an empty batch once the answers run out) and advances the cursor by one. |
| `FsEntry.ReadAll` | src/fs-entry.ts:17-23 | What polling the reader from a cursor comes to: the entries yielded, the rejection if any, and the number of polls. `FsEntry.ReadAllIsBatchesBeforeStop` and `FsEntry.ReadAllFromBatches` state its properties, and `FsEntry.GetDirEntryEntries` is proved equal to it. |
| `FsEntry.GetDirEntryEntries` | src/fs-entry.ts:8-24 | The do-while loop over a fresh reader yields, fails and polls exactly as `ReadAll` says. |
| `FsEntry.PollStep` | src/fs-entry.ts:17-23 | One poll: a rejection ends the loop with that error, an empty batch ends it cleanly, and a non-empty batch is yielded whole before polling again. |
| `FsEntry.ReadAllIsBatchesBeforeStop` | src/fs-entry.ts:17-23 | Draining yields the concatenation, in order, of every batch before the first empty batch or rejection. It fails exactly when that poll is a rejection. It polls once more than the number of non-empty batches, so always at least once. |
| `FsEntry.ReadAllFromBatches` | src/fs-entry.ts:19-22 | Every entry yielded comes from one of the batches polled: a batch at or after the cursor, and before the cursor plus the number of polls. |
| `FsEntry.GetFsEntryKind` | src/fs-entry.ts:34-36 | The answer is "directory" exactly when the entry is a directory, and "file" otherwise. It is never a third kind. |
| `FsEntry.GetFileEntryFile` | src/fs-entry.ts:26-32 | What `fileEntry.file()` settles to, a File or a rejection. `FsEntry.FileEntrySource` states what the traversal does with it. |
| `FsEntry.EntryView` | src/fs-entry.ts:62-73 | An entry seen through getFsEntryKind, getDirEntryEntries and getFileEntryFile keeps its name. It is a directory exactly when the entry is, and every node under it is a directory or a file. |
| `FsEntry.EntrySourceNeverUnsupported` | src/fs-entry.ts:34-36 | fsEntrySource never throws the unsupported-kind TypeError. |
| `FsEntry.FsEntrySource` | src/fs-entry.ts:62-73 | The generic traversal over the entry capabilities, no options meaning `{}`. Its properties: `FsEntry.EntrySourceNeverUnsupported`, `FsEntry.FileEntrySource`, `FsEntry.FsEntrySourceWithoutOptions` and every `UtilProperties` row, applied to `FsEntry.EntryView`. |
| `FsEntry.FileEntrySource` | src/fs-entry.ts:26-32 | A file entry yields one record streaming the File that `file()` settles to, under the prefix, with the preserveMtime rule and the configured mode. If `file()` rejects, the traversal throws that rejection. With `hidden: false` a dot-named entry yields nothing. |
| `FsEntry.FsEntrySourceWithoutOptions` | src/util.ts:43 | The `= {}` default of browserFsItemSource is built into `FsEntrySource`. Leaving the options out is the same as passing `{}`. |
| `FileList.CandidateOf` | src/file-list.ts:13-19 | The candidate for one file. `FileList.FileListSource`, `FileList.FileListMtime` and `FileList.FileListIgnoresTraversalOptions` state its path, mtime and mode policy. |
| `FileList.FileListSource` | src/file-list.ts:6-21 | One candidate per file, in list order, with no filtering. Each candidate streams its own file. Its path is `webkitRelativePath` when that is non-empty and absent otherwise, never the bare name. Its mode is `options.mode`, absent without options. |
| `FileList.FileListMtime` | src/file-list.ts:17 | A configured mtime is used as given. Without one, the candidate's mtime is exactly msToMtime, as written, of the file's lastModified; `MtimeToMs` maps it back to that lastModified. |
| `FileList.FileListIgnoresTraversalOptions` | src/file-list.ts:6-21 | Two option sets that agree on `mtime` and `mode` give the same candidates. `prefix`, `hidden`, `onlyFiles` and `preserveMtime` have no effect. |
| `FileList.FileListNoOptions` | src/file-list.ts:7-18 | No options gives the same candidates as `{}`. |

## Left out

- src/fs-handle.ts, the handle-style adapter, is not modelled on its own. It
  lists a handle's children in one pass, gets its file and reads its kind. An
  `Item` tree is exactly what those three wrappers present to the traversal.
- Byte streams (`blobToIt`): a record's content is the file object it would
  stream from. Bytes are never read.
- Laziness, promises and back-pressure. Each generator is modelled as the
  finite `Trace` of everything it yields before it returns or throws. These
  are not modelled:
  - a consumer that stops early;
  - two traversals interleaved over the same options object;
  - a consumer that changes the options between pulls.
- A listing that rejects is modelled as rejecting after the children it has
  already yielded (`Dir.failure`). This covers a rejection at any point.
- Numbers: milliseconds, seconds, nanoseconds and modes are unbounded
  integers. Fractional, NaN and infinite `lastModified` values, and the
  `BigInt` conversion of `secs`, are not modelled.
- The directory reader, once its scripted answers run out, keeps answering an
  empty batch.
- An entry is either a directory entry or a file entry. An entry that is
  neither is treated as a file by getFsEntryKind; its `file()` call is not
  modelled.
- Path uniqueness within one traversal is not proved. It holds only when
  siblings have distinct names, which the traversal never checks.
- example/index.ts (drag-and-drop wiring and logging), src/index.ts
  (re-exports) and the type-only src/interface.ts have no behaviour to model.

## Findings

| source | as written | input that shows it | evidently intended | confidence | as-written member | corrected member |
|---|---|---|---|---|---|---|
| src/util.ts:20 | The leftover milliseconds are multiplied by 1000 and stored as `nsecs`, the ipfs-unixfs nanosecond field. That gives microseconds. | `lastModified` 1500 gives `{secs: 1, nsecs: 500000}`, which is 1.0005 s. | `nsecs` is the leftover in nanoseconds, `(ms - secs*1000) * 1000000`: `{secs: 1, nsecs: 500000000}`. | not executed; high | `Util.MsToMtime` (discrepancy proved by `Util.MsToMtimeWrongUnits`) | `Util.MsToMtimeNanos` |
| src/util.ts:62 | Each directory writes its children's prefix into the caller's options object and never restores it. | One options object `{}` is passed to a traversal of directory `A` holding `a.txt`, then to a traversal of a lone file `b.txt`. The second traversal yields `A/b.txt`. | Every traversal's paths start from the prefix the caller gave: `b.txt`. | not executed; high that the leak happens, medium that callers reuse options objects | `Util.WalkSharingOptions` (leak exhibited by `Util.ReusedOptionsSeeStalePrefix`) | `Util.BrowserFsItemSource`, with each call's prefix passed by value (paths proved by `UtilProperties.RecordPathsFollowTree`) |

The records and candidates keep msToMtime as written, so the model states what
the code yields. Switching to `Util.MsToMtimeNanos` changes only `nsecs`, which
it multiplies by 1000 (`Util.MsToMtimeWrongUnits`).
