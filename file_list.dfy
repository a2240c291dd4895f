/**
 * src/file-list.ts: the legacy FileList adapter. It does not recurse and
 * does not filter: every file of the list becomes one import candidate.
 */
module FileList {
  import opened Interface
  import opened Util

  /** FileCandidate: the path is absent when the file has no relative path. */
  datatype Candidate = Candidate(content: FileObject, path: Option<string>, mtime: Mtime, mode: Option<int>)

  /** The candidate for one file of the list. */
  function CandidateOf(file: FileObject, options: Option<Options>): Candidate {
    var configured := if options.Some? then options.value.mtime else None;
    Candidate(
      file,
      if file.webkitRelativePath != "" then Some(file.webkitRelativePath) else None,
      configured.GetOr(MsToMtime(file.lastModified)),
      if options.Some? then options.value.mode else None)
  }

  /**
   * fileListSource: every file of the list comes out once, at its own
   * position, streaming that file; its path is its relative path when it
   * has one and absent otherwise (never its bare name); its mode is the
   * configured one, absent without options.
   */
  function FileListSource(list: seq<FileObject>, options: Option<Options>): (candidates: seq<Candidate>)
    ensures |candidates| == |list|
    ensures forall i :: 0 <= i < |list| ==>
      && candidates[i].content == list[i]
      && (candidates[i].path.Some? <==> list[i].webkitRelativePath != "")
      && (candidates[i].path.Some? ==> candidates[i].path.value == list[i].webkitRelativePath)
      && candidates[i].mode == (if options.Some? then options.value.mode else None)
  {
    seq(|list|, i requires 0 <= i < |list| => CandidateOf(list[i], options))
  }

  /**
   * A configured mtime wins; without one each candidate's mtime is the
   * file's own modification time, whatever `preserveMtime` says.
   */
  lemma FileListMtime(list: seq<FileObject>, options: Option<Options>, i: nat)
    requires i < |list|
    ensures options.Some? && options.value.mtime.Some? ==> FileListSource(list, options)[i].mtime == options.value.mtime.value
    ensures options.None? || options.value.mtime.None? ==> FileListSource(list, options)[i].mtime == MsToMtime(list[i].lastModified)
    ensures options.None? || options.value.mtime.None? ==> MtimeToMs(FileListSource(list, options)[i].mtime) == list[i].lastModified
  {
  }

  /** Only `mtime` and `mode` matter: prefix, hidden, onlyFiles and preserveMtime change nothing. */
  lemma FileListIgnoresTraversalOptions(list: seq<FileObject>, a: Options, b: Options)
    requires a.mtime == b.mtime && a.mode == b.mode
    ensures FileListSource(list, Some(a)) == FileListSource(list, Some(b))
  {
  }

  /** No options at all is the same as `{}`. */
  lemma FileListNoOptions(list: seq<FileObject>)
    ensures FileListSource(list, None) == FileListSource(list, Some(NoOptions))
  {
  }
}
