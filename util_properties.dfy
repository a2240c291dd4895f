/**
 * What the generic traversal of src/util.ts promises about every record it
 * yields: the mode and mtime policy, the path of each record and the tree
 * node it stands for, the hidden-file filter, pre-order, and how many
 * records a tree without failures produces.
 */
module UtilProperties {
  import opened Interface
  import opened Util

  // ---------------------------------------------------------------------
  // Mode, mtime and content
  // ---------------------------------------------------------------------

  /**
   * Every record carries the configured mode. A directory record (no
   * content) carries the configured mtime and only appears without
   * `onlyFiles`; a file record's mtime is the file's own when
   * `preserveMtime` is truthy and the configured one otherwise.
   */
  predicate FollowsOptions(r: Record, options: Options) {
    && r.mode == options.mode
    && (r.content.None? ==> r.mtime == options.mtime && !Truthy(options.onlyFiles))
    && (r.content.Some? ==>
          r.mtime == if Truthy(options.preserveMtime) then Some(MsToMtime(r.content.value.lastModified)) else options.mtime)
  }

  lemma {:induction false} RecordsFollowOptions(item: Item, options: Options)
    ensures forall r :: r in BrowserFsItemSource(item, options).records ==> FollowsOptions(r, options)
    decreases item, 1, 0
  {
    if !Skipped(item, options) && item.Dir? {
      var childOptions := ChildOptions(options, PathOf(item, options));
      ChildrenFollowOptions(item, item.children, childOptions);
    }
  }

  lemma {:induction false} ChildrenFollowOptions(parent: Item, cs: seq<Item>, options: Options)
    requires parent.Dir? && cs <= parent.children
    ensures forall r :: r in Children(parent, cs, options).records ==> FollowsOptions(r, options)
    decreases parent, 0, |cs|
  {
    if cs != [] {
      assert cs[|cs| - 1] in parent.children;
      ChildrenFollowOptions(parent, cs[..|cs| - 1], options);
      RecordsFollowOptions(cs[|cs| - 1], options);
    }
  }

  // ---------------------------------------------------------------------
  // Paths
  // ---------------------------------------------------------------------

  /** Names joined by "/". */
  function Join(names: seq<string>): string {
    if |names| <= 1 then (if names == [] then "" else names[0])
    else names[0] + "/" + Join(names[1..])
  }

  /** `names` spells a way down from `item` to `node`, one name per level. */
  ghost predicate Reaches(item: Item, names: seq<string>, node: Item)
    decreases item
  {
    && |names| > 0
    && names[0] == item.name
    && if |names| == 1 then node == item
       else item.Dir? && exists i :: 0 <= i < |item.children| && Reaches(item.children[i], names[1..], node)
  }

  ghost predicate NoDotNames(names: seq<string>) {
    forall i :: 0 <= i < |names| ==> !StartsWithDot(names[i])
  }

  /**
   * A record stands for the node at the end of `names`: its path is the
   * prefix followed by the names joined by "/", a file record holds that
   * node's file, a directory record names a directory, and with
   * `hidden: false` no name on the way starts with a dot.
   */
  ghost predicate StandsFor(r: Record, options: Options, item: Item, names: seq<string>, node: Item) {
    && Reaches(item, names, node)
    && r.path == options.prefix.GetOr("") + Join(names)
    && (r.content.Some? ==> node.File? && node.file == Ok(r.content.value))
    && (r.content.None? ==> node.Dir?)
    && (options.hidden == Some(false) ==> NoDotNames(names))
  }

  lemma {:induction false} RecordPathsFollowTree(item: Item, options: Options)
    ensures forall r :: r in BrowserFsItemSource(item, options).records ==>
      exists names, node :: StandsFor(r, options, item, names, node)
    decreases item, 1, 0
  {
    if Skipped(item, options) || !item.Dir? {
      forall r | r in BrowserFsItemSource(item, options).records
        ensures StandsFor(r, options, item, [item.name], item)
      {
      }
    } else {
      var path := PathOf(item, options);
      var childOptions := ChildOptions(options, path);
      ChildrenPathsFollowTree(item, item.children, childOptions);
      forall r | r in BrowserFsItemSource(item, options).records
        ensures exists names, node :: StandsFor(r, options, item, names, node)
      {
        if r in DirectoryRecords(item, options) {
          assert StandsFor(r, options, item, [item.name], item);
        } else {
          assert r in Children(item, item.children, childOptions).records;
          var i, names', node :| 0 <= i < |item.children| && StandsFor(r, childOptions, item.children[i], names', node);
          var names := [item.name] + names';
          assert names[1..] == names';
          assert Join(names) == item.name + "/" + Join(names');
          assert r.path == options.prefix.GetOr("") + Join(names);
          assert StandsFor(r, options, item, names, node);
        }
      }
    }
  }

  lemma {:induction false} ChildrenPathsFollowTree(parent: Item, cs: seq<Item>, options: Options)
    requires parent.Dir? && cs <= parent.children
    ensures forall r :: r in Children(parent, cs, options).records ==>
      exists i, names, node :: 0 <= i < |cs| && StandsFor(r, options, cs[i], names, node)
    decreases parent, 0, |cs|
  {
    if cs != [] {
      var init, last := cs[..|cs| - 1], cs[|cs| - 1];
      assert last in parent.children;
      ChildrenPathsFollowTree(parent, init, options);
      RecordPathsFollowTree(last, options);
      forall r | r in Children(parent, cs, options).records
        ensures exists i, names, node :: 0 <= i < |cs| && StandsFor(r, options, cs[i], names, node)
      {
        if r in Children(parent, init, options).records {
          var i, names, node :| 0 <= i < |init| && StandsFor(r, options, init[i], names, node);
          assert cs[i] == init[i];
        } else {
          var names, node :| StandsFor(r, options, last, names, node);
          assert cs[|cs| - 1] == last;
        }
      }
    }
  }

  /**
   * Pre-order: unless `onlyFiles` is truthy, a directory's own record comes
   * first and every later record lies under the directory's path.
   */
  lemma DirectoryRecordFirst(item: Item, options: Options)
    requires item.Dir? && !Skipped(item, options) && !Truthy(options.onlyFiles)
    ensures var records := BrowserFsItemSource(item, options).records;
      && |records| > 0
      && records[0] == Record(PathOf(item, options), None, options.mtime, options.mode)
      && forall k :: 1 <= k < |records| ==> PathOf(item, options) + "/" <= records[k].path
  {
    var path := PathOf(item, options);
    var childOptions := ChildOptions(options, path);
    var records := BrowserFsItemSource(item, options).records;
    var below := Children(item, item.children, childOptions).records;
    assert records == DirectoryRecords(item, options) + below;
    ChildrenPathsFollowTree(item, item.children, childOptions);
    forall k | 1 <= k < |records|
      ensures path + "/" <= records[k].path
    {
      assert records[k] in below;
      var i, names, node :| 0 <= i < |item.children| && StandsFor(records[k], childOptions, item.children[i], names, node);
      assert records[k].path == (path + "/") + Join(names);
    }
  }

  // ---------------------------------------------------------------------
  // Order of the children
  // ---------------------------------------------------------------------

  /** The records of `traces`, one trace after the other. */
  function ConcatRecords(traces: seq<Trace>): seq<Record> {
    if traces == [] then [] else traces[0].records + ConcatRecords(traces[1..])
  }

  lemma {:induction false} ConcatRecordsAppend(traces: seq<Trace>, t: Trace)
    ensures ConcatRecords(traces + [t]) == ConcatRecords(traces) + t.records
    decreases |traces|
  {
    if traces != [] {
      assert (traces + [t])[1..] == traces[1..] + [t];
      ConcatRecordsAppend(traces[1..], t);
    }
  }

  /** Each child's traversal, in the order getEntries yields the children. */
  function Traversals(cs: seq<Item>, options: Options): seq<Trace> {
    seq(|cs|, i requires 0 <= i < |cs| => BrowserFsItemSource(cs[i], options))
  }

  /**
   * While no child throws, the children's records are each child's
   * records, concatenated in enumeration order, nothing dropped, repeated
   * or reordered.
   */
  lemma {:induction false} ChildrenConcatenate(parent: Item, cs: seq<Item>, options: Options)
    requires parent.Dir? && cs <= parent.children
    requires forall i :: 0 <= i < |cs| ==> BrowserFsItemSource(cs[i], options).outcome == Done
    ensures Children(parent, cs, options) == Trace(ConcatRecords(Traversals(cs, options)), Done)
    decreases |cs|
  {
    if cs != [] {
      var init := cs[..|cs| - 1];
      ChildrenConcatenate(parent, init, options);
      assert Traversals(cs, options) == Traversals(init, options) + [BrowserFsItemSource(cs[|cs| - 1], options)];
      ConcatRecordsAppend(Traversals(init, options), BrowserFsItemSource(cs[|cs| - 1], options));
    }
  }

  /** The first child that throws ends the directory: its records are the last, its error the outcome. */
  lemma ChildrenStopAtFirstThrow(parent: Item, cs: seq<Item>, k: nat, options: Options)
    requires parent.Dir? && cs <= parent.children && k < |cs|
    requires forall i :: 0 <= i < k ==> BrowserFsItemSource(cs[i], options).outcome == Done
    requires BrowserFsItemSource(cs[k], options).outcome.Threw?
    ensures Children(parent, cs, options) == Trace(ConcatRecords(Traversals(cs[..k + 1], options)), BrowserFsItemSource(cs[k], options).outcome)
  {
    var upto := cs[..k + 1];
    assert upto[..k] == cs[..k];
    ChildrenConcatenate(parent, cs[..k], options);
    assert Traversals(upto, options) == Traversals(cs[..k], options) + [BrowserFsItemSource(cs[k], options)];
    ConcatRecordsAppend(Traversals(cs[..k], options), BrowserFsItemSource(cs[k], options));
    ChildrenStopAfterThrow(parent, cs, k + 1, options, None);
  }

  /**
   * The hidden-file filter: a dot-named item yields nothing, and nothing
   * under it, when `hidden` is false. When `hidden` is true or absent, a
   * readable dot-named file yields its record, and a dot-named directory
   * yields its own record first (unless `onlyFiles`).
   */
  lemma DotItemDroppedOnlyWhenHiddenFalse(item: Item, options: Options)
    requires StartsWithDot(item.name)
    ensures options.hidden == Some(false) ==> BrowserFsItemSource(item, options) == Trace([], Done)
    ensures options.hidden != Some(false) && item.File? && item.file.Ok? ==>
      BrowserFsItemSource(item, options).records == [FileRecord(item, item.file.value, options)]
    ensures options.hidden != Some(false) && item.Dir? && !Truthy(options.onlyFiles) ==>
      var records := BrowserFsItemSource(item, options).records;
      |records| > 0 && records[0] == Record(PathOf(item, options), None, options.mtime, options.mode)
  {
    if options.hidden != Some(false) && item.Dir? && !Truthy(options.onlyFiles) {
      DirectoryRecordFirst(item, options);
    }
  }

  // ---------------------------------------------------------------------
  // Counting, for trees with no rejected listing or file read, made only
  // of directories and files
  // ---------------------------------------------------------------------

  /** No listing or file read rejects and every node is a directory or a file. */
  ghost predicate Clean(item: Item) {
    match item
    case Dir(_, cs, failure) => failure.None? && forall i :: 0 <= i < |cs| ==> Clean(cs[i])
    case File(_, file) => file.Ok?
    case Other(_) => false
  }

  /** The number of records a traversal should yield: the nodes the hidden filter keeps, without directories under `onlyFiles`. */
  ghost function VisibleCount(item: Item, hidden: Option<bool>, onlyFiles: bool): nat
    decreases item, 1, 0
  {
    if hidden == Some(false) && StartsWithDot(item.name) then 0
    else match item
      case Dir(_, cs, _) => (if onlyFiles then 0 else 1) + VisibleCountOf(item, cs, hidden, onlyFiles)
      case File(_, _) => 1
      case Other(_) => 0
  }

  ghost function VisibleCountOf(parent: Item, cs: seq<Item>, hidden: Option<bool>, onlyFiles: bool): nat
    requires parent.Dir? && cs <= parent.children
    decreases parent, 0, |cs|
  {
    if cs == [] then 0
    else
      assert cs[|cs| - 1] in parent.children;
      VisibleCountOf(parent, cs[..|cs| - 1], hidden, onlyFiles) + VisibleCount(cs[|cs| - 1], hidden, onlyFiles)
  }

  lemma {:induction false} CleanTreeRecordCount(item: Item, options: Options)
    requires Clean(item)
    ensures BrowserFsItemSource(item, options).outcome == Done
    ensures |BrowserFsItemSource(item, options).records| == VisibleCount(item, options.hidden, Truthy(options.onlyFiles))
    decreases item, 1, 0
  {
    if !Skipped(item, options) && item.Dir? {
      CleanChildrenRecordCount(item, item.children, ChildOptions(options, PathOf(item, options)));
    }
  }

  lemma {:induction false} CleanChildrenRecordCount(parent: Item, cs: seq<Item>, options: Options)
    requires parent.Dir? && cs <= parent.children
    requires forall i :: 0 <= i < |cs| ==> Clean(cs[i])
    ensures Children(parent, cs, options).outcome == Done
    ensures |Children(parent, cs, options).records| == VisibleCountOf(parent, cs, options.hidden, Truthy(options.onlyFiles))
    decreases parent, 0, |cs|
  {
    if cs != [] {
      assert cs[|cs| - 1] in parent.children;
      CleanChildrenRecordCount(parent, cs[..|cs| - 1], options);
      CleanTreeRecordCount(cs[|cs| - 1], options);
    }
  }

  // ---------------------------------------------------------------------
  // The unsupported-kind error
  // ---------------------------------------------------------------------

  /** Every node is a directory or a file, whatever its capabilities answer. */
  ghost predicate Supported(item: Item) {
    match item
    case Dir(_, cs, _) => forall i :: 0 <= i < |cs| ==> Supported(cs[i])
    case File(_, _) => true
    case Other(_) => false
  }

  predicate ThrewUnsupported(t: Trace) {
    t.outcome == Threw(TypeError(UnsupportedKind))
  }

  lemma {:induction false} SupportedNeverUnsupported(item: Item, options: Options)
    requires Supported(item)
    ensures !ThrewUnsupported(BrowserFsItemSource(item, options))
    decreases item, 1, 0
  {
    if !Skipped(item, options) && item.Dir? {
      SupportedChildrenNeverUnsupported(item, item.children, ChildOptions(options, PathOf(item, options)));
    }
  }

  lemma {:induction false} SupportedChildrenNeverUnsupported(parent: Item, cs: seq<Item>, options: Options)
    requires parent.Dir? && cs <= parent.children
    requires forall i :: 0 <= i < |cs| ==> Supported(cs[i])
    ensures !ThrewUnsupported(Children(parent, cs, options))
    decreases parent, 0, |cs|
  {
    if cs != [] {
      assert cs[|cs| - 1] in parent.children;
      SupportedChildrenNeverUnsupported(parent, cs[..|cs| - 1], options);
      SupportedNeverUnsupported(cs[|cs| - 1], options);
    }
  }

  /** An unknown-kind item the hidden filter keeps throws, after whatever its earlier siblings yielded without throwing. */
  lemma UnknownKindThrowsAfterSiblings(parent: Item, cs: seq<Item>, options: Options)
    requires parent.Dir? && cs <= parent.children && cs != []
    requires cs[|cs| - 1].Other? && !Skipped(cs[|cs| - 1], options)
    requires Children(parent, cs[..|cs| - 1], options).outcome == Done
    ensures Children(parent, cs, options) == Trace(Children(parent, cs[..|cs| - 1], options).records, Threw(TypeError(UnsupportedKind)))
  {
    assert Children(parent, cs[..|cs| - 1], options).records + [] == Children(parent, cs[..|cs| - 1], options).records;
  }

  // ---------------------------------------------------------------------
  // A worked tree
  // ---------------------------------------------------------------------

  function Paths(records: seq<Record>): seq<string> {
    seq(|records|, i requires 0 <= i < |records| => records[i].path)
  }

  /** Directory A holding a.txt, the dotfile .b and directory C holding c.txt. */
  function ExampleTree(a: FileObject, b: FileObject, c: FileObject): Item {
    Dir("A", [File("a.txt", Ok(a)), File(".b", Ok(b)), Dir("C", [File("c.txt", Ok(c))], None)], None)
  }

  /** Options with nothing set but `hidden`, `onlyFiles` and the prefix. */
  predicate PlainOptions(options: Options) {
    options.preserveMtime == None && options.mode == None && options.mtime == None
  }

  lemma ExampleFileRecords(name: string, f: FileObject, options: Options, prefix: string)
    requires PlainOptions(options) && options.prefix == Some(prefix)
    ensures BrowserFsItemSource(File(name, Ok(f)), options) ==
      Trace(if Skipped(File(name, Ok(f)), options) then [] else [Record(prefix + name, Some(f), None, None)], Done)
  {
  }

  lemma ExampleSubdirRecords(c: FileObject, options: Options)
    requires PlainOptions(options) && options.prefix == Some("A/")
    ensures BrowserFsItemSource(Dir("C", [File("c.txt", Ok(c))], None), options) ==
      Trace((if Truthy(options.onlyFiles) then [] else [Record("A/C", None, None, None)]) + [Record("A/C/c.txt", Some(c), None, None)], Done)
  {
    var sub := Dir("C", [File("c.txt", Ok(c))], None);
    assert PathOf(sub, options) == "A/C";
    var inner := ChildOptions(options, "A/C");
    assert "A/C" + "/" == "A/C/";
    ExampleFileRecords("c.txt", c, inner, "A/C/");
    assert "A/C/" + "c.txt" == "A/C/c.txt";
    assert sub.children[..0] == [];
    assert !StartsWithDot("c.txt");
    var own := if Truthy(options.onlyFiles) then [] else [Record("A/C", None, None, None)];
    assert DirectoryRecords(sub, options) == own;
    assert Children(sub, sub.children, inner) == Trace([Record("A/C/c.txt", Some(c), None, None)], Done);
  }

  /** The records of ExampleTree when only `hidden` and `onlyFiles` are set. */
  lemma ExampleTreeRecords(a: FileObject, b: FileObject, c: FileObject, options: Options)
    requires PlainOptions(options) && options.prefix == None
    ensures var dirs := !Truthy(options.onlyFiles);
      var dots := options.hidden != Some(false);
      BrowserFsItemSource(ExampleTree(a, b, c), options).records ==
        (if dirs then [Record("A", None, None, None)] else [])
        + [Record("A/a.txt", Some(a), None, None)]
        + (if dots then [Record("A/.b", Some(b), None, None)] else [])
        + (if dirs then [Record("A/C", None, None, None)] else [])
        + [Record("A/C/c.txt", Some(c), None, None)]
  {
    var tree := ExampleTree(a, b, c);
    var cs := tree.children;
    assert PathOf(tree, options) == "A";
    var co := ChildOptions(options, "A");
    assert "A" + "/" == "A/";
    ExampleFileRecords("a.txt", a, co, "A/");
    ExampleFileRecords(".b", b, co, "A/");
    ExampleSubdirRecords(c, co);
    assert "A/" + "a.txt" == "A/a.txt" && "A/" + ".b" == "A/.b";
    assert cs[..3] == cs && cs[..3][..2] == cs[..2] && cs[..2][..1] == cs[..1] && cs[..1][..0] == [];
    assert !StartsWithDot("a.txt") && StartsWithDot(".b") && !StartsWithDot("C");
    var first := [Record("A/a.txt", Some(a), None, None)];
    assert Children(tree, cs[..1], co) == Trace(first, Done);
    var second := first + (if options.hidden != Some(false) then [Record("A/.b", Some(b), None, None)] else []);
    assert Children(tree, cs[..2], co) == Trace(second, Done);
    var sub := (if Truthy(options.onlyFiles) then [] else [Record("A/C", None, None, None)]) + [Record("A/C/c.txt", Some(c), None, None)];
    assert Children(tree, cs, co) == Trace(second + sub, Done);
  }

  /** Without options the dotfile is kept: only `hidden: false` drops it. */
  lemma ExampleTreeTraversals(a: FileObject, b: FileObject, c: FileObject)
    ensures Paths(BrowserFsItemSource(ExampleTree(a, b, c), NoOptions).records) == ["A", "A/a.txt", "A/.b", "A/C", "A/C/c.txt"]
    ensures Paths(BrowserFsItemSource(ExampleTree(a, b, c), NoOptions.(hidden := Some(false))).records) == ["A", "A/a.txt", "A/C", "A/C/c.txt"]
    ensures Paths(BrowserFsItemSource(ExampleTree(a, b, c), NoOptions.(onlyFiles := Some(true))).records) == ["A/a.txt", "A/.b", "A/C/c.txt"]
  {
    ExampleTreeRecords(a, b, c, NoOptions);
    ExampleTreeRecords(a, b, c, NoOptions.(hidden := Some(false)));
    ExampleTreeRecords(a, b, c, NoOptions.(onlyFiles := Some(true)));
  }
}
