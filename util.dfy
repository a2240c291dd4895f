/**
 * src/util.ts: the millisecond-to-mtime conversion, the two kind tests and
 * the generic depth-first traversal that all three adapters share.
 */
module Util {
  import opened Interface

  /**
   * msToMtime as written: whole seconds (rounded down), and the leftover
   * milliseconds multiplied by 1000 in the field meant for nanoseconds.
   * That is the leftover in microseconds; see MsToMtimeNanos.
   */
  function MsToMtime(ms: int): (m: Mtime)
    ensures m.secs * 1000 <= ms < m.secs * 1000 + 1000
    ensures 0 <= m.nsecs <= 999000 && m.nsecs % 1000 == 0
    ensures m.secs * 1000 + m.nsecs / 1000 == ms
  {
    // Dafny's division by a positive divisor rounds down, like Math.floor.
    var secs := ms / 1000;
    Mtime(secs, (ms - secs * 1000) * 1000)
  }

  /** The inverse of MsToMtime: the milliseconds that MsToMtime maps to `m`. */
  function MtimeToMs(m: Mtime): int {
    m.secs * 1000 + m.nsecs / 1000
  }

  /** The mtimes MsToMtime produces: `nsecs` a multiple of 1000 below 1000000. */
  predicate InMsToMtimeRange(m: Mtime) {
    0 <= m.nsecs < 1000000 && m.nsecs % 1000 == 0
  }

  lemma MtimeRoundTrip(m: Mtime)
    requires InMsToMtimeRange(m)
    ensures MsToMtime(MtimeToMs(m)) == m
  {
    var ms := MtimeToMs(m);
    assert m.secs * 1000 <= ms < m.secs * 1000 + 1000;
  }

  /** The instant an ipfs-unixfs mtime stands for, in nanoseconds. */
  function Nanos(m: Mtime): int {
    m.secs * 1000000000 + m.nsecs
  }

  /** The conversion evidently intended: the leftover milliseconds in nanoseconds. */
  function MsToMtimeNanos(ms: int): (m: Mtime)
    ensures 0 <= m.nsecs < 1000000000
    ensures Nanos(m) == ms * 1000000
  {
    var secs := ms / 1000;
    Mtime(secs, (ms - secs * 1000) * 1000000)
  }

  /**
   * MsToMtime as written stands for the right instant exactly when the
   * timestamp is a whole second; otherwise its `nsecs` is a thousand times
   * too small. 1500 ms becomes 1 s and 500000 ns instead of 500000000 ns.
   */
  lemma MsToMtimeWrongUnits(ms: int)
    ensures Nanos(MsToMtime(ms)) == ms * 1000000 <==> ms % 1000 == 0
    ensures MsToMtime(ms).secs == MsToMtimeNanos(ms).secs
    ensures MsToMtime(ms).nsecs * 1000 == MsToMtimeNanos(ms).nsecs
    ensures MsToMtime(1500) == Mtime(1, 500000) && MsToMtimeNanos(1500) == Mtime(1, 500000000)
  {
    var secs := ms / 1000;
    var r := ms - secs * 1000;
    assert 0 <= r < 1000 && r == ms % 1000;
    assert Nanos(MsToMtime(ms)) == secs * 1000000000 + r * 1000;
    assert ms * 1000000 == secs * 1000000000 + r * 1000000;
    assert r * 1000000 - r * 1000 == r * 999000;
  }

  /** FileSystemHandleKind, with a third value for whatever else getKind may answer. */
  datatype Kind = KindDirectory | KindFile | KindOther

  /** The getKind capability. */
  function GetKind(item: Item): Kind {
    match item
    case Dir(_, _, _) => KindDirectory
    case File(_, _) => KindFile
    case Other(_) => KindOther
  }

  predicate IsDirectory(item: Item)
    ensures IsDirectory(item) <==> item.Dir?
  {
    GetKind(item) == KindDirectory
  }

  predicate IsFile(item: Item)
    ensures IsFile(item) <==> item.File?
  {
    GetKind(item) == KindFile
  }

  predicate StartsWithDot(name: string) {
    |name| > 0 && name[0] == '.'
  }

  /** The hidden-file filter: only an explicit `hidden: false` drops a dot-named item. */
  predicate Skipped(item: Item, options: Options) {
    options.hidden == Some(false) && StartsWithDot(item.name)
  }

  function PathOf(item: Item, options: Options): string {
    options.prefix.GetOr("") + item.name
  }

  /** The options every child of a directory at `path` is traversed with. */
  function ChildOptions(options: Options, path: string): Options {
    options.(prefix := Some(path + "/"))
  }

  /** How the `for await` over getEntries ends once every child has been traversed. */
  function EndOfListing(failure: Option<string>): Trace {
    match failure
    case None => Trace([], Done)
    case Some(reason) => Trace([], Threw(Rejected(reason)))
  }

  function DirectoryRecords(item: Item, options: Options): seq<Record> {
    if Truthy(options.onlyFiles) then []
    else [Record(PathOf(item, options), None, options.mtime, options.mode)]
  }

  function FileRecord(item: Item, file: FileObject, options: Options): Record {
    Record(PathOf(item, options), Some(file), if Truthy(options.preserveMtime) then Some(MsToMtime(file.lastModified)) else options.mtime, options.mode)
  }

  /**
   * browserFsItemSource run to its end, with the prefix scoped to each call:
   * the records it yields in depth-first pre-order and how it ends.
   */
  function BrowserFsItemSource(item: Item, options: Options): Trace
    decreases item, 1, 0
  {
    if Skipped(item, options) then
      Trace([], Done)
    else if IsDirectory(item) then
      var children := Children(item, item.children, ChildOptions(options, PathOf(item, options)));
      Then(Then(Trace(DirectoryRecords(item, options), Done), children), EndOfListing(item.failure))
    else if IsFile(item) then
      match item.file
      case Err(reason) => Trace([], Threw(Rejected(reason)))
      case Ok(file) => Trace([FileRecord(item, file, options)], Done)
    else
      Trace([], Threw(TypeError(UnsupportedKind)))
  }

  /** The traversals of the children `cs` (a prefix of `parent`'s), one after the other, stopping at the first that throws. */
  function Children(parent: Item, cs: seq<Item>, options: Options): Trace
    requires parent.Dir? && cs <= parent.children
    decreases parent, 0, |cs|
  {
    if cs == [] then
      Trace([], Done)
    else
      assert cs[|cs| - 1] in parent.children;
      Then(Children(parent, cs[..|cs| - 1], options), BrowserFsItemSource(cs[|cs| - 1], options))
  }

  /**
   * The value of `options.prefix` after the source has traversed `item`
   * with one shared, mutable options object: the last child that was
   * reached leaves its own directory path behind.
   */
  function PrefixAfter(item: Item, options: Options): Option<string>
    decreases item, 1, 0
  {
    if Skipped(item, options) || !item.Dir? then options.prefix
    else PrefixAfterChildren(item, item.children, ChildOptions(options, PathOf(item, options)), options.prefix)
  }

  function PrefixAfterChildren(parent: Item, cs: seq<Item>, childOptions: Options, before: Option<string>): Option<string>
    requires parent.Dir? && cs <= parent.children
    decreases parent, 0, |cs|
  {
    if cs == [] then
      before
    else if Children(parent, cs[..|cs| - 1], childOptions).outcome.Threw? then
      PrefixAfterChildren(parent, cs[..|cs| - 1], childOptions, before)
    else
      assert cs[|cs| - 1] in parent.children;
      PrefixAfter(cs[|cs| - 1], childOptions)
  }

  /**
   * What a traversal leaves in a shared options object: the prefix it was
   * given when the item is skipped, is not a directory or has no children;
   * otherwise a directory path ending in "/" at or below the item's own path.
   */
  lemma {:induction false} PrefixAfterLeaks(item: Item, options: Options)
    ensures Skipped(item, options) || !item.Dir? || item.children == [] ==> PrefixAfter(item, options) == options.prefix
    ensures !Skipped(item, options) && item.Dir? && item.children != [] ==>
      var after := PrefixAfter(item, options);
      && after.Some? && PathOf(item, options) + "/" <= after.value
      && after.value[|after.value| - 1] == '/'
    decreases item, 1, 0
  {
    if !Skipped(item, options) && item.Dir? && item.children != [] {
      var path := PathOf(item, options) + "/";
      assert path[|path| - 1] == '/';
      PrefixAfterChildrenLeaks(item, item.children, ChildOptions(options, PathOf(item, options)), options.prefix);
    } else if !Skipped(item, options) && item.Dir? {
      assert item.children == [];
    }
  }

  /** The children of a directory leave a path ending in "/" at or below the prefix they were given. */
  lemma {:induction false} PrefixAfterChildrenLeaks(parent: Item, cs: seq<Item>, childOptions: Options, before: Option<string>)
    requires parent.Dir? && cs <= parent.children && cs != []
    requires childOptions.prefix.Some? && |childOptions.prefix.value| > 0
    requires childOptions.prefix.value[|childOptions.prefix.value| - 1] == '/'
    ensures var after := PrefixAfterChildren(parent, cs, childOptions, before);
      && after.Some? && childOptions.prefix.value <= after.value
      && after.value[|after.value| - 1] == '/'
    decreases parent, 0, |cs|
  {
    var p := childOptions.prefix.value;
    var init := cs[..|cs| - 1];
    if Children(parent, init, childOptions).outcome.Threw? {
      assert init != [];
      PrefixAfterChildrenLeaks(parent, init, childOptions, before);
    } else {
      var child := cs[|cs| - 1];
      assert child in parent.children;
      PrefixAfterLeaks(child, childOptions);
      if !Skipped(child, childOptions) && child.Dir? && child.children != [] {
        var after := PrefixAfter(child, childOptions).value;
        var below := PathOf(child, childOptions) + "/";
        assert below == p + child.name + "/";
        assert below[..|p|] == p;
        assert after[..|below|] == below;
        assert after[..|p|] == p;
      }
    }
  }

  /** Once some children have thrown, the later ones change neither the trace nor the prefix. */
  lemma {:induction false} ChildrenStopAfterThrow(parent: Item, cs: seq<Item>, k: nat, options: Options, before: Option<string>)
    requires parent.Dir? && cs <= parent.children && k <= |cs|
    requires Children(parent, cs[..k], options).outcome.Threw?
    ensures Children(parent, cs, options) == Children(parent, cs[..k], options)
    ensures PrefixAfterChildren(parent, cs, options, before) == PrefixAfterChildren(parent, cs[..k], options, before)
    decreases |cs|
  {
    if k < |cs| {
      var init := cs[..|cs| - 1];
      assert init[..k] == cs[..k];
      ChildrenStopAfterThrow(parent, init, k, options, before);
    } else {
      assert cs[..k] == cs;
    }
  }

  /** The options object the source passes down and mutates. */
  class OptionsObject {
    var hidden: Option<bool>
    var onlyFiles: Option<bool>
    var prefix: Option<string>
    var preserveMtime: Option<bool>
    var mode: Option<int>
    var mtime: Option<Mtime>

    constructor (o: Options)
      ensures Value() == o
    {
      hidden, onlyFiles, prefix := o.hidden, o.onlyFiles, o.prefix;
      preserveMtime, mode, mtime := o.preserveMtime, o.mode, o.mtime;
    }

    function Value(): Options
      reads this
    {
      Options(hidden, onlyFiles, prefix, preserveMtime, mode, mtime)
    }
  }

  /**
   * browserFsItemSource as written: one options object is shared by the
   * whole walk, and each directory writes its children's prefix into it
   * before traversing each child. It yields exactly what the per-call
   * BrowserFsItemSource yields, and leaves PrefixAfter behind in the
   * caller's object.
   */
  method WalkSharingOptions(item: Item, options: OptionsObject) returns (t: Trace)
    modifies options
    ensures t == BrowserFsItemSource(item, old(options.Value()))
    ensures options.Value() == old(options.Value()).(prefix := PrefixAfter(item, old(options.Value())))
    decreases item
  {
    ghost var o := options.Value();
    if options.hidden == Some(false) && StartsWithDot(item.name) {
      return Trace([], Done);
    }
    var path := (if options.prefix.Some? then options.prefix.value else "") + item.name;
    if IsDirectory(item) {
      var own := if options.onlyFiles == Some(true) then [] else [Record(path, None, options.mtime, options.mode)];
      t := Trace(own, Done);
      ghost var childOptions := ChildOptions(o, path);
      var i := 0;
      while i < |item.children| && t.outcome.Done?
        invariant 0 <= i <= |item.children|
        invariant t == Then(Trace(own, Done), Children(item, item.children[..i], childOptions))
        invariant options.Value() == o.(prefix := PrefixAfterChildren(item, item.children[..i], childOptions, o.prefix))
      {
        options.prefix := Some(path + "/");
        var sub := WalkSharingOptions(item.children[i], options);
        assert item.children[..i + 1][..i] == item.children[..i];
        ThenAssociative(Trace(own, Done), Children(item, item.children[..i], childOptions), sub);
        t := Then(t, sub);
        i := i + 1;
      }
      if i < |item.children| {
        ChildrenStopAfterThrow(item, item.children, i, childOptions, o.prefix);
      } else {
        assert item.children[..i] == item.children;
      }
      t := Then(t, EndOfListing(item.failure));
    } else if IsFile(item) {
      match item.file
      case Err(reason) =>
        t := Trace([], Threw(Rejected(reason)));
      case Ok(file) =>
        var mtime := if options.preserveMtime == Some(true) then Some(MsToMtime(file.lastModified)) else options.mtime;
        t := Trace([Record(path, Some(file), mtime, options.mode)], Done);
    } else {
      t := Trace([], Threw(TypeError(UnsupportedKind)));
    }
  }

  /**
   * Reusing one options object for two traversals: after a directory `A`
   * holding `a.txt`, a second traversal of a lone file `b.txt` reports it
   * as `A/b.txt` instead of `b.txt`.
   */
  lemma ReusedOptionsSeeStalePrefix(a: FileObject, b: FileObject)
    ensures var first := Dir("A", [File("a.txt", Ok(a))], None);
            var stale := PrefixAfter(first, NoOptions);
            && stale == Some("A/")
            && BrowserFsItemSource(File("b.txt", Ok(b)), NoOptions.(prefix := stale)).records[0].path == "A/b.txt"
            && BrowserFsItemSource(File("b.txt", Ok(b)), NoOptions).records[0].path == "b.txt"
  {
    var first := Dir("A", [File("a.txt", Ok(a))], None);
    var childOptions := ChildOptions(NoOptions, PathOf(first, NoOptions));
    assert first.children[..0] == [];
    assert PathOf(first, NoOptions) == "A";
    assert "A" + "/" == "A/";
    assert childOptions.prefix == Some("A/");
    assert PrefixAfter(first, NoOptions) == PrefixAfter(first.children[0], childOptions);
  }
}
