/**
  The recursive discovery walk of the drop target: a dropped URL is flattened
  into the list of the non-directory entries below it.

  The filesystem is a finite tree of entries. A directory carries the result of
  listing it: `readable` is false when the listing fails (bad permissions, say),
  and `items` is the listing, in the order the filesystem returns it.
*/
module Discovery {

  type Path = seq<string>

  datatype Entry =
    | File(name: string)
    | Directory(name: string, readable: bool, items: seq<Entry>)

  /** A URL: either one that does not use the file scheme, or a file URL naming an entry. */
  datatype Url =
    | RemoteUrl(address: string)
    | FileUrl(path: Path, entry: Entry)

  // ---------------------------------------------------------------------------
  // Specification of the walk

  /** What the walk yields for the entry found at `path`. */
  function Flatten(path: Path, e: Entry): (r: seq<Url>)
    decreases e, 1
  {
    match e
    case File(_) => [FileUrl(path, e)]
    case Directory(_, readable, items) =>
      if readable then FlattenListing(path, items) else []
  }

  /** What the walk yields for the listing `items` of the directory at `dir`. */
  function FlattenListing(dir: Path, items: seq<Entry>): (r: seq<Url>)
    decreases items, 0
  {
    if items == [] then []
    else Flatten(dir + [items[0].name], items[0]) + FlattenListing(dir, items[1..])
  }

  /** What the walk yields for a dropped URL. */
  function Discover(url: Url): (r: seq<Url>)
    ensures url.RemoteUrl? ==> r == []
    ensures url.FileUrl? && url.entry.File? ==> r == [url]
    ensures url.FileUrl? && url.entry.Directory? && !url.entry.readable ==> r == []
  {
    match url
    case RemoteUrl(_) => []
    case FileUrl(path, entry) => Flatten(path, entry)
  }

  // ---------------------------------------------------------------------------
  // The walk itself

  /**
    The walk as the drop handler runs it: a file URL that is a directory is
    listed and its items are visited in listing order, subdirectories by a
    recursive call, anything else by appending its own URL.
  */
  method ParseFileUrlRecursive(url: Url) returns (urls: seq<Url>)
    ensures urls == Discover(url)
    decreases if url.FileUrl? then url.entry else File("")
  {
    if !url.FileUrl? {
      return [];
    }
    urls := [];
    if url.entry.Directory? {
      if !url.entry.readable {
        // the listing failed: this directory contributes nothing
        return [];
      }
      var items := url.entry.items;
      for i := 0 to |items|
        invariant urls == FlattenListing(url.path, items[..i])
      {
        // the URL of the item, relative to the URL of the directory that lists it
        var url2 := FileUrl(url.path + [items[i].name], items[i]);
        if url2.entry.Directory? {
          var sub := ParseFileUrlRecursive(url2);
          urls := urls + sub;
        } else {
          urls := urls + [url2];
        }
        FlattenListingAppend(url.path, items[..i], [items[i]]);
        assert items[..i + 1] == items[..i] + [items[i]];
      }
      assert items[..|items|] == items;
    } else {
      return [url];
    }
  }

  // ---------------------------------------------------------------------------
  // Order: listings concatenate

  lemma {:induction false} FlattenListingAppend(dir: Path, a: seq<Entry>, b: seq<Entry>)
    ensures FlattenListing(dir, a + b) == FlattenListing(dir, a) + FlattenListing(dir, b)
    decreases a
  {
    if a == [] {
      assert a + b == b;
    } else {
      assert (a + b)[0] == a[0];
      assert (a + b)[1..] == a[1..] + b;
      FlattenListingAppend(dir, a[1..], b);
    }
  }

  /**
    Everything contributed by the items before position `i` precedes the
    contribution of item `i`, which precedes everything from the items after it.
  */
  lemma ContributionOrder(dir: Path, items: seq<Entry>, i: nat)
    requires i < |items|
    ensures FlattenListing(dir, items)
         == FlattenListing(dir, items[..i])
          + Flatten(dir + [items[i].name], items[i])
          + FlattenListing(dir, items[i + 1..])
  {
    assert items == items[..i] + ([items[i]] + items[i + 1..]);
    FlattenListingAppend(dir, items[..i], [items[i]] + items[i + 1..]);
    assert ([items[i]] + items[i + 1..])[1..] == items[i + 1..];
  }

  /** An unreadable directory contributes nothing, and its siblings are still visited. */
  lemma UnreadableDirectorySkipped(dir: Path, before: seq<Entry>, d: Entry, after: seq<Entry>)
    requires d.Directory? && !d.readable
    ensures FlattenListing(dir, before + [d] + after)
         == FlattenListing(dir, before) + FlattenListing(dir, after)
  {
    assert FlattenListing(dir, [d]) == [] by {
      assert [d][1..] == [];
    }
    FlattenListingAppend(dir, before, [d]);
    FlattenListingAppend(dir, before + [d], after);
  }

  // ---------------------------------------------------------------------------
  // Which entries are yielded: exactly the files reachable through readable directories

  /** `target` is found by following `rel` from `e`, entering only directories that can be listed. */
  ghost predicate Reachable(e: Entry, rel: Path, target: Entry)
    decreases rel, 1
  {
    if rel == [] then target == e
    else e.Directory? && e.readable && ReachableIn(e.items, rel, target)
  }

  /** `target` is found by following `rel` from the listing `items`. */
  ghost predicate ReachableIn(items: seq<Entry>, rel: Path, target: Entry)
    decreases rel, 0
  {
    rel != [] &&
    exists i :: 0 <= i < |items| && items[i].name == rel[0] && Reachable(items[i], rel[1..], target)
  }

  /** Every URL yielded is a file URL of a file, reached from the walked entry by its own path. */
  lemma {:induction false} FlattenSound(path: Path, e: Entry, u: Url)
    requires u in Flatten(path, e)
    ensures u.FileUrl? && u.entry.File?
    ensures |path| <= |u.path| && u.path[..|path|] == path
    ensures Reachable(e, u.path[|path|..], u.entry)
    decreases e, 1
  {
    match e
    case File(_) =>
      assert u.path[|path|..] == [];
    case Directory(_, readable, items) =>
      ListingSound(path, items, u);
  }

  lemma {:induction false} ListingSound(dir: Path, items: seq<Entry>, u: Url)
    requires u in FlattenListing(dir, items)
    ensures u.FileUrl? && u.entry.File?
    ensures |dir| < |u.path| && u.path[..|dir|] == dir
    ensures ReachableIn(items, u.path[|dir|..], u.entry)
    decreases items, 0
  {
    var sub := dir + [items[0].name];
    if u in Flatten(sub, items[0]) {
      FlattenSound(sub, items[0], u);
      var rel := u.path[|dir|..];
      assert u.path[..|dir|] == u.path[..|sub|][..|dir|];
      assert rel[0] == u.path[..|sub|][|dir|];
      assert rel[1..] == u.path[|sub|..];
    } else {
      ListingSound(dir, items[1..], u);
      var rel := u.path[|dir|..];
      var i :| 0 <= i < |items[1..]| && items[1..][i].name == rel[0]
                && Reachable(items[1..][i], rel[1..], u.entry);
      assert items[i + 1] == items[1..][i];
    }
  }

  /** Every file reachable through readable directories is yielded, under its path. */
  lemma {:induction false} FlattenComplete(path: Path, e: Entry, rel: Path, f: Entry)
    requires f.File? && Reachable(e, rel, f)
    ensures FileUrl(path + rel, f) in Flatten(path, e)
    decreases rel, 1
  {
    if rel == [] {
      assert path + rel == path;
    } else {
      ListingComplete(path, e.items, rel, f);
    }
  }

  lemma {:induction false} ListingComplete(dir: Path, items: seq<Entry>, rel: Path, f: Entry)
    requires f.File? && ReachableIn(items, rel, f)
    ensures FileUrl(dir + rel, f) in FlattenListing(dir, items)
    decreases rel, 0
  {
    var i :| 0 <= i < |items| && items[i].name == rel[0] && Reachable(items[i], rel[1..], f);
    var sub := dir + [items[i].name];
    FlattenComplete(sub, items[i], rel[1..], f);
    assert sub + rel[1..] == dir + rel;
    ContributionOrder(dir, items, i);
  }

  /** A dropped URL yields only file URLs of files, and every file below it, under its own path. */
  lemma DiscoverYieldsExactlyReachableFiles(path: Path, e: Entry, u: Url)
    ensures u in Discover(FileUrl(path, e))
        <==> u.FileUrl? && u.entry.File? && |path| <= |u.path| && u.path[..|path|] == path
             && Reachable(e, u.path[|path|..], u.entry)
  {
    if u in Discover(FileUrl(path, e)) {
      FlattenSound(path, e, u);
    }
    if u.FileUrl? && u.entry.File? && |path| <= |u.path| && u.path[..|path|] == path
       && Reachable(e, u.path[|path|..], u.entry) {
      FlattenComplete(path, e, u.path[|path|..], u.entry);
      assert path + u.path[|path|..] == u.path;
    }
  }

  // ---------------------------------------------------------------------------
  // How many: one URL per reachable file, no filtering and no deduplication

  /** The number of files in the tree, counting only what readable directories list. */
  function FileCount(e: Entry): (n: nat)
    decreases e, 1
  {
    match e
    case File(_) => 1
    case Directory(_, readable, items) => if readable then ListingFileCount(items) else 0
  }

  function ListingFileCount(items: seq<Entry>): (n: nat)
    decreases items, 0
  {
    if items == [] then 0 else FileCount(items[0]) + ListingFileCount(items[1..])
  }

  lemma {:induction false} FlattenLength(path: Path, e: Entry)
    ensures |Flatten(path, e)| == FileCount(e)
    decreases e, 1
  {
    match e
    case File(_) =>
    case Directory(_, readable, items) =>
      if readable {
        ListingLength(path, items);
      }
  }

  lemma {:induction false} ListingLength(dir: Path, items: seq<Entry>)
    ensures |FlattenListing(dir, items)| == ListingFileCount(items)
    decreases items, 0
  {
    if items != [] {
      FlattenLength(dir + [items[0].name], items[0]);
      ListingLength(dir, items[1..]);
    }
  }
}
