/**
 * The "Recent Albums" block: the four albums whose folder names sort last,
 * newest first, each with its link, title and preview.
 */
module RecentAlbumsBlock {
  import opened Wrappers
  import opened PhpStrings
  import opened Sorting
  import opened ObjectStore
  import opened AlbumNaming

  /** How many albums the block shows. */
  const RecentCount: nat := 4

  /** One album of the block. */
  datatype BlockAlbum = BlockAlbum(url: string, title: string, preview: string)

  /** The entry of folder `prefix` (its preview '' if the listing failed). */
  function BlockAlbumOf(store: Store, dates: DateLib, prefix: string): (album: BlockAlbum)
  {
    var slug := Slug(prefix);
    var preview := match Preview(store, prefix) case Ok(u) => u case Failure => "";
    BlockAlbum(AlbumUrlPrefix + slug, BlockTitle(dates, slug), preview)
  }

  /**
   * `recent` holds the `min(4, |folders|)` folders that sort last under
   * `strcmp`, in descending order: every folder left out sorts at or before
   * every folder kept.
   */
  ghost predicate IsRecentSelection(folders: seq<string>, recent: seq<string>)
  {
    |recent| == Min(RecentCount, |folders|)
    && multiset(recent) <= multiset(folders)
    && SortedDescBy(recent, SelfKey)
    && forall p, q :: p in multiset(folders) - multiset(recent) && q in recent ==> StrLe(p, q)
  }

  /** `usort` of the folders, descending under `strcmp`, then `array_slice(..., 0, 4)`. */
  method SelectRecent(folders: seq<string>) returns (recent: seq<string>)
    ensures IsRecentSelection(folders, recent)
  {
    var sorted := SortDescBy(folders, SelfKey);
    assert |sorted| == |multiset(sorted)| == |multiset(folders)| == |folders|;
    recent := sorted[..Min(RecentCount, |sorted|)];
    TopOfSorted(folders, sorted, Min(RecentCount, |sorted|));
  }

  /** The first `n` elements of a descending permutation are its `n` largest. */
  lemma TopOfSorted(folders: seq<string>, sorted: seq<string>, n: nat)
    requires multiset(sorted) == multiset(folders) && SortedDescBy(sorted, SelfKey) && n <= |sorted|
    ensures multiset(sorted[..n]) <= multiset(folders)
    ensures SortedDescBy(sorted[..n], SelfKey)
    ensures forall p, q :: p in multiset(folders) - multiset(sorted[..n]) && q in sorted[..n] ==> StrLe(p, q)
  {
    var top, rest := sorted[..n], sorted[n..];
    assert sorted == top + rest;
    assert multiset(folders) - multiset(top) == multiset(rest);
    RestBelowTop(sorted, n);
  }

  lemma RestBelowTop(sorted: seq<string>, n: nat)
    requires SortedDescBy(sorted, SelfKey) && n <= |sorted|
    ensures forall p, q :: p in sorted[n..] && q in sorted[..n] ==> StrLe(p, q)
  {
    forall p, q | p in sorted[n..] && q in sorted[..n]
      ensures StrLe(p, q)
    {
      var j :| 0 <= j < |sorted[n..]| && sorted[n..][j] == p;
      var i :| 0 <= i < |sorted[..n]| && sorted[..n][i] == q;
      assert sorted[n + j] == p && sorted[i] == q;
    }
  }

  /**
   * One pass of the `foreach` of `build`: slug, title and preview of one
   * folder; None when its listing fails.
   */
  method BlockAlbumFor(store: Store, dates: DateLib, prefix: string) returns (r: Option<BlockAlbum>)
    ensures r.None? <==> store.objects(prefix).Failure?
    ensures r.Some? ==> r.value == BlockAlbumOf(store, dates, prefix)
  {
    var slug := Slug(prefix);
    var title := BlockTitle(dates, slug);
    var preview := ResolvePreview(store, prefix);
    if preview.Failure? {
      return None;
    }
    return Some(BlockAlbum(AlbumUrlPrefix + slug, title, preview.value));
  }

  /** The album entries of `folders`, in order. */
  function BlockAlbumsOf(store: Store, dates: DateLib, folders: seq<string>): (albums: seq<BlockAlbum>)
    ensures |albums| == |folders|
    ensures forall i :: 0 <= i < |folders| ==> albums[i] == BlockAlbumOf(store, dates, folders[i])
  {
    if folders == [] then []
    else BlockAlbumsOf(store, dates, folders[..|folders| - 1]) + [BlockAlbumOf(store, dates, folders[|folders| - 1])]
  }

  /** One more pass of the `foreach`: appends the entry of `folders[i]`. */
  method AppendBlockAlbum(store: Store, dates: DateLib, folders: seq<string>, i: nat, albums: seq<BlockAlbum>)
    returns (r: Option<seq<BlockAlbum>>)
    requires i < |folders| && albums == BlockAlbumsOf(store, dates, folders[..i])
    ensures r.None? <==> store.objects(folders[i]).Failure?
    ensures r.Some? ==> r.value == BlockAlbumsOf(store, dates, folders[..i + 1])
  {
    var entry := BlockAlbumFor(store, dates, folders[i]);
    if entry.None? {
      return None;
    }
    assert folders[..i + 1][..i] == folders[..i];
    return Some(albums + [entry.value]);
  }

  /**
   * The `foreach` of `build`: one entry per folder, in order; stops at the
   * first failed listing.
   */
  method BlockAlbums(store: Store, dates: DateLib, folders: seq<string>) returns (r: Option<seq<BlockAlbum>>)
    ensures r.Some? <==> AllListed(store, folders)
    ensures r.Some? ==> r.value == BlockAlbumsOf(store, dates, folders)
  {
    var albums: seq<BlockAlbum> := [];
    var i := 0;
    while i < |folders|
      invariant 0 <= i <= |folders|
      invariant AllListed(store, folders[..i])
      invariant albums == BlockAlbumsOf(store, dates, folders[..i])
    {
      var next := AppendBlockAlbum(store, dates, folders, i, albums);
      if next.None? {
        AllListedMeans(store, folders);
        return None;
      }
      assert folders[..i + 1][..i] == folders[..i];
      albums, i := next.value, i + 1;
    }
    assert folders[..i] == folders;
    return Some(albums);
  }

  /**
   * `build`: the album entries of the recent folders, in selection order. A failed
   * listing, of the folders or of one of the chosen albums, yields the empty
   * render array (None) instead of a partial list; `recent` names the chosen
   * folders.
   */
  method Build(store: Store, dates: DateLib) returns (r: Option<seq<BlockAlbum>>, ghost recent: seq<string>)
    ensures store.albumFolders.Ok? ==> IsRecentSelection(store.albumFolders.value, recent)
    ensures r.Some? <==> store.albumFolders.Ok? && AllListed(store, recent)
    ensures r.Some? ==> r.value == BlockAlbumsOf(store, dates, recent)
  {
    if store.albumFolders.Failure? {
      return None, [];
    }
    var folders := SelectRecent(store.albumFolders.value);
    r := BlockAlbums(store, dates, folders);
    recent := folders;
  }
}
