/**
 * The gallery controller: the title of a gallery page, the year-by-year
 * overview of all albums, and the photo list of one album.
 */
module GalleryController {
  import opened Wrappers
  import opened PhpStrings
  import opened Sorting
  import opened ObjectStore
  import opened AlbumNaming

  /** The title of the gallery's root page. */
  const DefaultTitle := "Fotoboek"

  /** PHP's `empty` on a string: true for '' and for '0'. */
  predicate IsPhpEmpty(s: string)
  {
    s == "" || s == "0"
  }

  /**
   * `getTitle`: "Fotoboek" for an empty prefix; otherwise the date part
   * formatted with the year, the separator and the title part, or the whole
   * prefix when the date part does not parse.
   */
  function GetTitle(dates: DateLib, prefix: string): (title: string)
    ensures IsPhpEmpty(prefix) ==> title == DefaultTitle
    ensures !IsPhpEmpty(prefix) && dates.create(DatePart(prefix)).None? ==> title == prefix
    ensures !IsPhpEmpty(prefix) && dates.create(DatePart(prefix)).Some? ==>
      title == dates.format(dates.create(DatePart(prefix)).value, PageFormat) + ControllerSeparator + TitlePart(prefix)
  {
    if IsPhpEmpty(prefix) then DefaultTitle
    else DisplayTitle(dates, prefix, PageFormat, ControllerSeparator)
  }

  // ---- the gallery overview ----

  /** One album of the overview. */
  datatype Album = Album(url: string, title: string, preview: string, sortKey: string)

  /** The albums of one year, as the overview lists them. */
  datatype YearGroup = YearGroup(year: string, albums: seq<Album>)

  /** The key `usort` compares albums by. */
  function SortKey(a: Album): (key: string)
  {
    a.sortKey
  }

  /** The overview entry of folder `prefix` (its preview '' if the listing failed). */
  function AlbumEntry(store: Store, dates: DateLib, prefix: string): (entry: Album)
  {
    var slug := Slug(prefix);
    var preview := match Preview(store, prefix) case Ok(u) => u case Failure => "";
    Album(AlbumUrlPrefix + slug, OverviewTitle(dates, slug), preview, slug)
  }

  /** The entry of album `name`'s folder links to `/photos/name` and sorts by `name`. */
  lemma AlbumEntryOfFolder(store: Store, dates: DateLib, name: string)
    requires name == [] || name[|name| - 1] != '/'
    ensures AlbumEntry(store, dates, FolderOf(name)).url == "/photos/" + name
    ensures AlbumEntry(store, dates, FolderOf(name)).sortKey == name
    ensures AlbumEntry(store, dates, FolderOf(name)).title == OverviewTitle(dates, name)
  {
    SlugOfFolder(name);
  }

  /** The entries of the folders whose year key is `year`, in listing order. */
  function AlbumsOfYear(store: Store, dates: DateLib, folders: seq<string>, year: string): (albums: seq<Album>)
  {
    if folders == [] then []
    else
      var last := folders[|folders| - 1];
      AlbumsOfYear(store, dates, folders[..|folders| - 1], year)
        + if YearOf(last) == year then [AlbumEntry(store, dates, last)] else []
  }

  /** A year with entries has a folder of that year. */
  lemma {:induction false} AlbumsOfYearHaveFolder(store: Store, dates: DateLib, folders: seq<string>, year: string)
    requires AlbumsOfYear(store, dates, folders, year) != []
    ensures exists p :: p in folders && YearOf(p) == year
  {
    var last := folders[|folders| - 1];
    if YearOf(last) != year {
      AlbumsOfYearHaveFolder(store, dates, folders[..|folders| - 1], year);
    }
  }

  /** The year keys of a set of folders. */
  function FolderYears(folders: seq<string>): (years: set<string>)
  {
    set p | p in folders :: YearOf(p)
  }

  /** The year keys of the overview's groups. */
  function GroupYears(groups: seq<YearGroup>): (years: set<string>)
  {
    set g | g in groups :: g.year
  }

  /** Every listing the overview makes succeeds. */
  predicate FullyListed(store: Store)
  {
    store.albumFolders.Ok? && AllListed(store, store.albumFolders.value)
  }

  /**
   * `groups` is the overview of `folders`: one group per year key, the year keys
   * strictly descending, each group holding exactly its year's entries with
   * non-increasing sort keys.
   */
  ghost predicate IsGalleryIndex(store: Store, dates: DateLib, folders: seq<string>, groups: seq<YearGroup>)
  {
    (forall i, j :: 0 <= i < j < |groups| ==> StrCmp(groups[j].year, groups[i].year) < 0)
    && GroupYears(groups) == FolderYears(folders)
    && (forall i :: 0 <= i < |groups| ==>
          multiset(groups[i].albums) == multiset(AlbumsOfYear(store, dates, folders, groups[i].year)))
    && (forall i :: 0 <= i < |groups| ==> SortedDescBy(groups[i].albums, SortKey))
  }

  /**
   * `$prefixes_by_year` while `homePage` fills it: the albums per year key, and
   * the order in which the keys were added.
   */
  datatype YearMap = YearMap(byYear: map<string, seq<Album>>, years: seq<string>)

  /** The keys were added once each, and `years` lists exactly the map's keys. */
  ghost predicate WellKeyed(m: YearMap)
  {
    NoDuplicates(m.years) && forall y :: y in m.byYear <==> y in m.years
  }

  /** `$prefixes_by_year[$year][] = $entry`, creating the key first when it is missing. */
  function AddEntry(m: YearMap, year: string, entry: Album): (r: YearMap)
  {
    var keyed := if year in m.byYear then m else YearMap(m.byYear[year := []], m.years + [year]);
    YearMap(keyed.byYear[year := keyed.byYear[year] + [entry]], keyed.years)
  }

  /** `m` is `$prefixes_by_year` after the first `i` folders. */
  ghost predicate FiledUpTo(store: Store, dates: DateLib, folders: seq<string>, i: nat, m: YearMap)
    requires i <= |folders|
  {
    WellKeyed(m)
    && (forall y :: y in m.byYear <==> y in FolderYears(folders[..i]))
    && (forall y :: y in m.byYear ==> m.byYear[y] == AlbumsOfYear(store, dates, folders[..i], y))
  }

  /** Filing folder `i` under its year key extends the filing to `i + 1` folders. */
  lemma FilingStep(store: Store, dates: DateLib, folders: seq<string>, i: nat, m: YearMap)
    requires i < |folders| && FiledUpTo(store, dates, folders, i, m)
    ensures FiledUpTo(store, dates, folders, i + 1, AddEntry(m, YearOf(folders[i]), AlbumEntry(store, dates, folders[i])))
  {
    var year := YearOf(folders[i]);
    var next := AddEntry(m, year, AlbumEntry(store, dates, folders[i]));
    FolderYearsStep(folders, i);
    AddEntryKeys(m, year, AlbumEntry(store, dates, folders[i]));
    if year !in m.byYear && AlbumsOfYear(store, dates, folders[..i], year) != [] {
      AlbumsOfYearHaveFolder(store, dates, folders[..i], year);
    }
    forall y | y in next.byYear
      ensures next.byYear[y] == AlbumsOfYear(store, dates, folders[..i + 1], y)
    {
      AlbumsOfYearStep(store, dates, folders, i, y);
    }
  }

  /** Adding an entry keeps the keys listed once each, and adds its year to them. */
  lemma AddEntryKeys(m: YearMap, year: string, entry: Album)
    requires WellKeyed(m)
    ensures WellKeyed(AddEntry(m, year, entry))
    ensures forall y :: y in AddEntry(m, year, entry).byYear <==> y in m.byYear || y == year
    ensures AddEntry(m, year, entry).byYear[year] == (if year in m.byYear then m.byYear[year] else []) + [entry]
    ensures forall y :: y in m.byYear && y != year ==> AddEntry(m, year, entry).byYear[y] == m.byYear[y]
  {
  }

  lemma FolderYearsStep(folders: seq<string>, i: nat)
    requires i < |folders|
    ensures FolderYears(folders[..i + 1]) == FolderYears(folders[..i]) + {YearOf(folders[i])}
  {
    assert folders[..i + 1] == folders[..i] + [folders[i]];
  }

  lemma AlbumsOfYearStep(store: Store, dates: DateLib, folders: seq<string>, i: nat, y: string)
    requires i < |folders|
    ensures AlbumsOfYear(store, dates, folders[..i + 1], y) == AlbumsOfYear(store, dates, folders[..i], y)
      + (if YearOf(folders[i]) == y then [AlbumEntry(store, dates, folders[i])] else [])
  {
    assert folders[..i + 1][..i] == folders[..i];
  }

  /**
   * One pass of the `foreach` of `homePage`: makes sure the folder's year key
   * exists, fetches its preview, derives slug and title, and appends the entry.
   */
  method FileFolder(store: Store, dates: DateLib, prefix: string, m: YearMap) returns (r: Result<YearMap>)
    ensures r.Failure? <==> store.objects(prefix).Failure?
    ensures r.Ok? ==> r.value == AddEntry(m, YearOf(prefix), AlbumEntry(store, dates, prefix))
  {
    var byYear, years := m.byYear, m.years;
    var year := YearOf(prefix);
    if year !in byYear {
      byYear := byYear[year := []];
      years := years + [year];
    }
    var preview := ResolvePreview(store, prefix);
    if preview.Failure? {
      return Failure;
    }
    var slug := Slug(prefix);
    var entry := Album(AlbumUrlPrefix + slug, OverviewTitle(dates, slug), preview.value, slug);
    byYear := byYear[year := byYear[year] + [entry]];
    return Ok(YearMap(byYear, years));
  }

  /**
   * The `foreach` of `homePage`: files every folder in listing order, and
   * stops at the first failed listing.
   */
  method FileFolders(store: Store, dates: DateLib, folders: seq<string>) returns (r: Result<YearMap>)
    ensures r.Ok? <==> AllListed(store, folders)
    ensures r.Ok? ==> WellKeyed(r.value)
    ensures r.Ok? ==> forall y :: y in r.value.byYear <==> y in FolderYears(folders)
    ensures r.Ok? ==> forall y :: y in r.value.byYear ==> r.value.byYear[y] == AlbumsOfYear(store, dates, folders, y)
  {
    var m := YearMap(map[], []);
    var i := 0;
    while i < |folders|
      invariant 0 <= i <= |folders|
      invariant AllListed(store, folders[..i])
      invariant FiledUpTo(store, dates, folders, i, m)
    {
      var next := FileFolder(store, dates, folders[i], m);
      if next.Failure? {
        AllListedMeans(store, folders);
        return Failure;
      }
      assert folders[..i + 1][..i] == folders[..i];
      FilingStep(store, dates, folders, i, m);
      m := next.value;
      i := i + 1;
    }
    assert folders[..i] == folders;
    return Ok(m);
  }

  /** `krsort`: the year keys, strictly descending under `strcmp`. */
  method SortYears(years: seq<string>) returns (sorted: seq<string>)
    requires NoDuplicates(years)
    ensures forall y :: y in sorted <==> y in years
    ensures forall i, j :: 0 <= i < j < |sorted| ==> StrCmp(sorted[j], sorted[i]) < 0
  {
    sorted := SortDescBy(years, SelfKey);
    PermutationKeepsNoDuplicates(years, sorted);
    StrictlyDescending(sorted);
    forall y ensures y in sorted <==> y in years {
      assert y in multiset(sorted) <==> y in multiset(years);
    }
  }

  /** The `foreach` by reference of `homePage`: `usort` on each year's albums. */
  method SortAlbums(byYear: map<string, seq<Album>>, years: seq<string>) returns (groups: seq<YearGroup>)
    requires forall y :: y in years ==> y in byYear
    ensures |groups| == |years|
    ensures forall i :: 0 <= i < |groups| ==> groups[i].year == years[i]
    ensures forall i :: 0 <= i < |groups| ==> multiset(groups[i].albums) == multiset(byYear[years[i]])
    ensures forall i :: 0 <= i < |groups| ==> SortedDescBy(groups[i].albums, SortKey)
  {
    groups := [];
    var k := 0;
    while k < |years|
      invariant 0 <= k <= |years|
      invariant |groups| == k
      invariant forall j :: 0 <= j < k ==> groups[j].year == years[j]
      invariant forall j :: 0 <= j < k ==> multiset(groups[j].albums) == multiset(byYear[years[j]])
      invariant forall j :: 0 <= j < k ==> SortedDescBy(groups[j].albums, SortKey)
    {
      var albums := SortDescBy(byYear[years[k]], SortKey);
      groups := groups + [YearGroup(years[k], albums)];
      k := k + 1;
    }
  }

  /** Filing the folders, then sorting the keys and each year, gives their overview. */
  lemma SortedYearMapIsIndex(store: Store, dates: DateLib, folders: seq<string>, m: YearMap,
                             years: seq<string>, groups: seq<YearGroup>)
    requires forall y :: y in m.byYear <==> y in FolderYears(folders)
    requires forall y :: y in m.byYear ==> m.byYear[y] == AlbumsOfYear(store, dates, folders, y)
    requires forall y :: y in years <==> y in m.byYear
    requires forall i, j :: 0 <= i < j < |years| ==> StrCmp(years[j], years[i]) < 0
    requires |groups| == |years|
    requires forall i :: 0 <= i < |groups| ==> groups[i].year == years[i]
    requires forall i :: 0 <= i < |groups| ==> multiset(groups[i].albums) == multiset(m.byYear[years[i]])
    requires forall i :: 0 <= i < |groups| ==> SortedDescBy(groups[i].albums, SortKey)
    ensures IsGalleryIndex(store, dates, folders, groups)
  {
    GroupYearsAreYears(years, groups);
    assert GroupYears(groups) == FolderYears(folders);
    forall i, j | 0 <= i < j < |groups|
      ensures StrCmp(groups[j].year, groups[i].year) < 0
    {
      assert groups[i].year == years[i] && groups[j].year == years[j];
    }
    forall i | 0 <= i < |groups|
      ensures multiset(groups[i].albums) == multiset(AlbumsOfYear(store, dates, folders, groups[i].year))
    {
      assert years[i] in m.byYear;
    }
  }

  /** The groups' years are the sorted year keys they were built from. */
  lemma GroupYearsAreYears(years: seq<string>, groups: seq<YearGroup>)
    requires |groups| == |years|
    requires forall i :: 0 <= i < |groups| ==> groups[i].year == years[i]
    ensures forall y :: y in GroupYears(groups) <==> y in years
  {
    forall y ensures y in GroupYears(groups) <==> y in years {
      if y in years {
        var j :| 0 <= j < |years| && years[j] == y;
        assert groups[j] in groups;
      }
    }
  }

  /**
   * `homePage`: files every folder under its year key with its preview, slug
   * and title, orders the year keys descending (`krsort`) and each year's
   * albums by descending sort key (`usort` with `strcmp`). Any failed listing
   * fails the whole overview.
   */
  method HomePage(store: Store, dates: DateLib) returns (r: Result<seq<YearGroup>>)
    ensures r.Failure? <==> !FullyListed(store)
    ensures r.Ok? ==> IsGalleryIndex(store, dates, store.albumFolders.value, r.value)
  {
    if store.albumFolders.Failure? {
      return Failure;
    }
    var folders := store.albumFolders.value;
    var filed := FileFolders(store, dates, folders);
    if filed.Failure? {
      return Failure;
    }
    var m := filed.value;
    var years := SortYears(m.years);
    var groups := SortAlbums(m.byYear, years);
    SortedYearMapIsIndex(store, dates, folders, m, years, groups);
    return Ok(groups);
  }

  /**
   * PHP turns four-digit year keys into integers and `krsort` compares them as
   * numbers; on such keys the overview's `strcmp` order is that numeric order.
   */
  lemma YearsDescendNumerically(store: Store, dates: DateLib, folders: seq<string>, groups: seq<YearGroup>)
    requires IsGalleryIndex(store, dates, folders, groups)
    requires forall i :: 0 <= i < |groups| ==> |groups[i].year| == 4 && IsDigits(groups[i].year)
    ensures forall i, j :: 0 <= i < j < |groups| ==> DecimalValue(groups[j].year) < DecimalValue(groups[i].year)
  {
    forall i, j | 0 <= i < j < |groups|
      ensures DecimalValue(groups[j].year) < DecimalValue(groups[i].year)
    {
      DigitOrderIsNumeric(groups[j].year, groups[i].year);
    }
  }

  // ---- no album lost or duplicated ----

  /** All albums of the overview, group after group. */
  function AllAlbums(groups: seq<YearGroup>): (albums: seq<Album>)
  {
    if groups == [] then [] else groups[0].albums + AllAlbums(groups[1..])
  }

  /** The entry of every folder, in listing order. */
  function Entries(store: Store, dates: DateLib, folders: seq<string>): (entries: seq<Album>)
  {
    if folders == [] then []
    else Entries(store, dates, folders[..|folders| - 1]) + [AlbumEntry(store, dates, folders[|folders| - 1])]
  }

  /** The groups' year keys, in order. */
  function Years(groups: seq<YearGroup>): (years: seq<string>)
  {
    if groups == [] then [] else [groups[0].year] + Years(groups[1..])
  }

  /** The entries of the years `ys` taken together. */
  ghost function EntriesOfYears(store: Store, dates: DateLib, folders: seq<string>, ys: seq<string>): (entries: multiset<Album>)
  {
    if ys == [] then multiset{}
    else multiset(AlbumsOfYear(store, dates, folders, ys[0])) + EntriesOfYears(store, dates, folders, ys[1..])
  }

  lemma {:induction false} AllAlbumsByYear(store: Store, dates: DateLib, folders: seq<string>, groups: seq<YearGroup>)
    requires forall i :: 0 <= i < |groups| ==>
      multiset(groups[i].albums) == multiset(AlbumsOfYear(store, dates, folders, groups[i].year))
    ensures multiset(AllAlbums(groups)) == EntriesOfYears(store, dates, folders, Years(groups))
  {
    if groups != [] {
      AllAlbumsByYear(store, dates, folders, groups[1..]);
    }
  }

  /** A folder whose year is not among `ys` adds nothing to their entries. */
  lemma {:induction false} EntriesOfOtherYears(store: Store, dates: DateLib, folders: seq<string>, p: string, ys: seq<string>)
    requires YearOf(p) !in ys
    ensures EntriesOfYears(store, dates, folders + [p], ys) == EntriesOfYears(store, dates, folders, ys)
  {
    if ys != [] {
      assert (folders + [p])[..|folders|] == folders;
      EntriesOfOtherYears(store, dates, folders, p, ys[1..]);
    }
  }

  /** A folder whose year occurs once among `ys` adds its entry once. */
  lemma {:induction false} EntriesOfOwnYear(store: Store, dates: DateLib, folders: seq<string>, p: string, ys: seq<string>)
    requires NoDuplicates(ys) && YearOf(p) in ys
    ensures EntriesOfYears(store, dates, folders + [p], ys)
         == EntriesOfYears(store, dates, folders, ys) + multiset{AlbumEntry(store, dates, p)}
  {
    assert (folders + [p])[..|folders|] == folders;
    if ys[0] == YearOf(p) {
      assert YearOf(p) !in ys[1..];
      EntriesOfOtherYears(store, dates, folders, p, ys[1..]);
    } else {
      EntriesOfOwnYear(store, dates, folders, p, ys[1..]);
    }
  }

  lemma {:induction false} EntriesOfAllYears(store: Store, dates: DateLib, folders: seq<string>, ys: seq<string>)
    requires NoDuplicates(ys)
    requires forall p :: p in folders ==> YearOf(p) in ys
    ensures EntriesOfYears(store, dates, folders, ys) == multiset(Entries(store, dates, folders))
  {
    if folders == [] {
      EmptyYears(store, dates, ys);
    } else {
      var init, last := folders[..|folders| - 1], folders[|folders| - 1];
      assert folders == init + [last];
      EntriesOfAllYears(store, dates, init, ys);
      EntriesOfOwnYear(store, dates, init, last, ys);
    }
  }

  lemma {:induction false} EmptyYears(store: Store, dates: DateLib, ys: seq<string>)
    ensures EntriesOfYears(store, dates, [], ys) == multiset{}
  {
    if ys != [] {
      EmptyYears(store, dates, ys[1..]);
    }
  }

  lemma {:induction false} YearsOfGroups(groups: seq<YearGroup>)
    ensures |Years(groups)| == |groups|
    ensures forall i :: 0 <= i < |groups| ==> Years(groups)[i] == groups[i].year
  {
    if groups != [] {
      YearsOfGroups(groups[1..]);
    }
  }

  /**
   * The overview holds every folder's entry exactly once: its albums, taken
   * together, are the folders' entries up to order.
   */
  lemma NoAlbumLostOrDuplicated(store: Store, dates: DateLib, folders: seq<string>, groups: seq<YearGroup>)
    requires IsGalleryIndex(store, dates, folders, groups)
    ensures multiset(AllAlbums(groups)) == multiset(Entries(store, dates, folders))
    ensures |AllAlbums(groups)| == |folders|
  {
    YearsOfGroups(groups);
    var ys := Years(groups);
    assert NoDuplicates(ys);
    forall p | p in folders ensures YearOf(p) in ys {
      assert YearOf(p) in FolderYears(folders);
      var g :| g in groups && g.year == YearOf(p);
      var i :| 0 <= i < |groups| && groups[i] == g;
      assert ys[i] == YearOf(p);
    }
    AllAlbumsByYear(store, dates, folders, groups);
    EntriesOfAllYears(store, dates, folders, ys);
    EntriesLength(store, dates, folders);
  }

  lemma {:induction false} EntriesLength(store: Store, dates: DateLib, folders: seq<string>)
    ensures |Entries(store, dates, folders)| == |folders|
  {
    if folders != [] {
      EntriesLength(store, dates, folders[..|folders| - 1]);
    }
  }

  // ---- one album ----

  /**
   * `photoPage`: the URLs of the keys listed under `prefix` that are not folder
   * markers, in listing order; a failed listing fails the page.
   */
  method PhotoPage(store: Store, prefix: string) returns (r: Result<seq<string>>)
    ensures r.Failure? <==> store.objects(prefix).Failure?
    ensures r.Ok? ==>
      var photos := PhotoKeys(store.objects(prefix).value);
      |r.value| == |photos| && forall i :: 0 <= i < |photos| ==> r.value[i] == store.url(photos[i])
  {
    var contents := ListObjects(store, prefix, None);
    if contents.Failure? {
      return Failure;
    }
    var keys := contents.value;
    var images: seq<string> := [];
    var i := 0;
    while i < |keys|
      invariant 0 <= i <= |keys|
      invariant |images| == |PhotoKeys(keys[..i])|
      invariant forall j :: 0 <= j < |images| ==> images[j] == store.url(PhotoKeys(keys[..i])[j])
    {
      var key := keys[i];
      assert keys[..i + 1][..i] == keys[..i];
      if !IsDirectoryMarker(key) {
        images := images + [store.url(key)];
      }
      i := i + 1;
    }
    assert keys[..i] == keys;
    return Ok(images);
  }
}
