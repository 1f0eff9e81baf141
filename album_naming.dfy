/**
 * How an album folder `photos/YYYYMMDD_Name/` is named on the gallery pages:
 * its slug, its year key and its display title.
 */
module AlbumNaming {
  import opened Wrappers
  import opened PhpStrings

  /** The root of the photo hierarchy in the bucket. */
  const Root := "photos/"

  /** The path prefix of an album page URL. */
  const AlbumUrlPrefix := "/photos/"

  /**
   * The slug: the prefix trimmed of `/` at both ends, split on `/`, its first
   * segment dropped and the rest joined by `/` again.
   */
  function Slug(prefix: string): (slug: string)
  {
    PathSlug(Trim('/', prefix))
  }

  /** The slug of a prefix already trimmed of `/`: its first segment dropped. */
  function PathSlug(path: string): (slug: string)
  {
    var parts := Explode('/', path);
    Implode('/', parts[1..])
  }

  /** The grouping key of a folder: bytes 7 to 10 of the raw prefix. */
  function YearOf(prefix: string): (year: string)
    ensures |prefix| >= 11 ==> year == prefix[7..11]
    ensures |prefix| < 11 ==> year == if |prefix| > 7 then prefix[7..] else []
  {
    Substr(prefix, 7, 4)
  }

  /** The first eight bytes of a slug, handed to `date_create`. */
  function DatePart(text: string): (date: string)
  {
    Substr(text, 0, 8)
  }

  /** What follows the date part. */
  function TitlePart(text: string): (title: string)
  {
    SubstrFrom(text, 8)
  }

  /** The folder of album `name` lies under the root and ends in `/`. */
  function FolderOf(name: string): (folder: string)
  {
    Root + name + "/"
  }

  /** Trimming a folder removes its final `/`, and the root's too for the empty name. */
  lemma TrimFolder(name: string)
    requires name == [] || name[|name| - 1] != '/'
    ensures Trim('/', FolderOf(name)) == if name == [] then "photos" else "photos/" + name
  {
    var prefix := FolderOf(name);
    assert prefix[0] == 'p';
    assert TrimLeft('/', prefix) == prefix;
    TrimRightOfFolder(name);
  }

  /** `rtrim` of a folder: its final `/` goes, and the root's too for the empty name. */
  lemma TrimRightOfFolder(name: string)
    requires name == [] || name[|name| - 1] != '/'
    ensures TrimRight('/', FolderOf(name)) == if name == [] then "photos" else "photos/" + name
  {
    var prefix := FolderOf(name);
    var body := "photos/" + name;
    assert prefix[..|prefix| - 1] == body;
    assert TrimRight('/', prefix) == TrimRight('/', body);
    if name == [] {
      assert body[..|body| - 1] == "photos";
      assert TrimRight('/', body) == TrimRight('/', "photos");
    } else {
      assert body[|body| - 1] == name[|name| - 1];
    }
  }

  /** The slug of a folder is the album name it was made from. */
  lemma SlugOfFolder(name: string)
    requires name == [] || name[|name| - 1] != '/'
    ensures Slug(FolderOf(name)) == name
  {
    TrimFolder(name);
    PathSlugOfAlbum(name);
  }

  /** Dropping the root segment of `photos/<name>` (or `photos`) leaves `<name>`. */
  lemma {:induction false} PathSlugOfAlbum(name: string)
    ensures PathSlug(if name == [] then "photos" else "photos/" + name) == name
  {
    if name == [] {
      ExplodeWithoutSeparator('/', "photos");
    } else {
      assert "photos/" + name == "photos" + ['/'] + name;
      ExplodeLeadingSegment('/', "photos", name);
      ImplodeExplode('/', name);
    }
  }

  /** The year key of a folder is the first four bytes of its album name. */
  lemma YearOfFolder(name: string)
    requires |name| >= 4
    ensures YearOf(FolderOf(name)) == name[..4]
  {
    assert FolderOf(name)[7..11] == name[..4];
  }

  // ---- display titles ----

  /** A `DateTime` value; its contents are not modelled. */
  datatype Date = Date(stamp: int)

  /**
   * PHP's date functions, left uninterpreted: `create` is `date_create` (None
   * where it returns false) and `format` is `date_format`.
   */
  datatype DateLib = DateLib(create: string -> Option<Date>, format: (Date, string) -> string)

  /** The date format of the album listings. */
  const ListingFormat := "D j M"

  /** The date format of an album page's title. */
  const PageFormat := "D j M Y"

  /** The separator of the gallery overview and page titles: " — " as UTF-8 bytes. */
  const ControllerSeparator := " \U{E2}\U{80}\U{94} "

  /**
   * The separator of the recent-albums block: the UTF-8 bytes of " â€” ",
   * which is how the bytes of " — " read when decoded as Windows-1252.
   */
  const BlockSeparator := " \U{C3}\U{A2}\U{E2}\U{82}\U{AC}\U{E2}\U{80}\U{9D} "

  /**
   * The formatted date, the separator and the title part when the date part
   * parses; the text unchanged otherwise.
   */
  function DisplayTitle(dates: DateLib, text: string, format: string, separator: string): (title: string)
  {
    match dates.create(DatePart(text))
    case Some(date) => dates.format(date, format) + separator + TitlePart(text)
    case None => text
  }

  /** The title of an album in the gallery overview. */
  function OverviewTitle(dates: DateLib, slug: string): (title: string)
  {
    DisplayTitle(dates, slug, ListingFormat, ControllerSeparator)
  }

  /** The title of an album in the recent-albums block. */
  function BlockTitle(dates: DateLib, slug: string): (title: string)
  {
    DisplayTitle(dates, slug, ListingFormat, BlockSeparator)
  }

  /**
   * Both listings title an album by its date as "D j M" (no year) followed by
   * their own separator and the title part, or by the bare slug when the date
   * part does not parse.
   */
  lemma ListingTitles(dates: DateLib, slug: string)
    ensures dates.create(DatePart(slug)).None? ==> OverviewTitle(dates, slug) == slug && BlockTitle(dates, slug) == slug
    ensures dates.create(DatePart(slug)).Some? ==>
      var day := dates.format(dates.create(DatePart(slug)).value, "D j M");
      OverviewTitle(dates, slug) == day + " \U{E2}\U{80}\U{94} " + TitlePart(slug)
      && BlockTitle(dates, slug) == day + " \U{C3}\U{A2}\U{E2}\U{82}\U{AC}\U{E2}\U{80}\U{9D} " + TitlePart(slug)
  {
  }

  /**
   * A title is the text with its date part replaced by the formatted date and
   * separator when the date parses and kept as it is when not: the title part
   * always survives at the end.
   */
  lemma TitleReplacesDatePart(dates: DateLib, text: string, format: string, separator: string)
    ensures DisplayTitle(dates, text, format, separator) ==
      (match dates.create(DatePart(text))
       case Some(date) => dates.format(date, format) + separator
       case None => DatePart(text)) + TitlePart(text)
  {
    SubstrSplit(text, 8);
  }

  /**
   * The overview and the block give an album the same title exactly when its
   * date part does not parse: their separators differ.
   */
  lemma OverviewAndBlockTitlesDiffer(dates: DateLib, slug: string)
    ensures OverviewTitle(dates, slug) == BlockTitle(dates, slug) <==> dates.create(DatePart(slug)).None?
  {
    if dates.create(DatePart(slug)).Some? {
      var f := dates.format(dates.create(DatePart(slug)).value, ListingFormat);
      assert |f + ControllerSeparator + TitlePart(slug)| != |f + BlockSeparator + TitlePart(slug)|;
    }
  }
}
