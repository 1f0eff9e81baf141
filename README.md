# S3 gallery: album indexing and preview resolution

This project models the core of a Drupal module that shows a photo gallery
stored in an S3 bucket under `photos/<YYYYMMDD_Name>/`. The model covers how
the module turns flat object listings into gallery data:

- `AlbumNaming` derives an album folder's **slug**, its **year key** and its
  **display title**. The slug is the prefix trimmed of `/` with its first
  segment dropped. The year key is bytes 7–10 of the raw prefix. The title is
  the formatted date, a separator and the rest of the slug, or the slug itself
  when the date part does not parse.
- `ObjectStore` holds the bucket and the scans over a listing. The preview is
  the URL of the first non-folder-marker key among at most 5 listed keys, or
  `''`. The photo list keeps the keys that do not end in `/`.
- `GalleryController` models `getTitle`, `homePage` and `photoPage`.
  `homePage` files albums by year key, orders the years descending (`krsort`)
  and orders each year's albums by descending sort key (`usort` with `strcmp`).
  `photoPage` lists an album's photo URLs.
- `RecentAlbumsBlock` models `build`. It sorts the folders descending under
  `strcmp`, keeps the first four and builds an entry for each.
- `PhpStrings` and `Sorting` model the PHP primitives these rely on:
  `strcmp`, `substr`, `trim`, `explode`, `implode`, and `usort` with a
  descending comparator.

PHP strings are byte strings. In this model each `char` of a `string` holds
one byte, so `substr` offsets and `strcmp` are byte-exact. The two title
separators are distinct byte constants:
- the controller's is `" — "` (bytes `20 E2 80 94 20`);
- the block's is `" â€” "` (bytes `20 C3 A2 E2 82 AC E2 80 9D 20`), which is
  the em dash's UTF-8 bytes read as Windows-1252 and saved again as UTF-8.

`OverviewAndBlockTitlesDiffer` proves that the overview and the block title
an album identically exactly when its date does not parse.

The S3 client is a `Store` value. It holds the `CommonPrefixes` of the listing
of `photos/`, a function from a prefix to its listed keys, and `getObjectUrl`.
Each of the two listings is either a value or the exception it threw. A
listing with `MaxKeys` n returns the first n keys of the full listing.
`date_create` and `date_format` are the uninterpreted fields of a `DateLib`.

Two facts about the code that the model keeps:
- Both album listings format the date as `"D j M"`, without a year. Only
  `getTitle` uses `"D j M Y"`.
- The block catches every exception and returns `[]`. `Build` models that
  as `None`.

`krsort` compares year keys as PHP array keys. Four-digit numerals without a
leading zero become integer keys. PHP compares them, and numeric-string keys,
as numbers. The model orders year keys by `strcmp`.
`DigitOrderIsNumeric` and `YearsDescendNumerically` show that this is the
numeric order whenever every year key is four decimal digits. The model
assumes keys of that form when it calls this `krsort`'s order.

## Model

| member | source | states |
|---|---|---|
| `PhpStrings.StrCmp` | src/Controller/GalleryController.php:181 | `strcmp` gives -1, 0 or 1, and 0 exactly when the strings are equal |
| `PhpStrings.StrCmpFlip` | src/Plugin/Block/RecentAlbumsBlock.php:55-57 | swapping the arguments negates `strcmp`, so `strcmp($b, $a)` is the reversed (descending) order |
| `PhpStrings.StrLeTotal` | src/Controller/GalleryController.php:180-182 | any two sort keys are comparable under `strcmp` |
| `PhpStrings.StrLeTransitive` | src/Controller/GalleryController.php:180-182 | the `strcmp` order that `usort` uses is transitive |
| `PhpStrings.DigitOrderIsNumeric` | src/Controller/GalleryController.php:176 | on equal-length numerals `strcmp` orders (and equates) them exactly as their numeric values, which is how PHP compares integer keys and numeric-string keys |
| `PhpStrings.Substr` | src/Controller/GalleryController.php:132 | `substr(s, start, len)` is the bytes from `start` on, at most `len` of them, and `''` past the end |
| `PhpStrings.SubstrSplit` | src/Controller/GalleryController.php:162-163 | the date part followed by the title part is the whole slug |
| `PhpStrings.SubstrFrom` | src/Controller/GalleryController.php:163 | `substr(s, start)` has as many bytes as follow `start`, and none past the end; with `SubstrSplit` it is the rest of the string after `substr(s, 0, start)` |
| `PhpStrings.TrimLeft` | src/Controller/GalleryController.php:155 | the input is a run of `c` followed by the result, which does not start with `c` |
| `PhpStrings.TrimRight` | src/Controller/GalleryController.php:155 | the input is the result followed by a run of `c`, and the result does not end with `c` |
| `PhpStrings.Trim` | src/Controller/GalleryController.php:155 | the input is a run of `/`, the result and another run of `/`, and the result neither starts nor ends with `/` |
| `PhpStrings.RepeatIsAllC` | src/Controller/GalleryController.php:155 | the runs `trim` removes consist of the trimmed byte only |
| `PhpStrings.Explode` | src/Controller/GalleryController.php:155 | `explode` returns at least one piece, none containing the delimiter |
| `PhpStrings.ImplodeExplode` | src/Controller/GalleryController.php:155-158 | `implode` after `explode` on the same delimiter gives back the string |
| `PhpStrings.ExplodeLeadingSegment` | src/Controller/GalleryController.php:155-156 | a leading segment without `/` becomes the first piece, the one `array_shift` removes |
| `PhpStrings.ExplodeWithoutSeparator` | src/Plugin/Block/RecentAlbumsBlock.php:66-67 | a string without the delimiter explodes to itself alone |
| `PhpStrings.Implode` | src/Controller/GalleryController.php:158 | `implode` joins the pieces with the delimiter; `ImplodeExplode` shows it undoes `explode` |
| `Sorting.InsertDescBy` | src/Controller/GalleryController.php:180-182 | inserting into the list being sorted adds exactly that element |
| `Sorting.InsertKeepsSorted` | src/Controller/GalleryController.php:180-182 | inserting keeps the list non-increasing under the comparator `strcmp($b, $a)` |
| `Sorting.SortDescBy` | src/Controller/GalleryController.php:180-183 | `usort` with `strcmp($b, $a)` returns a permutation of its input whose keys never increase |
| `Sorting.PermutationKeepsNoDuplicates` | src/Controller/GalleryController.php:176 | reordering distinct year keys keeps them distinct |
| `Sorting.StrictlyDescending` | src/Controller/GalleryController.php:176 | distinct keys in non-increasing order are strictly decreasing |
| `ObjectStore.ListObjects` | src/Controller/GalleryController.php:140-144 | a listing with `MaxKeys` 5 returns the first `min(5, n)` keys of the full listing, and fails exactly when the store fails |
| `ObjectStore.IsDirectoryMarker` | src/Controller/GalleryController.php:148 | a key is a folder marker exactly when its last byte is `/`; the empty key is not one (`FirstPhoto` and `PhotoKeys` state the scans over it) |
| `ObjectStore.FirstPhoto` | src/Controller/GalleryController.php:146-153 | finds the first key not ending in `/`: every key before it is a folder marker, and it finds none only when all keys are markers |
| `ObjectStore.PreviewOf` | src/Controller/GalleryController.php:146-153 | the URL of the first key that is not a folder marker, or `''` (stated by `PreviewIsFirstPhotoUrl`) |
| `ObjectStore.PreviewIsFirstPhotoUrl` | src/Controller/GalleryController.php:146-153 | the preview is the URL of the key before which every key is a folder marker and which is not one, and `''` when all keys are markers |
| `ObjectStore.Preview` | src/Controller/GalleryController.php:139-153 | an album's preview from its capped listing, or its failure (stated by `PreviewOfFirstFive`) |
| `ObjectStore.PreviewOfFirstFive` | src/Controller/GalleryController.php:139-153 | the preview fails exactly when the album's listing throws, and otherwise is taken from its first `min(5, n)` keys |
| `ObjectStore.ResolvePreview` | src/Controller/GalleryController.php:139-153 | the preview is the URL of the first photo among at most 5 listed keys, or `''`; it fails exactly when the listing throws |
| `ObjectStore.PreviewSeesOnlyFirstFive` | src/Plugin/Block/RecentAlbumsBlock.php:76-91 | when the first five keys are all folder markers the preview is `''`, whatever keys follow |
| `ObjectStore.PhotoKeys` | src/Controller/GalleryController.php:198-205 | the kept keys are exactly the listed keys not ending in `/`, and there are no more of them than listed keys |
| `ObjectStore.PhotoKeysOfConcat` | src/Controller/GalleryController.php:199-204 | the filter commutes with concatenation, so kept keys stay in listing order |
| `ObjectStore.AllListedMeans` | src/Controller/GalleryController.php:140-144 | the loops over folders get through exactly when no folder's listing throws |
| `AlbumNaming.Slug` | src/Controller/GalleryController.php:155-158 | the folder prefix trimmed of `/`, its first segment dropped and the rest joined by `/` (`SlugOfFolder` gives its value on every folder) |
| `AlbumNaming.PathSlug` | src/Controller/GalleryController.php:155-158 | `explode`, `array_shift` and `implode` on a trimmed prefix (`PathSlugOfAlbum` gives its value on `photos/<name>`) |
| `AlbumNaming.YearOf` | src/Controller/GalleryController.php:132 | the year key is bytes 7 to 10 of the prefix, or the shorter tail from byte 7, or `''` |
| `AlbumNaming.TrimFolder` | src/Controller/GalleryController.php:155 | trimming `photos/<name>/` leaves `photos/<name>`, or `photos` for the empty name |
| `AlbumNaming.SlugOfFolder` | src/Plugin/Block/RecentAlbumsBlock.php:66-68 | the slug of folder `photos/<name>/` is `<name>`, for every name not ending in `/` |
| `AlbumNaming.PathSlugOfAlbum` | src/Controller/GalleryController.php:155-158 | dropping the first segment of `photos/<name>` leaves `<name>`, and of `photos` leaves `''` |
| `AlbumNaming.YearOfFolder` | src/Controller/GalleryController.php:132 | the year key `substr(prefix, 7, 4)` of `photos/<name>/` is the first four bytes of `<name>` |
| `AlbumNaming.DisplayTitle` | src/Controller/GalleryController.php:162-165 | the formatted date, separator and title part, or the text itself (stated by `TitleReplacesDatePart`) |
| `AlbumNaming.OverviewTitle` | src/Controller/GalleryController.php:162-165 | the overview's title of a slug (stated by `ListingTitles`) |
| `AlbumNaming.BlockTitle` | src/Plugin/Block/RecentAlbumsBlock.php:70-73 | the block's title of a slug (stated by `ListingTitles`) |
| `AlbumNaming.ListingTitles` | src/Controller/GalleryController.php:162-165 | both listings give the date as `"D j M"`, then `" — "` (overview) or `" â€” "` (block), then the title part; the bare slug when the date part does not parse |
| `AlbumNaming.TitleReplacesDatePart` | src/Controller/GalleryController.php:162-165 | a title is the slug with its first 8 bytes replaced by the formatted date and separator when they parse, and the slug verbatim when they do not |
| `AlbumNaming.OverviewAndBlockTitlesDiffer` | src/Plugin/Block/RecentAlbumsBlock.php:70-73 | the block's title equals the overview's exactly when the date part does not parse |
| `GalleryController.IsPhpEmpty` | src/Controller/GalleryController.php:19 | PHP's `empty` on a string holds for `''` and `'0'` only; `GetTitle` states its effect |
| `GalleryController.GetTitle` | src/Controller/GalleryController.php:18-26 | `'Fotoboek'` for `''` and `'0'`; the whole prefix when its date part does not parse; otherwise the date in `"D j M Y"`, `" — "` and the rest |
| `GalleryController.AlbumEntry` | src/Controller/GalleryController.php:155-172 | the entry of one folder: url, overview title, preview and sort key (stated by `AlbumEntryOfFolder`) |
| `GalleryController.AlbumEntryOfFolder` | src/Controller/GalleryController.php:155-171 | the entry of `photos/<name>/` has url `/photos/<name>`, sort key `<name>` and the overview title of `<name>` |
| `GalleryController.AlbumsOfYearHaveFolder` | src/Controller/GalleryController.php:132-136 | a year key with albums comes from some folder of that year |
| `GalleryController.AddEntry` | src/Controller/GalleryController.php:134-136 | creates the year key when missing and appends the entry under it (stated by `AddEntryKeys`) |
| `GalleryController.AddEntryKeys` | src/Controller/GalleryController.php:134-136 | adding an entry keeps every key listed once, adds its year to the keys, appends the entry to that year and leaves the other years alone |
| `GalleryController.FilingStep` | src/Controller/GalleryController.php:167-172 | filing one more folder appends its entry to its own year and to no other |
| `GalleryController.FileFolder` | src/Controller/GalleryController.php:131-172 | one folder appends its entry under its year key, creating the key if new; it fails exactly when that folder's listing throws |
| `GalleryController.FileFolders` | src/Controller/GalleryController.php:127-174 | after the loop every year key occurs once, the keys are exactly the folders' years, each holds its folders' entries in listing order; it fails exactly when some folder's listing throws |
| `GalleryController.SortYears` | src/Controller/GalleryController.php:176 | `krsort` keeps the same year keys and orders them strictly descending |
| `GalleryController.SortAlbums` | src/Controller/GalleryController.php:179-183 | each year's albums become a permutation of themselves ordered non-increasingly by `sort_key` |
| `GalleryController.HomePage` | src/Controller/GalleryController.php:120-186 | fails exactly when some listing fails; otherwise one group per year key, keys strictly descending, each holding its year's entries (a permutation) ordered by descending `sort_key` |
| `GalleryController.YearsDescendNumerically` | src/Controller/GalleryController.php:176 | with four-digit year keys the overview's years descend as integers, as `krsort` orders them |
| `GalleryController.NoAlbumLostOrDuplicated` | src/Controller/GalleryController.php:130-173 | the overview's albums together are the folders' entries up to order, one per folder |
| `GalleryController.AllAlbumsByYear` | src/Controller/GalleryController.php:179-183 | sorting within years does not change the albums of the overview taken together |
| `GalleryController.EntriesOfAllYears` | src/Controller/GalleryController.php:130-136 | the entries of distinct years covering all folders are all the folders' entries |
| `GalleryController.EntriesLength` | src/Controller/GalleryController.php:130-131 | there is one entry per folder |
| `GalleryController.PhotoPage` | src/Controller/GalleryController.php:191-207 | the URLs of exactly the listed keys not ending in `/`, in listing order; fails exactly when the listing fails |
| `RecentAlbumsBlock.SelectRecent` | src/Plugin/Block/RecentAlbumsBlock.php:55-60 | keeps `min(4, n)` folders in descending `strcmp` order, taken from the input, and every folder left out sorts at or before every folder kept |
| `RecentAlbumsBlock.TopOfSorted` | src/Plugin/Block/RecentAlbumsBlock.php:59-60 | the first n folders of the descending order are taken from the input, stay descending, and sort at or after every folder left out |
| `RecentAlbumsBlock.BlockAlbumOf` | src/Plugin/Block/RecentAlbumsBlock.php:93-97 | a folder's block album: url `/photos/<slug>`, the block title and the preview (stated by `BlockAlbumFor` and `BlockAlbumsOf`) |
| `RecentAlbumsBlock.BlockAlbumFor` | src/Plugin/Block/RecentAlbumsBlock.php:63-97 | one folder's entry: url `/photos/<slug>`, the block title and the preview; `None` exactly when its listing throws |
| `RecentAlbumsBlock.BlockAlbumsOf` | src/Plugin/Block/RecentAlbumsBlock.php:62-98 | one entry per folder, the i-th entry belonging to the i-th folder |
| `RecentAlbumsBlock.AppendBlockAlbum` | src/Plugin/Block/RecentAlbumsBlock.php:93-97 | one pass of the loop extends the album entries of the first i folders to the first i + 1, or fails exactly when folder i's listing throws |
| `RecentAlbumsBlock.BlockAlbums` | src/Plugin/Block/RecentAlbumsBlock.php:62-98 | the loop yields the album entries of all folders in order, and fails exactly when some folder's listing throws |
| `RecentAlbumsBlock.Build` | src/Plugin/Block/RecentAlbumsBlock.php:23-115 | the album entries (url, block title, preview) of the selected folders, in order; `None` (the empty render array) exactly when the folder listing or a selected folder's listing throws |

## Left out

- S3 client construction and credentials (`Settings::get('aws_s3')`, `new S3Client`) are configuration plumbing. The bucket is the `Store` value.
- Pagination is not modelled. Every listing is one page, taken as the whole answer, as the code reads it.
- `date_create` and `date_format` are uninterpreted. The model does not say which strings parse or how a date is formatted, only where their results go.
- Access control (`isAnonymous`), render arrays, cache settings, logging, the error markup of `mainPage`/`myPage`, and `myPage`'s routing are Drupal glue and are not modelled. That routing covers `urldecode`, prefixing `photos/`, and redirecting the root to `mainPage`.
- Exception messages are not modelled. A failed listing is the single value `Failure`.
- `Sorting.SortDescBy`: PHP's `usort` algorithm is not reproduced. The model promises only a permutation in non-increasing order, not the order among equal keys. Folder prefixes are distinct, so equal keys do not arise for the block.
- `GalleryController.SortYears`: for year keys that are not four-digit numerals, PHP 8's mixed int/string key comparison is not modelled. The model compares such keys with `strcmp`.
- `RecentAlbumsBlock.Build` names its chosen folders in a ghost result. The PHP function returns only the albums.
