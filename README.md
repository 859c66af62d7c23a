# sortPhotoMac core, modelled in Dafny

sortPhotoMac is a macOS tool meant to sort photos into date-based folders. Its
working logic has two small parts, and this project models both:

- **Discovery walk** (`ContentView.parseFileURLRecursive`). A URL dropped on the
  window is flattened into the list of non-directory entries below it. Directories
  are walked recursively in listing order. A URL that is not a file URL yields
  nothing. A directory whose listing fails yields nothing, and the rest of the
  walk goes on.
- **Capture-date resolution** (`Photo.init`, `loadDateString`,
  `getLastModifiedDate`, `DateFormatter.exifFormater`, `parseEXIFDate`). The date
  string comes from the EXIF dictionary, else from the TIFF dictionary. It is read
  in the layout `yyyy:MM:dd HH:mm:ss`. If there is no string, or it does not
  parse, the file's creation date is used, else its modification date.

Files:

- `wrappers.dfy` (module `Wrappers`): `Option`, with Swift's `??` as `OrElse`, and
  `FirstPresent`, the first present value of an ordered list of alternatives.
- `discovery.dfy` (module `Discovery`): the filesystem is a finite tree of
  `Entry` values. A `Directory` carries its listing and a `readable` flag, which
  stands for whether `contentsOfDirectory` succeeds. A `Url` is either a
  `RemoteUrl` (not the file scheme) or a `FileUrl` naming an entry. `Flatten` and
  `FlattenListing` specify the walk. The method `ParseFileUrlRecursive` is the
  walk itself: a loop that appends, with recursion for subdirectories. It is
  proved equal to the specification.
- `exif_date.dfy` (module `ExifDate`): dates are calendar components
  (`DateTime`), not instants. `Parse` is the formatter's `date(from:)` for the
  fixed layout. `Format` writes the layout. The two are proved inverse in both
  directions.
- `photo.dfy` (module `Photos`): the image source, its property dictionaries and
  the file attributes are `Option` inputs. `NewPhoto` is `Photo.init`.

The layout is all-numeric, so the formatter's `de_DE` locale
(sortPhotoMac/Photo.swift:47) does not change what it accepts. The comment on that
line says "US_POSIX", but the code sets German. The model follows the code. This
makes no difference to the result.

Two consequences of what the code does:

- The walk does no image-type filtering and no deduplication. Every
  non-directory entry is returned, once per time it is listed.
- A present but unparseable EXIF string hides the TIFF string. The `??` picks
  the string before it is parsed, so the TIFF string is never tried and the
  filesystem dates are used instead (`Photos.ExifStringHidesTiffString`).

## Model

| member | source | states |
|---|---|---|
| Discovery.Discover | sortPhotoMac/ContentView.swift:54-77 | A non-file URL yields the empty list. A file URL of a non-directory yields exactly `[url]`. An unreadable directory yields the empty list. |
| Discovery.ParseFileUrlRecursive | sortPhotoMac/ContentView.swift:54-77 | The looping, appending, recursive walk returns exactly what the specification `Discover` gives for the URL. |
| Discovery.FlattenListingAppend | sortPhotoMac/ContentView.swift:61-68 | The walk of a concatenated listing is the walk of the first part followed by the walk of the second, in listing order. |
| Discovery.ContributionOrder | sortPhotoMac/ContentView.swift:61-68 | The result for a listing is: the contributions of the items before item i, then item i's contribution, then the contributions of the items after it. |
| Discovery.UnreadableDirectorySkipped | sortPhotoMac/ContentView.swift:64 | A listed directory that cannot be read contributes nothing. Its siblings before and after are still walked. |
| Discovery.FlattenSound | sortPhotoMac/ContentView.swift:63-66 | Every yielded URL is a file URL of a file (never a directory). Its path extends the walked path and leads to that file through readable directories. |
| Discovery.ListingSound | sortPhotoMac/ContentView.swift:61-67 | Every URL yielded by a listing is a file URL of a file. It lies under one listed item whose name is the next path component. |
| Discovery.FlattenComplete | sortPhotoMac/ContentView.swift:61-67 | Every file reachable through readable directories is yielded, under the walked path extended by its relative path. |
| Discovery.ListingComplete | sortPhotoMac/ContentView.swift:61-67 | Every file reachable from a listing is yielded by the walk of that listing. |
| Discovery.DiscoverYieldsExactlyReachableFiles | sortPhotoMac/ContentView.swift:54-77 | A URL is in the result of a dropped file URL if and only if it names a file reachable from it through readable directories, under its path. |
| Discovery.FlattenLength | sortPhotoMac/ContentView.swift:61-67 | The length of the result is the number of files listed by readable directories, so nothing is filtered or deduplicated. |
| Discovery.ListingLength | sortPhotoMac/ContentView.swift:61-67 | The length of a listing's result is the number of files it reaches through readable directories. |
| ExifDate.Parse | sortPhotoMac/Photo.swift:44-50 | A string in the layout `yyyy:MM:dd HH:mm:ss` is parsed. Any result is a real date and time of the Gregorian calendar. |
| ExifDate.Format | sortPhotoMac/Photo.swift:48 | A date and time is written in the layout: 19 characters, separators in their places, and digits in every field. |
| ExifDate.ParseExifDate | sortPhotoMac/Photo.swift:52-55 | An absent string gives no date. A present string gives exactly what `Parse` gives for it, always a valid date and time. |
| ExifDate.ParseFormat | sortPhotoMac/Photo.swift:48 | Parsing the written form of any valid date and time gives back exactly its components. |
| ExifDate.FormatParse | sortPhotoMac/Photo.swift:48 | The parser accepts only the exact layout: every accepted string is the written form of its result. |
| ExifDate.ExampleDate | sortPhotoMac/Photo.swift:59 | `2015:07:09 18:43:04` parses to year 2015, month 7, day 9, 18:43:04. |
| Wrappers.FirstPresentIsFirst | sortPhotoMac/Photo.swift:29-31 | A present result of the ordered `??` chain is one of its alternatives, and every alternative before it is absent. |
| Photos.LoadDateString | sortPhotoMac/Photo.swift:23-32 | There is no string when the image source or its properties cannot be obtained. Otherwise it is the EXIF dictionary's date string, else the TIFF one, else nothing. |
| Photos.GetLastModifiedDate | sortPhotoMac/Photo.swift:36-41 | There is no date when the attributes cannot be read. Otherwise it is the creation date, else the modification date, else nothing. |
| Photos.NewPhoto | sortPhotoMac/Photo.swift:16-20 | The URL is stored unchanged. A parseable metadata date is the photo's date. Otherwise the photo's date is the filesystem date. |
| Photos.DateIsFirstSuccessfulStrategy | sortPhotoMac/Photo.swift:16-20 | The photo's date is the first success of the ordered strategies: metadata, then creation date, then modification date. |
| Photos.MetadataDateWins | sortPhotoMac/Photo.swift:18-19 | With a parseable metadata date, the filesystem attributes do not affect the photo's date. |
| Photos.CreationBeforeModification | sortPhotoMac/Photo.swift:39-40 | Without a parseable metadata date, a present creation date is the photo's date, whatever the modification date is. |
| Photos.NoDateOnlyWhenAllSourcesFail | sortPhotoMac/Photo.swift:16-41 | The photo has no date if and only if there is no parseable metadata date, no creation date and no modification date. |
| Photos.ExifStringHidesTiffString | sortPhotoMac/Photo.swift:18-19 | An EXIF date string that is present but does not parse hides the TIFF string. The photo's date is then the filesystem date. |
| Photos.ExamplePhoto | sortPhotoMac/Photo.swift:59 | A photo whose EXIF date string is `2015:07:09 18:43:04` has that date, whatever its file attributes are. |

## Left out

- The SwiftUI view body (sortPhotoMac/ContentView.swift:14-52): the drop target, the list and image preview, and the "Clear" and "Start" buttons. It is presentation only. "Start" has an empty action.
- Drop handling through `loadItem` completion callbacks that append to `files` (sortPhotoMac/ContentView.swift:20-28). It is asynchronous and callback-driven.
- `FileManager.contentsOfDirectory`, `attributesOfItem`, `URL.isFileURL` and `hasDirectoryPath`. They are inputs: the entry tree, the `readable` flag and the `Option` attributes.
- Discovery.FlattenSound: `hasDirectoryPath` on the dropped URL (sortPhotoMac/ContentView.swift:58) looks only at a trailing slash in the URL's text. The model assumes the dropped URL ends in a slash exactly when it names a directory. A directory dropped without a trailing slash is returned by the source as `[url]`, so a directory can then be in the output, which the model does not capture.
- Symbolic links, link cycles and changes to the filesystem during the walk. The finite tree rules them out.
- The image-reading library (`ImageSource`, `propertiesForImage`, the EXIF and TIFF dictionaries). These become `Option` inputs per dictionary.
- ExifDate.Parse: the platform formatter's leniency is not modelled. The model takes exactly four year digits and two digits per other field, nothing before or after, and years 0000-9999. The formatter's handling of other widths and of year 0 is not modelled. Before 1582-10-15 the formatter's calendar uses Julian leap years; the model uses Gregorian rules for every year, so it rejects a date such as `1500:02:29 00:00:00` that the formatter accepts.
- Time zones: the conversion of the parsed wall-clock time into an instant is not modelled. This includes local times that a daylight-saving change skips, where the real formatter fails. Filesystem dates are given as calendar components of the same type.
- The shared formatter instance: `exifFormater` builds a fresh formatter on every access, which is the pure function `Parse`.
- sortPhotoMac/SortConfiguration.swift: an unused record with no behaviour.
- Destination-path building, collision renaming, copying or moving, and batch orchestration. None of these exist in the modelled code.
