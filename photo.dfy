/**
  A photo and the resolution of its capture date: the metadata date string
  (from the EXIF dictionary, else the TIFF dictionary) read in the EXIF layout,
  else the file's creation date, else its modification date.

  What the image-reading library and the file manager would report for the
  photo's URL is passed in as values.
*/
module Photos {
  import opened Wrappers
  import opened ExifDate
  import Discovery

  /** One metadata dictionary of an image (EXIF or TIFF), as far as its date string goes. */
  datatype PropertyDictionary = PropertyDictionary(dateTime: Option<string>)

  /** The properties of the first image of a file; either dictionary may be missing. */
  datatype ImageProperties = ImageProperties(exif: Option<PropertyDictionary>, tiff: Option<PropertyDictionary>)

  /** An image source opened on the file; reading its properties may fail. */
  datatype ImageSource = ImageSource(propertiesForImage: Option<ImageProperties>)

  /** The file's attributes; either date may be missing (or not be a date). */
  datatype FileAttributes = FileAttributes(creationDate: Option<DateTime>, modificationDate: Option<DateTime>)

  datatype Photo = Photo(fileUrl: Discovery.Url, dateTime: Option<DateTime>)

  /**
    The metadata date string: nothing without an image source or its
    properties, otherwise the EXIF date string, else the TIFF one.
  */
  function LoadDateString(source: Option<ImageSource>): (r: Option<string>)
    ensures source.None? || source.value.propertiesForImage.None? ==> r.None?
    ensures source.Some? && source.value.propertiesForImage.Some? ==>
              var p := source.value.propertiesForImage.value;
              r == FirstPresent([if p.exif.Some? then p.exif.value.dateTime else None,
                                 if p.tiff.Some? then p.tiff.value.dateTime else None])
  {
    match source
    case None => None
    case Some(src) =>
      match src.propertiesForImage
      case None => None
      case Some(properties) =>
        // the optional chains `properties.get(...)?.dateTime`, EXIF first
        var exifDate := if properties.exif.Some? then properties.exif.value.dateTime else None;
        var tiffDate := if properties.tiff.Some? then properties.tiff.value.dateTime else None;
        exifDate.OrElse(tiffDate)
  }

  /**
    The filesystem date: nothing when the attributes cannot be read, otherwise
    the creation date, else the modification date.
  */
  function GetLastModifiedDate(attributes: Option<FileAttributes>): (r: Option<DateTime>)
    ensures attributes.None? ==> r.None?
    ensures attributes.Some? ==>
              r == FirstPresent([attributes.value.creationDate, attributes.value.modificationDate])
  {
    match attributes
    case None => None
    case Some(attrs) => attrs.creationDate.OrElse(attrs.modificationDate)
  }

  /** The photo for a URL: the parsed metadata date, else the filesystem date. */
  function NewPhoto(fileUrl: Discovery.Url, source: Option<ImageSource>, attributes: Option<FileAttributes>): (p: Photo)
    ensures p.fileUrl == fileUrl
    ensures ParseExifDate(LoadDateString(source)).Some? ==> p.dateTime == ParseExifDate(LoadDateString(source))
    ensures ParseExifDate(LoadDateString(source)).None? ==> p.dateTime == GetLastModifiedDate(attributes)
  {
    Photo(fileUrl, ParseExifDate(LoadDateString(source)).OrElse(GetLastModifiedDate(attributes)))
  }

  // ---------------------------------------------------------------------------
  // The fallback chain

  /** The creation date, when present as a date, else nothing. */
  function CreationDate(attributes: Option<FileAttributes>): (r: Option<DateTime>) {
    if attributes.Some? then attributes.value.creationDate else None
  }

  function ModificationDate(attributes: Option<FileAttributes>): (r: Option<DateTime>) {
    if attributes.Some? then attributes.value.modificationDate else None
  }

  /**
    The photo's date is the first success of an ordered list of strategies:
    metadata, creation date, modification date.
  */
  lemma DateIsFirstSuccessfulStrategy(fileUrl: Discovery.Url, source: Option<ImageSource>, attributes: Option<FileAttributes>)
    ensures NewPhoto(fileUrl, source, attributes).dateTime
         == FirstPresent([ParseExifDate(LoadDateString(source)), CreationDate(attributes), ModificationDate(attributes)])
  {
  }

  /** A parseable metadata date wins, whatever the filesystem says. */
  lemma MetadataDateWins(fileUrl: Discovery.Url, source: Option<ImageSource>, a1: Option<FileAttributes>, a2: Option<FileAttributes>)
    requires ParseExifDate(LoadDateString(source)).Some?
    ensures NewPhoto(fileUrl, source, a1).dateTime == NewPhoto(fileUrl, source, a2).dateTime
  {
  }

  /** Without metadata the creation date is preferred to the modification date. */
  lemma CreationBeforeModification(fileUrl: Discovery.Url, source: Option<ImageSource>, attrs: FileAttributes)
    requires ParseExifDate(LoadDateString(source)).None?
    requires attrs.creationDate.Some?
    ensures NewPhoto(fileUrl, source, Some(attrs)).dateTime == attrs.creationDate
  {
  }

  /** The photo has no date exactly when every source fails. */
  lemma NoDateOnlyWhenAllSourcesFail(fileUrl: Discovery.Url, source: Option<ImageSource>, attributes: Option<FileAttributes>)
    ensures NewPhoto(fileUrl, source, attributes).dateTime.None?
        <==> ParseExifDate(LoadDateString(source)).None?
             && CreationDate(attributes).None? && ModificationDate(attributes).None?
  {
  }

  /**
    The TIFF date string is consulted only when the EXIF dictionary has no
    date string: a present but unreadable EXIF date hides a readable TIFF date,
    and the filesystem date is used instead.
  */
  lemma ExifStringHidesTiffString(fileUrl: Discovery.Url, exifDate: string, tiffDate: string, attributes: Option<FileAttributes>)
    requires Parse(exifDate).None?
    ensures var properties := ImageProperties(Some(PropertyDictionary(Some(exifDate))),
                                              Some(PropertyDictionary(Some(tiffDate))));
            NewPhoto(fileUrl, Some(ImageSource(Some(properties))), attributes).dateTime
              == GetLastModifiedDate(attributes)
  {
  }

  /** The source's example: a photo whose EXIF date is `2015:07:09 18:43:04`. */
  lemma ExamplePhoto(fileUrl: Discovery.Url, attributes: Option<FileAttributes>)
    ensures var properties := ImageProperties(Some(PropertyDictionary(Some("2015:07:09 18:43:04"))), None);
            NewPhoto(fileUrl, Some(ImageSource(Some(properties))), attributes).dateTime
              == Some(DateTime(2015, 7, 9, 18, 43, 4))
  {
    ExampleDate();
  }
}
