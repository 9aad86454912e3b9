/**
 * The extension-to-content-type table of `getMimeType`: a case-sensitive,
 * exact-match lookup from an extension (with its leading dot) to the value the
 * handler puts in the Content-Type header, defaulting to "text/plain".
 */
module MimeTypes {
  /** The content type given to every extension the table does not list. */
  const DefaultMimeType := "text/plain"

  /** The case labels of the table, in its order, split in two halves. */
  const LeadingLabels: set<string> := {
      ".aac", ".abw", ".apng", ".arc", ".avif", ".avi", ".azw", ".bmp", ".bz", ".bz2",
      ".csh", ".csv", ".doc", ".docx", ".eot", ".epub", ".gz", ".gif", ".ics", ".jar",
      ".mid", ".midi", ".mp3", ".mp4", ".mpeg", ".mpkg", ".odp", ".ods", ".odt", ".oga",
      ".ogv", ".ogx", ".opus", ".otf", ".php", ".ppt", ".pptx", ".rar"
    }
  const TrailingLabels: set<string> := {
      ".rtf", ".sh", ".tar", ".tif", ".tiff", ".ts", ".ttf", ".vsd", ".wav", ".weba",
      ".webm", ".webp", ".woff", ".woff2", ".xhtml", ".xls", ".xlsx", ".xml", ".xul", ".zip",
      ".3gp", ".3gp2", ".7zip", ".jsonld", ".json", ".js", ".mjs", ".css", ".htm", ".html",
      ".pdf", ".png", ".jpg", ".jpeg", ".ico", ".svg", ".bin"
    }

  /** Every extension the table lists. */
  const KnownExtensions: set<string> := LeadingLabels + TrailingLabels

  /**
   * `getMimeType`. The ".svg" entry carries a leading tab in front of
   * "image/svg+xml", exactly as the table has it.
   */
  function GetMimeType(ext: string): string
  {
    match ext
    case ".aac" => "audio/aac"
    case ".abw" => "application/x-abiword"
    case ".apng" => "image/apng"
    case ".arc" => "application/x-freearc"
    case ".avif" => "image/avif"
    case ".avi" => "video/x-msvideo"
    case ".azw" => "application/vnd.amazon.ebook"
    case ".bmp" => "image/bmp"
    case ".bz" => "application/x-bzip"
    case ".bz2" => "application/x-bzip2"
    case ".csh" => "application/x-csh"
    case ".csv" => "text/csv"
    case ".doc" => "application/msword"
    case ".docx" => "application/vnd.openxmlformats-officedocument.wordprocessingml.document"
    case ".eot" => "application/vnd.ms-fontobject"
    case ".epub" => "application/epub+zip"
    case ".gz" => "application/gzip"
    case ".gif" => "image/gif"
    case ".ics" => "text/calendar"
    case ".jar" => "application/java-archive"
    case ".mid" | ".midi" => "audio/x-midi"
    case ".mp3" => "audio/mpeg"
    case ".mp4" => "video/mp4"
    case ".mpeg" => "video/mpeg"
    case ".mpkg" => "application/vnd.apple.installer+xml"
    case ".odp" => "application/vnd.oasis.opendocument.presentation"
    case ".ods" => "application/vnd.oasis.opendocument.spreadsheet"
    case ".odt" => "application/vnd.oasis.opendocument.text"
    case ".oga" => "audio/ogg"
    case ".ogv" => "video/ogg"
    case ".ogx" => "application/ogg"
    case ".opus" => "audio/opus"
    case ".otf" => "font/otf"
    case ".php" => "application/x-httpd-php"
    case ".ppt" => "application/vnd.ms-powerpoint"
    case ".pptx" => "application/vnd.openxmlformats-officedocument.presentationml.presentation"
    case ".rar" => "application/vnd.rar"
    case ".rtf" => "application/rtf"
    case ".sh" => "application/x-sh"
    case ".tar" => "application/x-tar"
    case ".tif" | ".tiff" => "image/tiff"
    case ".ts" => "video/mp2t"
    case ".ttf" => "font/ttf"
    case ".vsd" => "application/vnd.visio"
    case ".wav" => "audio/wav"
    case ".weba" => "audio/webm"
    case ".webm" => "video/webm"
    case ".webp" => "image/webp"
    case ".woff" => "font/woff"
    case ".woff2" => "font/woff2"
    case ".xhtml" => "application/xhtml+xml"
    case ".xls" => "application/vnd.ms-excel"
    case ".xlsx" => "application/vnd.openxmlformats-officedocument.spreadsheetml.sheet"
    case ".xml" => "application/xml"
    case ".xul" => "application/vnd.mozilla.xul+xml"
    case ".zip" => "application/zip"
    case ".3gp" => "video/3gpp"
    case ".3gp2" => "video/3gpp2"
    case ".7zip" => "application/x-7z-compressed"
    case ".jsonld" => "application/ld+json"
    case ".json" => "application/json"
    case ".js" | ".mjs" => "text/javascript"
    case ".css" => "text/css"
    case ".htm" | ".html" => "text/html"
    case ".pdf" => "application/pdf"
    case ".png" => "image/png"
    case ".jpg" | ".jpeg" => "image/jpeg"
    case ".ico" => "image/vnd.microsoft.icon"
    case ".svg" => "\timage/svg+xml"
    case ".bin" => "application/octet-stream"
    case _ => DefaultMimeType
  }

  /** ".mid" and ".midi" share one case. */
  lemma MidiAliases()
    ensures GetMimeType(".mid") == GetMimeType(".midi") == "audio/x-midi"
  {
  }

  /** ".tif" and ".tiff" share one case. */
  lemma TiffAliases()
    ensures GetMimeType(".tif") == GetMimeType(".tiff") == "image/tiff"
  {
  }

  /** ".js" and ".mjs" share one case. */
  lemma JavaScriptAliases()
    ensures GetMimeType(".js") == GetMimeType(".mjs") == "text/javascript"
  {
  }

  /** ".htm" and ".html" share one case. */
  lemma HtmlAliases()
    ensures GetMimeType(".htm") == GetMimeType(".html") == "text/html"
  {
  }

  /** ".jpg" and ".jpeg" share one case. */
  lemma JpegAliases()
    ensures GetMimeType(".jpg") == GetMimeType(".jpeg") == "image/jpeg"
  {
  }

  /** The lookup is case-sensitive, and the empty extension is not listed. */
  lemma UnlistedSpellings()
    ensures GetMimeType("") == DefaultMimeType
    ensures GetMimeType(".PNG") == DefaultMimeType
  {
  }

  /** Every extension the table does not list gets the default. */
  lemma UnlistedIsDefault(ext: string)
    requires ext !in LeadingLabels && ext !in TrailingLabels
    ensures GetMimeType(ext) == DefaultMimeType
  {
  }

  /** No listed extension from the first half of the table maps to the default. */
  lemma LeadingLabelsNotDefault(ext: string)
    requires ext in LeadingLabels
    ensures GetMimeType(ext) != DefaultMimeType
  {
  }

  /** No listed extension from the second half of the table maps to the default. */
  lemma TrailingLabelsNotDefault(ext: string)
    requires ext in TrailingLabels
    ensures GetMimeType(ext) != DefaultMimeType
  {
  }

  /** "text/plain" is returned exactly for the extensions the table does not list. */
  lemma DefaultExactlyWhenUnlisted(ext: string)
    ensures GetMimeType(ext) == DefaultMimeType <==> ext !in KnownExtensions
  {
    if ext in LeadingLabels {
      LeadingLabelsNotDefault(ext);
    } else if ext in TrailingLabels {
      TrailingLabelsNotDefault(ext);
    } else {
      UnlistedIsDefault(ext);
    }
  }
}
