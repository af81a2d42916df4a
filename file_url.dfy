/** `URL.absoluteFilePath` from Extensions/URL/FileURLToPath.swift. */
module FileUrl {
  import opened Wrappers
  import opened Strings

  /** A Foundation `URL`, reduced to the two properties the extension reads. */
  datatype Url = Url(isFileURL: bool, absoluteString: string)

  const FileScheme: string := "file://"

  /**
   * The path of a file URL, obtained by deleting every "file://" from its
   * absolute string; `nil` for any other URL.
   */
  function AbsoluteFilePath(u: Url): (r: Option<string>)
    ensures r.None? <==> !u.isFileURL
    ensures r.Some? ==> |r.value| <= |u.absoluteString|
  {
    if u.isFileURL then Some(RemoveAll(u.absoluteString, FileScheme)) else None
  }

  /** A file URL whose absolute string holds no "file://" comes back unchanged. */
  lemma AbsoluteFilePathWithoutScheme(u: Url)
    requires u.isFileURL && !Occurs(u.absoluteString, FileScheme)
    ensures AbsoluteFilePath(u) == Some(u.absoluteString)
  {
    RemoveAllAbsent(u.absoluteString, FileScheme);
  }

  /** The directory URL of "/usr/files/" gives back "/usr/files/". */
  lemma AbsoluteFilePathOfDirectory()
    ensures AbsoluteFilePath(Url(true, "file:///usr/files/")) == Some("/usr/files/")
  {
    var path := "/usr/files/";
    assert FileScheme + path == "file:///usr/files/";
    RemoveAllLeading(FileScheme, path);
    AbsentForLackOfChar(path, FileScheme, ':');
    RemoveAllAbsent(path, FileScheme);
  }
}
