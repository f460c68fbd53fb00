/** The file-name helper used when an uploaded workbook is stored. */
module FileUtils {

  import opened PyStr

  /** `get_file_extension`: the text after the last "." of the file name, or "" when
      the name has no ".". */
  function GetFileExtension(filename: string): (r: string)
    ensures '.' !in r
    ensures '.' !in filename ==> r == ""
    ensures '.' in filename ==>
      |r| < |filename| && filename == filename[..|filename| - |r| - 1] + "." + r
  {
    if '.' in filename then
      SplitLast(filename, '.');
      var ps := Split(filename, '.');
      ps[|ps| - 1]
    else ""
  }

  /** The extension is determined by its defining property: whatever follows a "." at
      the end of the name and contains no "." is the extension. */
  lemma ExtensionUnique(prefix: string, ext: string)
    requires '.' !in ext
    ensures GetFileExtension(prefix + "." + ext) == ext
  {
    var name := prefix + "." + ext;
    assert name[|prefix|] == '.';
    SplitConcat(prefix, ext, '.');
    SplitFree(ext, '.');
  }

  /** Only the last extension of a name with several dots is returned. */
  lemma LastExtensionExample()
    ensures GetFileExtension("a.tar.xlsx") == "xlsx"
  {
    assert "a.tar" + "." + "xlsx" == "a.tar.xlsx";
    ExtensionUnique("a.tar", "xlsx");
  }

  /** A name ending in "." has the empty extension. */
  lemma TrailingDotExample()
    ensures GetFileExtension("a.") == ""
  {
    assert "a" + "." + "" == "a.";
    ExtensionUnique("a", "");
  }

  /** A name without "." has the empty extension. */
  lemma NoDotExample()
    ensures GetFileExtension("README") == ""
  {
    assert forall i :: 0 <= i < |"README"| ==> "README"[i] != '.';
  }
}
