/** A file picked in an `<input type="file">`: its name and MIME type. */
module Upload {
  import Strings

  datatype File = File(name: string, mimeType: string)

  /** `file.type.startsWith("image/")`. */
  predicate IsImage(f: File): (image: bool)
    ensures image <==> exists subtype: string :: f.mimeType == "image/" + subtype
  {
    var image := Strings.StartsWith(f.mimeType, "image/");
    assert image ==> f.mimeType == "image/" + f.mimeType[6..];
    image
  }
}
