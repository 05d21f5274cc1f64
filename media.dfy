/** Values the pages exchange with the server: image records, browser files
    and multipart form entries. */
module Media {
  import opened Wrappers
  import Text

  /** The file name a camera capture is given. */
  const CaptureName: string := "capture.jpg"

  /** One element of a `Uint8Array`. */
  type byte = x: int | 0 <= x < 256

  /** A browser `File`: its name, its MIME type (`file.type`, the empty string
      when the browser does not know it) and its bytes; `file.size` is the
      number of bytes. */
  datatype File = File(name: string, mime: string, content: seq<byte>) {
    function Size(): nat {
      |content|
    }
  }

  /** The `type` the `File` constructor keeps from the type it is given:
      the empty string when some character lies outside U+0020 to U+007E,
      otherwise the type with its ASCII letters lower-cased (section 3.1 of
      the W3C File API). */
  function BlobType(t: string): (r: string)
    ensures r == "" <==> t == "" || exists k :: 0 <= k < |t| && !(' ' <= t[k] <= '~')
    ensures r != "" ==> |r| == |t| && forall k :: 0 <= k < |t| ==> r[k] == Text.LowerAscii(t[k])
  {
    if exists k :: 0 <= k < |t| && !(' ' <= t[k] <= '~') then ""
    else seq(|t|, k requires 0 <= k < |t| => Text.LowerAscii(t[k]))
  }

  /** An image record as the server lists it under `data.data.images`. */
  datatype Image = Image(
    id: string,
    imageUrl: string,
    uploadedAt: Option<string>,
    documentation: Option<string>,
    tags: seq<string>)

  /** A value appended to a `FormData`: a file with the file name sent for
      it, or text. */
  datatype FormValue = FileField(file: File, filename: string) | TextField(text: string)

  /** A `FormData`: its entries in the order they were appended. */
  type FormData = seq<(string, FormValue)>
}
