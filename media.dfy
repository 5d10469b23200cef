/** Binary content as the web platform hands it around, shared by the
    recording component and the upload relay. */
module Media {
  import opened Outcomes

  /** A `Blob`: bytes and a MIME type; its size is the length of its data.
      A `File` is a `Blob` that also carries a `name`. */
  datatype Blob = Blob(data: seq<bv8>, mimeType: string, name: Option<string>)
}
