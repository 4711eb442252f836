/** The remote image service as the client sees it (client/src/api.js): each
    call is either answered or fails with a message. Only the shape of each
    request is kept; URLs, `FormData`, JSON and `fetch` are not modelled. */
module Api {
  import opened JsText

  /** What an awaited remote call produced: its result, or the thrown error's message. */
  datatype Outcome<T> = Ok(value: T) | Failed(message: string)

  /** A browser `File` chosen in the picker, identified by name and a handle. */
  datatype File = File(name: string, handle: nat)

  /** The kind of toast (`messageApi`, `message`) or `alert` shown to the user. */
  datatype Toast = Silent | Warning | Error | Success

  /** One image as listed by the service. */
  datatype Image = Image(publicId: string, secureUrl: string)

  /** A `fetchImages(folder, tag)` request: the folder and the tag filter
      (an empty tag means no filter). */
  datatype ImagesQuery = ImagesQuery(folder: string, tag: string)

  /** The multipart form `uploadImage` posts: the image, and the `folder` and
      `tags` fields only when they are present. */
  datatype UploadForm = UploadForm(image: File, folder: Option<string>, tags: Option<string>)

  /** The tags field of the upload form: the tags joined with commas, sent only
      when there is at least one tag. */
  function TagsField(tags: seq<string>): (field: Option<string>)
    ensures field.Some? <==> |tags| > 0
  {
    if |tags| > 0 then Some(Join(tags, ',')) else None
  }

  /** `uploadImage(imageFile, folder, tags)`: the form it posts. */
  function UploadFormFor(image: File, folder: string, tags: seq<string>): (form: UploadForm)
    ensures form.image == image
    ensures form.folder == (if folder != "" then Some(folder) else None)
    ensures form.tags.Some? <==> |tags| > 0
  {
    UploadForm(image, if folder != "" then Some(folder) else None, TagsField(tags))
  }
}
