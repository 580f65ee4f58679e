/** The backend's stored record (`backend/models/article.go`). */
module Models {
  import opened Common

  /** A MongoDB object id in its 24-hex-digit JSON rendering. */
  type ObjectId = string

  /** The zero object id that a freshly bound article carries. */
  const ZeroObjectId: ObjectId := "000000000000000000000000"

  /** One article. `tags` is a Go slice: `None` is the nil slice, which is
      stored and serialised as `null`. */
  datatype Article = Article(
    id: ObjectId,
    title: string,
    content: string,
    summary: string,
    tags: Option<seq<string>>,
    url: string,
    createdAt: Timestamp)
}
