/**
 * The records the site loads from its static JSON files, and the outcome of
 * loading one of them. The fetch itself is not modelled: a page's loader is
 * handed the outcome as a value.
 */
module SiteData {
  import opened JsRuntime

  /** One entry of the blog list. */
  datatype Post = Post(
    id: string,
    title: string,
    description: string,
    date: string,
    readTime: string,
    thumbnail: string,
    tags: seq<string>,
    content: string)

  /** One entry of the gallery list; a missing description is `None`. */
  datatype Image = Image(url: string, title: string, description: Option<string>)

  /** What a fetch of a JSON list produced: the parsed list, or any failure on the way. */
  datatype Fetched<T> = Loaded(items: seq<T>) | LoadFailed

  /** `description || ''`: the description when there is a non-empty one, otherwise empty. */
  function DescriptionText(image: Image): (r: string)
    ensures r == "" <==> image.description.None? || image.description == Some("")
    ensures r != "" ==> image.description == Some(r)
  {
    match image.description
    case Some(d) => d
    case None => ""
  }
}
