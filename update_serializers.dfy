/**
  The two API projections of an update: the detail form and the list form, which
  replaces the content with a preview of at most 200 characters plus an ellipsis.
 */
module UpdateSerializers {
  import opened Wrappers
  import opened Text
  import opened Choices
  import opened OutbreakModels
  import opened UpdateModels

  /** The number of content characters a preview keeps. */
  const PreviewLength := 200

  /** `get_content_preview`: the content itself, or its first 200 characters and "...". */
  function ContentPreview(content: string): (r: string)
    ensures |content| <= PreviewLength ==> r == content
    ensures |content| > PreviewLength ==> r == content[..PreviewLength] + "..." && |r| == PreviewLength + 3
  {
    if |content| > PreviewLength then content[..PreviewLength] + "..." else content
  }

  /**
    A preview is never longer than 203 characters and always begins with the first
    min(200, |content|) characters of the content.
   */
  lemma PreviewBounds(content: string)
    ensures |ContentPreview(content)| <= PreviewLength + 3
    ensures var n := if |content| < PreviewLength then |content| else PreviewLength;
      StartsWith(ContentPreview(content), content[..n])
  {
  }

  /** Previewing a preview gives it back: the ellipsis falls past character 200. */
  lemma PreviewIdempotent(content: string)
    ensures ContentPreview(ContentPreview(content)) == ContentPreview(content)
  {
    if |content| > PreviewLength {
      var p := ContentPreview(content);
      assert p[..PreviewLength] == content[..PreviewLength];
    }
  }

  /** `UpdateSerializer`: every stored field but `is_published`, plus the type's label. */
  datatype UpdateDetail = UpdateDetail(
    id: int, title: string, content: string, updateType: string, updateTypeDisplay: string,
    relatedOutbreak: Option<int>, publishedAt: Timestamp, updatedAt: Timestamp, source: string,
    image: Option<string>, document: Option<string>, isFeatured: bool)

  /**
    `UpdateListSerializer`: no content, related outbreak, image, document or update time,
    and the content preview instead of the content.
   */
  datatype UpdateListItem = UpdateListItem(
    id: int, title: string, contentPreview: string, updateType: string, updateTypeDisplay: string,
    publishedAt: Timestamp, source: string, isFeatured: bool)

  function Detail(u: Update): UpdateDetail
  {
    UpdateDetail(u.id, u.title, u.content, u.updateType, Label(UpdateTypeChoices, u.updateType),
                 u.relatedOutbreak, u.publishedAt, u.updatedAt, u.source, u.image, u.document, u.isFeatured)
  }

  function ListItem(u: Update): UpdateListItem
  {
    UpdateListItem(u.id, u.title, ContentPreview(u.content), u.updateType, Label(UpdateTypeChoices, u.updateType),
                   u.publishedAt, u.source, u.isFeatured)
  }

  /**
    The list form is the detail form cut down: both show the same label for the type,
    the list's preview is the preview of the detail's content, and every other field the
    two share is equal.
   */
  lemma ListItemOfDetail(u: Update)
    ensures var d, l := Detail(u), ListItem(u);
      && l == UpdateListItem(d.id, d.title, ContentPreview(d.content), d.updateType, d.updateTypeDisplay,
                             d.publishedAt, d.source, d.isFeatured)
    ensures Detail(u).updateTypeDisplay == ListItem(u).updateTypeDisplay == Label(UpdateTypeChoices, u.updateType)
  {
  }

  /** The detail form loses only `is_published`: two updates that differ elsewhere project apart. */
  lemma DetailKeepsFields(u: Update, v: Update)
    requires Detail(u) == Detail(v) && u.isPublished == v.isPublished
    ensures u == v
  {
  }
}
