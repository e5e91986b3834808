/**
 * The parsed JSON values the viewer handles, reduced to what the core reads of them.
 */
module Schema {
  import opened Wrappers

  /**
   * A JSON Schema is either one of the two universal boolean schemas or an
   * object. Of an object only two top-level members are ever read: `title`
   * (for breadcrumb and recently-viewed titles) and `message` (whose presence
   * is what marks a load-error record).
   */
  datatype JsonSchema =
    | Bool(value: bool)
    | Obj(title: Option<string>, message: Option<string>)

  /**
   * JavaScript's `title || fallback` on an optional string member: the
   * member is used only when it is present and non-empty.
   */
  function TitleOr(title: Option<string>, fallback: string): (r: string)
    ensures title.Some? && title.value != "" ==> r == title.value
    ensures title.None? || title.value == "" ==> r == fallback
  {
    match title
    case Some(t) => if t != "" then t else fallback
    case None => fallback
  }
}
