/**
 * Breadcrumb resolution and the top-level view decision of the schema view:
 * the router pathname becomes a trail of `{title, reference}` elements, and
 * the last element selects the schema shown.
 *
 * The document lookup (`getSchemaFromReference` over an `InternalLookup`) and
 * `decodeURIComponent` are parameters: their definitions are not part of
 * this model.
 */
module SchemaView {
  import opened Wrappers
  import opened Schema
  import opened JsString

  /** Resolution of a reference string against the loaded document. */
  type Lookup = string -> Option<JsonSchema>

  /** One breadcrumb: a display title and the reference it stands for. */
  datatype PathElement = PathElement(title: string, reference: string)

  const NotFoundTitle := "<not found>"
  const AnythingTitle := "<anything>"
  const ObjectTitle := "object"
  const RootReference := "#"
  const InvalidReference := "#/invalid-reference"

  /** `getTitle`: the breadcrumb title of a looked-up schema. */
  function GetTitle(schema: Option<JsonSchema>): (t: string)
    ensures schema.None? ==> t == NotFoundTitle
    ensures schema.Some? && schema.value.Bool? ==> t == AnythingTitle
    ensures schema.Some? && schema.value.Obj? ==>
      t == (if schema.value.title.Some? && schema.value.title.value != "" then schema.value.title.value else ObjectTitle)
    ensures |t| > 0
  {
    match schema
    case None => NotFoundTitle
    case Some(Bool(_)) => AnythingTitle
    case Some(Obj(title, _)) => TitleOr(title, ObjectTitle)
  }

  /** `removeLeadingSlash`: drops one leading `/`, if there is one. */
  function RemoveLeadingSlash(v: string): (r: string)
    ensures StartsWith(v, "/") ==> "/" + r == v
    ensures !StartsWith(v, "/") ==> r == v
    ensures |v| - 1 <= |r| <= |v|
  {
    if StartsWith(v, "/") then v[1..] else v
  }

  /**
   * The length of the longest common prefix of two segment lists: the number
   * of leading segments a pathname shares with the viewer's base path.
   */
  function CommonPrefixLength(a: seq<string>, b: seq<string>): (n: nat)
    ensures n <= |a| && n <= |b|
    ensures forall j :: 0 <= j < n ==> a[j] == b[j]
    ensures n < |a| && n < |b| ==> a[n] != b[n]
  {
    if |a| == 0 || |b| == 0 || a[0] != b[0] then 0
    else 1 + CommonPrefixLength(a[1..], b[1..])
  }

  /** No longer prefix is shared, and the length is determined by being maximal. */
  lemma CommonPrefixIsLongest(a: seq<string>, b: seq<string>, k: nat)
    requires k <= |a| && k <= |b|
    requires forall j :: 0 <= j < k ==> a[j] == b[j]
    ensures k <= CommonPrefixLength(a, b)
    ensures k == |a| || k == |b| || a[k] != b[k] ==> k == CommonPrefixLength(a, b)
  {
  }

  /** The candidate reference for one decoded user segment. */
  function ClassifySegment(userProvidedReference: string): (reference: string)
    ensures StartsWith(reference, RootReference)
    ensures StartsWith(userProvidedReference, RootReference) ==> reference == userProvidedReference
    ensures !StartsWith(userProvidedReference, RootReference) ==> reference == InvalidReference
  {
    if StartsWith(userProvidedReference, RootReference) then userProvidedReference else InvalidReference
  }

  /** The breadcrumb for a reference: the reference with the title of what it resolves to. */
  function ElementFor(reference: string, lookup: Lookup): (e: PathElement)
    ensures e.reference == reference
    ensures e.title == GetTitle(lookup(reference)) && |e.title| > 0
  {
    PathElement(GetTitle(lookup(reference)), reference)
  }

  /** The `slice(iterator).map(decodeURIComponent).map(...)` chain over the remaining segments. */
  function Trail(segments: seq<string>, lookup: Lookup, decode: string -> string): (trail: seq<PathElement>)
    ensures |trail| == |segments|
    ensures forall i :: 0 <= i < |segments| ==>
      trail[i] == ElementFor(ClassifySegment(decode(segments[i])), lookup)
  {
    if segments == [] then []
    else [ElementFor(ClassifySegment(decode(segments[0])), lookup)] + Trail(segments[1..], lookup, decode)
  }

  /** The segments of the router pathname. */
  function PathSegments(pathname: string): (segments: seq<string>)
    ensures |segments| >= 1
  {
    Split(RemoveLeadingSlash(pathname), '/')
  }

  /** What `getPathFromRoute` computes, stated without its loop. */
  function PathFromRoute(pathname: string, basePathSegments: seq<string>, lookup: Lookup, decode: string -> string): (path: seq<PathElement>)
    ensures |path| >= 1
    ensures forall i :: 0 <= i < |path| ==> StartsWith(path[i].reference, RootReference)
  {
    var segments := PathSegments(pathname);
    var skipped := CommonPrefixLength(segments, basePathSegments);
    if skipped == |segments| then [ElementFor(RootReference, lookup)]
    else Trail(segments[skipped..], lookup, decode)
  }

  /** `getPathFromRoute`: skips the base path segment by segment, then builds the trail. */
  method GetPathFromRoute(pathname: string, basePathSegments: seq<string>, lookup: Lookup, decode: string -> string)
    returns (path: seq<PathElement>)
    ensures path == PathFromRoute(pathname, basePathSegments, lookup, decode)
  {
    var pathSegments := Split(RemoveLeadingSlash(pathname), '/');
    var skipped := 0;
    while skipped < |pathSegments| && skipped < |basePathSegments| && basePathSegments[skipped] == pathSegments[skipped]
      invariant skipped <= |pathSegments| && skipped <= |basePathSegments|
      invariant forall j :: 0 <= j < skipped ==> pathSegments[j] == basePathSegments[j]
    {
      skipped := skipped + 1;
    }
    CommonPrefixIsLongest(pathSegments, basePathSegments, skipped);

    if skipped == |pathSegments| {
      var reference := RootReference;
      var title := GetTitle(lookup(reference));
      path := [PathElement(title, reference)];
    } else {
      path := Trail(pathSegments[skipped..], lookup, decode);
    }
  }

  /**
   * The shape of the trail: the root alone when the base path consumes every
   * segment, and otherwise one element per remaining segment, in order.
   */
  lemma PathFromRouteShape(pathname: string, basePathSegments: seq<string>, lookup: Lookup, decode: string -> string)
    ensures var segments := PathSegments(pathname);
            var skipped := CommonPrefixLength(segments, basePathSegments);
            var path := PathFromRoute(pathname, basePathSegments, lookup, decode);
            && (skipped == |segments| ==> path == [PathElement(GetTitle(lookup("#")), "#")])
            && (skipped < |segments| ==>
                  && |path| == |segments| - skipped
                  && forall i :: 0 <= i < |path| ==>
                       path[i] == ElementFor(ClassifySegment(decode(segments[skipped + i])), lookup))
  {
  }

  /** A final segment that is not pointer-shaped surfaces as the invalid-reference breadcrumb. */
  lemma InvalidTrailingSegment(pathname: string, basePathSegments: seq<string>, lookup: Lookup, decode: string -> string)
    requires var segments := PathSegments(pathname);
             CommonPrefixLength(segments, basePathSegments) < |segments| &&
             !StartsWith(decode(segments[|segments| - 1]), "#")
    ensures var path := PathFromRoute(pathname, basePathSegments, lookup, decode);
            path[|path| - 1] == PathElement(GetTitle(lookup("#/invalid-reference")), "#/invalid-reference")
  {
    var segments := PathSegments(pathname);
    var rest := segments[CommonPrefixLength(segments, basePathSegments)..];
    var path := Trail(rest, lookup, decode);
    assert path == PathFromRoute(pathname, basePathSegments, lookup, decode);
    assert rest[|rest| - 1] == segments[|segments| - 1];
    assert path[|path| - 1] == ElementFor(ClassifySegment(decode(rest[|rest| - 1])), lookup);
  }

  /**
   * A pathname built from a leading `/` and separator-free segments splits
   * back into exactly those segments.
   */
  lemma {:induction false} PathSegmentsOfRoute(segments: seq<string>)
    requires |segments| >= 1
    requires forall i :: 0 <= i < |segments| ==> '/' !in segments[i]
    ensures PathSegments("/" + Join(segments, '/')) == segments
  {
    assert ("/" + Join(segments, '/'))[1..] == Join(segments, '/');
    SplitJoin(segments, '/');
  }

  /** The viewer's own mount path alone resolves to the root breadcrumb. */
  lemma BasePathAloneIsRoot(lookup: Lookup, decode: string -> string)
    ensures PathFromRoute("/view", ["view"], lookup, decode) == [ElementFor("#", lookup)]
  {
    assert RemoveLeadingSlash("/view") == "view";
    SplitWithoutSeparator("view", '/');
    assert PathSegments("/view") == ["view"];
  }

  /**
   * The bare pathname `/` shares no segment with a non-empty base path: its
   * one empty segment becomes the invalid-reference breadcrumb.
   */
  lemma BarePathnameIsInvalid(basePathSegments: seq<string>, lookup: Lookup, decode: string -> string)
    requires |basePathSegments| > 0 && basePathSegments[0] != ""
    requires decode("") == ""
    ensures PathFromRoute("/", basePathSegments, lookup, decode) == [ElementFor(InvalidReference, lookup)]
  {
  }

  /** The top-level outcome of `render`. */
  datatype ViewDecision =
    | CannotDetermineTarget                                  // "Could not work out what to load"
    | LoadingSchema                                          // the selected reference does not resolve
    | BooleanSchemaSelected                                  // "anything or nothing" placeholder
    | ShowExplorer(path: seq<PathElement>, schema: JsonSchema)

  /** The decision part of `render`, given the trail. */
  function Render(path: seq<PathElement>, lookup: Lookup): (d: ViewDecision)
    ensures |path| == 0 <==> d.CannotDetermineTarget?
    ensures |path| > 0 ==> match lookup(path[|path| - 1].reference)
                           case None => d.LoadingSchema?
                           case Some(s) => if s.Bool? then d.BooleanSchemaSelected? else d == ShowExplorer(path, s)
  {
    if |path| == 0 then CannotDetermineTarget
    else
      match lookup(path[|path| - 1].reference)
      case None => LoadingSchema
      case Some(Bool(_)) => BooleanSchemaSelected
      case Some(s) => ShowExplorer(path, s)
  }

  /**
   * On every route the error branch of `render` is unreachable, and the
   * schema shown is the lookup of the last breadcrumb's reference.
   */
  lemma RenderOfRoute(pathname: string, basePathSegments: seq<string>, lookup: Lookup, decode: string -> string)
    ensures var path := PathFromRoute(pathname, basePathSegments, lookup, decode);
            var d := Render(path, lookup);
            && !d.CannotDetermineTarget?
            && (d.ShowExplorer? <==> lookup(path[|path| - 1].reference).Some? && lookup(path[|path| - 1].reference).value.Obj?)
            && (d.ShowExplorer? ==> Some(d.schema) == lookup(path[|path| - 1].reference))
  {
    var path := PathFromRoute(pathname, basePathSegments, lookup, decode);
    assert |path| > 0;
  }
}
