# JSON Schema viewer: breadcrumb resolution and schema loading

A Dafny model of two parts of the JSON Schema viewer web application.

- **The schema view's path resolution** (`src/SchemaView.tsx`). The router pathname becomes a breadcrumb trail of `{title, reference}` elements. One leading `/` is stripped and the rest is split on `/`. The segments the pathname shares with the viewer's base path (`["view"]` in the application) are skipped. If nothing remains, the trail is the root `#` alone. Otherwise every remaining segment is URL-decoded and kept as a reference if it starts with `#`; if not, it becomes `#/invalid-reference`. Every breadcrumb is titled from what its reference resolves to. `render` then selects the last breadcrumb's schema and shows either "loading", the boolean-schema placeholder or the explorer.
- **The loader component's state machine** (`src/LoadSchema.tsx`). Mounting with a `url` query parameter starts a load; without one, the component sets `noSchema`. An update starts a reload only when the previous state already had a result, that result's url differs from the requested one, and a url is present. A completed load commits `{currentUrl, schema}`. The schema comes from JSON parsing, or from YAML parsing when JSON throws. A failed fetch or parse commits the record `{message}`. `render` checks in order: `noSchema`, loading, load error, content. Only the content branch records a recently-viewed link.

Modules: `Wrappers` (Option, Result), `Schema` (the schema value and JavaScript's `title || fallback`), `JsString` (`startsWith`, `split` and its inverse `join`, with round-trip lemmas), `SchemaView`, `LoadSchema`.

The JavaScript operations the core calls but does not define are parameters of the model:
- the document lookup (`getSchemaFromReference` over an `InternalLookup`), a function from reference to optional schema;
- `decodeURIComponent`, a total string function;
- `JSON.parse` and `YAML.parse`, functions from text to a schema or an error message;
- the `url` query parameter, passed to mount and update as an optional string;
- `fetch(url).then(resp => resp.text())`, a fetch outcome carried by the completion event.

A schema is `Bool(value)` or `Obj(title, message)`. Only the `title` and `message` members of an object are kept, because they are the only ones the core reads. The load-error record is itself an object with only a `message` member. This matches the code, where `isLoadSchemaError` tests only `'message' in e`. So a successfully loaded schema with a top-level `message` member renders as a failed load (`LoadSchema.LoadedMessageMemberRendersAsFailure`).

The loader is a class. Its fields are `result` and `noSchema`, plus `pending`: the urls of started loads whose completion has not arrived, in start order. A ghost `history` keeps every state the component has been in; `Update` takes its previous state from it. `Complete(i, …)` delivers the completion of the `i`-th pending load, so completions can arrive in any order. This models the network's unordered, sequentialised completions.

A completion commits its own load's result, for the url that load was started with, whatever url is currently requested: nothing compares the completed load's url with the current one (`src/LoadSchema.tsx:67-68`), so the last completion to arrive wins. `Complete` commits unconditionally. `LoadThenNavigateTwice` and `StaleCompletionWins` together form a run that ends this way. A first load of `x` completes, and the user navigates to `a` and then to `b`. `b`'s load completes first, and the update it causes starts a second load of `b`, which completes too. `a`'s superseded load completes last, and its result stays on screen with no load left in flight.

## Model

| member | source | states |
|---|---|---|
| `SchemaView.GetTitle` | src/SchemaView.tsx:24-34 | an unresolved reference is titled `<not found>`; every boolean schema, true and false alike, `<anything>`; an object its non-empty title, else `object`; a title is never empty |
| `Schema.TitleOr` | src/SchemaView.tsx:33 | JavaScript's `title \|\| fallback`: the title only when present and non-empty, otherwise the fallback |
| `SchemaView.RemoveLeadingSlash` | src/SchemaView.tsx:36-41 | a leading `/` is removed exactly once (prepending `/` restores the input); otherwise the input is unchanged; the length shrinks by at most one |
| `JsString.StartsWith` | src/SchemaView.tsx:129 | `startsWith`: the string has at least the prefix's length and its first characters are the prefix (used also for the `/` test at src/SchemaView.tsx:37) |
| `JsString.Split` | src/SchemaView.tsx:113 | `split` yields at least one piece and no piece contains the separator |
| `JsString.SplitAround` | src/SchemaView.tsx:113 | splitting `a + sep + b` is splitting `a` followed by splitting `b` |
| `JsString.SplitWithoutSeparator` | src/SchemaView.tsx:113 | a separator-free string splits into itself alone |
| `JsString.JoinSplit` | src/SchemaView.tsx:113 | joining the pieces of a split with the separator gives back the string |
| `JsString.SplitJoin` | src/SchemaView.tsx:113 | splitting the join of separator-free pieces gives back the pieces |
| `SchemaView.PathSegments` | src/SchemaView.tsx:113 | the segments of a pathname are never an empty list |
| `SchemaView.PathSegmentsOfRoute` | src/SchemaView.tsx:113 | a pathname `/s1/…/sn` of separator-free segments yields exactly `[s1, …, sn]` |
| `SchemaView.CommonPrefixLength` | src/SchemaView.tsx:114-117 | the number of skipped segments is bounded by both lists, the skipped segments agree, and the next pair (if both exist) differs |
| `SchemaView.CommonPrefixIsLongest` | src/SchemaView.tsx:114-117 | every shared prefix is at most that long, and a shared prefix that cannot be extended has exactly that length |
| `SchemaView.ClassifySegment` | src/SchemaView.tsx:129 | a decoded segment starting with `#` is kept, any other becomes `#/invalid-reference`; the result always starts with `#` |
| `SchemaView.ElementFor` | src/SchemaView.tsx:129-134 | a breadcrumb `{title, reference}` keeps the reference and is titled with `GetTitle` of its lookup, a non-empty title (the root one is built the same way at src/SchemaView.tsx:120-125) |
| `SchemaView.Trail` | src/SchemaView.tsx:128-135 | one breadcrumb per remaining segment, in order; each has the classified decoded segment as reference and the title of its lookup |
| `SchemaView.PathFromRoute` | src/SchemaView.tsx:110-136 | the trail is never empty and every reference in it starts with `#` |
| `SchemaView.GetPathFromRoute` | src/SchemaView.tsx:110-136 | the loop that skips the base path and the trail it builds compute exactly `PathFromRoute` |
| `SchemaView.PathFromRouteShape` | src/SchemaView.tsx:119-135 | when the base path consumes every segment the trail is exactly the root `#` titled from its lookup; otherwise it has one element per remaining segment, in order, each classified and titled |
| `SchemaView.InvalidTrailingSegment` | src/SchemaView.tsx:128-135 | a final segment whose decoding does not start with `#` yields a last breadcrumb `#/invalid-reference` instead of failing |
| `SchemaView.BasePathAloneIsRoot` | src/SchemaView.tsx:113-126 | the pathname `/view` under base path `["view"]` resolves to the root breadcrumb alone |
| `SchemaView.BarePathnameIsInvalid` | src/SchemaView.tsx:113-135 | the pathname `/` under a base path that starts with a non-empty segment resolves to the invalid-reference breadcrumb alone |
| `SchemaView.Render` | src/SchemaView.tsx:77-90 | an empty trail is the error view; otherwise the last breadcrumb's lookup decides: unresolved is "loading", boolean is the placeholder, an object is shown in the explorer with the trail |
| `SchemaView.RenderOfRoute` | src/SchemaView.tsx:75-82 | for every route the error view is unreachable, and the explorer is shown exactly when the last breadcrumb resolves to an object schema, which is the one shown |
| `LoadSchema.IsLoadSchemaError` | src/LoadSchema.tsx:27-29 | false for every boolean value; true exactly for objects with a `message` member |
| `LoadSchema.LoadErrorRecord` | src/LoadSchema.tsx:68 | the failure record `{message}` carries the thrown message, has no title, and is recognised by `IsLoadSchemaError` |
| `LoadSchema.ParseText` | src/LoadSchema.tsx:60-66 | JSON's result when JSON parses; YAML's result only when JSON throws; an error only when both throw |
| `LoadSchema.Committed` | src/LoadSchema.tsx:57-68 | the committed url is the load's own; a fetch failure or a failure of both parsers commits `{message}` with that failure's message, never a partial schema; otherwise the parsed schema |
| `LoadSchema.LinkTitle` | src/LoadSchema.tsx:113 | the object schema's non-empty title, otherwise the url; always the url for a boolean schema |
| `LoadSchema.Render` | src/LoadSchema.tsx:71-118 | `noSchema` first, then loading when there is no result, then the load error with its message, then content, recording `(LinkTitle, currentUrl)` as recently viewed only there |
| `LoadSchema.FailedLoadRendersMessage` | src/LoadSchema.tsx:57-107 | after a failed fetch, or after both parsers fail, the rendered view is the load-failed view with that message |
| `LoadSchema.LoadedMessageMemberRendersAsFailure` | src/LoadSchema.tsx:27-29 | a parsed object schema that has a top-level `message` member renders as a failed load |
| `LoadSchema.LoadedSchemaRendersContent` | src/LoadSchema.tsx:97-118 | a parsed schema without a `message` member renders as content and records its link title and url |
| `LoadSchema.ShouldReload` | src/LoadSchema.tsx:38 | no reload before a first result or without a url; with both, a reload exactly when the url differs from the result's `currentUrl` |
| `LoadSchema.LoadSchemaComponent.constructor` | src/LoadSchema.tsx:32-34 | the component starts with no result, no `noSchema` and no load in flight |
| `LoadSchema.LoadSchemaComponent.LoadUrl` | src/LoadSchema.tsx:57-58 | starting a load, which happens only while `noSchema` is unset, adds its url to the in-flight loads, changes nothing else and keeps the component invariant |
| `LoadSchema.LoadSchemaComponent.Mount` | src/LoadSchema.tsx:43-50 | with a url, a load of it starts and the state is unchanged; without one, `noSchema` becomes true and no load starts |
| `LoadSchema.LoadSchemaComponent.Update` | src/LoadSchema.tsx:36-41 | a reload starts exactly when the previous state had a result, for a different url, and a url is present; the state itself is unchanged; nothing reloads while the first load is pending or once `noSchema` is set |
| `LoadSchema.LoadSchemaComponent.Complete` | src/LoadSchema.tsx:57-68 | a completion removes its load from the in-flight ones and sets `result` to what it commits for the url the load was started with, whatever the current url; `noSchema` is untouched |
| `LoadSchema.LoadThenNavigateTwice` | src/LoadSchema.tsx:36-68 | after a first load of `x` completes and the user navigates to `a` and then `b`, `x` is shown and loads of both `a` and `b` are in flight |
| `LoadSchema.StaleCompletionWins` | src/LoadSchema.tsx:36-68 | continuing that run, `b`'s load and the reload its commit triggers complete, then `a`'s superseded load completes last: the visible result ends as `a`'s with no load in flight, although `b` is the url requested |

## Left out

- `src/SchemaApp.tsx`: routing, menus and navigation chrome, with no logic of its own beyond the base path `["view"]`.
- The document lookup and JSON-Pointer resolution (`InternalLookup`, `getSchemaFromReference`). `./lookup` is not part of this model; lookup is a parameter.
- Example generation (`generateJsonExampleFor`, `isErrors`) and side-navigation links (`extractLinks`) in `render`, and the props passed to the explorer other than the trail and the selected schema. Their sources are not part of this model.
- `decodeURIComponent`'s percent-decoding and its exception on malformed input: it is a total function parameter.
- `fetch`, `resp.text()`, `JSON.parse`, `YAML.parse`: they are abstract outcomes (the fetched text or an error message; a parsed schema or an error message).
- `URLSearchParams`: the `url` query parameter is passed in as an optional string.
- Parsed values other than booleans and objects (null, numbers, strings, arrays). In the code, `isLoadSchemaError` would throw on some of them; the model's schema type has no such values.
- Object members other than `title` and `message`, and the JavaScript type of those two: they are optional strings.
- React itself: JSX, styled-components, `withRouter`, the asynchronous batching of `setState` (a commit takes effect at once), unmounting, and the exception thrown when `children` is not a function. `Mount` requires a freshly constructed component, because React mounts a component once.
- True concurrency: completions are sequential events, in any order.
- The side effect of `addRecentlyViewedLink` and its storage: the link is part of the content view instead.
