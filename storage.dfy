/**
  The client wrappers around the local store API in src/utils/storage.ts:
  the request `saveCanvasToLocal` sends, and how `saveCanvasToLocal`,
  `listCanvases` and `openCanvasFromLocal` turn what `fetch` gives them into
  their results. Every exception the wrappers catch ends as the failure
  result.
 */
module Storage {
  import opened Wrappers
  import opened Js
  import opened Http
  import Strings
  import Markdown

  /** `SaveResult`; an absent optional field is `undefined`. */
  datatype SaveResult = SaveResult(success: bool, canvasId: Value, logseqPath: Value)

  /** `LoadResult`; an absent optional field is `undefined`. */
  datatype LoadResult = LoadResult(success: bool, canvasId: Value, name: Value)

  /** `{ success: false }` */
  const SaveFailed := SaveResult(false, Undefined, Undefined)
  const LoadFailed := LoadResult(false, Undefined, Undefined)

  /** The Markdown `generateMarkdown` produces for the canvas. */
  function MarkdownOf(shapes: seq<Markdown.Shape>, name: string, savedAt: string): string
  {
    Strings.Join(Markdown.Lines(shapes, name, savedAt), "\n")
  }

  /** The body `saveCanvasToLocal` posts: `JSON.stringify` drops the
      `canvasId` key when there is no existing id. */
  function SaveRequest(name: string, snapshot: Value, markdown: string, existingCanvasId: Option<string>): (t: Text)
    ensures t.Stringified? && t.value.Obj?
    ensures OptGet(t.value, "name") == Str(name)
    ensures OptGet(t.value, "json") == snapshot
    ensures OptGet(t.value, "markdown") == Str(markdown)
    ensures OptGet(t.value, "canvasId") == if existingCanvasId.Some? then Str(existingCanvasId.value) else Undefined
    ensures t.value.fields.Keys == {"name", "json", "markdown"} + (if existingCanvasId.Some? then {"canvasId"} else {})
  {
    var fields := map["name" := Str(name), "json" := snapshot, "markdown" := Str(markdown)];
    Stringified(Obj(if existingCanvasId.Some? then fields["canvasId" := Str(existingCanvasId.value)] else fields))
  }

  /** `await response.json()`: the parsed reply, or None when the request
      was rejected or the body is not JSON. */
  function ReplyOf(fetched: Fetched): Option<Value>
  {
    if fetched.Received? then Parse(fetched.response.body) else None
  }

  /** `saveCanvasToLocal` once its `fetch` has settled. The HTTP status is
      not looked at: the reply's own `success` decides, and only the boolean
      `true` counts. */
  function SaveOutcome(fetched: Fetched): (r: SaveResult)
    ensures r.success <==>
      (fetched.Received? && Parse(fetched.response.body).Some? &&
       OptGet(Parse(fetched.response.body).value, "success") == Bool(true))
    ensures ReplyOf(fetched).Some? && !Nullish(ReplyOf(fetched).value) ==>
      r.canvasId == OptGet(ReplyOf(fetched).value, "canvasId") &&
      r.logseqPath == OptGet(ReplyOf(fetched).value, "logseqPath")
    ensures !(ReplyOf(fetched).Some? && !Nullish(ReplyOf(fetched).value)) ==> r == SaveFailed
  {
    match fetched
    case NetworkError => SaveFailed
    case Received(response) =>
      match Parse(response.body)
      case None => SaveFailed
      case Some(result) =>
        if Nullish(result) then SaveFailed
        else SaveResult(OptGet(result, "success") == Bool(true), OptGet(result, "canvasId"), OptGet(result, "logseqPath"))
  }

  /** A truthy `success` that is not `true` still counts as failure. */
  lemma TruthyIsNotTrue()
    ensures !SaveOutcome(Received(Response(200, None, Stringified(Obj(map["success" := Num(1)]))))).success
  {
  }

  /** `listCanvases` once its `fetch` has settled: the reply's `canvases`,
      or an empty array when it is missing, falsy or anything failed. */
  function ListOutcome(fetched: Fetched): (r: Value)
    ensures Truthy(r)
    ensures ReplyOf(fetched).Some? && Truthy(OptGet(ReplyOf(fetched).value, "canvases")) ==>
      r == OptGet(ReplyOf(fetched).value, "canvases")
    ensures !(ReplyOf(fetched).Some? && Truthy(OptGet(ReplyOf(fetched).value, "canvases"))) ==>
      r == Arr([])
  {
    match fetched
    case NetworkError => Arr([])
    case Received(response) =>
      match Parse(response.body)
      case None => Arr([])
      case Some(result) =>
        if Nullish(result) then Arr([]) else Or(OptGet(result, "canvases"), Arr([]))
  }

  /** `openCanvasFromLocal` once its `fetch` has settled; `loads` says whether
      `loadSnapshot` accepted the data (it throws otherwise). The name falls
      back to the requested one when the snapshot's `meta` carries none. */
  function OpenOutcome(fetched: Fetched, name: string, loads: bool): (r: LoadResult)
    ensures r.success <==>
      (fetched.Received? && Ok(fetched.response) && ReplyOf(fetched).Some? &&
       !Nullish(ReplyOf(fetched).value) &&
       Truthy(OptGet(ReplyOf(fetched).value, "success")) &&
       Truthy(OptGet(ReplyOf(fetched).value, "data")) && loads)
    ensures r.success ==>
      var meta := OptGet(OptGet(ReplyOf(fetched).value, "data"), "meta");
      r.canvasId == OptGet(meta, "canvasId") && r.name == Or(OptGet(meta, "name"), Str(name))
    ensures r.success ==> Truthy(r.name) || r.name == Str(name)
    ensures !r.success ==> r == LoadFailed
  {
    match fetched
    case NetworkError => LoadFailed
    case Received(response) =>
      if !Ok(response) then LoadFailed
      else match Parse(response.body)
        case None => LoadFailed
        case Some(result) =>
          if Nullish(result) then LoadFailed
          else
            var data := OptGet(result, "data");
            if !(Truthy(OptGet(result, "success")) && Truthy(data)) then LoadFailed
            else if !loads then LoadFailed
            else
              var meta := OptGet(data, "meta");
              LoadResult(true, OptGet(meta, "canvasId"), Or(OptGet(meta, "name"), Str(name)))
  }
}
