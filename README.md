# AI canvas local store, modelled in Dafny

The application is a tldraw whiteboard that saves canvases to a `data/`
directory next to it. This project models the part of it that decides what
ends up on disk and what the browser is told:

- **Rich-text extraction** (`extractTextFromRichText` and its inner
  `extractFromNode`, module `RichText`): a text leaf gives its text, a node
  with a `content` array gives its children's texts concatenated, and the
  top-level blocks are joined with line feeds. An empty result becomes `null`.
- **The Markdown export** (`generateMarkdown`, module `Markdown`). The export
  opens with a four-line header. One pass over the page's shapes then fills
  four buckets (texts, links, images, notes), with `geo` shapes going into
  the notes bucket. Each non-empty bucket is written as a section, or the
  `(画布为空)` placeholder is written when all four are empty. The method
  `GenerateMarkdown` keeps the source's loop and pushes, and is proved equal
  to the function `Lines`. The properties are proved about `Lines`:
  - it always opens with the header;
  - the placeholder appears exactly when nothing was exported;
  - shape order is kept;
  - every image gives one bullet;
  - text bullets read back to the original texts;
  - a small parser, `ReadBody`, recovers the buckets from the lines.
- **The local API** served by the development server (`/api/save`,
  `/api/list`, `/api/open`, module `LocalApi`). The data directory is a
  `Store`: whether the root exists, its entries in listing order, and the
  files of each canvas directory. Each handler is a function from the store
  and the request to the new store and the response. The class `LocalServer`
  holds the store in fields, and its handler methods are proved equal to those
  functions.
- **The client wrappers** (`saveCanvasToLocal`, `listCanvases`,
  `openCanvasFromLocal`, module `Storage`): the request body that is sent,
  and how a settled `fetch` becomes a `SaveResult`, a list or a
  `LoadResult`.
- **End to end** (module `RoundTrip`):
  - the client reports a save exactly when the server answered 200;
  - a save never returns a canvas id;
  - saving and then opening gives back the snapshot's own `meta`;
  - the list shows the visible canvas directories in order.

JavaScript values are the datatype `Js.Value`. `JSON.stringify` and
`JSON.parse` are an abstract pair: text is either the stringification of a
value or unparsable text, and parsing a stringified value gives the value
back. Filesystem failures are a parameter of each handler (`FsFault`): it
names the call that throws. The wall-clock time in the Markdown header is the
parameter `savedAt`.

`SaveResult` has `canvasId` and `logseqPath` fields, `saveCanvasToLocal`
passes an `existingCanvasId`, and the header of storage.ts promises a sync to
Logseq. The server code does none of this, and the model follows the code.
Save does not assign or reuse a `canvasId`, does not write a `meta` block
into the snapshot, and writes nothing besides `canvas.json` and `content.md`.
The client's `canvasId` and `logseqPath` therefore always come back undefined
(`RoundTrip.SaveReturnsNoId`). A reopened canvas's id is only whatever the
snapshot itself carried in `meta` (`RoundTrip.ClientOpenAfterSave`).

## Model

| member | source | states |
|---|---|---|
| RichText.FromNode | src/utils/storage.ts:177-190 | `extractFromNode`: a text leaf with non-empty text gives that text, an object with a `content` array its children's texts concatenated, anything else ''; the result is the concatenation of the node's text leaves, depth first and left to right |
| RichText.FromNodes | src/utils/storage.ts:186 | the mapped extraction has one text per node, each that node's extraction, and its `join('')` is the concatenation of all the children's leaves in order |
| RichText.ExtractText | src/utils/storage.ts:171-194 | the result is never the empty string; when there is one, the value has a `content` array and the result is its blocks' texts joined with line feeds; it is `null` exactly when there is no `content` array, no block, or one block with empty text, so two empty blocks give "\n" |
| RichText.JoinEmpty | src/utils/storage.ts:192-193 | a join with a non-empty separator is empty exactly when it has no part, or one empty part |
| RichText.LeavesNonEmpty | src/utils/storage.ts:181-183 | every leaf that reaches the output is non-empty |
| RichText.LeavesOfNonEmpty | src/utils/storage.ts:186 | the same for a sequence of children |
| RichText.ConcatKeepsOut | src/utils/storage.ts:186 | concatenation introduces no character that no part holds |
| RichText.SplitRecoversBlocks | src/utils/storage.ts:192 | when no leaf holds a line feed, splitting the result on line feeds gives back exactly the block texts |
| RichText.TwoParagraphs | src/utils/storage.ts:171-194 | leaves "A","B" in one paragraph and "C" in the next extract to "AB\nC" |
| Strings.Split | src/utils/storage.ts:192 | splitting (the read-back partner of joining with a line feed) yields at least one part |
| Strings.SplitJoin | src/utils/storage.ts:192 | splitting a join on its one-character separator gives back the parts when none holds it |
| Strings.Indent | src/utils/storage.ts:132 | `replace(/\n/g, '\n  ')`: the text grows by two characters per line feed, and a text without line feeds is unchanged |
| Strings.UnindentIndent | src/utils/storage.ts:132 | undoing the replacement of each line feed by a line feed and two spaces gives back the text |
| Strings.IndentWellIndented | src/utils/storage.ts:132 | after that replacement, every line feed is followed by two spaces |
| Markdown.TextOf | src/utils/storage.ts:131 | the rich text's extraction, or else `props.text` (also lines 140 and 143): the rich text wins whenever it gives anything, and the text is empty exactly when the rich text gives `null` and `props.text` is missing or empty |
| Markdown.AddShape | src/utils/storage.ts:126-145 | one turn of the loop: the bullets already pushed stay, in front, at most one bullet is added, and an image always adds one |
| Markdown.Bucketize | src/utils/storage.ts:125-146 | the buckets after the loop has seen the shapes in order; the image bucket has exactly one bullet per image shape, named or not |
| Markdown.Lines | src/utils/storage.ts:112-163 | the `lines` array: the four header lines, then at least one more, the last being the blank line that closes a section or the placeholder |
| Markdown.GenerateMarkdown | src/utils/storage.ts:109-166 | the loop over shapes and the section pushes produce the join of `Lines` with line feeds, which starts with the title and save-time preamble |
| Markdown.PushSection | src/utils/storage.ts:148-159 | a non-empty bucket appends its heading, a blank line, its bullets and a blank line; an empty one appends nothing |
| Markdown.PushedSections | src/utils/storage.ts:148-163 | pushing the four sections and then the placeholder onto any lines appends exactly the body built from the buckets |
| Markdown.BodyNonEmpty | src/utils/storage.ts:148-163 | something always follows the header: a section or the placeholder |
| Markdown.PreambleFirst | src/utils/storage.ts:112-117 | the export always opens with "# name", a blank line, "> 保存时间: …" and a blank line |
| Markdown.HeaderThenBody | src/utils/storage.ts:112-117 | for any non-empty body, the joined lines start with the preamble |
| Markdown.PlaceholderIffEmpty | src/utils/storage.ts:161-163 | the last line is the placeholder exactly when all four buckets are empty, and then the export is the header and the placeholder |
| Markdown.OnlyUnknownShapes | src/utils/storage.ts:125-146 | a page of shapes of other types exports no bullet, only the header and the placeholder |
| Markdown.BucketizeAppend | src/utils/storage.ts:125-146 | the single pass keeps order: the buckets of a+b are those of a followed bucket-wise by those of b |
| Markdown.AddShapeMerge | src/utils/storage.ts:125-146 | a shape's bullet lands at the end of its bucket whatever came before |
| Markdown.ShapeContribution | src/utils/storage.ts:129-145 | per type: an image always gives one image bullet; a link with a URL gives one link bullet; a text gives a text bullet when it has text; a note and a geo shape give a note bullet (📝 for notes only) when they have text; other types give nothing |
| Markdown.AddShapeTexts | src/utils/storage.ts:129-132 | one turn of the loop appends to the text bucket only for a text shape with text, and then exactly its bullet |
| Markdown.UnbulletBullet | src/utils/storage.ts:132 | a text bullet read back gives its text |
| Markdown.TextBulletsReadBack | src/utils/storage.ts:129-132 | removing the "- " marker and the indentation from the text bullets gives the texts of the text shapes that have text, in order |
| Markdown.IndentedBullet | src/utils/storage.ts:132 | a bullet made from a prefix without line feeds and an indented text is well indented |
| Markdown.AddShapeWellFormed | src/utils/storage.ts:125-146 | each turn of the loop keeps every bullet marked and the text and note bullets well indented |
| Markdown.BulletsWellFormed | src/utils/storage.ts:125-146 | after the loop, every bullet has the "- " marker, and the text and note bullets' continuation lines are indented |
| Markdown.TakeBulletsOf | src/utils/storage.ts:148-159 | a run of bullets closed by a blank line reads back as exactly those bullets |
| Markdown.TakeSectionOf | src/utils/storage.ts:148-159 | a pushed section reads back as its bullets, and an absent section reads back as no bullets |
| Markdown.ReadBodyOf | src/utils/storage.ts:148-163 | the body is unambiguous: reading it back gives the buckets it was made from |
| Markdown.MarkdownReadsBack | src/utils/storage.ts:109-163 | the line array after the four header lines, before it is joined, reads back to the buckets of the page's shapes |
| Markdown.TextThenNote | src/utils/storage.ts:109-166 | a text shape and a note shape export as the header, a text section and a notes section |
| LocalApi.Save | vite.config.ts:20-60 | `/api/save`: the steps run in order and a throwing step keeps the effects of the steps before it; the reply is a 200, a 405 or a 500, the data directory once there stays, entries are only added, at most one, and no canvas directory disappears |
| LocalApi.VisibleNames | vite.config.ts:78-80 | the filter and map: no more names than entries, and none of them hidden |
| LocalApi.List | vite.config.ts:63-88 | `/api/list`: a JSON 200, the 405, or a 500 exactly when the existing directory cannot be read |
| LocalApi.Open | vite.config.ts:91-125 | `/api/open`: the reply is a 200, 400, 404, 405 or 500, and a 200 is sent only for a named canvas whose `canvas.json` exists and parses, with the parsed value as `data` |
| LocalApi.WrongMethodRejected | vite.config.ts:21-25 | each endpoint answers the wrong method with 405 "Method Not Allowed" and changes nothing |
| LocalApi.SaveWrites | vite.config.ts:30-54 | a well-formed save creates the directory when it is missing and overwrites both files; every other canvas keeps its files; the reply is `{success: true, path}` |
| LocalApi.SaveIgnoresCanvasId | vite.config.ts:31 | the request's `canvasId` does not affect the state or the reply |
| LocalApi.SaveNotAtomic | vite.config.ts:40-57 | when the Markdown write fails, the reply is a 500 but the new `canvas.json` stays; `content.md` keeps its old contents when the write failed before the file was opened, and otherwise holds the part that was written |
| LocalApi.InterruptedCanvasWrite | vite.config.ts:40-57 | a `canvas.json` write that fails after truncating the file leaves the canvas listed, but opening it now fails with a 500 parse error, and its `content.md` is as before |
| LocalApi.CanvasWriteStep | vite.config.ts:34-45 | a failed `canvas.json` write runs after the directory step, replaces that file only, and the reply is a 500 |
| LocalApi.RootLeftBehind | vite.config.ts:35-37 | a recursive `mkdirSync` that makes the missing data directory and then fails leaves it empty, and the list is then empty |
| LocalApi.MakeDirValid | vite.config.ts:35-37 | creating the directory of an unlisted name keeps the directory consistent |
| LocalApi.SameShapeValid | vite.config.ts:35-51 | rewriting files, or making the empty data directory, while keeping every entry keeps the directory consistent |
| LocalApi.SaveShape | vite.config.ts:30-58 | a save leaves the entries as they were or adds exactly one new directory |
| LocalApi.SavePreservesValid | vite.config.ts:20-60 | any save, failing or not, keeps the directory consistent: unique names, and directories that match the canvases |
| LocalApi.ListWithoutRoot | vite.config.ts:71-75 | without the data directory the list is empty |
| LocalApi.VisibleNamesAppend | vite.config.ts:77-80 | the list keeps the listing order |
| LocalApi.VisibleNamesMembers | vite.config.ts:78-80 | a name is listed exactly when it is a directory whose name does not start with a dot |
| LocalApi.ListedCanvases | vite.config.ts:77-83 | in a consistent directory, the list holds exactly the stored canvases that are not hidden |
| LocalApi.VisibleNamesDistinct | vite.config.ts:77-80 | no name is listed twice |
| LocalApi.OpenWithoutName | vite.config.ts:101-107 | a missing or empty name gives 400 "Missing name parameter" |
| LocalApi.OpenNotFound | vite.config.ts:109-116 | open gives 404 exactly when a name is given and its `canvas.json` does not exist |
| LocalApi.SaveThenOpen | vite.config.ts:30-120 | opening a name right after saving it returns `{success: true, data}` holding the saved `json` |
| LocalApi.SaveThenList | vite.config.ts:30-83 | a saved canvas is listed afterwards exactly when its name is not hidden |
| LocalApi.SaveSuccessOnlyWith200 | vite.config.ts:20-60 | save's reply holds `success` exactly when the status is 200, and the value is then `true`; every 500 is a caught exception's `{error}` |
| LocalApi.OpenSuccessOnlyWith200 | vite.config.ts:91-125 | the same for open |
| LocalApi.ListNeverSaysSuccess | vite.config.ts:63-88 | list never sends `success`; its only 500 is a failed directory read |
| LocalApi.SaveReplies | vite.config.ts:20-60 | save sends only the 405, a caught exception, or `{success: true, path}` |
| LocalApi.SaveFailureIsCaught | vite.config.ts:55-58 | every 500 that save sends is a caught exception's error body |
| LocalApi.LocalServer.HandleSave | vite.config.ts:20-60 | the new state and the reply are those of `Save`, and a consistent directory stays consistent |
| LocalApi.LocalServer.HandleList | vite.config.ts:63-88 | the reply is that of `List`, and nothing changes |
| LocalApi.LocalServer.HandleOpen | vite.config.ts:91-125 | the reply is that of `Open`, and nothing changes |
| LocalApi.LocalServer.constructor | vite.config.ts:12-18 | the server starts over the given data directory |
| Storage.SaveRequest | src/utils/storage.ts:28-37 | the posted object carries the name, the snapshot and the Markdown, and carries a `canvasId` only when one was given |
| Storage.SaveOutcome | src/utils/storage.ts:39-48 | success exactly when a reply arrived, parsed, and its `success` is the boolean `true`; when a non-null reply parsed, `canvasId` and `logseqPath` are exactly the reply's; otherwise the result is `{success: false}` |
| Storage.TruthyIsNotTrue | src/utils/storage.ts:41 | a reply with `success: 1` counts as failure |
| Storage.ListOutcome | src/utils/storage.ts:54-63 | the result is the reply's `canvases` when a reply parsed and that field is truthy, and `[]` otherwise: on a network error, a body that is not JSON, a `null` reply, or a missing or falsy `canvases` |
| Storage.OpenOutcome | src/utils/storage.ts:75-104 | success exactly when a 2xx reply arrived, parsed to a non-null value with truthy `success` and truthy `data`, and `loadSnapshot` accepted it; the id is then `data.meta?.canvasId` and the name `data.meta?.name` or else the requested name; every failure is `{success: false}` |
| RoundTrip.SaveReportedIffStored | src/utils/storage.ts:39-44 | the client reports a save exactly when the handler answered 200 |
| RoundTrip.SaveReturnsNoId | src/utils/storage.ts:40-44 | after any save the client's `canvasId` and `logseqPath` are undefined |
| RoundTrip.ClientSave | src/utils/storage.ts:18-44 | a save sent by the client is reported and stores the snapshot and the Markdown as sent |
| RoundTrip.ClientOpenAfterSave | src/utils/storage.ts:75-97 | with `loadSnapshot` accepting the snapshot (`loads` true), opening what the client saved succeeds with the snapshot's `meta.canvasId` and its `meta.name`, or the requested name |
| RoundTrip.NullSnapshotNotOpened | src/utils/storage.ts:85 | a canvas saved with a `null` snapshot is served back with 200, yet the client reports failure because `data` is falsy |
| RoundTrip.SaveStoresMarkdown | src/utils/storage.ts:24-37 | after saving from the editor, `content.md` holds exactly the generated Markdown |
| RoundTrip.OpenUnsaved | src/utils/storage.ts:79-81 | opening a name without `canvas.json` gives `{success: false}` and throws nothing |
| RoundTrip.ListShowsCanvases | src/utils/storage.ts:54-58 | the client's list is the handler's visible names in listing order |
| RoundTrip.ListFailureIsEmpty | src/utils/storage.ts:58-61 | any failure of the list handler reaches the client as an empty list |

## Left out

- File contents and the network are abstract. A `canvas.json` holds a
  `Js.Text`, and `fetch` gives a `Http.Fetched`. Streaming the request body
  (`req.on('data')`) and the `Content-Type` of requests are not modelled.
  With that the model loses one effect of vite.config.ts:28. `body += chunk`
  decodes each Buffer chunk on its own because no encoding is set. A
  multi-byte UTF-8 character, such as the Chinese text of a canvas, that
  is split across two chunks would then be stored as U+FFFD. The abstract
  `Text` body cannot show this.
- `JSON.stringify(json, null, 2)` and `JSON.parse` are modelled as an inverse
  pair on `Js.Value`. Pretty-printing, and the way `undefined` values nested
  inside objects or arrays are dropped, are not modelled.
- `Js.Value` numbers are integers. Floating-point numbers never affect a branch
  of the core.
- `path.join` is modelled as plain concatenation, and a name is a plain key of
  the store. The model does not capture:
  - names containing `/` or `..`, which would reach other directories;
  - the empty name, for which `path.join` gives the data directory itself and
    the files would be written to the data directory itself.
- `encodeURIComponent` and `searchParams.get` are modelled as an exact round
  trip of the name. ``new URL(req.url!, `http://${req.headers.host}`)`` in
  the open handler is not modelled: it throws on a malformed `Host` header,
  and the handler then answers 500.
- `String(e)` is modelled only by the kind of exception (`Exception`). The
  message text is not modelled.
- Markdown.MarkdownReadsBack reads back the line array, not the joined text.
  Only text and note bullets have their line feeds indented. A link URL or an
  image name that contains a line feed (for example "\n\n## 图片") can
  therefore forge a heading in the joined Markdown. The joined text is then
  not read back uniquely.
- A `props.text` or leaf `text` that is not a string is treated as absent.
  In the code, a truthy non-string `props.text` reaches `text.replace`, which
  throws, and the save reports `{success: false}`. A truthy non-string leaf
  `text` would be returned as it is. tldraw's typed props never carry such
  values.
- `markdown` that is not a string is modelled as a TypeError. Node also
  accepts Buffer-like values, which the model does not include.
- `readdirSync`'s order is whatever order the listing is in. A new directory
  is placed last.
- LocalApi.SaveNotAtomic, LocalApi.InterruptedCanvasWrite: what a failing
  `writeFileSync` leaves is a parameter of the fault, not derived from the
  text being written. A `canvas.json` cut off part-way is modelled as text
  that does not parse. That holds when the snapshot is an object or an
  array, whose closing bracket comes last, but not for every prefix of a
  bare number. The partial `content.md` is any string, not only a prefix of
  the Markdown.
- A `canvas.json` that is itself a directory is not modelled (a folder's files
  are always files).
- `getSnapshot`, `loadSnapshot` and `editor.getCurrentPageShapes` are calls
  into tldraw.
  - The snapshot is a `Js.Value` parameter.
  - Whether `loadSnapshot` accepts the snapshot is the boolean parameter `loads`.
  - The shapes are a sequence of `Markdown.Shape` holding the `type` and the
    props that the exporter reads.
- `new Date().toLocaleString('zh-CN')` is the parameter `savedAt`.
- The `console.error` logging in the client's catch blocks changes no result,
  and is left out.
- Syncing to Logseq, `App.tsx` and the UI components are outside this model.
  The code writes nothing besides the two files.
- Storage.SaveOutcome, Storage.OpenOutcome, Storage.ListOutcome: the client's
  rejected promises (network errors) all pass through the same catch, so they
  collapse into one `Http.NetworkError`.
- `LocalApi.Valid` describes a consistent directory on disk. The lemmas
  require it of the initial store, and saves preserve it.
