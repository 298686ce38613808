/**
  The local store API served by the development server (`localApiPlugin` in
  vite.config.ts): `POST /api/save`, `GET /api/list` and `GET /api/open`
  over a data directory holding one subdirectory per canvas, each with a
  `canvas.json` and a `content.md`.

  Each handler is first given as a function from the directory's state and
  the request to the new state and the response; the class `LocalServer`
  then holds the state in fields and runs each handler step by step, proved
  equal to its function.
 */
module LocalApi {
  import opened Wrappers
  import opened Js
  import opened Http
  import Strings

  /** An entry of the data directory as `readdirSync(DATA_DIR, { withFileTypes: true })` lists it. */
  datatype Entry = Entry(name: string, isDir: bool)

  /** The two files of a canvas directory; None when the file does not exist. */
  datatype Folder = Folder(canvasJson: Option<Text>, contentMd: Option<string>)

  /** The data directory: whether it exists, its entries in enumeration
      order, and the files of each subdirectory, keyed by its name. */
  datatype Store = Store(rootExists: bool, listing: seq<Entry>, folders: map<string, Folder>)

  /** Some entry of the directory, file or subdirectory, has this name. */
  predicate Listed(listing: seq<Entry>, name: string)
  {
    exists i :: 0 <= i < |listing| && listing[i].name == name
  }

  /** How a directory on disk hangs together: nothing without the root,
      entry names unique, and the subdirectories exactly the folders. */
  ghost predicate Valid(s: Store)
  {
    && (!s.rootExists ==> s.listing == [] && s.folders == map[])
    && (forall i, j :: 0 <= i < j < |s.listing| ==> s.listing[i].name != s.listing[j].name)
    && (forall i :: 0 <= i < |s.listing| && s.listing[i].isDir ==> s.listing[i].name in s.folders)
    && (forall n :: n in s.folders ==> Entry(n, true) in s.listing)
  }

  /** The exception a handler's `try` block catches, by kind. */
  datatype Exception =
    | SyntaxError   // JSON.parse of text that is not JSON
    | TypeError     // destructuring null, a non-string path part, writing `undefined` or a non-string
    | FsError       // the filesystem refused (permissions, a full disk, a file where a directory should be)

  /** The filesystem call that throws during this request, if any, and what
      it leaves on disk. A recursive `mkdirSync` may have made the data
      directory before it failed (`rootMade`). `writeFileSync` with its flag
      'w' truncates or creates the file before it writes: `left` is None when
      the call threw before the file was opened, so the old file stays, and
      otherwise the text that reached the file before it threw. */
  datatype FsFault =
    | NoFault
    | MkdirFails(rootMade: bool)
    | CanvasWriteFails(left: Option<string>)
    | MarkdownWriteFails(left: Option<string>)
    | ReadFails

  /** `String(e)`, kept to the exception's kind. */
  function Describe(e: Exception): string
  {
    match e
    case SyntaxError => "SyntaxError"
    case TypeError => "TypeError"
    case FsError => "Error"
  }

  const JsonType := "application/json"

  /** `res.statusCode = 405; res.end('Method Not Allowed')` */
  const MethodNotAllowed := Response(405, None, Unparsable("Method Not Allowed"))

  /** `res.statusCode = status; res.end(JSON.stringify({ error: message }))` */
  function ErrorResponse(status: int, message: string): Response
  {
    Response(status, None, Stringified(Obj(map["error" := Str(message)])))
  }

  /** What every `catch (e)` sends. */
  function Failure(e: Exception): Response
  {
    ErrorResponse(500, Describe(e))
  }

  /** `path.join(DATA_DIR, name)`, without normalisation. */
  function CanvasDir(root: string, name: string): string
  {
    root + "/" + name
  }

  /** `res.end(JSON.stringify(value))` after setting the JSON content type. */
  function JsonResponse(value: Value): Response
  {
    Response(200, Some(JsonType), Stringified(value))
  }

  /** The state after a handler and the response it sent. */
  datatype Outcome = Outcome(store: Store, response: Response)

  /** `mkdirSync(canvasDir, { recursive: true })`: creates the root if needed
      and an empty directory for the canvas, listed last. */
  function MakeDir(s: Store, name: string): Store
  {
    Store(true, s.listing + [Entry(name, true)], s.folders[name := Folder(None, None)])
  }

  function WriteCanvas(s: Store, name: string, t: Text): Store
    requires name in s.folders
  {
    s.(folders := s.folders[name := s.folders[name].(canvasJson := Some(t))])
  }

  function WriteMarkdown(s: Store, name: string, md: string): Store
    requires name in s.folders
  {
    s.(folders := s.folders[name := s.folders[name].(contentMd := Some(md))])
  }

  /** `{ success: true, path: canvasDir }` */
  function SavedReply(root: string, name: string): Value
  {
    Obj(map["success" := Bool(true), "path" := Str(CanvasDir(root, name))])
  }

  /** The handler for `/api/save`. Only `name`, `json` and `markdown` are read
      from the parsed body; the steps run in order and a step that throws
      leaves the effects of the earlier ones in place. The reply is a 200, a
      405 or a 500; the data directory, once there, stays, entries are only
      ever added, one at most, and no canvas directory disappears. */
  function Save(s: Store, root: string, verb: string, body: Text, fault: FsFault): (r: Outcome)
    ensures r.response.status == 200 || r.response.status == 405 || r.response.status == 500
    ensures s.rootExists ==> r.store.rootExists
    ensures s.listing <= r.store.listing && |r.store.listing| <= |s.listing| + 1
    ensures s.folders.Keys <= r.store.folders.Keys
  {
    if verb != "POST" then Outcome(s, MethodNotAllowed)
    else match Parse(body)
      case None => Outcome(s, Failure(SyntaxError))
      case Some(req) =>
        if Nullish(req) then Outcome(s, Failure(TypeError))
        else
          var name := OptGet(req, "name");
          if !name.Str? then Outcome(s, Failure(TypeError))
          else
            var n := name.s;
            var present := s.rootExists && Listed(s.listing, n);
            if !present && fault.MkdirFails? then
              Outcome(if fault.rootMade then s.(rootExists := true) else s, Failure(FsError))
            else
              var s1 := if present then s else MakeDir(s, n);
              match Stringify(OptGet(req, "json"))
              case None => Outcome(s1, Failure(TypeError))
              case Some(jsonText) =>
                if n !in s1.folders then Outcome(s1, Failure(FsError))
                else if fault.CanvasWriteFails? then
                  Outcome(if fault.left.Some? then WriteCanvas(s1, n, Unparsable(fault.left.value)) else s1,
                          Failure(FsError))
                else
                  var s2 := WriteCanvas(s1, n, jsonText);
                  var markdown := OptGet(req, "markdown");
                  if !markdown.Str? then Outcome(s2, Failure(TypeError))
                  else if fault.MarkdownWriteFails? then
                    Outcome(if fault.left.Some? then WriteMarkdown(s2, n, fault.left.value) else s2,
                            Failure(FsError))
                  else Outcome(WriteMarkdown(s2, n, markdown.s), JsonResponse(SavedReply(root, n)))
  }

  /** Hidden entries start with a dot. */
  predicate Hidden(name: string)
  {
    Strings.StartsWith(name, ".")
  }

  /** `entries.filter(e => e.isDirectory() && !e.name.startsWith('.')).map(e => e.name)` */
  function VisibleNames(listing: seq<Entry>): (r: seq<string>)
    ensures |r| <= |listing|
    ensures forall i :: 0 <= i < |r| ==> !Hidden(r[i])
  {
    if listing == [] then []
    else
      var head := if listing[0].isDir && !Hidden(listing[0].name) then [listing[0].name] else [];
      head + VisibleNames(listing[1..])
  }

  function Strs(names: seq<string>): (r: seq<Value>)
    ensures |r| == |names| && forall i :: 0 <= i < |names| ==> r[i] == Str(names[i])
  {
    if names == [] then [] else [Str(names[0])] + Strs(names[1..])
  }

  function CanvasList(names: seq<string>): Value
  {
    Obj(map["canvases" := Arr(Strs(names))])
  }

  /** The handler for `/api/list`: a JSON 200, the 405, or a 500 exactly when
      the existing directory cannot be read. */
  function List(s: Store, verb: string, fault: FsFault): (r: Response)
    ensures r.status == 200 || r.status == 405 || r.status == 500
    ensures r.status == 500 <==> verb == "GET" && s.rootExists && fault == ReadFails
    ensures r.status == 200 ==> r.contentType == Some(JsonType)
  {
    if verb != "GET" then MethodNotAllowed
    else if !s.rootExists then JsonResponse(CanvasList([]))
    else if fault == ReadFails then Failure(FsError)
    else JsonResponse(CanvasList(VisibleNames(s.listing)))
  }

  /** `existsSync(path.join(DATA_DIR, name, 'canvas.json'))` */
  predicate HasCanvas(s: Store, name: string)
  {
    s.rootExists && name in s.folders && s.folders[name].canvasJson.Some?
  }

  /** The handler for `/api/open`; `nameParam` is `url.searchParams.get('name')`.
      A 200 is sent only for a named canvas whose `canvas.json` exists and
      parses, and it carries the parsed value. */
  function Open(s: Store, verb: string, nameParam: Option<string>, fault: FsFault): (r: Response)
    ensures r.status in {200, 400, 404, 405, 500}
    ensures r.status == 200 ==>
      && nameParam.Some? && HasCanvas(s, nameParam.value)
      && Parse(s.folders[nameParam.value].canvasJson.value).Some?
      && Parse(r.body).Some?
      && OptGet(Parse(r.body).value, "data") == Parse(s.folders[nameParam.value].canvasJson.value).value
  {
    if verb != "GET" then MethodNotAllowed
    else if nameParam.None? || nameParam.value == "" then ErrorResponse(400, "Missing name parameter")
    else
      var n := nameParam.value;
      if !HasCanvas(s, n) then ErrorResponse(404, "Canvas not found")
      else if fault == ReadFails then Failure(FsError)
      else match Parse(s.folders[n].canvasJson.value)
        case None => Failure(SyntaxError)
        case Some(v) => JsonResponse(Obj(map["success" := Bool(true), "data" := v]))
  }

  // ---------------------------------------------------------------------------
  // Properties of the handlers

  /** Each endpoint turns away the wrong method with 405 and touches nothing. */
  lemma WrongMethodRejected(s: Store, root: string, verb: string, body: Text, nameParam: Option<string>, fault: FsFault)
    ensures verb != "POST" ==> Save(s, root, verb, body, fault) == Outcome(s, MethodNotAllowed)
    ensures verb != "GET" ==> List(s, verb, fault) == MethodNotAllowed
    ensures verb != "GET" ==> Open(s, verb, nameParam, fault) == MethodNotAllowed
  {
  }

  /** A save request as the client sends it: a JSON object whose `name` is a
      string, whose `json` is defined and whose `markdown` is a string. */
  predicate WellFormedSave(body: Text)
  {
    && body.Stringified? && body.value.Obj?
    && OptGet(body.value, "name").Str?
    && OptGet(body.value, "json") != Undefined
    && OptGet(body.value, "markdown").Str?
  }

  /** The name a well-formed save request names. */
  function SaveName(body: Text): string
    requires WellFormedSave(body)
  {
    OptGet(body.value, "name").s
  }

  /** A file, not a directory, of that name sits in the data directory. */
  predicate BlockedByFile(s: Store, name: string)
  {
    s.rootExists && Listed(s.listing, name) && name !in s.folders
  }

  /** A well-formed save creates the directory if it is missing and
      overwrites both files unconditionally; every other canvas is left as it
      was, and the reply carries `success` and `path` and nothing else. */
  lemma SaveWrites(s: Store, root: string, body: Text)
    requires Valid(s) && WellFormedSave(body)
    requires !BlockedByFile(s, SaveName(body))
    ensures var n := SaveName(body);
      var out := Save(s, root, "POST", body, NoFault);
      && out.store.rootExists
      && out.store.folders == s.folders[n := Folder(Some(Stringified(OptGet(body.value, "json"))),
                                                    Some(OptGet(body.value, "markdown").s))]
      && out.store.listing == (if n in s.folders then s.listing else s.listing + [Entry(n, true)])
      && out.response == JsonResponse(SavedReply(root, n))
  {
    UnlistedNotStored(s, SaveName(body));
  }

  /** A stored canvas is listed under its name. */
  lemma UnlistedNotStored(s: Store, n: string)
    requires Valid(s)
    ensures !(s.rootExists && Listed(s.listing, n)) ==> n !in s.folders
  {
    if n in s.folders {
      var i :| 0 <= i < |s.listing| && s.listing[i] == Entry(n, true);
      assert s.listing[i].name == n;
    }
  }

  /** The request's `canvasId`, if any, changes nothing: the handler never reads it. */
  lemma SaveIgnoresCanvasId(s: Store, root: string, verb: string, fields: map<string, Value>, id: Value, fault: FsFault)
    ensures Save(s, root, verb, Stringified(Obj(fields)), fault) ==
            Save(s, root, verb, Stringified(Obj(fields["canvasId" := id])), fault)
  {
    var a, b := Obj(fields), Obj(fields["canvasId" := id]);
    assert OptGet(a, "name") == OptGet(b, "name");
    assert OptGet(a, "json") == OptGet(b, "json");
    assert OptGet(a, "markdown") == OptGet(b, "markdown");
  }

  /** A Markdown write that fails leaves the new `canvas.json` behind: saving
      is not atomic. `content.md` keeps its old contents when the write threw
      before opening the file, and holds what was written so far otherwise. */
  lemma SaveNotAtomic(s: Store, root: string, body: Text, left: Option<string>)
    requires Valid(s) && WellFormedSave(body)
    requires !BlockedByFile(s, SaveName(body))
    ensures var n := SaveName(body);
      var out := Save(s, root, "POST", body, MarkdownWriteFails(left));
      && out.response == Failure(FsError)
      && n in out.store.folders
      && out.store.folders[n].canvasJson == Some(Stringified(OptGet(body.value, "json")))
      && out.store.folders[n].contentMd ==
           (if left.Some? then left else if n in s.folders then s.folders[n].contentMd else None)
  {
    SaveWrites(s, root, body);
  }

  /** A `canvas.json` write that fails after opening the file leaves a
      truncated file: the canvas is still listed, but opening it now fails to
      parse, and its `content.md` is as before. */
  lemma InterruptedCanvasWrite(s: Store, root: string, body: Text, left: string)
    requires Valid(s) && WellFormedSave(body)
    requires !BlockedByFile(s, SaveName(body))
    ensures var n := SaveName(body);
      var out := Save(s, root, "POST", body, CanvasWriteFails(Some(left)));
      && out.response == Failure(FsError)
      && (n in VisibleNames(out.store.listing) <==> !Hidden(n))
      && n in out.store.folders
      && Open(out.store, "GET", Some(n), NoFault) == (if n == "" then ErrorResponse(400, "Missing name parameter")
                                                      else Failure(SyntaxError))
      && out.store.folders[n].contentMd == (if n in s.folders then s.folders[n].contentMd else None)
  {
    var n := SaveName(body);
    var out := Save(s, root, "POST", body, CanvasWriteFails(Some(left)));
    var s1 := if s.rootExists && Listed(s.listing, n) then s else MakeDir(s, n);
    CanvasWriteStep(s, root, body, left);
    VisibleNamesMembers(s1.listing, n);
    if s1 == s {
      assert n in s.folders;
    } else {
      assert s1.listing[|s.listing|] == Entry(n, true);
    }
  }

  lemma CanvasWriteStep(s: Store, root: string, body: Text, left: string)
    requires Valid(s) && WellFormedSave(body)
    requires !BlockedByFile(s, SaveName(body))
    ensures var n := SaveName(body);
      var s1 := if s.rootExists && Listed(s.listing, n) then s else MakeDir(s, n);
      && n in s1.folders
      && Save(s, root, "POST", body, CanvasWriteFails(Some(left))) ==
           Outcome(WriteCanvas(s1, n, Unparsable(left)), Failure(FsError))
  {
    UnlistedNotStored(s, SaveName(body));
  }

  /** A recursive `mkdirSync` that makes the data directory and then fails
      leaves it behind, empty: the list is then empty, from a directory that
      now exists. */
  lemma RootLeftBehind(s: Store, root: string, body: Text)
    requires Valid(s) && !s.rootExists && WellFormedSave(body)
    ensures var out := Save(s, root, "POST", body, MkdirFails(true));
      && out.response == Failure(FsError)
      && out.store == Store(true, [], map[])
      && List(out.store, "GET", NoFault) == JsonResponse(CanvasList([]))
  {
  }

  lemma MakeDirValid(s: Store, n: string)
    requires Valid(s) && !(s.rootExists && Listed(s.listing, n))
    ensures Valid(MakeDir(s, n))
  {
    var t := MakeDir(s, n);
    assert !Listed(s.listing, n);
    forall i, j | 0 <= i < j < |t.listing|
      ensures t.listing[i].name != t.listing[j].name
    {
      if j == |s.listing| {
        assert s.listing[i].name != n;
      }
    }
  }

  /** Two states with the same entries and canvas names, the second with the
      root possibly made. */
  predicate SameShape(s: Store, t: Store)
  {
    (s.rootExists ==> t.rootExists) && t.listing == s.listing && t.folders.Keys == s.folders.Keys
  }

  /** Rewriting the files of canvases, or making the empty root, keeps the
      directory consistent. */
  lemma SameShapeValid(s: Store, t: Store)
    requires Valid(s) && SameShape(s, t)
    ensures Valid(t)
  {
  }

  /** A save either keeps the directory's shape or adds one new directory. */
  lemma SaveShape(s: Store, root: string, verb: string, body: Text, fault: FsFault)
    ensures var out := Save(s, root, verb, body, fault).store;
      SameShape(s, out) || exists n :: !(s.rootExists && Listed(s.listing, n)) && SameShape(MakeDir(s, n), out)
  {
    var out := Save(s, root, verb, body, fault).store;
    if verb == "POST" && Parse(body).Some? && !Nullish(Parse(body).value) {
      var name := OptGet(Parse(body).value, "name");
      if name.Str? && !(s.rootExists && Listed(s.listing, name.s)) && !fault.MkdirFails? {
        assert SameShape(MakeDir(s, name.s), out);
      }
    }
  }

  /** Saves keep the directory consistent, whatever the request. */
  lemma SavePreservesValid(s: Store, root: string, verb: string, body: Text, fault: FsFault)
    requires Valid(s)
    ensures Valid(Save(s, root, verb, body, fault).store)
  {
    var out := Save(s, root, verb, body, fault).store;
    SaveShape(s, root, verb, body, fault);
    if SameShape(s, out) {
      SameShapeValid(s, out);
    } else {
      var n :| !(s.rootExists && Listed(s.listing, n)) && SameShape(MakeDir(s, n), out);
      MakeDirValid(s, n);
      SameShapeValid(MakeDir(s, n), out);
    }
  }

  /** With the data root missing, the list is empty. */
  lemma ListWithoutRoot(s: Store, fault: FsFault)
    requires !s.rootExists
    ensures List(s, "GET", fault) == JsonResponse(CanvasList([]))
  {
  }

  /** The list keeps the enumeration order: listing `a + b` lists `a`'s names, then `b`'s. */
  lemma {:induction false} VisibleNamesAppend(a: seq<Entry>, b: seq<Entry>)
    ensures VisibleNames(a + b) == VisibleNames(a) + VisibleNames(b)
  {
    if a == [] {
      assert a + b == b;
    } else {
      assert (a + b)[0] == a[0];
      assert (a + b)[1..] == a[1..] + b;
      VisibleNamesAppend(a[1..], b);
    }
  }

  /** A name is listed exactly when it is a subdirectory that is not hidden. */
  lemma {:induction false} VisibleNamesMembers(listing: seq<Entry>, n: string)
    ensures n in VisibleNames(listing) <==> Entry(n, true) in listing && !Hidden(n)
  {
    if listing != [] {
      VisibleNamesMembers(listing[1..], n);
      assert listing == [listing[0]] + listing[1..];
    }
  }

  /** In a consistent directory the list holds exactly the stored canvases
      that are not hidden, each once. */
  lemma ListedCanvases(s: Store)
    requires Valid(s)
    ensures forall n :: n in VisibleNames(s.listing) <==> n in s.folders && !Hidden(n)
  {
    forall n
      ensures n in VisibleNames(s.listing) <==> n in s.folders && !Hidden(n)
    {
      VisibleNamesMembers(s.listing, n);
      if Entry(n, true) in s.listing {
        var i :| 0 <= i < |s.listing| && s.listing[i] == Entry(n, true);
        assert s.listing[i].isDir;
      }
    }
  }

  /** With unique entry names the list holds no name twice. */
  lemma {:induction false} VisibleNamesDistinct(listing: seq<Entry>)
    requires forall i, j :: 0 <= i < j < |listing| ==> listing[i].name != listing[j].name
    ensures var v := VisibleNames(listing); forall i, j :: 0 <= i < j < |v| ==> v[i] != v[j]
  {
    if listing != [] {
      var rest := listing[1..];
      VisibleNamesDistinct(rest);
      if listing[0].isDir && !Hidden(listing[0].name) {
        VisibleNamesMembers(rest, listing[0].name);
        forall k | 0 <= k < |rest|
          ensures rest[k] != Entry(listing[0].name, true)
        {
          assert rest[k].name == listing[k + 1].name;
        }
        var v, w := VisibleNames(listing), VisibleNames(rest);
        assert v == [listing[0].name] + w;
        forall i, j | 0 <= i < j < |v|
          ensures v[i] != v[j]
        {
          assert v[j] == w[j - 1];
          if i > 0 {
            assert v[i] == w[i - 1];
          }
        }
      } else {
        assert VisibleNames(listing) == VisibleNames(rest);
      }
    }
  }

  /** Open without a name answers 400. */
  lemma OpenWithoutName(s: Store, nameParam: Option<string>, fault: FsFault)
    requires nameParam.None? || nameParam == Some("")
    ensures Open(s, "GET", nameParam, fault) == ErrorResponse(400, "Missing name parameter")
  {
  }

  /** Open answers 404 exactly when a name is given and its `canvas.json` does not exist. */
  lemma OpenNotFound(s: Store, n: string, fault: FsFault)
    ensures Open(s, "GET", Some(n), fault).status == 404 <==> n != "" && !HasCanvas(s, n)
  {
  }

  /** Saving then opening the same name gives back the saved snapshot, with
      parse after stringify taken as the identity. */
  lemma SaveThenOpen(s: Store, root: string, body: Text)
    requires Valid(s) && WellFormedSave(body) && SaveName(body) != ""
    requires !BlockedByFile(s, SaveName(body))
    ensures var out := Save(s, root, "POST", body, NoFault);
      Open(out.store, "GET", Some(SaveName(body)), NoFault) ==
        JsonResponse(Obj(map["success" := Bool(true), "data" := OptGet(body.value, "json")]))
  {
    SaveWrites(s, root, body);
  }

  /** A saved canvas is listed afterwards unless its name is hidden. */
  lemma SaveThenList(s: Store, root: string, body: Text)
    requires Valid(s) && WellFormedSave(body)
    requires !BlockedByFile(s, SaveName(body))
    ensures var out := Save(s, root, "POST", body, NoFault);
      SaveName(body) in VisibleNames(out.store.listing) <==> !Hidden(SaveName(body))
  {
    SaveWrites(s, root, body);
    SavePreservesValid(s, root, "POST", body, NoFault);
    ListedCanvases(Save(s, root, "POST", body, NoFault).store);
  }

  /** The response says `success` (as a JSON object with that key). */
  predicate SaysSuccess(r: Response)
  {
    r.body.Stringified? && r.body.value.Obj? && "success" in r.body.value.fields
  }

  /** A caught exception is a 500 with an error body. */
  predicate IsFailure(r: Response)
  {
    exists e :: r == Failure(e)
  }

  /** Save says `success: true` exactly when it answers 200, and every 500
      it sends is a caught exception's error body. */
  lemma SaveSuccessOnlyWith200(s: Store, root: string, verb: string, body: Text, fault: FsFault)
    ensures var r := Save(s, root, verb, body, fault).response;
      && (SaysSuccess(r) <==> r.status == 200)
      && (SaysSuccess(r) ==> r.body.value.fields["success"] == Bool(true))
      && (r.status == 500 ==> IsFailure(r))
  {
    if Save(s, root, verb, body, fault).response.status == 500 {
      SaveFailureIsCaught(s, root, verb, body, fault);
    }
  }

  /** The same for open. */
  lemma OpenSuccessOnlyWith200(s: Store, verb: string, nameParam: Option<string>, fault: FsFault)
    ensures var r := Open(s, verb, nameParam, fault);
      && (SaysSuccess(r) <==> r.status == 200)
      && (SaysSuccess(r) ==> r.body.value.fields["success"] == Bool(true))
      && (r.status == 500 ==> IsFailure(r))
  {
    var r := Open(s, verb, nameParam, fault);
    if r.status == 500 {
      if fault == ReadFails {
        assert r == Failure(FsError);
      } else {
        assert r == Failure(SyntaxError);
      }
    }
  }

  /** List never says `success`; its only 500 is a failed directory read. */
  lemma ListNeverSaysSuccess(s: Store, verb: string, fault: FsFault)
    ensures var r := List(s, verb, fault);
      !SaysSuccess(r) && (r.status == 500 ==> r == Failure(FsError))
  {
  }

  /** Every reply of save is the 405, a caught exception, or the success
      reply for some canvas directory. */
  lemma SaveReplies(s: Store, root: string, verb: string, body: Text, fault: FsFault)
    ensures var r := Save(s, root, verb, body, fault).response;
      r == MethodNotAllowed || IsFailure(r) || exists n :: r == JsonResponse(SavedReply(root, n))
  {
    var r := Save(s, root, verb, body, fault).response;
    if r.status == 500 {
      SaveFailureIsCaught(s, root, verb, body, fault);
    } else if r.status == 200 {
      var n := OptGet(Parse(body).value, "name").s;
      assert r == JsonResponse(SavedReply(root, n));
    }
  }

  lemma SaveFailureIsCaught(s: Store, root: string, verb: string, body: Text, fault: FsFault)
    requires Save(s, root, verb, body, fault).response.status == 500
    ensures IsFailure(Save(s, root, verb, body, fault).response)
  {
    var r := Save(s, root, verb, body, fault).response;
    if r == Failure(SyntaxError) {
    } else if r == Failure(TypeError) {
    } else {
      assert r == Failure(FsError);
    }
  }

  // ---------------------------------------------------------------------------
  // The server object

  /** The middleware's view of the data directory, updated in place by the handlers. */
  class LocalServer {
    const root: string
    var rootExists: bool
    var listing: seq<Entry>
    var folders: map<string, Folder>

    function State(): Store
      reads this
    {
      Store(rootExists, listing, folders)
    }

    constructor (root: string, initial: Store)
      ensures this.root == root && State() == initial
    {
      this.root := root;
      rootExists := initial.rootExists;
      listing := initial.listing;
      folders := initial.folders;
    }

    /** `/api/save` */
    method HandleSave(verb: string, body: Text, fault: FsFault) returns (res: Response)
      modifies this
      ensures Save(old(State()), root, verb, body, fault) == Outcome(State(), res)
      ensures Valid(old(State())) ==> Valid(State())
    {
      ghost var before := State();
      if Valid(before) {
        SavePreservesValid(before, root, verb, body, fault);
      }
      if verb != "POST" {
        res := MethodNotAllowed;
        return;
      }
      var parsed := Parse(body);
      if parsed.None? {
        res := Failure(SyntaxError);
        return;
      }
      var req := parsed.value;
      if Nullish(req) {
        res := Failure(TypeError);
        return;
      }
      var name, json, markdown := OptGet(req, "name"), OptGet(req, "json"), OptGet(req, "markdown");
      if !name.Str? {
        res := Failure(TypeError);
        return;
      }
      var n := name.s;
      if !(rootExists && Listed(listing, n)) {
        if fault.MkdirFails? {
          if fault.rootMade {
            rootExists := true;
          }
          res := Failure(FsError);
          return;
        }
        rootExists := true;
        listing := listing + [Entry(n, true)];
        folders := folders[n := Folder(None, None)];
      }
      var jsonText := Stringify(json);
      if jsonText.None? {
        res := Failure(TypeError);
        return;
      }
      if n !in folders {
        res := Failure(FsError);
        return;
      }
      if fault.CanvasWriteFails? {
        if fault.left.Some? {
          folders := folders[n := folders[n].(canvasJson := Some(Unparsable(fault.left.value)))];
        }
        res := Failure(FsError);
        return;
      }
      folders := folders[n := folders[n].(canvasJson := Some(jsonText.value))];
      if !markdown.Str? {
        res := Failure(TypeError);
        return;
      }
      if fault.MarkdownWriteFails? {
        if fault.left.Some? {
          folders := folders[n := folders[n].(contentMd := Some(fault.left.value))];
        }
        res := Failure(FsError);
        return;
      }
      folders := folders[n := folders[n].(contentMd := Some(markdown.s))];
      res := JsonResponse(SavedReply(root, n));
    }

    /** `/api/list` */
    method HandleList(verb: string, fault: FsFault) returns (res: Response)
      ensures res == List(State(), verb, fault)
    {
      if verb != "GET" {
        return MethodNotAllowed;
      }
      if !rootExists {
        return JsonResponse(CanvasList([]));
      }
      if fault == ReadFails {
        return Failure(FsError);
      }
      var canvases := VisibleNames(listing);
      res := JsonResponse(CanvasList(canvases));
    }

    /** `/api/open` */
    method HandleOpen(verb: string, nameParam: Option<string>, fault: FsFault) returns (res: Response)
      ensures res == Open(State(), verb, nameParam, fault)
    {
      if verb != "GET" {
        return MethodNotAllowed;
      }
      if nameParam.None? || nameParam.value == "" {
        return ErrorResponse(400, "Missing name parameter");
      }
      var n := nameParam.value;
      if !(rootExists && n in folders && folders[n].canvasJson.Some?) {
        return ErrorResponse(404, "Canvas not found");
      }
      if fault == ReadFails {
        return Failure(FsError);
      }
      var parsed := Parse(folders[n].canvasJson.value);
      if parsed.None? {
        return Failure(SyntaxError);
      }
      res := JsonResponse(Obj(map["success" := Bool(true), "data" := parsed.value]));
    }
  }
}
