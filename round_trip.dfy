/**
  The client wrappers of src/utils/storage.ts against the handlers of
  vite.config.ts: what the user sees when the browser talks to the local
  store.
 */
module RoundTrip {
  import opened Wrappers
  import opened Js
  import opened Http
  import Markdown
  import LocalApi
  import Storage

  /** The client reports a saved canvas exactly when the handler answered 200. */
  lemma SaveReportedIffStored(s: LocalApi.Store, root: string, verb: string, body: Text, fault: LocalApi.FsFault)
    ensures var r := LocalApi.Save(s, root, verb, body, fault).response;
      Storage.SaveOutcome(Received(r)).success <==> r.status == 200
  {
    LocalApi.SaveSuccessOnlyWith200(s, root, verb, body, fault);
  }

  /** The handler never sends `canvasId` or `logseqPath`, so the client never
      has either after a save, whatever the request carried. */
  lemma SaveReturnsNoId(s: LocalApi.Store, root: string, verb: string, body: Text, fault: LocalApi.FsFault)
    ensures var c := Storage.SaveOutcome(Received(LocalApi.Save(s, root, verb, body, fault).response));
      c.canvasId == Undefined && c.logseqPath == Undefined
  {
    LocalApi.SaveReplies(s, root, verb, body, fault);
    var r := LocalApi.Save(s, root, verb, body, fault).response;
    if LocalApi.IsFailure(r) {
      var e :| r == LocalApi.Failure(e);
    } else if r != LocalApi.MethodNotAllowed {
      var n :| r == LocalApi.JsonResponse(LocalApi.SavedReply(root, n));
    }
  }

  /** A save from the client is reported and stores both files as sent. */
  lemma ClientSave(s: LocalApi.Store, root: string, name: string, snapshot: Value,
                   markdown: string, existingCanvasId: Option<string>)
    requires LocalApi.Valid(s) && name != "" && snapshot.Obj?
    requires !LocalApi.BlockedByFile(s, name)
    ensures var out := LocalApi.Save(s, root, "POST", Storage.SaveRequest(name, snapshot, markdown, existingCanvasId), LocalApi.NoFault);
      && Storage.SaveOutcome(Received(out.response)) == Storage.SaveResult(true, Undefined, Undefined)
      && name in out.store.folders
      && out.store.folders[name] == LocalApi.Folder(Some(Stringified(snapshot)), Some(markdown))
  {
    var body := Storage.SaveRequest(name, snapshot, markdown, existingCanvasId);
    assert LocalApi.SaveName(body) == name;
    LocalApi.SaveWrites(s, root, body);
    var reply := LocalApi.SavedReply(root, name);
    assert OptGet(reply, "success") == Bool(true) && OptGet(reply, "canvasId") == Undefined;
  }

  /** Opening a canvas the client has just saved gives back the id and name kept
      in the snapshot's `meta`, with the requested name when `meta` has none. */
  lemma ClientOpenAfterSave(s: LocalApi.Store, root: string, name: string, snapshot: Value,
                            markdown: string, existingCanvasId: Option<string>)
    requires LocalApi.Valid(s) && name != "" && snapshot.Obj?
    requires !LocalApi.BlockedByFile(s, name)
    ensures var out := LocalApi.Save(s, root, "POST", Storage.SaveRequest(name, snapshot, markdown, existingCanvasId), LocalApi.NoFault);
      var meta := OptGet(snapshot, "meta");
      Storage.OpenOutcome(Received(LocalApi.Open(out.store, "GET", Some(name), LocalApi.NoFault)), name, true) ==
        Storage.LoadResult(true, OptGet(meta, "canvasId"), Or(OptGet(meta, "name"), Str(name)))
  {
    var body := Storage.SaveRequest(name, snapshot, markdown, existingCanvasId);
    assert LocalApi.SaveName(body) == name;
    LocalApi.SaveThenOpen(s, root, body);
    var answer := Obj(map["success" := Bool(true), "data" := snapshot]);
    assert OptGet(answer, "success") == Bool(true) && OptGet(answer, "data") == snapshot;
  }

  /** Saved from the editor, `content.md` holds exactly the Markdown
      `generateMarkdown` writes for the canvas's shapes. */
  lemma SaveStoresMarkdown(s: LocalApi.Store, root: string, name: string, snapshot: Value,
                           shapes: seq<Markdown.Shape>, savedAt: string, existingCanvasId: Option<string>)
    requires LocalApi.Valid(s) && name != "" && snapshot.Obj?
    requires !LocalApi.BlockedByFile(s, name)
    ensures var md := Storage.MarkdownOf(shapes, name, savedAt);
      var out := LocalApi.Save(s, root, "POST", Storage.SaveRequest(name, snapshot, md, existingCanvasId), LocalApi.NoFault);
      && Storage.SaveOutcome(Received(out.response)).success
      && name in out.store.folders
      && out.store.folders[name].contentMd == Some(md)
  {
    ClientSave(s, root, name, snapshot, Storage.MarkdownOf(shapes, name, savedAt), existingCanvasId);
  }

  /** A snapshot saved as `null` is stored and served back with 200, but the
      client finds no `data` and reports failure. */
  lemma NullSnapshotNotOpened(s: LocalApi.Store, root: string, name: string, markdown: string,
                              existingCanvasId: Option<string>, loads: bool)
    requires LocalApi.Valid(s) && name != ""
    requires !LocalApi.BlockedByFile(s, name)
    ensures var out := LocalApi.Save(s, root, "POST", Storage.SaveRequest(name, Null, markdown, existingCanvasId), LocalApi.NoFault);
      var reply := LocalApi.Open(out.store, "GET", Some(name), LocalApi.NoFault);
      && Storage.SaveOutcome(Received(out.response)).success
      && reply.status == 200
      && Storage.OpenOutcome(Received(reply), name, loads) == Storage.LoadFailed
  {
    var body := Storage.SaveRequest(name, Null, markdown, existingCanvasId);
    assert LocalApi.SaveName(body) == name;
    LocalApi.SaveWrites(s, root, body);
    LocalApi.SaveThenOpen(s, root, body);
    var reply := LocalApi.SavedReply(root, name);
    assert OptGet(reply, "success") == Bool(true);
    var answer := Obj(map["success" := Bool(true), "data" := Null]);
    assert OptGet(answer, "data") == Null;
  }

  /** Opening a name that has no `canvas.json` fails cleanly, without an exception. */
  lemma OpenUnsaved(s: LocalApi.Store, name: string, fault: LocalApi.FsFault, loads: bool)
    requires !LocalApi.HasCanvas(s, name)
    ensures Storage.OpenOutcome(Received(LocalApi.Open(s, "GET", Some(name), fault)), name, loads) == Storage.LoadFailed
  {
  }

  /** With the directory readable, the client's list is the handler's
      visible names in enumeration order; an empty or missing directory gives
      an empty list. */
  lemma ListShowsCanvases(s: LocalApi.Store)
    requires LocalApi.Valid(s)
    ensures Storage.ListOutcome(Received(LocalApi.List(s, "GET", LocalApi.NoFault))) ==
      Arr(LocalApi.Strs(LocalApi.VisibleNames(s.listing)))
  {
  }

  /** Any failure of the list handler reaches the client as an empty list. */
  lemma ListFailureIsEmpty(s: LocalApi.Store, verb: string, fault: LocalApi.FsFault)
    requires LocalApi.List(s, verb, fault).status != 200
    ensures Storage.ListOutcome(Received(LocalApi.List(s, verb, fault))) == Arr([])
  {
  }
}
