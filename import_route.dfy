/**
 * The Drive import route: authentication and input checks, the MIME dispatch
 * chain, the copy / export / delete conversion branches and the mapping of
 * thrown errors to a 500 response.
 *
 * Drive is an abstract store (a map from id to file, plus a log of the calls
 * made to it). A file's `rendering` is the text the provider produces when the
 * file is exported; `None` means the provider refuses the export. A file that
 * is not `convertible` makes the provider refuse to copy it into a native type.
 */
module ImportRoute {
  import opened Common

  // MIME strings compared by the dispatch chain (case-sensitive equality).
  const DocMime := "application/vnd.google-apps.document"
  const SlidesMime := "application/vnd.google-apps.presentation"
  const SheetsMime := "application/vnd.google-apps.spreadsheet"
  const SiteMime := "application/vnd.google-apps.site"
  const ShortcutMime := "application/vnd.google-apps.shortcut"
  const PdfMime := "application/pdf"
  const DocxMime := "application/vnd.openxmlformats-officedocument.wordprocessingml.document"
  const PptxMime := "application/vnd.openxmlformats-officedocument.presentationml.presentation"
  const XlsxMime := "application/vnd.openxmlformats-officedocument.spreadsheetml.sheet"

  // Export formats.
  const PlainText := "text/plain"
  const Csv := "text/csv"

  const SiteError := "Google Sites pages cannot be exported."
  const ShortcutError := "This is a Google Drive shortcut, not a real file."
  const ConvertedSuffix := " (Converted)"

  /** What the route does with a file of a given MIME type. */
  datatype Plan =
    | ExportDirect(exportMime: string)
    | ConvertThenExport(target: string, exportMime: string)
    | Reject(error: string)
    | Unsupported

  /**
   * Reference table of the exportable types, one descriptor per MIME type:
   * whether a converted copy is needed, its native target, and the export format.
   */
  datatype Descriptor = Descriptor(needsConversion: bool, nativeTarget: string, exportMime: string)

  const ExportTable: map<string, Descriptor> := map[
    DocMime := Descriptor(false, DocMime, PlainText),
    PdfMime := Descriptor(false, PdfMime, PlainText),
    SlidesMime := Descriptor(false, SlidesMime, PlainText),
    SheetsMime := Descriptor(false, SheetsMime, Csv),
    DocxMime := Descriptor(true, DocMime, PlainText),
    PptxMime := Descriptor(true, SlidesMime, PlainText),
    XlsxMime := Descriptor(true, SheetsMime, Csv)
  ]

  /** Types that are rejected with a dedicated message. */
  const NotExportable: set<string> := {SiteMime, ShortcutMime}

  /** The if / else-if chain over the file's MIME type. */
  function Classify(mime: string): (p: Plan)
    ensures mime in ExportTable ==>
      p == (var d := ExportTable[mime];
            if d.needsConversion then ConvertThenExport(d.nativeTarget, d.exportMime)
            else ExportDirect(d.exportMime))
    ensures mime in NotExportable <==> p.Reject?
    ensures p == Unsupported <==> mime !in ExportTable && mime !in NotExportable
    ensures p.ExportDirect? || p.ConvertThenExport? ==> p.exportMime in {PlainText, Csv}
  {
    if mime == DocMime then ExportDirect(PlainText)
    else if mime == PdfMime then ExportDirect(PlainText)
    else if mime == SlidesMime then ExportDirect(PlainText)
    else if mime == SheetsMime then ExportDirect(Csv)
    else if mime == SiteMime then Reject(SiteError)
    else if mime == ShortcutMime then Reject(ShortcutError)
    else if mime == DocxMime then ConvertThenExport(DocMime, PlainText)
    else if mime == PptxMime then ConvertThenExport(SlidesMime, PlainText)
    else if mime == XlsxMime then ConvertThenExport(SheetsMime, Csv)
    else Unsupported
  }

  /**
   * A conversion target is a native type that the chain itself exports
   * directly, in the same format: converting first and then exporting gives the
   * export the native type would have had.
   */
  lemma ConversionTargetIsExportedDirectly(mime: string)
    requires Classify(mime).ConvertThenExport?
    ensures Classify(Classify(mime).target) == ExportDirect(Classify(mime).exportMime)
    ensures Classify(mime).target != mime
  {
  }

  // ---------------------------------------------------------------------
  // The Drive store
  // ---------------------------------------------------------------------

  type FileId = string

  datatype DriveFile = DriveFile(mimeType: string, name: string, convertible: bool, rendering: Option<string>)

  type Store = map<FileId, DriveFile>

  /** One request made to Drive by the route. */
  datatype Call =
    | GetCall(id: FileId)
    | CopyCall(source: FileId, mimeType: string, name: string)
    | ExportCall(id: FileId, mimeType: string)
    | DeleteCall(id: FileId)

  function NotFound(id: FileId): string { "File not found: " + id }
  const ConversionFailed := "Conversion failed"
  const ExportFailed := "Export failed"

  /** files.get: the metadata of a file. */
  function Lookup(files: Store, id: FileId): (r: Result<DriveFile>)
    ensures r.Ok? <==> id in files
    ensures r.Ok? ==> r.value == files[id]
  {
    if id in files then Ok(files[id]) else Err(NotFound(id))
  }

  /** files.export: the file rendered as text, or the provider's error. */
  function Rendered(files: Store, id: FileId): (r: Result<string>)
    ensures r.Ok? <==> id in files && files[id].rendering.Some?
    ensures r.Ok? ==> Some(r.value) == files[id].rendering
  {
    if id !in files then Err(NotFound(id))
    else if files[id].rendering.None? then Err(ExportFailed)
    else Ok(files[id].rendering.value)
  }

  /** The file that files.copy creates: retyped and renamed, same content. */
  function Converted(source: DriveFile, mimeType: string, name: string): DriveFile
  {
    DriveFile(mimeType, name, source.convertible, source.rendering)
  }

  /** Longest id in a set of ids, used to show that a fresh id exists. */
  ghost function MaxLength(ids: set<FileId>): (m: nat)
    ensures forall id :: id in ids ==> |id| <= m
    decreases |ids|
  {
    if ids == {} then 0
    else
      var id :| id in ids;
      var rest := MaxLength(ids - {id});
      if |id| > rest then |id| else rest
  }

  ghost function Padding(n: nat): (s: string)
    ensures |s| == n
  {
    if n == 0 then "" else Padding(n - 1) + "x"
  }

  lemma FreshIdExists(files: Store)
    ensures exists id: FileId :: id !in files
  {
    var w := Padding(MaxLength(files.Keys) + 1);
    assert w !in files;
  }

  /** The user's Drive, seen through the four calls the route makes. */
  class Drive {
    var files: Store
    var log: seq<Call>

    constructor (initial: Store)
      ensures files == initial && log == []
    {
      files := initial;
      log := [];
    }

    method Get(id: FileId) returns (r: Result<DriveFile>)
      modifies this
      ensures files == old(files)
      ensures log == old(log) + [GetCall(id)]
      ensures r == Lookup(files, id)
    {
      log := log + [GetCall(id)];
      r := Lookup(files, id);
    }

    /** Copies `id` into a new file of type `mimeType`; the provider picks an unused id. */
    method Copy(id: FileId, mimeType: string, name: string) returns (r: Result<FileId>)
      modifies this
      ensures log == old(log) + [CopyCall(id, mimeType, name)]
      ensures r.Ok? <==> id in old(files) && old(files)[id].convertible
      ensures r.Ok? ==> r.value !in old(files) &&
                        files == old(files)[r.value := Converted(old(files)[id], mimeType, name)]
      ensures r.Err? ==> files == old(files) &&
                         r.message == if id !in old(files) then NotFound(id) else ConversionFailed
    {
      log := log + [CopyCall(id, mimeType, name)];
      if id !in files {
        r := Err(NotFound(id));
      } else if !files[id].convertible {
        r := Err(ConversionFailed);
      } else {
        FreshIdExists(files);
        var newId :| newId !in files;
        files := files[newId := Converted(files[id], mimeType, name)];
        r := Ok(newId);
      }
    }

    method Export(id: FileId, mimeType: string) returns (r: Result<string>)
      modifies this
      ensures files == old(files)
      ensures log == old(log) + [ExportCall(id, mimeType)]
      ensures r == Rendered(files, id)
    {
      log := log + [ExportCall(id, mimeType)];
      r := Rendered(files, id);
    }

    method Delete(id: FileId) returns (r: Result<()>)
      modifies this
      ensures log == old(log) + [DeleteCall(id)]
      ensures r.Ok? <==> id in old(files)
      ensures files == old(files) - {id}
    {
      log := log + [DeleteCall(id)];
      if id in files {
        files := files - {id};
        r := Ok(());
      } else {
        r := Err(NotFound(id));
      }
    }
  }

  // ---------------------------------------------------------------------
  // The route
  // ---------------------------------------------------------------------

  /** The parsed request body: `req.json()` either throws or yields the optional fileId. */
  datatype Request = Malformed(message: string) | Body(fileId: Option<string>)

  datatype Payload = TextPayload(text: string) | ErrorPayload(error: string, details: Option<string>)

  datatype Response = Response(status: int, payload: Payload)

  /** What one run of the route returns, leaves in the store, and asks of Drive. */
  datatype Outcome = Outcome(response: Response, files: Store, calls: seq<Call>)

  /**
   * When the temporary converted copy is deleted: as written, only after a
   * successful export; corrected, also when the export fails.
   */
  datatype Cleanup = AfterSuccessOnly | OnEveryPath

  const NotAuthenticated := Response(401, ErrorPayload("Not authenticated with Google", None))
  const MissingFileId := Response(400, ErrorPayload("Missing fileId", None))

  function UnsupportedType(mime: string): Response
  {
    Response(400, ErrorPayload("Unsupported file type: " + mime, None))
  }

  /** The catch block: any thrown error becomes a 500 carrying its message. */
  function Failed(message: string): Response
  {
    Response(500, ErrorPayload("Failed to import file", Some(message)))
  }

  /**
   * The whole route as a function of the store before the request; `newId` is
   * the id Drive gives the converted copy, if one is made.
   */
  function ImportSpec(files: Store, accessToken: Option<string>, request: Request, newId: FileId, cleanup: Cleanup): Outcome
    requires newId !in files
  {
    if !Truthy(accessToken) then Outcome(NotAuthenticated, files, [])
    else match request
      case Malformed(message) => Outcome(Failed(message), files, [])
      case Body(fileId) =>
        if !Truthy(fileId) then Outcome(MissingFileId, files, [])
        else
          var id := fileId.value;
          match Lookup(files, id)
          case Err(message) => Outcome(Failed(message), files, [GetCall(id)])
          case Ok(meta) =>
            match Classify(meta.mimeType)
            case Reject(error) => Outcome(Response(400, ErrorPayload(error, None)), files, [GetCall(id)])
            case Unsupported => Outcome(UnsupportedType(meta.mimeType), files, [GetCall(id)])
            case ExportDirect(exportMime) =>
              var calls := [GetCall(id), ExportCall(id, exportMime)];
              (match Rendered(files, id)
               case Err(message) => Outcome(Failed(message), files, calls)
               case Ok(text) => Outcome(Response(200, TextPayload(text)), files, calls))
            case ConvertThenExport(target, exportMime) =>
              ConvertSpec(files, id, meta, target, exportMime, newId, cleanup)
  }

  /** The copy → export → delete branch for an Office file. */
  function ConvertSpec(files: Store, id: FileId, meta: DriveFile, target: string, exportMime: string,
                       newId: FileId, cleanup: Cleanup): Outcome
    requires newId !in files
  {
    var name := meta.name + ConvertedSuffix;
    if !meta.convertible then
      Outcome(Failed(ConversionFailed), files, [GetCall(id), CopyCall(id, target, name)])
    else
      var copied := files[newId := Converted(meta, target, name)];
      var calls := [GetCall(id), CopyCall(id, target, name), ExportCall(newId, exportMime)];
      match Rendered(copied, newId)
      case Err(message) =>
        if cleanup == OnEveryPath then Outcome(Failed(message), copied - {newId}, calls + [DeleteCall(newId)])
        else Outcome(Failed(message), copied, calls)
      case Ok(text) => Outcome(Response(200, TextPayload(text)), copied - {newId}, calls + [DeleteCall(newId)])
  }

  /** The POST handler as written: the delete runs only after a successful export. */
  method Import(drive: Drive, accessToken: Option<string>, request: Request) returns (response: Response, ghost newId: FileId)
    modifies drive
    ensures newId !in old(drive.files)
    ensures var o := ImportSpec(old(drive.files), accessToken, request, newId, AfterSuccessOnly);
            response == o.response && drive.files == o.files && drive.log == old(drive.log) + o.calls
  {
    response, newId := Run(drive, accessToken, request, AfterSuccessOnly);
  }

  /** The handler with cleanup on every exit path after the copy was made. */
  method ImportWithCleanup(drive: Drive, accessToken: Option<string>, request: Request) returns (response: Response, ghost newId: FileId)
    modifies drive
    ensures newId !in old(drive.files)
    ensures var o := ImportSpec(old(drive.files), accessToken, request, newId, OnEveryPath);
            response == o.response && drive.files == o.files && drive.log == old(drive.log) + o.calls
    ensures drive.files.Keys == old(drive.files.Keys)
  {
    response, newId := Run(drive, accessToken, request, OnEveryPath);
    TempCopyNeverLeaks(old(drive.files), accessToken, request, newId);
  }

  /** The handler's statements, step by step against the store. */
  method Run(drive: Drive, accessToken: Option<string>, request: Request, cleanup: Cleanup)
    returns (response: Response, ghost newId: FileId)
    modifies drive
    ensures newId !in old(drive.files)
    ensures var o := ImportSpec(old(drive.files), accessToken, request, newId, cleanup);
            response == o.response && drive.files == o.files && drive.log == old(drive.log) + o.calls
  {
    FreshIdExists(drive.files);
    newId :| newId !in drive.files;
    if !Truthy(accessToken) {
      return NotAuthenticated, newId;
    }
    if request.Malformed? {
      return Failed(request.message), newId;
    }
    var fileId := request.fileId;
    if !Truthy(fileId) {
      return MissingFileId, newId;
    }
    var id := fileId.value;
    var meta := drive.Get(id);
    if meta.Err? {
      return Failed(meta.message), newId;
    }
    var mime := meta.value.mimeType;
    var text := "";
    match Classify(mime) {
    case Reject(error) =>
      return Response(400, ErrorPayload(error, None)), newId;
    case Unsupported =>
      return UnsupportedType(mime), newId;
    case ExportDirect(exportMime) =>
      var exported := drive.Export(id, exportMime);
      if exported.Err? {
        return Failed(exported.message), newId;
      }
      text := exported.value;
    case ConvertThenExport(target, exportMime) =>
      var converted := drive.Copy(id, target, meta.value.name + ConvertedSuffix);
      if converted.Err? {
        return Failed(converted.message), newId;
      }
      var tempId := converted.value;
      newId := tempId;
      var exported := drive.Export(tempId, exportMime);
      if exported.Err? {
        if cleanup == OnEveryPath {
          var _ := drive.Delete(tempId);
        }
        return Failed(exported.message), newId;
      }
      text := exported.value;
      var deleted := drive.Delete(tempId);
      assert deleted.Ok?;
    }
    response := Response(200, TextPayload(text));
  }

  // ---------------------------------------------------------------------
  // Properties of the route
  // ---------------------------------------------------------------------

  /** Shorthand for a request whose session and fileId both pass the checks. */
  predicate Admitted(accessToken: Option<string>, request: Request)
  {
    Truthy(accessToken) && request.Body? && Truthy(request.fileId)
  }

  /** Without a session token the route answers 401 and makes no Drive call. */
  lemma UnauthenticatedMakesNoCall(files: Store, accessToken: Option<string>, request: Request, newId: FileId, cleanup: Cleanup)
    requires newId !in files
    requires !Truthy(accessToken)
    ensures var o := ImportSpec(files, accessToken, request, newId, cleanup);
            o.response.status == 401 && o.response == NotAuthenticated && o.calls == [] && o.files == files
  {
  }

  /** A missing or empty fileId answers 400 before any Drive call. */
  lemma MissingFileIdMakesNoCall(files: Store, accessToken: Option<string>, fileId: Option<string>, newId: FileId, cleanup: Cleanup)
    requires newId !in files
    requires Truthy(accessToken) && !Truthy(fileId)
    ensures var o := ImportSpec(files, accessToken, Body(fileId), newId, cleanup);
            o.response == MissingFileId && o.response.status == 400 && o.calls == [] && o.files == files
  {
  }

  /**
   * Every answer is 200, 400, 401 or 500, and a 500 is always the catch
   * block's "Failed to import file" carrying the thrown message.
   */
  lemma StatusesAndCatch(files: Store, accessToken: Option<string>, request: Request, newId: FileId, cleanup: Cleanup)
    requires newId !in files
    ensures var o := ImportSpec(files, accessToken, request, newId, cleanup);
            o.response.status in {200, 400, 401, 500} &&
            (o.response.status == 500 <==> exists m :: o.response == Failed(m))
  {
  }

  /** A body that cannot be parsed as JSON is caught: 500 with the parser's message, no Drive call. */
  lemma MalformedBodyFails(files: Store, accessToken: Option<string>, message: string, newId: FileId, cleanup: Cleanup)
    requires newId !in files
    requires Truthy(accessToken)
    ensures var o := ImportSpec(files, accessToken, Malformed(message), newId, cleanup);
            o.response == Failed(message) && o.calls == [] && o.files == files
  {
  }

  /** A lookup of an id that is not in the Drive is caught: 500 after the get alone. */
  lemma MissingFileFails(files: Store, accessToken: Option<string>, id: FileId, newId: FileId, cleanup: Cleanup)
    requires newId !in files
    requires Truthy(accessToken) && id != "" && id !in files
    ensures var o := ImportSpec(files, accessToken, Body(Some(id)), newId, cleanup);
            o.response == Failed(NotFound(id)) && o.calls == [GetCall(id)] && o.files == files
  {
  }

  /**
   * An Office file the provider refuses to convert is caught after the copy
   * call: 500, no export, no delete, and no new file.
   */
  lemma UnconvertibleFileFails(files: Store, accessToken: Option<string>, id: FileId, newId: FileId, cleanup: Cleanup)
    requires newId !in files
    requires Truthy(accessToken) && id != "" && id in files
    requires Classify(files[id].mimeType).ConvertThenExport? && !files[id].convertible
    ensures var o := ImportSpec(files, accessToken, Body(Some(id)), newId, cleanup);
            var p := Classify(files[id].mimeType);
            o.response == Failed(ConversionFailed) &&
            o.calls == [GetCall(id), CopyCall(id, p.target, files[id].name + ConvertedSuffix)] &&
            o.files == files
  {
  }

  /**
   * Native types and PDF are exported on the original id, as CSV exactly for
   * spreadsheets, with no copy or delete.
   */
  lemma NativeTypesExportDirectly(files: Store, accessToken: Option<string>, id: FileId, newId: FileId, cleanup: Cleanup)
    requires newId !in files
    requires Truthy(accessToken) && id != "" && id in files
    requires files[id].mimeType in {DocMime, PdfMime, SlidesMime, SheetsMime}
    ensures var o := ImportSpec(files, accessToken, Body(Some(id)), newId, cleanup);
            var format := if files[id].mimeType == SheetsMime then Csv else PlainText;
            o.calls == [GetCall(id), ExportCall(id, format)] && o.files == files &&
            (files[id].rendering.Some? ==> o.response == Response(200, TextPayload(files[id].rendering.value))) &&
            (files[id].rendering.None? ==> o.response == Failed(ExportFailed) && o.response.status == 500)
  {
  }

  /** Sites and shortcuts are refused with 400 after the metadata lookup only. */
  lemma SitesAndShortcutsAreRejected(files: Store, accessToken: Option<string>, id: FileId, newId: FileId, cleanup: Cleanup)
    requires newId !in files
    requires Truthy(accessToken) && id != "" && id in files
    requires files[id].mimeType in NotExportable
    ensures var o := ImportSpec(files, accessToken, Body(Some(id)), newId, cleanup);
            o.calls == [GetCall(id)] && o.files == files && o.response.status == 400 &&
            o.response.payload.error == (if files[id].mimeType == SiteMime then SiteError else ShortcutError)
  {
  }

  /** Any other MIME type answers 400 and echoes the observed string. */
  lemma UnknownTypesAreUnsupported(files: Store, accessToken: Option<string>, id: FileId, newId: FileId, cleanup: Cleanup)
    requires newId !in files
    requires Truthy(accessToken) && id != "" && id in files
    requires files[id].mimeType !in ExportTable && files[id].mimeType !in NotExportable
    ensures var o := ImportSpec(files, accessToken, Body(Some(id)), newId, cleanup);
            o.calls == [GetCall(id)] && o.files == files &&
            o.response == Response(400, ErrorPayload("Unsupported file type: " + files[id].mimeType, None))
  {
  }

  /**
   * An Office file is copied once into its native target under the name
   * `name + " (Converted)"`; the export runs on the copy, never on the
   * original, and a successful export is followed by one delete of the copy,
   * after which the store is exactly what it was.
   */
  lemma ConversionSequence(files: Store, accessToken: Option<string>, id: FileId, newId: FileId, cleanup: Cleanup)
    requires newId !in files
    requires Truthy(accessToken) && id != "" && id in files
    requires files[id].mimeType in {DocxMime, PptxMime, XlsxMime}
    requires files[id].convertible && files[id].rendering.Some?
    ensures var f := files[id];
            var target := if f.mimeType == DocxMime then DocMime else if f.mimeType == PptxMime then SlidesMime else SheetsMime;
            var format := if f.mimeType == XlsxMime then Csv else PlainText;
            var o := ImportSpec(files, accessToken, Body(Some(id)), newId, cleanup);
            newId != id &&
            o.calls == [GetCall(id), CopyCall(id, target, f.name + " (Converted)"), ExportCall(newId, format), DeleteCall(newId)] &&
            o.response == Response(200, TextPayload(f.rendering.value)) &&
            o.files == files
  {
    var f := files[id];
    var target := if f.mimeType == DocxMime then DocMime else if f.mimeType == PptxMime then SlidesMime else SheetsMime;
    var copied := files[newId := Converted(f, target, f.name + ConvertedSuffix)];
    assert copied - {newId} == files;
  }

  /**
   * Whatever happens, the files that existed before are still there, unchanged:
   * the original is never deleted or rewritten. On success the store is
   * exactly what it was, and the text returned is the exported rendering.
   */
  lemma OriginalNeverTouched(files: Store, accessToken: Option<string>, request: Request, newId: FileId, cleanup: Cleanup)
    requires newId !in files
    ensures var o := ImportSpec(files, accessToken, request, newId, cleanup);
            (forall id :: id in files ==> id in o.files && o.files[id] == files[id]) &&
            (o.files.Keys <= files.Keys + {newId}) &&
            (o.response.status == 200 ==>
               && o.files == files
               && Admitted(accessToken, request)
               && request.fileId.value in files
               && files[request.fileId.value].rendering.Some?
               && o.response.payload == TextPayload(files[request.fileId.value].rendering.value)) &&
            (o.response.status != 200 ==> o.response.payload.ErrorPayload?)
  {
    var o := ImportSpec(files, accessToken, request, newId, cleanup);
    if Admitted(accessToken, request) {
      var id := request.fileId.value;
      if id in files && Classify(files[id].mimeType).ConvertThenExport? {
        var meta := files[id];
        var p := Classify(meta.mimeType);
        var name := meta.name + ConvertedSuffix;
        var copied := files[newId := Converted(meta, p.target, name)];
        assert copied - {newId} == files;
      }
    }
  }

  /**
   * As written, a failed export in a conversion branch skips the delete: the
   * converted copy stays in the user's Drive and no DeleteCall is made.
   */
  lemma ExportFailureLeaksTempCopy(files: Store, accessToken: Option<string>, id: FileId, newId: FileId)
    requires newId !in files
    requires Truthy(accessToken) && id != "" && id in files
    requires Classify(files[id].mimeType).ConvertThenExport?
    requires files[id].convertible && files[id].rendering.None?
    ensures var o := ImportSpec(files, accessToken, Body(Some(id)), newId, AfterSuccessOnly);
            o.response == Failed(ExportFailed) && o.response.status == 500 &&
            o.files.Keys == files.Keys + {newId} && newId in o.files &&
            DeleteCall(newId) !in o.calls
  {
  }

  /** A concrete instance of the leak: a .docx file whose export fails. */
  lemma LeakExample()
    ensures var files := map["doc-1" := DriveFile(DocxMime, "Report", true, None)];
            var o := ImportSpec(files, Some("token"), Body(Some("doc-1")), "tmp-1", AfterSuccessOnly);
            o.files.Keys == {"doc-1", "tmp-1"} && o.response.status == 500
  {
    var files := map["doc-1" := DriveFile(DocxMime, "Report", true, None)];
    ExportFailureLeaksTempCopy(files, Some("token"), "doc-1", "tmp-1");
  }

  /**
   * With cleanup on every path, the set of ids in the store after the route is
   * the set before it, and every copy that is made is deleted exactly once.
   */
  lemma TempCopyNeverLeaks(files: Store, accessToken: Option<string>, request: Request, newId: FileId)
    requires newId !in files
    ensures var o := ImportSpec(files, accessToken, request, newId, OnEveryPath);
            o.files.Keys == files.Keys &&
            (DeleteCall(newId) in o.calls <==> exists format :: ExportCall(newId, format) in o.calls) &&
            (forall i :: 0 <= i < |o.calls| && o.calls[i].DeleteCall? ==> i == |o.calls| - 1 && o.calls[i] == DeleteCall(newId))
  {
    if Admitted(accessToken, request) {
      var id := request.fileId.value;
      if id in files {
        var p := Classify(files[id].mimeType);
        if p.ConvertThenExport? {
          CleanConversion(files, id, files[id], p.target, p.exportMime, newId);
        }
      }
    }
  }

  /** The conversion branch with cleanup on every path, one case at a time. */
  lemma CleanConversion(files: Store, id: FileId, meta: DriveFile, target: string, exportMime: string, newId: FileId)
    requires newId !in files && id in files && meta == files[id]
    ensures var o := ConvertSpec(files, id, meta, target, exportMime, newId, OnEveryPath);
            o.files.Keys == files.Keys &&
            (DeleteCall(newId) in o.calls <==> exists format :: ExportCall(newId, format) in o.calls) &&
            (forall i :: 0 <= i < |o.calls| && o.calls[i].DeleteCall? ==> i == |o.calls| - 1 && o.calls[i] == DeleteCall(newId))
  {
    var name := meta.name + ConvertedSuffix;
    var o := ConvertSpec(files, id, meta, target, exportMime, newId, OnEveryPath);
    if meta.convertible {
      var copied := files[newId := Converted(meta, target, name)];
      assert (copied - {newId}).Keys == files.Keys;
      assert o.calls == [GetCall(id), CopyCall(id, target, name), ExportCall(newId, exportMime), DeleteCall(newId)];
    } else {
      assert o.calls == [GetCall(id), CopyCall(id, target, name)];
    }
  }

  /** The spreadsheet scenario: "sheet-1" is exported as CSV and its text returned as is. */
  lemma SheetScenario()
    ensures var files := map["sheet-1" := DriveFile(SheetsMime, "Budget", false, Some("a,b\n1,2"))];
            var o := ImportSpec(files, Some("token"), Body(Some("sheet-1")), "unused", AfterSuccessOnly);
            o.calls == [GetCall("sheet-1"), ExportCall("sheet-1", "text/csv")] &&
            o.response == Response(200, TextPayload("a,b\n1,2"))
  {
  }

  /** The Office document scenario: "doc-1" named "Report" goes through "Report (Converted)". */
  lemma DocScenario()
    ensures var files := map["doc-1" := DriveFile(DocxMime, "Report", true, Some("Quarterly text"))];
            var o := ImportSpec(files, Some("token"), Body(Some("doc-1")), "tmp-1", AfterSuccessOnly);
            o.calls == [GetCall("doc-1"),
                        CopyCall("doc-1", "application/vnd.google-apps.document", "Report (Converted)"),
                        ExportCall("tmp-1", "text/plain"),
                        DeleteCall("tmp-1")] &&
            o.response == Response(200, TextPayload("Quarterly text")) &&
            o.files == files
  {
    var files := map["doc-1" := DriveFile(DocxMime, "Report", true, Some("Quarterly text"))];
    assert "Report" + ConvertedSuffix == "Report (Converted)";
    ConversionSequence(files, Some("token"), "doc-1", "tmp-1", AfterSuccessOnly);
  }
}
