/** The media endpoint (app/api/media/route.js): uploading a file as a media
    record after a fixed chain of checks, looking a record up by title,
    updating a record in place with fallbacks to its current fields, and
    deleting one. */
module MediaRoute {
  import opened Common
  import opened Text
  import opened Models

  // ---------------------------------------------------------------------------
  // Multipart bodies
  // ---------------------------------------------------------------------------

  /** A multipart field value: a string or a file. */
  datatype Part = Text(text: string) | Blob(file: File)

  /** A request body as `req.formData()` sees it: parsed multipart fields in
      order, or a body that is not form data (a JSON body), on which
      `formData()` throws. */
  datatype Body = Multipart(parts: seq<(string, Part)>) | NotFormData

  /** `formData.get(name)`: the first field with that name, or `null`. */
  function FormGet(parts: seq<(string, Part)>, name: string): (r: Option<Part>)
    ensures r.Some? ==> exists i :: 0 <= i < |parts| && parts[i] == (name, r.value)
    ensures r.None? ==> forall i :: 0 <= i < |parts| ==> parts[i].0 != name
  {
    if parts == [] then None
    else if parts[0].0 == name then Some(parts[0].1)
    else FormGet(parts[1..], name)
  }

  /** A field value used as a property name: `String(value)`. */
  function KeyString(v: Option<Part>): string
  {
    match v
    case None => "null"
    case Some(Text(t)) => t
    case Some(Blob(_)) => "[object File]"
  }

  /** JavaScript truthiness of a field value: a file always, a string when
      it is not empty. */
  predicate PartTruthy(v: Option<Part>)
  {
    v.Some? && (v.value.Blob? || v.value.text != "")
  }

  /** `formData.get(type) || formData.get("file")`. */
  function FileField(parts: seq<(string, Part)>): Option<Part>
  {
    var byType := FormGet(parts, KeyString(FormGet(parts, "type")));
    if PartTruthy(byType) then byType else FormGet(parts, "file")
  }

  /** `file.type`: a string field has none. */
  function MimeOf(p: Part): Option<string>
  {
    match p
    case Text(_) => None
    case Blob(f) => Some(f.mime)
  }

  /** `file.size > 25 * 1024 * 1024` (a string field has no size, and
      `undefined > n` is false). */
  predicate OverSize(p: Part)
  {
    p.Blob? && p.file.size > MaxSize
  }

  const MaxSize: nat := 25 * 1024 * 1024

  // ---------------------------------------------------------------------------
  // The allow-list
  // ---------------------------------------------------------------------------

  /** `allowedByType[key]` on an object literal: one of its own four lists, a
      member every object inherits (not a list, so `.includes` throws), or
      nothing. */
  datatype Entry = Own(mimes: seq<string>) | Inherited | Missing

  /** The names every plain object inherits from `Object.prototype`. */
  predicate InheritedName(k: string)
  {
    k in {"constructor", "hasOwnProperty", "isPrototypeOf", "propertyIsEnumerable", "toLocaleString",
          "toString", "valueOf", "__proto__", "__defineGetter__", "__defineSetter__",
          "__lookupGetter__", "__lookupSetter__"}
  }

  function TypeEntry(k: string): (e: Entry)
    ensures e.Own? ==> |e.mimes| > 0
    ensures e.Own? ==> forall x :: x in e.mimes ==>
      StartsWith(x, "image/") || StartsWith(x, "video/") || x == "application/pdf"
  {
    if k == "image" then Own(["image/jpeg", "image/png", "image/webp", "image/gif"])
    else if k == "video" then Own(["video/mp4", "video/mpeg", "video/quicktime"])
    else if k == "pdf" then Own(["application/pdf"])
    else if k == "qr" then Own(["image/png", "image/webp", "image/jpeg", "application/pdf"])
    else if InheritedName(k) then Inherited
    else Missing
  }

  /** Exactly the four kinds have their own list; exactly the inherited names
      reach a member that is not a list. */
  lemma TypeEntryKinds(k: string)
    ensures TypeEntry(k).Own? <==> k in {"image", "video", "pdf", "qr"}
    ensures TypeEntry(k).Inherited? <==> InheritedName(k)
  {
  }

  /** `allowedByType[kind].includes(mime)` for a kind with its own list. */
  predicate Allowed(kind: string, mime: string)
  {
    TypeEntry(kind).Own? && mime in TypeEntry(kind).mimes
  }

  /** GIF images are accepted as images but not as QR codes; PDFs are
      accepted as QR codes but not as images; only MP4, MPEG and QuickTime
      are videos. */
  lemma AllowListExamples()
    ensures Allowed("image", "image/gif") && !Allowed("qr", "image/gif")
    ensures Allowed("qr", "application/pdf") && !Allowed("image", "application/pdf")
    ensures forall m :: Allowed("video", m) <==> m in {"video/mp4", "video/mpeg", "video/quicktime"}
    ensures !Allowed("audio", "audio/mpeg") && !Allowed("website", "text/html")
  {
  }

  /** Every accepted MIME type is an image, a video or a PDF type. */
  lemma AllowedMimeFamilies(kind: string, mime: string)
    requires Allowed(kind, mime)
    ensures StartsWith(mime, "image/") || StartsWith(mime, "video/") || mime == "application/pdf"
  {
  }

  // ---------------------------------------------------------------------------
  // Creating
  // ---------------------------------------------------------------------------

  datatype PostResponse =
    | NoFile | TitleRequired | TypeRequired | InvalidType | InvalidMime | TooLarge
    | Failed
    | Saved(media: Media)

  function PostStatus(r: PostResponse): nat
  {
    match r
    case Failed => 500
    case Saved(_) => 200
    case _ => 400
  }

  /** `!x?.trim()` on a field value: absent or blank. A file value has no
      `trim`, which throws; that case is `Throws`. */
  datatype FieldText = Blank | Filled(text: string) | Throws

  function TextOf(v: Option<Part>): (r: FieldText)
    ensures r.Throws? <==> v.Some? && v.value.Blob?
    ensures r.Blank? <==> v.None? || (v.value.Text? && IsBlank(v.value.text))
    ensures r.Filled? ==> v.Some? && v.value.Text? && r.text == Trim(v.value.text) && r.text != ""
  {
    match v
    case None => Blank
    case Some(Blob(_)) => Throws
    case Some(Text(t)) => var r := Trim(t); if r == [] then Blank else Filled(r)
  }

  /** The answer to an upload, given what the media host answers and the id
      the store hands out. */
  function PostOutcome(body: Body, upload: Upload, freshId: Id): (r: PostResponse)
    ensures body.NotFormData? ==> r == Failed
    ensures r.Saved? ==> upload.Hosted? && r.media.id == freshId && r.media.websiteUrl.None?
  {
    match body
    case NotFormData => Failed
    case Multipart(parts) =>
      var kind := FormGet(parts, "type");
      Decide(FileField(parts), TextOf(FormGet(parts, "title")), TextOf(kind), KeyString(kind), upload, freshId)
  }

  /** The checks on the file, title and type fields in the handler's order,
      then the upload: `title` and `kind` are the trimmed fields and
      `kindKey` the raw type field, which picks the list. */
  function Decide(file: Option<Part>, title: FieldText, kind: FieldText, kindKey: string, upload: Upload, freshId: Id): (r: PostResponse)
    ensures r.Saved? ==> upload.Hosted? && r.media.id == freshId && r.media.websiteUrl.None?
  {
    if !PartTruthy(file) then NoFile
    else if title.Throws? then Failed
    else if title.Blank? then TitleRequired
    else if kind.Throws? then Failed
    else if kind.Blank? then TypeRequired
    else Screen(file.value, title.text, kind.text, kindKey, upload, freshId)
  }

  /** The checks on a non-blank title and kind: the kind's list, the MIME type,
      the size, then the upload. */
  function Screen(file: Part, title: string, kind: string, kindKey: string, upload: Upload, freshId: Id): (r: PostResponse)
    ensures r.Saved? ==> upload.Hosted? && r.media.id == freshId && r.media.websiteUrl.None?
  {
    var entry := TypeEntry(kindKey);
    if entry.Missing? then InvalidType
    else if entry.Inherited? then Failed
    else if MimeOf(file).None? || MimeOf(file).value !in entry.mimes then InvalidMime
    else if OverSize(file) then TooLarge
    else if upload.HostFailed? then Failed
    else Saved(Media(freshId, title, kind, Some(upload.secureUrl), None))
  }

  /** A well-formed upload: a file field under `file`, a title and a kind. */
  function UploadBody(title: string, kind: string, f: File): Body
  {
    Multipart([("title", Text(title)), ("type", Text(kind)), ("file", Blob(f))])
  }

  /** The fields a well-formed upload's handler reads. */
  lemma UploadBodyFields(title: string, kind: string, f: File)
    requires kind != "file" && kind != "title" && kind != "type"
    ensures var parts := UploadBody(title, kind, f).parts;
      && FormGet(parts, "title") == Some(Text(title))
      && FormGet(parts, "type") == Some(Text(kind))
      && FileField(parts) == Some(Blob(f))
  {
    var parts := UploadBody(title, kind, f).parts;
    assert FormGet(parts[2..], "file") == Some(Blob(f));
    assert FormGet(parts[1..], "file") == Some(Blob(f));
    assert FormGet(parts, "file") == Some(Blob(f));
    assert FormGet(parts[1..], "type") == Some(Text(kind));
    if kind != "" {
      assert forall i :: 0 <= i < |parts| ==> parts[i].0 != kind;
    }
    assert !PartTruthy(FormGet(parts, kind));
  }

  /** The checks run in a fixed order: file, title, type, known type, MIME
      type, size. Each refusal is a 400 and happens exactly when the checks
      before it passed. */
  lemma PostRejectionOrder(title: string, kind: string, f: File, upload: Upload, freshId: Id)
    requires kind != "file" && kind != "title" && kind != "type"
    ensures var r := PostOutcome(UploadBody(title, kind, f), upload, freshId);
      && (r == TitleRequired <==> IsBlank(title))
      && (r == TypeRequired <==> !IsBlank(title) && IsBlank(kind))
      && (r == InvalidType <==> !IsBlank(title) && !IsBlank(kind) && TypeEntry(kind).Missing?)
      && (r == InvalidMime <==> !IsBlank(title) && !IsBlank(kind) && TypeEntry(kind).Own? && !Allowed(kind, f.mime))
      && (r == TooLarge <==> !IsBlank(title) && !IsBlank(kind) && Allowed(kind, f.mime) && f.size > MaxSize)
      && (r.Saved? <==> !IsBlank(title) && !IsBlank(kind) && Allowed(kind, f.mime) && f.size <= MaxSize && upload.Hosted?)
      && (r == Failed <==>
            !IsBlank(title) && !IsBlank(kind) &&
            (InheritedName(kind) || (Allowed(kind, f.mime) && f.size <= MaxSize && upload.HostFailed?)))
  {
    UploadBodyFields(title, kind, f);
    var t := TextOf(Some(Text(title)));
    var k := TextOf(Some(Text(kind)));
    assert PostOutcome(UploadBody(title, kind, f), upload, freshId) == Decide(Some(Blob(f)), t, k, kind, upload, freshId);
    DecideOrder(f, t, k, kind, upload, freshId);
    TypeEntryKinds(kind);
  }

  /** The order of the checks once a file is present, over the trimmed title
      and kind. */
  lemma DecideOrder(f: File, t: FieldText, k: FieldText, key: string, upload: Upload, freshId: Id)
    requires !t.Throws? && !k.Throws?
    ensures var r := Decide(Some(Blob(f)), t, k, key, upload, freshId);
      && (r == TitleRequired <==> t.Blank?)
      && (r == TypeRequired <==> t.Filled? && k.Blank?)
      && (r == InvalidType <==> t.Filled? && k.Filled? && TypeEntry(key).Missing?)
      && (r == InvalidMime <==> t.Filled? && k.Filled? && TypeEntry(key).Own? && !Allowed(key, f.mime))
      && (r == TooLarge <==> t.Filled? && k.Filled? && Allowed(key, f.mime) && f.size > MaxSize)
      && (r.Saved? <==> t.Filled? && k.Filled? && Allowed(key, f.mime) && f.size <= MaxSize && upload.Hosted?)
      && (r == Failed <==>
            t.Filled? && k.Filled? &&
            (TypeEntry(key).Inherited? || (Allowed(key, f.mime) && f.size <= MaxSize && upload.HostFailed?)))
  {
  }

  /** A body with no file field at all is refused first, whatever else it
      holds. */
  lemma NoFileFirst(parts: seq<(string, Part)>, upload: Upload, freshId: Id)
    requires !PartTruthy(FileField(parts))
    ensures PostOutcome(Multipart(parts), upload, freshId) == NoFile
  {
  }

  /** A name that starts and ends with a character other than white space
      is not changed by trimming. */
  lemma EdgesNotSpaceTrimmed(s: string)
    requires s != [] && !IsSpace(s[0]) && !IsSpace(s[|s| - 1])
    ensures !IsBlank(s) && Trim(s) == s
  {
    assert TrimStart(s) == s;
    assert TrimEnd(s) == s;
  }

  /** The four kinds are neither blank nor changed by trimming, and none of
      them is a field name of an upload. */
  lemma OwnKindTrimmed(kind: string)
    requires TypeEntry(kind).Own?
    ensures !IsBlank(kind) && Trim(kind) == kind
    ensures kind != "file" && kind != "title" && kind != "type"
  {
    assert kind == "image" || kind == "video" || kind == "pdf" || kind == "qr";
    assert 'a' <= kind[0] <= 'z' && 'a' <= kind[|kind| - 1] <= 'z';
    LowerEdgesTrimmed(kind);
  }

  lemma LowerEdgesTrimmed(s: string)
    requires s != [] && 'a' <= s[0] <= 'z' && 'a' <= s[|s| - 1] <= 'z'
    ensures !IsBlank(s) && Trim(s) == s
  {
    EdgesNotSpaceTrimmed(s);
  }

  /** The size cap is inclusive: exactly 25 MiB is accepted, one byte more
      is refused. */
  lemma SizeBoundary(title: string, kind: string, mime: string, name: string, freshId: Id, url: string)
    requires !IsBlank(title) && Allowed(kind, mime)
    ensures PostOutcome(UploadBody(title, kind, File(name, mime, MaxSize)), Hosted(url), freshId).Saved?
    ensures PostOutcome(UploadBody(title, kind, File(name, mime, MaxSize + 1)), Hosted(url), freshId) == TooLarge
  {
    OwnKindTrimmed(kind);
    TypeEntryKinds(kind);
    PostRejectionOrder(title, kind, File(name, mime, MaxSize), Hosted(url), freshId);
    PostRejectionOrder(title, kind, File(name, mime, MaxSize + 1), Hosted(url), freshId);
  }

  /** A saved record holds the trimmed title, the kind (one of the four, as
      sent) and the hosted URL. */
  lemma SavedFields(body: Body, upload: Upload, freshId: Id)
    ensures PostOutcome(body, upload, freshId).Saved? ==>
      var m := PostOutcome(body, upload, freshId).media;
      && body.Multipart?
      && m.id == freshId && upload.Hosted? && m.url == Some(upload.secureUrl)
      && FormGet(body.parts, "title").Some? && FormGet(body.parts, "title").value.Text?
      && m.title == Trim(FormGet(body.parts, "title").value.text) && m.title != ""
      && FormGet(body.parts, "type").Some? && FormGet(body.parts, "type").value.Text?
      && m.kind == FormGet(body.parts, "type").value.text
      && m.kind in {"image", "video", "pdf", "qr"}
  {
    if PostOutcome(body, upload, freshId).Saved? {
      var parts := body.parts;
      var kind := FormGet(parts, "type");
      var t := TextOf(FormGet(parts, "title"));
      var k := TextOf(kind);
      assert PostOutcome(body, upload, freshId) == Decide(FileField(parts), t, k, KeyString(kind), upload, freshId);
      DecideSaved(FileField(parts), t, k, KeyString(kind), upload, freshId);
      ScreenSaved(FileField(parts).value, t.text, k.text, KeyString(kind), upload, freshId);
      OwnKindTrimmed(kind.value.text);
      TypeEntryKinds(kind.value.text);
    }
  }

  lemma DecideSaved(file: Option<Part>, title: FieldText, kind: FieldText, kindKey: string, upload: Upload, freshId: Id)
    requires Decide(file, title, kind, kindKey, upload, freshId).Saved?
    ensures file.Some? && title.Filled? && kind.Filled?
    ensures Decide(file, title, kind, kindKey, upload, freshId) == Screen(file.value, title.text, kind.text, kindKey, upload, freshId)
  {
  }

  lemma ScreenSaved(file: Part, title: string, kind: string, kindKey: string, upload: Upload, freshId: Id)
    requires Screen(file, title, kind, kindKey, upload, freshId).Saved?
    ensures TypeEntry(kindKey).Own? && upload.Hosted?
    ensures Screen(file, title, kind, kindKey, upload, freshId).media == Media(freshId, title, kind, Some(upload.secureUrl), None)
  {
  }

  // ---------------------------------------------------------------------------
  // Looking up and deleting
  // ---------------------------------------------------------------------------

  /** The first record with the given id. */
  function IndexOfId(docs: seq<Media>, id: string): (r: Option<nat>)
    ensures r.Some? ==> r.value < |docs| && docs[r.value].id == id
    ensures r.None? ==> forall i :: 0 <= i < |docs| ==> docs[i].id != id
  {
    if docs == [] then None
    else if docs[0].id == id then Some(0)
    else match IndexOfId(docs[1..], id)
      case None => None
      case Some(i) => Some(i + 1)
  }

  /** The first record whose title equals `t` up to case: what the anchored,
      case-insensitive title pattern finds. */
  function FindByTitle(docs: seq<Media>, t: string): (r: Option<Media>)
    ensures r.Some? ==> r.value in docs && EqualsIgnoringCase(r.value.title, t)
    ensures r.None? ==> forall m :: m in docs ==> !EqualsIgnoringCase(m.title, t)
  {
    if docs == [] then None
    else if EqualsIgnoringCase(docs[0].title, t) then Some(docs[0])
    else FindByTitle(docs[1..], t)
  }

  datatype GetResponse = TitleParamRequired | NotFound | Found(media: Media)

  /** `GET ?title=`: 400 without a title, otherwise the record whose title
      matches the trimmed parameter, or 404. */
  function GetOutcome(docs: seq<Media>, titleParam: Option<string>): (r: GetResponse)
    ensures r == TitleParamRequired <==> !Truthy(titleParam)
    ensures r.Found? ==> r.media in docs && EqualsIgnoringCase(r.media.title, Trim(titleParam.value))
    ensures r.NotFound? ==> forall m :: m in docs ==> !EqualsIgnoringCase(m.title, Trim(titleParam.value))
  {
    if !Truthy(titleParam) then TitleParamRequired
    else match FindByTitle(docs, Trim(titleParam.value))
      case None => NotFound
      case Some(m) => Found(m)
  }

  /** Titles that differ only in case find the same record. */
  lemma {:induction false} FindByTitleIgnoresCase(docs: seq<Media>, t1: string, t2: string)
    requires EqualsIgnoringCase(t1, t2)
    ensures FindByTitle(docs, t1) == FindByTitle(docs, t2)
  {
    if docs != [] {
      var a := docs[0].title;
      assert EqualsIgnoringCase(a, t1) <==> EqualsIgnoringCase(a, t2) by {
        if |a| == |t1| {
          assert forall i :: 0 <= i < |a| ==> LowerAscii(t1[i]) == LowerAscii(t2[i]);
        }
      }
      FindByTitleIgnoresCase(docs[1..], t1, t2);
    }
  }

  /** A lookup ignores surrounding white space and case in the parameter:
      two parameters, both present or both empty, whose trimmed texts are
      equal up to case get the same answer from every store. */
  lemma GetIgnoresCaseAndSpace(docs: seq<Media>, q1: string, q2: string)
    requires EqualsIgnoringCase(Trim(q1), Trim(q2))
    ensures (q1 == "" <==> q2 == "") ==> GetOutcome(docs, Some(q1)) == GetOutcome(docs, Some(q2))
  {
    FindByTitleIgnoresCase(docs, Trim(q1), Trim(q2));
  }

  datatype DeleteResponse = IdParamRequired | DeleteNotFound | Deleted

  function DeleteStatus(r: DeleteResponse): nat
  {
    match r
    case IdParamRequired => 400
    case DeleteNotFound => 404
    case Deleted => 200
  }

  /** The records without the one at position `i`. */
  function RemoveAt(docs: seq<Media>, i: nat): (r: seq<Media>)
    requires i < |docs|
    ensures |r| == |docs| - 1
    ensures forall j :: 0 <= j < i ==> r[j] == docs[j]
    ensures forall j :: i <= j < |r| ==> r[j] == docs[j + 1]
  {
    docs[..i] + docs[i + 1..]
  }

  /** Deleting a record of a store with distinct ids leaves every other
      record and removes that id. */
  lemma RemoveAtDropsOnlyThat(docs: seq<Media>, i: nat)
    requires i < |docs| && UniqueMediaIds(docs)
    ensures forall m :: m in RemoveAt(docs, i) <==> m in docs && m.id != docs[i].id
    ensures UniqueMediaIds(RemoveAt(docs, i))
  {
    var r := RemoveAt(docs, i);
    forall m | m in docs && m.id != docs[i].id
      ensures m in r
    {
      var j :| 0 <= j < |docs| && docs[j] == m;
      if j < i {
        assert r[j] == m;
      } else {
        assert j != i;
        assert r[j - 1] == m;
      }
    }
  }

  predicate UniqueMediaIds(docs: seq<Media>)
  {
    forall i, j :: 0 <= i < j < |docs| ==> docs[i].id != docs[j].id
  }

  /** Appending a record whose id no record has keeps the ids distinct. */
  lemma AppendFreshKeepsIds(docs: seq<Media>, m: Media)
    requires UniqueMediaIds(docs) && IndexOfId(docs, m.id).None?
    ensures UniqueMediaIds(docs + [m])
  {
  }

  // ---------------------------------------------------------------------------
  // Updating
  // ---------------------------------------------------------------------------

  /** Exactly 24 hexadecimal digits: `/^[0-9a-fA-F]{24}$/`. */
  predicate IsObjectIdHex(s: string)
  {
    |s| == 24 && forall i :: 0 <= i < |s| ==> ('0' <= s[i] <= '9' || 'a' <= s[i] <= 'f' || 'A' <= s[i] <= 'F')
  }

  /** The id parameter values refused before the format check. */
  predicate PlaceholderId(id: Option<string>)
  {
    !Truthy(id) || id.value in {"[object Object]", "undefined", "null"}
  }

  datatype PutResponse =
    | IdInvalid | IdFormat
    | PutFailed
    | PutNotFound
    | PutInvalidMime | PutTooLarge
    | Updated(media: Media)

  function PutStatus(r: PutResponse): nat
  {
    match r
    case PutFailed => 500
    case PutNotFound => 404
    case Updated(_) => 200
    case _ => 400
  }

  /** `x?.trim() || current` once `trim` succeeded: the trimmed new value
      when it is not blank, else the current one. */
  function Keep(t: FieldText, current: string): string
    requires !t.Throws?
  {
    if t.Filled? then t.text else current
  }

  /** What an update leads to: the answer, and whether the new file reached
      the media host. */
  datatype PutResult = PutResult(response: PutResponse, uploaded: bool)

  /** The answer to an update of record `idParam`, given what the media host
      answers to the new file, if one is sent. */
  function PutOutcome(docs: seq<Media>, idParam: Option<string>, body: Body, upload: Upload): (r: PutResult)
    ensures r.uploaded ==> upload.Hosted? && body.Multipart?
    ensures r.response.Updated? ==>
      Truthy(idParam) && IsObjectIdHex(idParam.value) && r.response.media.id == idParam.value && body.Multipart?
  {
    if PlaceholderId(idParam) then PutResult(IdInvalid, false)
    else if !IsObjectIdHex(idParam.value) then PutResult(IdFormat, false)
    else match body
      case NotFormData => PutResult(PutFailed, false)
      case Multipart(parts) =>
        match IndexOfId(docs, idParam.value)
        case None => PutResult(PutNotFound, false)
        case Some(i) =>
          var kind := FormGet(parts, "type");
          Revise(docs[i], FileField(parts), KeyString(kind), TextOf(FormGet(parts, "title")), TextOf(kind), upload)
  }

  /** The update of a found record: the optional new file's checks and
      upload (the list is picked by the raw type field `kindKey`), then the
      title and type fallbacks over the trimmed fields `t` and `k`. */
  function Revise(current: Media, file: Option<Part>, kindKey: string, t: FieldText, k: FieldText, upload: Upload): (r: PutResult)
    ensures r.uploaded ==> PartTruthy(file) && upload.Hosted?
    ensures r.uploaded && r.response.Updated? ==> r.response.media.url == Some(upload.secureUrl)
    ensures r.response.Updated? && !PartTruthy(file) ==> r.response.media.url == current.url
    ensures r.response.Updated? ==> r.response.media.id == current.id && r.response.media.websiteUrl == current.websiteUrl
  {
    if PartTruthy(file) then
      var entry := TypeEntry(kindKey);
      if !entry.Own? then PutResult(PutFailed, false)
      else if MimeOf(file.value).None? || MimeOf(file.value).value !in entry.mimes then PutResult(PutInvalidMime, false)
      else if OverSize(file.value) then PutResult(PutTooLarge, false)
      else if upload.HostFailed? then PutResult(PutFailed, false)
      else PutResult(Finish(current, t, k, Some(upload.secureUrl)), true)
    else PutResult(Finish(current, t, k, current.url), false)
  }

  /** The in-place assignment of title, type and URL; a title or type field
      holding a file makes `trim` throw. */
  function Finish(current: Media, t: FieldText, k: FieldText, url: Option<string>): (r: PutResponse)
    ensures r.Updated? <==> !t.Throws? && !k.Throws?
    ensures r.Updated? ==> r.media.id == current.id && r.media.websiteUrl == current.websiteUrl && r.media.url == url
    ensures r.Updated? && t.Blank? ==> r.media.title == current.title
    ensures r.Updated? && k.Blank? ==> r.media.kind == current.kind
  {
    if t.Throws? || k.Throws? then PutFailed
    else Updated(current.(title := Keep(t, current.title), kind := Keep(k, current.kind), url := url))
  }

  /** The store after a successful update: the record at the same position
      replaced. */
  function Replace(docs: seq<Media>, m: Media): seq<Media>
  {
    match IndexOfId(docs, m.id)
    case None => docs
    case Some(i) => docs[i := m]
  }

  /** The id checks: a missing, empty or placeholder id, or one that is not 24
      hexadecimal digits, is refused with 400 before the body is read. */
  lemma PutIdChecks(docs: seq<Media>, idParam: Option<string>, body: Body, upload: Upload)
    ensures PlaceholderId(idParam) ==> PutOutcome(docs, idParam, body, upload).response == IdInvalid
    ensures !PlaceholderId(idParam) && !IsObjectIdHex(idParam.value) ==> PutOutcome(docs, idParam, body, upload).response == IdFormat
    ensures PutStatus(PutOutcome(docs, idParam, body, upload).response) == 400 && !PutOutcome(docs, idParam, body, upload).uploaded
      <== PlaceholderId(idParam) || !IsObjectIdHex(idParam.value)
  {
  }

  /** A well-formed id is none of the placeholders. */
  lemma HexIdIsNoPlaceholder(id: string)
    requires IsObjectIdHex(id)
    ensures !PlaceholderId(Some(id))
  {
    assert |id| == 24;
  }

  /** A body that is not form data (a JSON body) with a well-formed id is a
      500: `formData()` throws before any lookup. */
  lemma PutJsonBodyFails(docs: seq<Media>, id: string, upload: Upload)
    requires IsObjectIdHex(id)
    ensures PutOutcome(docs, Some(id), NotFormData, upload) == PutResult(PutFailed, false)
  {
    HexIdIsNoPlaceholder(id);
  }

  /** A form with only text fields: `title` and `type` when present. */
  function TextFields(title: Option<string>, kind: Option<string>): seq<(string, Part)>
  {
    (if title.Some? then [("title", Text(title.value))] else [])
    + (if kind.Some? then [("type", Text(kind.value))] else [])
  }

  /** What the handler reads from a form of text fields: the title, the type
      and no file (when the type does not name one of the fields). */
  lemma TextFieldsRead(title: Option<string>, kind: Option<string>)
    requires kind.Some? ==> kind.value != "title" && kind.value != "type"
    ensures var parts := TextFields(title, kind);
      && FormGet(parts, "title") == (if title.Some? then Some(Text(title.value)) else None)
      && FormGet(parts, "type") == (if kind.Some? then Some(Text(kind.value)) else None)
      && !PartTruthy(FileField(parts))
  {
    var parts := TextFields(title, kind);
    if title.Some? && kind.Some? {
      assert parts[1..] == [("type", Text(kind.value))];
    }
    assert FormGet(parts, "file") == None;
    var key := KeyString(FormGet(parts, "type"));
    assert key == "null" || key == kind.value;
    assert FormGet(parts, key).None?;
  }

  /** Without a file the URL stays, and a blank or missing title or type keeps
      the current one; a non-blank one is stored trimmed. */
  lemma PutFallbacks(docs: seq<Media>, id: string, title: Option<string>, kind: Option<string>, upload: Upload)
    requires IsObjectIdHex(id) && IndexOfId(docs, id).Some?
    requires kind.Some? ==> kind.value != "title" && kind.value != "type"
    ensures var r := PutOutcome(docs, Some(id), Multipart(TextFields(title, kind)), upload);
      var current := docs[IndexOfId(docs, id).value];
      && r.response.Updated? && !r.uploaded
      && r.response.media.id == id
      && r.response.media.url == current.url
      && r.response.media.title == (if BlankOrAbsent(title) then current.title else Trim(title.value))
      && r.response.media.kind == (if BlankOrAbsent(kind) then current.kind else Trim(kind.value))
  {
    var parts := TextFields(title, kind);
    HexIdIsNoPlaceholder(id);
    TextFieldsRead(title, kind);
    var current := docs[IndexOfId(docs, id).value];
    var t := TextOf(FormGet(parts, "title"));
    var k := TextOf(FormGet(parts, "type"));
    assert PutOutcome(docs, Some(id), Multipart(parts), upload)
        == Revise(current, FileField(parts), KeyString(FormGet(parts, "type")), t, k, upload);
    assert !t.Throws? && !k.Throws?;
  }

  /** With a file, a kind without its own list (missing, unknown or
      inherited) makes `.includes` throw: a 500, with nothing uploaded. */
  lemma PutUnknownKindWithFileFails(docs: seq<Media>, id: string, parts: seq<(string, Part)>, upload: Upload)
    requires IsObjectIdHex(id) && IndexOfId(docs, id).Some?
    requires PartTruthy(FileField(parts)) && !TypeEntry(KeyString(FormGet(parts, "type"))).Own?
    ensures PutOutcome(docs, Some(id), Multipart(parts), upload) == PutResult(PutFailed, false)
  {
    HexIdIsNoPlaceholder(id);
  }

  /** An updated record keeps the id of the record it revises. */
  lemma ReviseKeepsId(current: Media, file: Option<Part>, kindKey: string, t: FieldText, k: FieldText, upload: Upload)
    requires Revise(current, file, kindKey, t, k, upload).response.Updated?
    ensures Revise(current, file, kindKey, t, k, upload).response.media.id == current.id
  {
  }

  /** An update keeps the record's id, and the store keeps its ids. */
  lemma UpdateKeepsIds(docs: seq<Media>, idParam: Option<string>, body: Body, upload: Upload)
    requires UniqueMediaIds(docs)
    requires PutOutcome(docs, idParam, body, upload).response.Updated?
    ensures var m := PutOutcome(docs, idParam, body, upload).response.media;
      && m.id == idParam.value && IndexOfId(docs, m.id).Some?
      && Replace(docs, m) == docs[IndexOfId(docs, m.id).value := m]
      && UniqueMediaIds(Replace(docs, m))
  {
    var parts := body.parts;
    var i := IndexOfId(docs, idParam.value).value;
    var kind := FormGet(parts, "type");
    var t := TextOf(FormGet(parts, "title"));
    var k := TextOf(kind);
    var rv := Revise(docs[i], FileField(parts), KeyString(kind), t, k, upload);
    assert PutOutcome(docs, idParam, body, upload) == rv;
    ReviseKeepsId(docs[i], FileField(parts), KeyString(kind), t, k, upload);
    ReplaceKeepsIds(docs, i, rv.response.media);
  }

  /** Replacing a record by one with the same id keeps the ids distinct. */
  lemma ReplaceKeepsIds(docs: seq<Media>, i: nat, m: Media)
    requires UniqueMediaIds(docs) && i < |docs| && m.id == docs[i].id
    ensures UniqueMediaIds(docs[i := m])
  {
  }

  // ---------------------------------------------------------------------------
  // The collection
  // ---------------------------------------------------------------------------

  /** The media collection and the files sent to the media host. */
  class MediaStore {
    var docs: seq<Media>
    var hosted: seq<string>

    ghost predicate Valid()
      reads this
    {
      UniqueMediaIds(docs)
    }

    constructor ()
      ensures docs == [] && hosted == [] && Valid()
    {
      docs := [];
      hosted := [];
    }

    /** `POST`: the checks in order, then the upload and the new record. */
    method Post(body: Body, upload: Upload, freshId: Id) returns (resp: PostResponse)
      requires Valid() && IndexOfId(docs, freshId).None?
      modifies this
      ensures Valid()
      ensures resp == PostOutcome(body, upload, freshId)
      ensures docs == if resp.Saved? then old(docs) + [resp.media] else old(docs)
      ensures resp.Saved? ==> upload.Hosted? && hosted == old(hosted) + [upload.secureUrl]
      ensures !resp.Saved? ==> hosted == old(hosted)
    {
      if body.NotFormData? {
        return Failed;
      }
      var parts := body.parts;
      var kind := FormGet(parts, "type");
      var file := FileField(parts);
      var t := TextOf(FormGet(parts, "title"));
      var k := TextOf(kind);
      assert PostOutcome(body, upload, freshId) == Decide(file, t, k, KeyString(kind), upload, freshId);
      if !PartTruthy(file) {
        return NoFile;
      }
      if t.Throws? {
        return Failed;
      }
      if t.Blank? {
        return TitleRequired;
      }
      if k.Throws? {
        return Failed;
      }
      if k.Blank? {
        return TypeRequired;
      }
      assert PostOutcome(body, upload, freshId) == Screen(file.value, t.text, k.text, KeyString(kind), upload, freshId);
      var expected := TypeEntry(KeyString(kind));
      if expected.Missing? {
        return InvalidType;
      }
      if expected.Inherited? {
        // `.includes` is not a function of an inherited member.
        return Failed;
      }
      var mime := MimeOf(file.value);
      if mime.None? || mime.value !in expected.mimes {
        return InvalidMime;
      }
      if OverSize(file.value) {
        return TooLarge;
      }
      if upload.HostFailed? {
        return Failed;
      }
      hosted := hosted + [upload.secureUrl];
      var doc := Media(freshId, t.text, k.text, Some(upload.secureUrl), None);
      AppendFreshKeepsIds(docs, doc);
      docs := docs + [doc];
      resp := Saved(doc);
    }

    /** `GET ?title=`. */
    method Get(titleParam: Option<string>) returns (resp: GetResponse)
      ensures resp == TitleParamRequired <==> !Truthy(titleParam)
      ensures resp.Found? ==> resp.media in docs && EqualsIgnoringCase(resp.media.title, Trim(titleParam.value))
      ensures resp.NotFound? ==> forall m :: m in docs ==> !EqualsIgnoringCase(m.title, Trim(titleParam.value))
    {
      resp := GetOutcome(docs, titleParam);
    }

    /** `PUT ?id=`: the id checks, the body, the lookup, the optional new file,
        then the in-place update with fallbacks. */
    method Put(idParam: Option<string>, body: Body, upload: Upload) returns (resp: PutResponse)
      requires Valid()
      modifies this
      ensures Valid()
      ensures resp == PutOutcome(old(docs), idParam, body, upload).response
      ensures docs == if resp.Updated? then Replace(old(docs), resp.media) else old(docs)
      ensures hosted == if PutOutcome(old(docs), idParam, body, upload).uploaded then old(hosted) + [upload.secureUrl] else old(hosted)
    {
      if PlaceholderId(idParam) {
        return IdInvalid;
      }
      var id := idParam.value;
      if !IsObjectIdHex(id) {
        return IdFormat;
      }
      if body.NotFormData? {
        return PutFailed;
      }
      var parts := body.parts;
      var kind := FormGet(parts, "type");
      var file := FileField(parts);
      var found := IndexOfId(docs, id);
      if found.None? {
        return PutNotFound;
      }
      var current := docs[found.value];
      var t := TextOf(FormGet(parts, "title"));
      var k := TextOf(kind);
      ghost var result := Revise(current, file, KeyString(kind), t, k, upload);
      assert PutOutcome(docs, idParam, body, upload) == result;
      var fileUrl := current.url;
      if PartTruthy(file) {
        var expected := TypeEntry(KeyString(kind));
        if !expected.Own? {
          return PutFailed;
        }
        var mime := MimeOf(file.value);
        if mime.None? || mime.value !in expected.mimes {
          return PutInvalidMime;
        }
        if OverSize(file.value) {
          return PutTooLarge;
        }
        if upload.HostFailed? {
          return PutFailed;
        }
        hosted := hosted + [upload.secureUrl];
        fileUrl := Some(upload.secureUrl);
      }
      if t.Throws? || k.Throws? {
        return PutFailed;
      }
      var updated := current.(title := Keep(t, current.title), kind := Keep(k, current.kind), url := fileUrl);
      UpdateKeepsIds(docs, idParam, body, upload);
      docs := docs[found.value := updated];
      resp := Updated(updated);
    }

    /** `DELETE ?id=`: 400 without an id, 404 for an unknown id, otherwise the
        record is removed. */
    method Delete(idParam: Option<string>) returns (resp: DeleteResponse)
      requires Valid()
      modifies this
      ensures Valid()
      ensures resp == IdParamRequired <==> !Truthy(idParam)
      ensures resp == DeleteNotFound <==> Truthy(idParam) && IndexOfId(old(docs), idParam.value).None?
      ensures resp == Deleted ==> docs == RemoveAt(old(docs), IndexOfId(old(docs), idParam.value).value)
      ensures resp != Deleted ==> docs == old(docs)
      ensures hosted == old(hosted)
    {
      if !Truthy(idParam) {
        return IdParamRequired;
      }
      var found := IndexOfId(docs, idParam.value);
      if found.None? {
        return DeleteNotFound;
      }
      RemoveAtDropsOnlyThat(docs, found.value);
      docs := RemoveAt(docs, found.value);
      resp := Deleted;
    }
  }
}
