/** The CMS upload page (app/cms/page.js): the dialog's form, the checks
    `handleSubmit` makes before it sends anything, the request it sends for
    each kind, and `handleReset`. */
module CmsPage {
  import opened Common
  import opened Text
  import opened Models
  import MediaRoute
  import WebsitesRoute

  /** The form fields (`type`, `title`, `url`, `websiteUrl`). */
  datatype FormData = FormData(kind: string, title: string, url: string, websiteUrl: string)

  const EmptyForm := FormData("", "", "", "")

  /** The `name` of the input `handleInputChange` is attached to. */
  datatype Field = Kind | Title | Url | WebsiteUrl

  function FieldValue(d: FormData, f: Field): string
  {
    match f
    case Kind => d.kind
    case Title => d.title
    case Url => d.url
    case WebsiteUrl => d.websiteUrl
  }

  /** `{...prev, [name]: value}`: the named field changes, no other. */
  function WithField(d: FormData, f: Field, v: string): (r: FormData)
    ensures FieldValue(r, f) == v
    ensures forall g :: g != f ==> FieldValue(r, g) == FieldValue(d, g)
  {
    match f
    case Kind => d.(kind := v)
    case Title => d.(title := v)
    case Url => d.(url := v)
    case WebsiteUrl => d.(websiteUrl := v)
  }

  /** The kinds uploaded as files. */
  predicate FileKind(k: string)
  {
    k in ["qr", "image", "video", "pdf"]
  }

  /** The request the page sends: a JSON website record, or a multipart
      upload. */
  datatype Request = PostWebsite(title: string, websiteUrl: string) | PostMedia(body: MediaRoute.Body)

  /** The server's answer: ok, not ok with the `error` member of its JSON
      body, or a thrown error (the network, or a body that is not JSON). */
  datatype Reply = Ok | NotOk(error: Option<string>) | Threw

  /** The status line the page shows. */
  datatype Message =
    | NoMessage
    | TitleAndTypeRequired
    | WebsiteUrlRequired
    | WebsiteAdded
    | WebsiteFailed(error: string)
    | Uploaded(kindLabel: string)
    | UploadFailed(kind: string, error: string)
    | SelectFile
    | Unsupported
    | ProcessingError

  /** What a submit does: the request sent, the message shown, and whether
      the form is reset. */
  datatype Outcome = Outcome(request: Option<Request>, message: Message, reset: bool)

  /** `errorData.error || "Unknown error"`. */
  function ErrorText(e: Option<string>): string
  {
    if Truthy(e) then e.value else "Unknown error"
  }

  /** `handleSubmit` with the server's answer `reply`. */
  function SubmitOutcome(d: FormData, file: Option<File>, reply: Reply): (o: Outcome)
    ensures o.request.Some? && o.request.value.PostWebsite? ==> d.kind == "website" && !IsBlank(d.websiteUrl)
    ensures o.request.Some? && o.request.value.PostMedia? ==> FileKind(d.kind) && file.Some?
    ensures o.reset ==> o.message.WebsiteAdded? || o.message.Uploaded?
  {
    if d.title == "" || d.kind == "" then Outcome(None, TitleAndTypeRequired, false)
    else if d.kind == "website" then
      if IsBlank(d.websiteUrl) then Outcome(None, WebsiteUrlRequired, false)
      else
        var req := Some(PostWebsite(d.title, d.websiteUrl));
        match reply
        case Ok => Outcome(req, WebsiteAdded, true)
        case NotOk(e) => Outcome(req, WebsiteFailed(ErrorText(e)), false)
        case Threw => Outcome(req, ProcessingError, false)
    else if FileKind(d.kind) then
      if file.None? then Outcome(None, SelectFile, false)
      else
        var req := Some(PostMedia(MediaRoute.UploadBody(d.title, d.kind, file.value)));
        match reply
        case Ok => Outcome(req, Uploaded(ToUpper(d.kind)), true)
        case NotOk(e) => Outcome(req, UploadFailed(d.kind, ErrorText(e)), false)
        case Threw => Outcome(req, ProcessingError, false)
    else Outcome(None, Unsupported, false)
  }

  /** Nothing is sent without a title and a type, for a website without a
      link, for a file kind without a file, or for any other kind; the form
      is reset only after the server accepted the request. */
  lemma SubmitGuards(d: FormData, file: Option<File>, reply: Reply)
    ensures var o := SubmitOutcome(d, file, reply);
      && (d.title == "" || d.kind == "" ==> o == Outcome(None, TitleAndTypeRequired, false))
      && (d.title != "" && d.kind == "website" && IsBlank(d.websiteUrl) ==> o == Outcome(None, WebsiteUrlRequired, false))
      && (d.title != "" && FileKind(d.kind) && file.None? ==> o == Outcome(None, SelectFile, false))
      && (d.title != "" && d.kind != "" && d.kind != "website" && !FileKind(d.kind) ==> o == Outcome(None, Unsupported, false))
      && (o.reset <==> o.request.Some? && reply.Ok?)
      && (o.request.Some? <==>
            d.title != "" && d.kind != "" && ((d.kind == "website" && !IsBlank(d.websiteUrl)) || (FileKind(d.kind) && file.Some?)))
  {
  }

  /** A file kind with a file sends a multipart body with the title and the
      type as typed and the file; a website sends the title and the link as
      typed. */
  lemma RequestShape(d: FormData, file: Option<File>, reply: Reply)
    requires SubmitOutcome(d, file, reply).request.Some?
    ensures var r := SubmitOutcome(d, file, reply).request.value;
      && (r.PostMedia? <==> FileKind(d.kind))
      && (r.PostMedia? ==>
            var parts := r.body.parts;
            MediaRoute.FormGet(parts, "title") == Some(MediaRoute.Text(d.title))
            && MediaRoute.FormGet(parts, "type") == Some(MediaRoute.Text(d.kind))
            && MediaRoute.FileField(parts) == Some(MediaRoute.Blob(file.value)))
      && (r.PostWebsite? ==> d.kind == "website" && r.title == d.title && r.websiteUrl == d.websiteUrl)
  {
    if FileKind(d.kind) {
      MediaRoute.TypeEntryKinds(d.kind);
      MediaRoute.OwnKindTrimmed(d.kind);
      MediaRoute.UploadBodyFields(d.title, d.kind, file.value);
    }
  }

  /** An upload the page sends passes the media endpoint's file and type
      checks; only a title of blanks, which the page lets through, is turned
      away as missing. Past those the MIME list, the size cap and the host
      decide. */
  lemma UploadMeetsServerChecks(d: FormData, f: File, upload: Upload, freshId: Id)
    requires d.title != "" && FileKind(d.kind)
    ensures var r := MediaRoute.PostOutcome(MediaRoute.UploadBody(d.title, d.kind, f), upload, freshId);
      && r != MediaRoute.NoFile && r != MediaRoute.TypeRequired && r != MediaRoute.InvalidType
      && (r == MediaRoute.TitleRequired <==> IsBlank(d.title))
      && (r.Saved? <==> !IsBlank(d.title) && MediaRoute.Allowed(d.kind, f.mime) && f.size <= MediaRoute.MaxSize && upload.Hosted?)
  {
    MediaRoute.TypeEntryKinds(d.kind);
    MediaRoute.OwnKindTrimmed(d.kind);
    MediaRoute.PostRejectionOrder(d.title, d.kind, f, upload, freshId);
  }

  /** A website the page sends carries no `type`, so the websites endpoint
      stores it as `website`; it is created exactly when the title is not
      blanks and the normalised link is accepted. */
  lemma WebsiteMeetsServerChecks(d: FormData, isValidUrl: string -> bool, freshId: Id)
    requires d.title != "" && d.kind == "website" && !IsBlank(d.websiteUrl)
    ensures var r := WebsitesRoute.PostOutcome(
        WebsitesRoute.Object(WebsitesRoute.Str(d.title), WebsitesRoute.Str(d.websiteUrl), WebsitesRoute.Missing),
        isValidUrl, freshId);
      && (r.Created? <==> !IsBlank(d.title) && isValidUrl(WebsitesRoute.NormalizeUrl(d.websiteUrl)))
      && (r.Created? ==> r.media.kind == "website")
  {
    var title := WebsitesRoute.Str(d.title);
    var url := WebsitesRoute.Str(d.websiteUrl);
    WebsitesRoute.PostRejectionOrder(title, url, WebsitesRoute.Missing, isValidUrl, freshId);
    if WebsitesRoute.PostOutcome(WebsitesRoute.Object(title, url, WebsitesRoute.Missing), isValidUrl, freshId).Created? {
      WebsitesRoute.CreatedFields(title, url, WebsitesRoute.Missing, isValidUrl, freshId);
    }
  }

  /** The page's state. */
  class Page {
    var formData: FormData
    var selectedFile: Option<File>
    var message: Message
    var submitting: bool
    var openForm: bool

    constructor ()
      ensures formData == EmptyForm && selectedFile.None? && message == NoMessage
      ensures !submitting && !openForm
    {
      formData := EmptyForm;
      selectedFile := None;
      message := NoMessage;
      submitting := false;
      openForm := false;
    }

    /** `handleInputChange`. */
    method InputChange(f: Field, v: string)
      modifies this
      ensures formData == WithField(old(formData), f, v)
      ensures selectedFile == old(selectedFile) && message == old(message)
      ensures submitting == old(submitting) && openForm == old(openForm)
    {
      formData := WithField(formData, f, v);
    }

    /** `handleFileSelect`: a cancelled choice keeps the previous file. */
    method FileSelect(file: Option<File>)
      modifies this
      ensures selectedFile == if file.Some? then file else old(selectedFile)
      ensures formData == old(formData) && message == old(message)
      ensures submitting == old(submitting) && openForm == old(openForm)
    {
      if file.Some? {
        selectedFile := file;
      }
    }

    /** `handleReset`: every field emptied, the file dropped, the dialog
        closed. */
    method Reset()
      modifies this
      ensures formData == EmptyForm && selectedFile.None? && !openForm
      ensures message == old(message) && submitting == old(submitting)
    {
      formData := EmptyForm;
      selectedFile := None;
      openForm := false;
    }

    /** `handleSubmit`: `submitting` is false again on every path. */
    method Submit(reply: Reply) returns (request: Option<Request>)
      modifies this
      ensures var o := SubmitOutcome(old(formData), old(selectedFile), reply);
        && request == o.request && message == o.message
        && (o.reset ==> formData == EmptyForm && selectedFile.None? && !openForm)
        && (!o.reset ==> formData == old(formData) && selectedFile == old(selectedFile) && openForm == old(openForm))
      ensures !submitting
    {
      var d := formData;
      request := None;
      if d.title == "" || d.kind == "" {
        message := TitleAndTypeRequired;
        submitting := false;
        return;
      }
      submitting := true;
      if d.kind == "website" {
        if IsBlank(d.websiteUrl) {
          message := WebsiteUrlRequired;
          submitting := false;
          return;
        }
        request := Some(PostWebsite(d.title, d.websiteUrl));
        match reply
        case Ok =>
          message := WebsiteAdded;
          Reset();
        case NotOk(e) =>
          message := WebsiteFailed(ErrorText(e));
        case Threw =>
          message := ProcessingError;
      } else if FileKind(d.kind) {
        if selectedFile.None? {
          message := SelectFile;
          submitting := false;
          return;
        }
        request := Some(PostMedia(MediaRoute.UploadBody(d.title, d.kind, selectedFile.value)));
        match reply
        case Ok =>
          message := Uploaded(ToUpper(d.kind));
          Reset();
        case NotOk(e) =>
          message := UploadFailed(d.kind, ErrorText(e));
        case Threw =>
          message := ProcessingError;
      } else {
        message := Unsupported;
      }
      submitting := false;
    }
  }
}
