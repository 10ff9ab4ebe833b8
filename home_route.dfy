/** The home-video endpoint (app/api/home/route.js): one `Home` document
    holding the URL of the kiosk's background video, created with a default
    on the first read and replaced or created by an update. */
module HomeRoute {
  import opened Common
  import opened Text
  import opened Models
  import MediaRoute
  import WebsitesRoute

  /** The URL a first read stores. */
  const DefaultVideoUrl := "https://interactive-examples.mdn.mozilla.net/media/cc0-videos/flower.mp4"

  /** `findOne()`: the first document, if any. */
  function FindOne(docs: seq<Home>): (r: Option<Home>)
    ensures r.Some? <==> docs != []
    ensures r.Some? ==> r.value == docs[0]
  {
    if docs == [] then None else Some(docs[0])
  }

  // ---------------------------------------------------------------------------
  // GET
  // ---------------------------------------------------------------------------

  /** `GET`: the stored document and the collection after the read; an empty
      collection first gets the default document. */
  function GetOutcome(docs: seq<Home>): (r: (Home, seq<Home>))
    ensures r.1 != [] && r.0 == r.1[0]
  {
    match FindOne(docs)
    case Some(h) => (h, docs)
    case None => (Home(DefaultVideoUrl), [Home(DefaultVideoUrl)])
  }

  /** A read answers the first document and changes nothing, or creates and
      answers the default one; either way afterwards there is a document and
      the answer is the first one. */
  lemma GetMeaning(docs: seq<Home>)
    ensures var (h, after) := GetOutcome(docs);
      && (docs != [] ==> h == docs[0] && after == docs)
      && (docs == [] ==> h.videoUrl == DefaultVideoUrl && after == [h])
      && after != [] && h == after[0] && |after| <= |docs| + 1
      && (|docs| <= 1 ==> |after| == 1)
  {
  }

  /** A second read changes nothing and answers the same document. */
  lemma GetIdempotent(docs: seq<Home>)
    ensures GetOutcome(GetOutcome(docs).1) == GetOutcome(docs)
  {
  }

  // ---------------------------------------------------------------------------
  // PUT
  // ---------------------------------------------------------------------------

  /** `s.includes(t)`. */
  predicate Includes(s: string, t: string)
  {
    StartsWith(s, t) || (s != [] && Includes(s[1..], t))
  }

  const MultipartType := "multipart/form-data"

  /** `contentType?.includes('multipart/form-data')`. */
  predicate IsMultipart(contentType: Option<string>)
  {
    contentType.Some? && Includes(contentType.value, MultipartType)
  }

  /** The body as the branch chosen by the header reads it: parsed form
      fields, a parsed JSON object's `videoUrl` member, or a body that does
      not parse that way (the parser throws). */
  datatype Body = Form(parts: seq<(string, MediaRoute.Part)>) | JsonObject(videoUrl: WebsitesRoute.Json) | Unparsable

  datatype Request = Request(contentType: Option<string>, body: Body)

  /** The answers: 400 without a video part, 400 without a URL, 200 with the
      stored document, and 400 for anything thrown (a body that does not
      parse, a text field under `video`, a failed upload, a URL the schema
      refuses). */
  datatype PutResponse = NoVideoFile | VideoUrlRequired | Updated(home: Home) | Failed

  function PutStatus(r: PutResponse): nat
  {
    if r.Updated? then 200 else 400
  }

  /** The URL a request carries before it is stored, or the answer that
      ends the request first. */
  datatype Source = Url(url: string) | Stop(response: PutResponse)

  /** The URL the request asks for: the uploaded file's hosted URL, or the
      trimmed JSON `videoUrl`. */
  function SourceOf(req: Request, upload: Upload): (s: Source)
    ensures s.Stop? ==> !s.response.Updated?
    ensures s.Url? && IsMultipart(req.contentType) ==> upload == Hosted(s.url)
    ensures s.Url? && !IsMultipart(req.contentType) ==>
      req.body.JsonObject? && req.body.videoUrl.Str? && s.url == Trim(req.body.videoUrl.s) && s.url != []
  {
    if IsMultipart(req.contentType) then
      if !req.body.Form? then Stop(Failed)
      else
        var v := MediaRoute.FormGet(req.body.parts, "video");
        if !MediaRoute.PartTruthy(v) then Stop(NoVideoFile)
        else if v.value.Text? then Stop(Failed)
        else if upload.HostFailed? then Stop(Failed)
        else Url(upload.secureUrl)
    else if !req.body.JsonObject? then Stop(Failed)
    else
      match WebsitesRoute.TextOf(req.body.videoUrl)
      case Blank => Stop(VideoUrlRequired)
      case Throws => Stop(Failed)
      case Filled(t) => Url(t)
  }

  /** Storing a URL: the schema trims it and refuses an empty one; the first
      document is updated in place, or one is created when there is none. */
  function Store(docs: seq<Home>, src: Source): (r: (PutResponse, seq<Home>))
    ensures src.Stop? ==> r == (src.response, docs)
    ensures src.Url? && r.0.Updated? ==> r.1 != [] && r.1[0] == r.0.home
    ensures src.Url? && !r.0.Updated? ==> r.1 == docs
  {
    match src
    case Stop(r) => (r, docs)
    case Url(u) =>
      var v := Trim(u);
      if v == [] then (Failed, docs)
      else if docs == [] then (Updated(Home(v)), [Home(v)])
      else (Updated(Home(v)), docs[0 := Home(v)])
  }

  /** `PUT`: the answer and the collection afterwards. */
  function PutOutcome(docs: seq<Home>, req: Request, upload: Upload): (r: (PutResponse, seq<Home>))
    ensures !r.0.Updated? ==> r.1 == docs
    ensures r.0.Updated? ==> r.1 != [] && r.1[0] == r.0.home
  {
    Store(docs, SourceOf(req, upload))
  }

  /** Every refusal is a 400 and leaves the collection as it was; a success
      stores a trimmed, non-empty URL in the first document, or in a new
      one, and touches no other document. */
  lemma StoreMeaning(docs: seq<Home>, src: Source)
    requires src.Stop? ==> !src.response.Updated?
    ensures var (r, after) := Store(docs, src);
      && (!r.Updated? ==> PutStatus(r) == 400 && after == docs)
      && (r.Updated? ==>
            && PutStatus(r) == 200 && src.Url? && r.home.videoUrl == Trim(src.url)
            && r.home.videoUrl != [] && Trim(r.home.videoUrl) == r.home.videoUrl
            && after != [] && after[0] == r.home
            && |after| == (if docs == [] then 1 else |docs|)
            && after[1..] == (if docs == [] then [] else docs[1..]))
  {
    if src.Url? {
      TrimIdempotent(src.url);
    }
  }

  /** The same for a whole request. */
  lemma PutMeaning(docs: seq<Home>, req: Request, upload: Upload)
    ensures var (r, after) := PutOutcome(docs, req, upload);
      && (!r.Updated? ==> PutStatus(r) == 400 && after == docs)
      && (r.Updated? ==>
            && PutStatus(r) == 200
            && r.home.videoUrl != [] && Trim(r.home.videoUrl) == r.home.videoUrl
            && after != [] && after[0] == r.home
            && |after| == (if docs == [] then 1 else |docs|)
            && after[1..] == (if docs == [] then [] else docs[1..]))
  {
    StoreMeaning(docs, SourceOf(req, upload));
  }

  /** The collection never grows past one document. */
  lemma PutKeepsSingleton(docs: seq<Home>, req: Request, upload: Upload)
    requires |docs| <= 1
    ensures |PutOutcome(docs, req, upload).1| <= 1
  {
  }

  /** A JSON update stores exactly its trimmed `videoUrl`, and is refused
      as missing exactly when that member is absent, null or blanks. */
  lemma JsonPut(docs: seq<Home>, contentType: Option<string>, s: string, upload: Upload)
    requires !IsMultipart(contentType)
    ensures var (r, _) := PutOutcome(docs, Request(contentType, JsonObject(WebsitesRoute.Str(s))), upload);
      && (r == VideoUrlRequired <==> IsBlank(s))
      && (r.Updated? <==> !IsBlank(s))
      && (r.Updated? ==> r.home.videoUrl == Trim(s))
  {
    var req := Request(contentType, JsonObject(WebsitesRoute.Str(s)));
    var t := WebsitesRoute.TextOf(WebsitesRoute.Str(s));
    assert t.Blank? <==> IsBlank(s);
    var src := SourceOf(req, upload);
    assert src == (if t.Blank? then Stop(VideoUrlRequired) else Url(Trim(s)));
    StoreMeaning(docs, src);
  }

  /** A multipart update without a `video` part is refused and stores
      nothing, whatever the host would have answered. */
  lemma MissingVideoPart(docs: seq<Home>, contentType: Option<string>, parts: seq<(string, MediaRoute.Part)>, upload: Upload)
    requires IsMultipart(contentType)
    requires forall i :: 0 <= i < |parts| ==> parts[i].0 != "video"
    ensures PutOutcome(docs, Request(contentType, Form(parts)), upload) == (NoVideoFile, docs)
  {
  }

  /** A read after a successful update answers the stored URL. */
  lemma PutThenGet(docs: seq<Home>, req: Request, upload: Upload)
    ensures var (r, after) := PutOutcome(docs, req, upload);
      r.Updated? ==> GetOutcome(after) == (r.home, after)
  {
    PutMeaning(docs, req, upload);
  }

  /** The `Home` collection. */
  class HomeStore {
    var docs: seq<Home>

    /** The endpoint only ever creates a document when there is none. */
    ghost predicate Valid()
      reads this
    {
      |docs| <= 1
    }

    constructor ()
      ensures Valid() && docs == []
    {
      docs := [];
    }

    /** `GET`. */
    method Get() returns (home: Home)
      requires Valid()
      modifies this
      ensures Valid()
      ensures (home, docs) == GetOutcome(old(docs))
    {
      if docs == [] {
        home := Home(DefaultVideoUrl);
        docs := [home];
      } else {
        home := docs[0];
      }
    }

    /** `PUT`, with the host's answer to the upload as `upload`. */
    method Put(req: Request, upload: Upload) returns (r: PutResponse)
      requires Valid()
      modifies this
      ensures Valid()
      ensures (r, docs) == PutOutcome(old(docs), req, upload)
    {
      PutKeepsSingleton(docs, req, upload);
      var s := SourceOf(req, upload);
      if s.Stop? {
        return s.response;
      }
      var v := Trim(s.url);
      if v == [] {
        return Failed;
      }
      if docs == [] {
        docs := [Home(v)];
      } else {
        docs := docs[0 := Home(v)];
      }
      r := Updated(Home(v));
    }
  }
}
