/** The websites endpoint (app/api/websites/route.js): website links are
    media records of the same collection with a `websiteUrl` instead of an
    uploaded file. `POST` validates and normalises the link before storing
    it; `GET` looks a website up by title. */
module WebsitesRoute {
  import opened Common
  import opened Text
  import opened Models
  import MediaRoute

  // ---------------------------------------------------------------------------
  // URL normalisation
  // ---------------------------------------------------------------------------

  /** The scheme rule applied to an already trimmed link: kept when it
      starts with `http://` or `https://`, otherwise prefixed with
      `https://`. */
  function WithScheme(t: string): string
  {
    if StartsWith(t, "http://") || StartsWith(t, "https://") then t else "https://" + t
  }

  /** The normalised URL of a raw `websiteUrl`. */
  function NormalizeUrl(raw: string): (r: string)
    ensures StartsWith(r, "http://") || StartsWith(r, "https://")
  {
    WithScheme(Trim(raw))
  }

  /** The normalised URL is the trimmed input, prefixed with `https://`
      exactly when the trimmed input has neither scheme; it always starts
      with one of the two schemes, and normalising it again changes
      nothing. */
  lemma NormalizeUrlProperties(raw: string)
    ensures var t := Trim(raw);
      && (StartsWith(t, "http://") || StartsWith(t, "https://") ==> NormalizeUrl(raw) == t)
      && (!StartsWith(t, "http://") && !StartsWith(t, "https://") ==> NormalizeUrl(raw) == "https://" + t)
    ensures StartsWith(NormalizeUrl(raw), "http://") || StartsWith(NormalizeUrl(raw), "https://")
    ensures NormalizeUrl(NormalizeUrl(raw)) == NormalizeUrl(raw)
  {
    var t := Trim(raw);
    var n := NormalizeUrl(raw);
    if !StartsWith(t, "http://") && !StartsWith(t, "https://") {
      assert n == "https://" + t;
      assert n[..8] == "https://";
      assert n[0] == 'h';
      assert t != [] ==> n[|n| - 1] == t[|t| - 1];
    }
    TrimNoEdges(n);
  }

  // ---------------------------------------------------------------------------
  // POST
  // ---------------------------------------------------------------------------

  /** A member of the JSON body: missing, `null`, a string, or some other
      value (a number, an object). */
  datatype Json = Missing | Null | Str(s: string) | Other

  /** The request body: a JSON object, or a body that is not JSON
      (`req.json()` throws). */
  datatype Body = Object(title: Json, websiteUrl: Json, kind: Json) | NotJson

  /** `!x?.trim()` on a JSON member: missing and `null` are blank, a string
      is trimmed, any other value has no `trim` and throws. */
  function TextOf(j: Json): (r: MediaRoute.FieldText)
    ensures r.Throws? <==> j.Other?
    ensures r.Blank? <==> j.Missing? || j.Null? || (j.Str? && IsBlank(j.s))
    ensures r.Filled? ==> j.Str? && r.text == Trim(j.s) && r.text != []
  {
    match j
    case Str(s) =>
      var t := Trim(s);
      if t == [] then MediaRoute.Blank else MediaRoute.Filled(t)
    case Other => MediaRoute.Throws
    case _ => MediaRoute.Blank
  }

  /** `type = "website"`: the default applies only to a missing member; the
      schema requires a non-empty string, so anything else fails on create. */
  function KindOf(j: Json): Option<string>
  {
    match j
    case Missing => Some("website")
    case Str(s) => if s == "" then None else Some(s)
    case _ => None
  }

  datatype PostResponse = TitleRequired | UrlRequired | InvalidUrl | Created(media: Media) | Failed

  function PostStatus(r: PostResponse): int
  {
    match r
    case Created(_) => 201
    case Failed => 500
    case _ => 400
  }

  /** The checks after the body has been read: the title, the link, the
      normalised link's validity, then the record the schema accepts. */
  function Decide(title: MediaRoute.FieldText, url: MediaRoute.FieldText, kind: Option<string>,
                  isValidUrl: string -> bool, freshId: Id): (r: PostResponse)
    ensures r.Created? ==> title.Filled? && url.Filled? && kind.Some? && isValidUrl(WithScheme(url.text))
    ensures r.Created? ==> r.media == Media(freshId, title.text, kind.value, None, Some(WithScheme(url.text)))
  {
    if title.Throws? then Failed
    else if title.Blank? then TitleRequired
    else if url.Throws? then Failed
    else if url.Blank? then UrlRequired
    else
      var n := WithScheme(url.text);
      if !isValidUrl(n) then InvalidUrl
      else if kind.None? then Failed
      else Created(Media(freshId, title.text, kind.value, None, Some(n)))
  }

  /** `POST` with the URL parser as `isValidUrl` and the id the store
      assigns as `freshId`. */
  function PostOutcome(body: Body, isValidUrl: string -> bool, freshId: Id): (r: PostResponse)
    ensures r.Created? ==> r.media.id == freshId
  {
    if body.NotJson? then Failed
    else Decide(TextOf(body.title), TextOf(body.websiteUrl), KindOf(body.kind), isValidUrl, freshId)
  }

  /** The rejections, in order: a blank title, then a blank link, then a
      link the parser rejects after normalisation; a body that is not JSON
      or a member that is not a string fails with 500. */
  lemma PostRejectionOrder(title: Json, url: Json, kind: Json, isValidUrl: string -> bool, freshId: Id)
    requires !title.Other? && !url.Other?
    ensures var r := PostOutcome(Object(title, url, kind), isValidUrl, freshId);
      var tb := title.Str? ==> IsBlank(title.s);
      var ub := url.Str? ==> IsBlank(url.s);
      && (r == TitleRequired <==> tb)
      && (r == UrlRequired <==> !tb && ub)
      && (r == InvalidUrl <==> !tb && !ub && !isValidUrl(NormalizeUrl(url.s)))
      && (r.Created? <==> !tb && !ub && isValidUrl(NormalizeUrl(url.s)) && KindOf(kind).Some?)
  {
    var tt, ut := TextOf(title), TextOf(url);
    assert PostOutcome(Object(title, url, kind), isValidUrl, freshId) == Decide(tt, ut, KindOf(kind), isValidUrl, freshId);
    if ut.Filled? {
      assert NormalizeUrl(url.s) == WithScheme(ut.text);
    }
  }

  /** A non-JSON body, or a title or link that is not a string, fails with
      500 before anything is stored. */
  lemma PostFailures(body: Body, isValidUrl: string -> bool, freshId: Id)
    ensures body.NotJson? ==> PostOutcome(body, isValidUrl, freshId) == Failed
    ensures body.Object? && body.title.Other? ==> PostOutcome(body, isValidUrl, freshId) == Failed
    ensures body.Object? && !BlankJson(body.title) && body.websiteUrl.Other? ==> PostOutcome(body, isValidUrl, freshId) == Failed
  {
  }

  /** `!x?.trim()` holds of a JSON member that is not `Other`. */
  predicate BlankJson(j: Json)
  {
    j.Missing? || j.Null? || (j.Str? && IsBlank(j.s))
  }

  /** A created record holds the trimmed title, the given type (`website`
      by default), no uploaded file, and the normalised link, which the
      parser accepted and which starts with a scheme. */
  lemma CreatedFields(title: Json, url: Json, kind: Json, isValidUrl: string -> bool, freshId: Id)
    requires PostOutcome(Object(title, url, kind), isValidUrl, freshId).Created?
    ensures var m := PostOutcome(Object(title, url, kind), isValidUrl, freshId).media;
      && title.Str? && url.Str?
      && m.id == freshId && m.title == Trim(title.s) && m.title != []
      && m.kind == (if kind.Missing? then "website" else kind.s)
      && m.url.None? && m.websiteUrl == Some(NormalizeUrl(url.s))
      && isValidUrl(m.websiteUrl.value)
      && (StartsWith(m.websiteUrl.value, "http://") || StartsWith(m.websiteUrl.value, "https://"))
  {
    assert PostOutcome(Object(title, url, kind), isValidUrl, freshId)
        == Decide(TextOf(title), TextOf(url), KindOf(kind), isValidUrl, freshId);
    NormalizeUrlProperties(url.s);
  }

  // ---------------------------------------------------------------------------
  // GET
  // ---------------------------------------------------------------------------

  /** The first record with a link whose title matches `t`, ignoring case. */
  function FindWebsite(docs: seq<Media>, t: string): (r: Option<Media>)
    ensures r.Some? ==> r.value in docs && r.value.websiteUrl.Some? && EqualsIgnoringCase(r.value.title, t)
    ensures r.None? ==> forall m :: m in docs && m.websiteUrl.Some? ==> !EqualsIgnoringCase(m.title, t)
  {
    if docs == [] then None
    else if docs[0].websiteUrl.Some? && EqualsIgnoringCase(docs[0].title, t) then Some(docs[0])
    else FindWebsite(docs[1..], t)
  }

  datatype GetResponse = TitleParamRequired | NotFound | Found(website: Media)

  /** `GET ?title=`: 400 without a title; the first record with a link
      whose title equals the trimmed parameter ignoring case; 404 when none
      has. */
  function GetOutcome(docs: seq<Media>, titleParam: Option<string>): (r: GetResponse)
    ensures r == TitleParamRequired <==> !Truthy(titleParam)
    ensures r.Found? ==>
      r.website in docs && r.website.websiteUrl.Some? && EqualsIgnoringCase(r.website.title, Trim(titleParam.value))
    ensures r.NotFound? ==>
      forall m :: m in docs && m.websiteUrl.Some? ==> !EqualsIgnoringCase(m.title, Trim(titleParam.value))
  {
    if !Truthy(titleParam) then TitleParamRequired
    else match FindWebsite(docs, Trim(titleParam.value))
      case None => NotFound
      case Some(m) => Found(m)
  }

  /** A created website is found again by its title, in any letter case
      and with surrounding blanks, unless an earlier record with a link has
      the same title. */
  lemma CreatedThenFound(docs: seq<Media>, title: string, url: string, kind: Json,
                         isValidUrl: string -> bool, freshId: Id, query: string)
    requires EqualsIgnoringCase(Trim(query), Trim(title))
    requires forall m :: m in docs && m.websiteUrl.Some? ==> !EqualsIgnoringCase(m.title, Trim(title))
    ensures var r := PostOutcome(Object(Str(title), Str(url), kind), isValidUrl, freshId);
      r.Created? ==> GetOutcome(docs + [r.media], Some(query)) == Found(r.media)
  {
    var r := PostOutcome(Object(Str(title), Str(url), kind), isValidUrl, freshId);
    if r.Created? {
      CreatedFields(Str(title), Str(url), kind, isValidUrl, freshId);
      var m := r.media;
      var t := Trim(query);
      assert m.title == Trim(title) && m.websiteUrl.Some?;
      assert query != "" by {
        assert |t| <= |query|;
      }
      assert EqualsIgnoringCase(m.title, t);
      forall x: string | EqualsIgnoringCase(x, t)
        ensures EqualsIgnoringCase(x, Trim(title))
      {
      }
      FindWebsiteAppend(docs, m, t);
    }
  }

  lemma {:induction false} FindWebsiteAppend(docs: seq<Media>, m: Media, t: string)
    requires m.websiteUrl.Some? && EqualsIgnoringCase(m.title, t)
    requires forall d :: d in docs && d.websiteUrl.Some? ==> !EqualsIgnoringCase(d.title, t)
    ensures FindWebsite(docs + [m], t) == Some(m)
  {
    if docs != [] {
      assert (docs + [m])[1..] == docs[1..] + [m];
      FindWebsiteAppend(docs[1..], m, t);
    }
  }

  /** A record without a link is never returned, even when its title
      matches. */
  lemma UploadsAreNotWebsites(docs: seq<Media>, q: string)
    requires forall m :: m in docs ==> m.websiteUrl.None?
    ensures GetOutcome(docs, Some(q)) == (if q == "" then TitleParamRequired else NotFound)
  {
  }

  /** `POST` against the media collection: a created website is appended,
      nothing else changes. */
  method Post(store: MediaRoute.MediaStore, body: Body, isValidUrl: string -> bool, freshId: Id)
    returns (resp: PostResponse)
    requires store.Valid() && MediaRoute.IndexOfId(store.docs, freshId).None?
    modifies store
    ensures store.Valid()
    ensures resp == PostOutcome(body, isValidUrl, freshId)
    ensures store.docs == if resp.Created? then old(store.docs) + [resp.media] else old(store.docs)
    ensures store.hosted == old(store.hosted)
  {
    resp := PostOutcome(body, isValidUrl, freshId);
    if resp.Created? {
      MediaRoute.AppendFreshKeepsIds(store.docs, resp.media);
      store.docs := store.docs + [resp.media];
    }
  }

  /** `GET`: a read of the collection. */
  method Get(store: MediaRoute.MediaStore, titleParam: Option<string>) returns (resp: GetResponse)
    ensures resp == TitleParamRequired <==> !Truthy(titleParam)
    ensures resp.Found? ==>
      resp.website in store.docs && resp.website.websiteUrl.Some?
      && EqualsIgnoringCase(resp.website.title, Trim(titleParam.value))
    ensures resp.NotFound? ==> forall m :: m in store.docs && m.websiteUrl.Some? ==> !EqualsIgnoringCase(m.title, Trim(titleParam.value))
  {
    if !Truthy(titleParam) {
      return TitleParamRequired;
    }
    var found := FindWebsite(store.docs, Trim(titleParam.value));
    if found.None? {
      return NotFound;
    }
    return Found(found.value);
  }
}
