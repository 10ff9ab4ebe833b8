/** The bubble collection endpoint (app/api/bubble/route.js): listing all
    bubbles, the top-level ones or the children of one bubble, and creating a
    bubble after checking that its parent and its media exist. */
module BubbleRoute {
  import opened Common
  import opened Text
  import opened Models
  import WebsitesRoute
  import MediaRoute
  import opened BubbleForest

  // ---------------------------------------------------------------------------
  // Listing
  // ---------------------------------------------------------------------------

  /** The filter built from the `parentBubbleId` query parameter: none for a
      missing or empty parameter, top-level bubbles for `"null"`, the children
      of that id otherwise. */
  function Query(bs: seq<Bubble>, parentParam: Option<string>): (r: seq<Bubble>)
    ensures |r| <= |bs|
    ensures forall b :: b in r ==> b in bs
  {
    if !Truthy(parentParam) then bs
    else if parentParam.value == "null" then WithParent(bs, None)
    else WithParent(bs, Some(parentParam.value))
  }

  /** Which stored bubbles the listing returns, for each form of the
      parameter. */
  lemma QueryContents(bs: seq<Bubble>, parentParam: Option<string>, b: Bubble)
    ensures !Truthy(parentParam) ==> Query(bs, parentParam) == bs
    ensures parentParam == Some("null") ==> (b in Query(bs, parentParam) <==> b in bs && b.parent.None?)
    ensures Truthy(parentParam) && parentParam.value != "null" ==>
      (b in Query(bs, parentParam) <==> b in bs && b.parent == Some(parentParam.value))
  {
  }

  function FindMedia(media: seq<Media>, id: string): (r: Option<Media>)
    ensures r.Some? ==> r.value in media && r.value.id == id
    ensures r.None? ==> forall m :: m in media ==> m.id != id
  {
    if media == [] then None
    else if media[0].id == id then Some(media[0])
    else FindMedia(media[1..], id)
  }

  /** `.populate('media')`: a media id is replaced by the media document, or
      by nothing when no document has that id. */
  function Populate(b: Bubble, media: seq<Media>): (r: Bubble)
    ensures r.key == b.key && r.title == b.title && r.parent == b.parent
    ensures b.media.MediaId? && FindMedia(media, b.media.ref).Some? ==> r.media == Populated(FindMedia(media, b.media.ref).value)
    ensures b.media.MediaId? && FindMedia(media, b.media.ref).None? ==> r.media == NoMedia
    ensures !b.media.MediaId? ==> r.media == b.media
  {
    match b.media
    case MediaId(ref) =>
      (match FindMedia(media, ref)
       case Some(doc) => b.(media := Populated(doc))
       case None => b.(media := NoMedia))
    case _ => b
  }

  /** The `GET` answer: the matching bubbles with their media populated. */
  function Get(bs: seq<Bubble>, media: seq<Media>, parentParam: Option<string>): (r: seq<Bubble>)
    ensures |r| == |Query(bs, parentParam)|
    ensures forall i :: 0 <= i < |r| ==> r[i] == Populate(Query(bs, parentParam)[i], media)
  {
    var q := Query(bs, parentParam);
    seq(|q|, i requires 0 <= i < |q| => Populate(q[i], media))
  }

  // ---------------------------------------------------------------------------
  // Creation
  // ---------------------------------------------------------------------------

  /** The JSON body of a create request. The title is any JSON value, since
      `title?.trim()` is the handler's only check on it. */
  datatype CreateRequest = CreateRequest(title: WebsitesRoute.Json, parentBubbleId: Option<string>, mediaId: Option<string>)

  /** `Failed` is the 500 of the `catch`: a title that is neither a string nor
      missing nor `null` has no `trim` method. */
  datatype PostResponse = TitleRequired | ParentNotFound | MediaNotFound | Created(bubble: Bubble) | Failed

  function Status(r: PostResponse): nat
  {
    match r
    case TitleRequired => 400
    case ParentNotFound => 404
    case MediaNotFound => 404
    case Created(_) => 201
    case Failed => 500
  }

  /** `!title?.trim()`: blank, the trimmed text, or a `TypeError`. */
  function TitleOf(req: CreateRequest): MediaRoute.FieldText
  {
    WebsitesRoute.TextOf(req.title)
  }

  /** A parent id the handler looks up: truthy and not the string `"null"`. */
  predicate NamesParent(req: CreateRequest)
  {
    Truthy(req.parentBubbleId) && req.parentBubbleId.value != "null"
  }

  /** `parentBubbleId === "null" ? null : parentBubbleId || null`. */
  function StoredParent(req: CreateRequest): (p: Option<Id>)
    ensures p.Some? <==> NamesParent(req)
    ensures p.Some? ==> p.value == req.parentBubbleId.value
  {
    if NamesParent(req) then Some(req.parentBubbleId.value) else None
  }

  /** The answer to a create request against stored `bubbles` and `media`,
      with `freshId` the id the store hands out. */
  function PostOutcome(bs: seq<Bubble>, media: seq<Media>, req: CreateRequest, freshId: Id): (r: PostResponse)
    ensures r.Created? && r.bubble.parent.Some? ==> KeyIn(bs, r.bubble.parent.value)
    ensures r.Created? && r.bubble.media.MediaId? ==> FindMedia(media, r.bubble.media.ref).Some?
  {
    match TitleOf(req)
    case Throws => Failed
    case Blank => TitleRequired
    case Filled(title) =>
      if NamesParent(req) && !KeyIn(bs, req.parentBubbleId.value) then ParentNotFound
      else if Truthy(req.mediaId) && FindMedia(media, req.mediaId.value).None? then MediaNotFound
      else Created(Bubble(Some(freshId), title, StoredParent(req),
                          if Truthy(req.mediaId) then MediaId(req.mediaId.value) else NoMedia))
  }

  /** The checks run in order: a title without `trim` (500) or a blank one
      (400), then the parent, then the media; each refusal happens exactly
      when every earlier check passed and its own fails. */
  lemma ValidationOrder(bs: seq<Bubble>, media: seq<Media>, req: CreateRequest, freshId: Id)
    ensures var r := PostOutcome(bs, media, req, freshId);
      && (r == Failed <==> req.title.Other?)
      && (r == TitleRequired <==> req.title.Missing? || req.title.Null? || (req.title.Str? && IsBlank(req.title.s)))
      && (r == ParentNotFound <==>
            req.title.Str? && !IsBlank(req.title.s) && NamesParent(req) && !KeyIn(bs, req.parentBubbleId.value))
      && (r == MediaNotFound <==>
            && req.title.Str? && !IsBlank(req.title.s)
            && (NamesParent(req) ==> KeyIn(bs, req.parentBubbleId.value))
            && Truthy(req.mediaId) && (forall m :: m in media ==> m.id != req.mediaId.value))
  {
  }

  /** A created bubble has the new id, the trimmed (non-blank) title, no
      parent for an absent, empty or `"null"` parent id, and no media for an
      absent or empty media id. */
  lemma CreatedFields(bs: seq<Bubble>, media: seq<Media>, req: CreateRequest, freshId: Id)
    requires PostOutcome(bs, media, req, freshId).Created?
    ensures var b := PostOutcome(bs, media, req, freshId).bubble;
      && b.key == Some(freshId)
      && req.title.Str? && b.title == Trim(req.title.s) && b.title != ""
      && (b.parent.None? <==> !Truthy(req.parentBubbleId) || req.parentBubbleId == Some("null"))
      && (b.media == NoMedia <==> !Truthy(req.mediaId))
  {
    TrimmedNotBlank(req.title.s);
  }

  /** A create keeps the store a forest with reference integrity: the new
      bubble's parent exists (or is none), and acyclicity is kept. */
  lemma CreateKeepsForest(bs: seq<Bubble>, media: seq<Media>, req: CreateRequest, freshId: Id)
    requires RefIntegrity(bs) && Acyclic(bs) && !KeyIn(bs, freshId)
    requires PostOutcome(bs, media, req, freshId).Created?
    ensures var b := PostOutcome(bs, media, req, freshId).bubble;
      RefIntegrity(bs + [b]) && Acyclic(bs + [b])
  {
    AppendKeepsForest(bs, PostOutcome(bs, media, req, freshId).bubble);
  }

  /** The stored bubbles: every one keyed by its distinct store id. */
  predicate StoreKeys(bs: seq<Bubble>)
  {
    UniqueKeys(bs) && forall i :: 0 <= i < |bs| ==> bs[i].key.Some?
  }

  /** Appending a bubble with a key no stored bubble has keeps the keys
      distinct. */
  lemma AppendKeepsKeys(bs: seq<Bubble>, b: Bubble)
    requires StoreKeys(bs) && b.key.Some? && !KeyIn(bs, b.key.value)
    ensures StoreKeys(bs + [b])
  {
  }

  /** The bubble collection. */
  class BubbleStore {
    var bubbles: seq<Bubble>

    ghost predicate Valid()
      reads this
    {
      StoreKeys(bubbles) && RefIntegrity(bubbles) && Acyclic(bubbles)
    }

    constructor ()
      ensures bubbles == [] && Valid()
    {
      bubbles := [];
      new;
      forall id: Id
        ensures Terminates(bubbles, id)
      {
        assert Up(bubbles, id, 1).None?;
      }
    }

    /** `POST`: 500 for a title without `trim`, 400 for a blank title, 404 for a named parent or a media id
        that does not exist, otherwise the new bubble is stored (201). */
    method Post(media: seq<Media>, req: CreateRequest, freshId: Id) returns (resp: PostResponse)
      requires Valid() && !KeyIn(bubbles, freshId)
      modifies this
      ensures Valid()
      ensures resp == PostOutcome(old(bubbles), media, req, freshId)
      ensures bubbles == if resp.Created? then old(bubbles) + [resp.bubble] else old(bubbles)
    {
      var title := TitleOf(req);
      if title.Throws? {
        return Failed;
      }
      if title.Blank? {
        return TitleRequired;
      }
      if Truthy(req.parentBubbleId) && req.parentBubbleId.value != "null" {
        var parent := Lookup(bubbles, Some(req.parentBubbleId.value));
        if parent.None? {
          return ParentNotFound;
        }
      }
      if Truthy(req.mediaId) {
        var found := FindMedia(media, req.mediaId.value);
        if found.None? {
          return MediaNotFound;
        }
      }
      var b := Bubble(Some(freshId), title.text, StoredParent(req),
                      if Truthy(req.mediaId) then MediaId(req.mediaId.value) else NoMedia);
      CreateKeepsForest(bubbles, media, req, freshId);
      AppendKeepsKeys(bubbles, b);
      bubbles := bubbles + [b];
      resp := Created(b);
    }
  }
}
