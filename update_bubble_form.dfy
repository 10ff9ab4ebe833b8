/** The bubble edit form (components/bubbles/UpdateBubbleForm.js): the
    descendant test and the parent choices it offers, the form state, and how
    a submit resolves the media id it sends with the bubble. */
module UpdateBubbleForm {
  import opened Common
  import opened Text
  import opened Models
  import opened BubbleForest
  import BubbleRoute
  import MediaRoute

  // ---------------------------------------------------------------------------
  // The descendant test
  // ---------------------------------------------------------------------------

  /** How far the walk upward from the bubble found for `k` is from leaving
      the list: the measure `isDescendant` recurses on. */
  ghost function Rank(bs: seq<Bubble>, k: Option<Id>): nat
    requires Acyclic(bs)
  {
    match k
    case Some(id) => Height(bs, id)
    case None =>
      match ParentOf(bs, None)
      case None => 0
      case Some(p) => Height(bs, p) + 1
  }

  /** `isDescendant(ancestorId, bubbleId, bubbleList)`: find the bubble with
      key `k`; false when there is none or it is top-level, true when its
      parent is `anc`, otherwise ask again about its parent. A list that is
      not an array gives false. The recursion ends because the list is
      acyclic. */
  function IsDescendant(anc: Option<Id>, k: Option<Id>, list: Option<seq<Bubble>>): (r: bool)
    requires list.Some? ==> Acyclic(list.value)
    ensures r ==> list.Some? && anc.Some?
    decreases if list.Some? then Rank(list.value, k) else 0
  {
    if list.None? then false
    else
      match Lookup(list.value, k)
      case None => false
      case Some(i) =>
        var parent := list.value[i].parent;
        if parent.None? then false
        else if parent == anc then true
        else if k.Some? then
          HeightStep(list.value, k.value, parent.value);
          IsDescendant(anc, parent, list)
        else IsDescendant(anc, parent, list)
  }

  /** From a bubble other than `a`, `a` is reached upward exactly when it is
      reached from the bubble's parent. */
  lemma StepAncestorOrSelf(bs: seq<Bubble>, a: Id, p: Id)
    requires a != p
    ensures AncestorOrSelf(bs, a, p) <==>
      ParentOf(bs, Some(p)).Some? && AncestorOrSelf(bs, a, ParentOf(bs, Some(p)).value)
  {
    if AncestorOrSelf(bs, a, p) {
      var n: nat :| Up(bs, p, n) == Some(a);
      assert n != 0;
      assert Up(bs, ParentOf(bs, Some(p)).value, n - 1) == Some(a);
    }
    if ParentOf(bs, Some(p)).Some? && AncestorOrSelf(bs, a, ParentOf(bs, Some(p)).value) {
      var q := ParentOf(bs, Some(p)).value;
      var m: nat :| Up(bs, q, m) == Some(a);
      assert Up(bs, p, m + 1) == Some(a);
    }
  }

  /** `isDescendant(a, k)` holds exactly when the bubble found for `k` has a
      parent and `a` is that parent or lies above it: following parent links
      upward from `k` reaches `a`. An unknown or top-level bubble is nobody's
      descendant. */
  lemma {:induction false} IsDescendantMeaning(bs: seq<Bubble>, anc: Option<Id>, k: Option<Id>)
    requires Acyclic(bs)
    ensures IsDescendant(anc, k, Some(bs)) <==>
      anc.Some? && ParentOf(bs, k).Some? && AncestorOrSelf(bs, anc.value, ParentOf(bs, k).value)
    decreases Rank(bs, k)
  {
    match Lookup(bs, k)
    case None =>
    case Some(i) =>
      var parent := bs[i].parent;
      if parent.Some? {
        var p := parent.value;
        if parent == anc {
          assert Up(bs, p, 0) == Some(p);
        } else {
          if k.Some? {
            HeightStep(bs, k.value, p);
          }
          IsDescendantMeaning(bs, anc, parent);
          if anc.Some? {
            StepAncestorOrSelf(bs, anc.value, p);
          }
        }
      }
  }

  /** For keyed bubbles, the descendant test is the ancestor relation. */
  lemma DescendantIffAncestor(bs: seq<Bubble>, z: Id, id: Id)
    requires Acyclic(bs)
    ensures IsDescendant(Some(z), Some(id), Some(bs)) <==> Ancestor(bs, z, id)
  {
    IsDescendantMeaning(bs, Some(z), Some(id));
    if Ancestor(bs, z, id) {
      var n: nat :| 1 <= n && Up(bs, id, n) == Some(z);
      assert Up(bs, ParentOf(bs, Some(id)).value, n - 1) == Some(z);
    }
    if ParentOf(bs, Some(id)).Some? && AncestorOrSelf(bs, z, ParentOf(bs, Some(id)).value) {
      var m: nat :| Up(bs, ParentOf(bs, Some(id)).value, m) == Some(z);
      assert Up(bs, id, m + 1) == Some(z);
    }
  }

  // ---------------------------------------------------------------------------
  // The parents offered
  // ---------------------------------------------------------------------------

  /** `bubble?.id || bubble?._id`: the edited bubble's key. */
  function EditedKey(bubble: Option<Bubble>): Option<Id>
  {
    if bubble.Some? then bubble.value.key else None
  }

  /** The bubbles of `rest` that are not the edited bubble and not its
      descendants in `all`. */
  function Offer(all: seq<Bubble>, rest: seq<Bubble>, key: Option<Id>): (r: seq<Bubble>)
    requires Acyclic(all)
    ensures forall b :: b in r <==> b in rest && b.key != key && !IsDescendant(key, b.key, Some(all))
  {
    if rest == [] then []
    else
      var b := rest[0];
      (if b.key != key && !IsDescendant(key, b.key, Some(all)) then [b] else []) + Offer(all, rest[1..], key)
  }

  /** `availableParentBubbles`: the choices of the parent select; none when
      the bubble list is not an array. */
  function AvailableParents(bubbles: Option<seq<Bubble>>, bubble: Option<Bubble>): (r: seq<Bubble>)
    requires bubbles.Some? ==> Acyclic(bubbles.value)
    ensures bubbles.None? ==> r == []
  {
    if bubbles.None? then [] else Offer(bubbles.value, bubbles.value, EditedKey(bubble))
  }

  /** For an edited bubble with key `z`, a keyed bubble of the list is offered
      exactly when it is neither the edited bubble nor below it. */
  lemma AvailableParentsExactly(bs: seq<Bubble>, e: Bubble, b: Bubble, z: Id, x: Id)
    requires Acyclic(bs) && e.key == Some(z) && b.key == Some(x) && b in bs
    ensures b in AvailableParents(Some(bs), Some(e)) <==> x != z && !Ancestor(bs, z, x)
  {
    DescendantIffAncestor(bs, z, x);
  }

  /** The edited bubble itself is never offered, and no offered bubble has
      the edited bubble above it. */
  lemma AvailableNeverSelfOrBelow(bs: seq<Bubble>, e: Bubble, b: Bubble, z: Id)
    requires Acyclic(bs) && e.key == Some(z)
    requires b in AvailableParents(Some(bs), Some(e))
    ensures b.key != Some(z)
    ensures b.key.Some? ==> !Ancestor(bs, z, b.key.value)
  {
    if b.key.Some? {
      AvailableParentsExactly(bs, e, b, z, b.key.value);
    }
  }

  /** Moving the edited bubble under any offered keyed bubble, or to the top
      level, keeps the list acyclic, and keeps every parent reference
      pointing at a stored bubble. */
  lemma ReparentToOfferedKeepsForest(bs: seq<Bubble>, e: Bubble, z: Id, choice: Option<Bubble>)
    requires Acyclic(bs) && RefIntegrity(bs) && e.key == Some(z)
    requires choice.Some? ==> choice.value in AvailableParents(Some(bs), Some(e)) && choice.value.key.Some?
    ensures var np := if choice.Some? then choice.value.key else None;
      Acyclic(Reparent(bs, z, np)) && RefIntegrity(Reparent(bs, z, np))
  {
    if choice.Some? {
      var b := choice.value;
      var x := b.key.value;
      AvailableParentsExactly(bs, e, b, z, x);
      SelfOrAbove(bs, z, x);
      var i :| 0 <= i < |bs| && bs[i] == b;
      assert Lookup(bs, Some(x)).Some?;
      ReparentKeepsForest(bs, z, Some(x));
    } else {
      ReparentKeepsForest(bs, z, None);
    }
  }

  // ---------------------------------------------------------------------------
  // The form
  // ---------------------------------------------------------------------------

  /** The form fields. `mediaUrl` is absent when a loaded website record has
      no `websiteUrl`; the empty string stands for "not chosen" elsewhere. */
  datatype FormData = FormData(
    title: string, parentBubbleId: string, mediaTitle: string, mediaType: string,
    mediaUrl: Option<string>, mediaFile: Option<File>, existingMediaId: string)

  /** The text inputs `handleChange` is attached to. */
  datatype Field = Title | ParentBubbleId | MediaTitle | MediaType | MediaUrl

  /** A field's current value. */
  function FieldValue(d: FormData, f: Field): Option<string>
  {
    match f
    case Title => Some(d.title)
    case ParentBubbleId => Some(d.parentBubbleId)
    case MediaTitle => Some(d.mediaTitle)
    case MediaType => Some(d.mediaType)
    case MediaUrl => d.mediaUrl
  }

  /** `{...formData, [field]: value}`. */
  function WithField(d: FormData, f: Field, v: string): FormData
  {
    match f
    case Title => d.(title := v)
    case ParentBubbleId => d.(parentBubbleId := v)
    case MediaTitle => d.(mediaTitle := v)
    case MediaType => d.(mediaType := v)
    case MediaUrl => d.(mediaUrl := Some(v))
  }

  /** A change writes its own field and leaves every other field, the file
      and the loaded media id as they were. */
  lemma ChangeTouchesOnlyItsField(d: FormData, f: Field, v: string)
    ensures FieldValue(WithField(d, f, v), f) == Some(v)
    ensures forall g :: g != f ==> FieldValue(WithField(d, f, v), g) == FieldValue(d, g)
    ensures WithField(d, f, v).mediaFile == d.mediaFile
    ensures WithField(d, f, v).existingMediaId == d.existingMediaId
  {
    forall g | g != f
      ensures FieldValue(WithField(d, f, v), g) == FieldValue(d, g)
    {
      match f
      case Title =>
      case ParentBubbleId =>
      case MediaTitle =>
      case MediaType =>
      case MediaUrl =>
    }
  }

  /** The id in a bubble's `media` field: the populated document's id, or the
      bare id. */
  function LoadedMediaId(b: Bubble): Option<string>
  {
    match b.media
    case NoMedia => None
    case MediaId(ref) => Some(ref)
    case Populated(doc) => Some(doc.id)
  }

  /** The form state the load effect builds from the edited bubble and the
      media list. */
  function Loaded(b: Bubble, media: Option<seq<Media>>): (d: FormData)
    ensures d.title == b.title && d.mediaFile.None?
    ensures d.parentBubbleId == "" <==> b.parent.None?
    ensures d.existingMediaId == "" <==> !Truthy(LoadedMediaId(b))
  {
    var mediaId := LoadedMediaId(b);
    var existing := if Truthy(mediaId) && media.Some? then BubbleRoute.FindMedia(media.value, mediaId.value) else None;
    FormData(
      b.title,
      if b.parent.Some? then b.parent.value else "",
      if existing.Some? then existing.value.title else "",
      if existing.Some? then existing.value.kind else "",
      if existing.Some? && existing.value.kind == "website" then existing.value.websiteUrl else Some(""),
      None,
      if Truthy(mediaId) then mediaId.value else "")
  }

  /** What the form sends with the bubble. */
  datatype SubmitData = SubmitData(title: string, parentBubbleId: Option<string>, mediaId: Option<string>)

  /** The media request a submit makes before saving the bubble. */
  datatype MediaCall =
    | PutWebsite(title: string, websiteUrl: Option<string>)
    | PutMedia(id: string, body: MediaRoute.Body)
    | PostWebsite(title: string, websiteUrl: Option<string>)
    | PostMedia(body: MediaRoute.Body)

  /** What the media request came back with: a success carrying the record's
      id, a response that is not ok, or a thrown error (network failure or a
      body that is not JSON). */
  datatype Reply = Ok(id: string) | NotOk | Threw

  /** The multipart fields `title`, `type` (and `file`) the form builds. */
  function MediaFields(d: FormData): seq<(string, MediaRoute.Part)>
  {
    [("title", MediaRoute.Text(Trim(d.mediaTitle))), ("type", MediaRoute.Text(d.mediaType))]
    + (if d.mediaFile.Some? then [("file", MediaRoute.Blob(d.mediaFile.value))] else [])
  }

  /** The request made, as written: with a media title and type, a website
      goes to the websites endpoint, a new file to the media endpoint, and
      an update without a new file to the media endpoint as a JSON body;
      a new non-website record without a file makes no request. */
  function MediaCallOf(d: FormData): (r: Option<MediaCall>)
    ensures r.Some? <==>
      d.mediaTitle != "" && d.mediaType != "" && (d.mediaType == "website" || d.mediaFile.Some? || d.existingMediaId != "")
    ensures r.Some? ==> (r.value.PutWebsite? || r.value.PutMedia? <==> d.existingMediaId != "")
    ensures r.Some? && r.value.PutMedia? ==> r.value.id == d.existingMediaId
  {
    if d.mediaTitle == "" || d.mediaType == "" then None
    else if d.existingMediaId != "" then
      if d.mediaType == "website" then Some(PutWebsite(Trim(d.mediaTitle), d.mediaUrl))
      else if d.mediaFile.Some? then Some(PutMedia(d.existingMediaId, MediaRoute.Multipart(MediaFields(d))))
      else Some(PutMedia(d.existingMediaId, MediaRoute.NotFormData))
    else if d.mediaType == "website" then Some(PostWebsite(Trim(d.mediaTitle), d.mediaUrl))
    else if d.mediaFile.Some? then Some(PostMedia(MediaRoute.Multipart(MediaFields(d))))
    else None
  }

  /** The local `mediaId` once the media step is done: the existing id by
      default, the returned id after a successful request, and nothing when
      the media type was cleared on a bubble that had media. */
  function ResolvedMediaId(d: FormData, reply: Reply): (m: Option<string>)
    ensures m.None? <==> d.mediaType == "" && d.existingMediaId != ""
    ensures m.Some? && !(MediaCallOf(d).Some? && reply.Ok?) ==> m.value == d.existingMediaId
  {
    if d.mediaTitle != "" && d.mediaType != "" then
      if MediaCallOf(d).Some? && reply.Ok? then Some(reply.id) else Some(d.existingMediaId)
    else if d.mediaType == "" && d.existingMediaId != "" then None
    else Some(d.existingMediaId)
  }

  /** `submitData`: the trimmed title, `parentBubbleId || null`,
      `mediaId || null`. */
  function SubmitDataOf(d: FormData, reply: Reply): SubmitData
  {
    var m := ResolvedMediaId(d, reply);
    SubmitData(Trim(d.title), if d.parentBubbleId != "" then Some(d.parentBubbleId) else None,
               if Truthy(m) then m else None)
  }

  /** What reaches `onSubmit` from a valid form: nothing when the media
      request threw. */
  function SubmitOutcome(d: FormData, reply: Reply): (r: Option<SubmitData>)
    ensures r.None? ==> MediaCallOf(d).Some?
    ensures r.Some? ==> r.value.title == Trim(d.title)
  {
    if MediaCallOf(d).Some? && reply.Threw? then None else Some(SubmitDataOf(d, reply))
  }

  /** The data sent has a trimmed non-blank title, no parent exactly when
      none was chosen, and never an empty media id. */
  lemma SubmitShape(d: FormData, reply: Reply)
    requires !IsBlank(d.title)
    ensures var s := SubmitDataOf(d, reply);
      && s.title == Trim(d.title) && s.title != ""
      && (s.parentBubbleId.None? <==> d.parentBubbleId == "")
      && (s.parentBubbleId.Some? ==> s.parentBubbleId.value == d.parentBubbleId)
      && (s.mediaId.Some? ==> s.mediaId.value != "")
  {
    TrimmedNotBlank(d.title);
  }

  /** A top-level bubble loads with an empty parent and goes back as `null`;
      a bubble with a parent goes back with the same parent. */
  lemma ParentRoundTrip(b: Bubble, media: Option<seq<Media>>, reply: Reply)
    ensures SubmitDataOf(Loaded(b, media), reply).parentBubbleId == b.parent
  {
  }

  /** Without a media title the existing media is kept while a type is set;
      with the type cleared, a bubble that had media is saved without it.
      A request that is not ok also keeps the existing media. */
  lemma KeepOrClearMedia(d: FormData, reply: Reply)
    ensures d.mediaTitle == "" && d.mediaType != "" ==> ResolvedMediaId(d, reply) == Some(d.existingMediaId)
    ensures d.mediaType == "" && d.existingMediaId != "" ==> SubmitDataOf(d, reply).mediaId.None?
    ensures !reply.Ok? ==> SubmitDataOf(d, reply).mediaId == (if ResolvedMediaId(d, reply).None? || d.existingMediaId == "" then None else Some(d.existingMediaId))
  {
  }

  /** A media title and type with a new file on a new record post the file
      with the trimmed title and the type. */
  lemma NewFileIsPosted(d: FormData)
    requires d.mediaTitle != "" && d.mediaType != "" && d.mediaType != "website"
    requires d.existingMediaId == "" && d.mediaFile.Some?
    ensures MediaCallOf(d) == Some(PostMedia(MediaRoute.Multipart(
      [("title", MediaRoute.Text(Trim(d.mediaTitle))), ("type", MediaRoute.Text(d.mediaType)), ("file", MediaRoute.Blob(d.mediaFile.value))])))
  {
    var f := d.mediaFile.value;
    var t: (string, MediaRoute.Part) := ("title", MediaRoute.Text(Trim(d.mediaTitle)));
    var k: (string, MediaRoute.Part) := ("type", MediaRoute.Text(d.mediaType));
    var b: (string, MediaRoute.Part) := ("file", MediaRoute.Blob(f));
    assert [t, k] + [b] == [t, k, b];
    assert MediaFields(d) == [t, k, b];
    assert MediaCallOf(d) == Some(PostMedia(MediaRoute.Multipart(MediaFields(d))));
  }

  // ---------------------------------------------------------------------------
  // Updating a record's title and type only
  // ---------------------------------------------------------------------------

  /** As written, an update of the media title or type without a new file
      sends a JSON body to the media endpoint, whose `PUT` reads the body as
      form data and answers 500 without touching the record; the form then
      keeps the existing id, so the new title and type are lost. */
  lemma FieldsOnlyEditIsLost(d: FormData, docs: seq<Media>, upload: Upload)
    requires d.mediaTitle != "" && d.mediaType != "" && d.mediaType != "website"
    requires d.mediaFile.None? && MediaRoute.IsObjectIdHex(d.existingMediaId)
    ensures MediaCallOf(d) == Some(PutMedia(d.existingMediaId, MediaRoute.NotFormData))
    ensures MediaRoute.PutOutcome(docs, Some(d.existingMediaId), MediaRoute.NotFormData, upload)
         == MediaRoute.PutResult(MediaRoute.PutFailed, false)
    ensures SubmitDataOf(d, NotOk).mediaId == Some(d.existingMediaId)
  {
    assert |d.existingMediaId| == 24;
    MediaRoute.PutJsonBodyFails(docs, d.existingMediaId, upload);
  }

  /** The request the update branch evidently means: the multipart fields it
      already builds (title and type, and the file when there is one). */
  function CorrectedMediaCallOf(d: FormData): Option<MediaCall>
  {
    if d.mediaTitle != "" && d.mediaType != "" && d.existingMediaId != "" && d.mediaType != "website" then
      Some(PutMedia(d.existingMediaId, MediaRoute.Multipart(MediaFields(d))))
    else MediaCallOf(d)
  }

  /** With the corrected request, an update without a new file stores the
      trimmed title (the current one when it is blank) and the new type, and
      keeps the record's id and URL. */
  lemma FieldsOnlyEditApplied(d: FormData, docs: seq<Media>, upload: Upload)
    requires d.mediaTitle != "" && d.mediaType != "" && d.mediaType != "website"
    requires d.mediaType != "title" && d.mediaType != "type"
    requires d.mediaFile.None? && MediaRoute.IsObjectIdHex(d.existingMediaId)
    requires MediaRoute.IndexOfId(docs, d.existingMediaId).Some?
    ensures CorrectedMediaCallOf(d) == Some(PutMedia(d.existingMediaId, FieldsBody(d)))
    ensures var r := MediaRoute.PutOutcome(docs, Some(d.existingMediaId), FieldsBody(d), upload);
      var current := docs[MediaRoute.IndexOfId(docs, d.existingMediaId).value];
      && r.response.Updated? && !r.uploaded
      && r.response.media.id == d.existingMediaId
      && r.response.media.url == current.url
      && r.response.media.title == (if IsBlank(d.mediaTitle) then current.title else Trim(d.mediaTitle))
      && r.response.media.kind == (if IsBlank(d.mediaType) then current.kind else Trim(d.mediaType))
  {
    var t := Trim(d.mediaTitle);
    CorrectedFieldsCall(d);
    MediaRoute.PutFallbacks(docs, d.existingMediaId, Some(t), Some(d.mediaType), upload);
    FieldsOnlyEditTitle(d, docs, upload);
  }

  /** The title a fields-only edit stores: the trimmed one, or the current
      one when the typed title is blank. */
  lemma FieldsOnlyEditTitle(d: FormData, docs: seq<Media>, upload: Upload)
    requires d.mediaType != "title" && d.mediaType != "type"
    requires MediaRoute.IsObjectIdHex(d.existingMediaId)
    requires MediaRoute.IndexOfId(docs, d.existingMediaId).Some?
    ensures var r := MediaRoute.PutOutcome(docs, Some(d.existingMediaId), FieldsBody(d), upload);
      var current := docs[MediaRoute.IndexOfId(docs, d.existingMediaId).value];
      r.response.Updated? && r.response.media.title == (if IsBlank(d.mediaTitle) then current.title else Trim(d.mediaTitle))
  {
    var t := Trim(d.mediaTitle);
    MediaRoute.PutFallbacks(docs, d.existingMediaId, Some(t), Some(d.mediaType), upload);
    TrimmedTitleFallback(d.mediaTitle);
  }

  /** The multipart body of a fields-only edit: the trimmed title and the
      type, no file. */
  function FieldsBody(d: FormData): MediaRoute.Body
  {
    MediaRoute.Multipart(MediaRoute.TextFields(Some(Trim(d.mediaTitle)), Some(d.mediaType)))
  }

  /** The corrected request for a fields-only edit: the multipart text
      fields, sent to the record's id. */
  lemma CorrectedFieldsCall(d: FormData)
    requires d.mediaTitle != "" && d.mediaType != "" && d.mediaType != "website"
    requires d.mediaFile.None? && MediaRoute.IsObjectIdHex(d.existingMediaId)
    ensures CorrectedMediaCallOf(d) == Some(PutMedia(d.existingMediaId, FieldsBody(d)))
  {
    assert |d.existingMediaId| == 24;
    assert MediaFields(d) == MediaRoute.TextFields(Some(Trim(d.mediaTitle)), Some(d.mediaType));
  }

  /** Sending the trimmed title: it is blank exactly when the typed one is,
      and trimming it again changes nothing. */
  lemma TrimmedTitleFallback(x: string)
    ensures BlankOrAbsent(Some(Trim(x))) == IsBlank(x)
    ensures Trim(Trim(x)) == Trim(x)
  {
    TrimIdempotent(x);
    if !IsBlank(x) {
      TrimmedNotBlank(x);
    }
  }

  /** The edit form's state. */
  class UpdateForm {
    var formData: FormData
    /** `errors.title`: empty when there is no error. */
    var titleError: string
    var isSubmitting: bool

    constructor ()
      ensures formData == FormData("", "", "", "", Some(""), None, "")
      ensures titleError == "" && !isSubmitting
    {
      formData := FormData("", "", "", "", Some(""), None, "");
      titleError := "";
      isSubmitting := false;
    }

    /** The load effect: the fields of the edited bubble and of its media
        record; nothing happens without a bubble. */
    method Load(bubble: Option<Bubble>, media: Option<seq<Media>>)
      modifies this
      ensures formData == if bubble.Some? then Loaded(bubble.value, media) else old(formData)
      ensures titleError == old(titleError) && isSubmitting == old(isSubmitting)
    {
      if bubble.Some? {
        formData := Loaded(bubble.value, media);
      }
    }

    /** `handleChange(field)`: writes the field and clears its error. */
    method HandleChange(f: Field, v: string)
      modifies this
      ensures formData == WithField(old(formData), f, v)
      ensures titleError == if f == Title then "" else old(titleError)
      ensures isSubmitting == old(isSubmitting)
    {
      formData := WithField(formData, f, v);
      if f == Title && titleError != "" {
        titleError := "";
      }
    }

    /** The file input: the chosen file. */
    method PickFile(file: Option<File>)
      modifies this
      ensures formData == old(formData).(mediaFile := file)
      ensures titleError == old(titleError) && isSubmitting == old(isSubmitting)
    {
      formData := formData.(mediaFile := file);
    }

    /** `validateForm`: a blank title is the only error. */
    method Validate() returns (ok: bool)
      modifies this
      ensures ok <==> !IsBlank(formData.title)
      ensures titleError == if ok then "" else "Title is required"
      ensures formData == old(formData) && isSubmitting == old(isSubmitting)
    {
      if IsBlank(formData.title) {
        titleError := "Title is required";
        ok := false;
      } else {
        titleError := "";
        ok := true;
      }
    }

    /** `handleSubmit`: validation, the media request (whose reply is
        `reply`), then the bubble data handed to `onSubmit`. */
    method Submit(reply: Reply) returns (call: Option<MediaCall>, sent: Option<SubmitData>)
      modifies this
      ensures formData == old(formData)
      ensures IsBlank(formData.title) ==>
        call.None? && sent.None? && titleError == "Title is required" && isSubmitting == old(isSubmitting)
      ensures !IsBlank(formData.title) ==>
        call == MediaCallOf(formData) && sent == SubmitOutcome(formData, reply)
        && titleError == "" && !isSubmitting
    {
      var ok := Validate();
      if !ok {
        return None, None;
      }
      isSubmitting := true;
      var d := formData;
      var mediaId := Some(d.existingMediaId);
      call := MediaCallOf(d);
      if d.mediaTitle != "" && d.mediaType != "" {
        if call.Some? {
          if reply.Threw? {
            isSubmitting := false;
            return call, None;
          }
          if reply.Ok? {
            mediaId := Some(reply.id);
          }
        }
      } else if d.mediaType == "" && d.existingMediaId != "" {
        mediaId := None;
      }
      sent := Some(SubmitData(Trim(d.title), if d.parentBubbleId != "" then Some(d.parentBubbleId) else None,
                              if Truthy(mediaId) then mediaId else None));
      isSubmitting := false;
    }
  }
}
