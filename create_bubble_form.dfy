/** The bubble creation form (components/bubbles/CreateBubbleForm.js): the
    form state and its error map, the media record a submit creates first,
    the shape of the bubble data it hands on, and the parents it offers. */
module CreateBubbleForm {
  import opened Common
  import opened Text
  import opened Models
  import MediaRoute

  /** The form fields; `mediaFile` is the chosen file, if any. */
  datatype FormData = FormData(
    title: string, parentBubbleId: string, mediaTitle: string, mediaType: string,
    mediaUrl: string, mediaFile: Option<File>)

  /** The empty form the component starts with and resets to. */
  const EmptyForm := FormData("", "", "", "", "", None)

  /** The text inputs `handleChange` is attached to. */
  datatype Field = Title | ParentBubbleId | MediaTitle | MediaType | MediaUrl

  function FieldValue(d: FormData, f: Field): string
  {
    match f
    case Title => d.title
    case ParentBubbleId => d.parentBubbleId
    case MediaTitle => d.mediaTitle
    case MediaType => d.mediaType
    case MediaUrl => d.mediaUrl
  }

  /** `{...formData, [field]: value}`. */
  function WithField(d: FormData, f: Field, v: string): (r: FormData)
    ensures FieldValue(r, f) == v
    ensures forall g :: g != f ==> FieldValue(r, g) == FieldValue(d, g)
    ensures r.mediaFile == d.mediaFile
  {
    match f
    case Title => d.(title := v)
    case ParentBubbleId => d.(parentBubbleId := v)
    case MediaTitle => d.(mediaTitle := v)
    case MediaType => d.(mediaType := v)
    case MediaUrl => d.(mediaUrl := v)
  }

  /** `validateForm`'s error map: only a blank title is an error. */
  function ErrorsOf(d: FormData): (e: map<Field, string>)
    ensures Title in e <==> IsBlank(d.title)
    ensures forall f :: f in e ==> f == Title
  {
    if IsBlank(d.title) then map[Title := "Title is required"] else map[]
  }

  /** `handleChange`'s error update: the field's message is emptied when it
      is set; every other entry is kept. */
  function ClearError(errors: map<Field, string>, f: Field): map<Field, string>
  {
    if f in errors && errors[f] != "" then errors[f := ""] else errors
  }

  /** A change clears exactly the message of its own field. */
  lemma ClearErrorOnlyItsOwn(errors: map<Field, string>, f: Field)
    ensures f in errors ==> f in ClearError(errors, f) && ClearError(errors, f)[f] == ""
    ensures forall g :: g != f ==>
      (g in ClearError(errors, f) <==> g in errors) && (g in errors ==> ClearError(errors, f)[g] == errors[g])
    ensures f !in errors ==> ClearError(errors, f) == errors
  {
  }

  /** The media request a submit makes before creating the bubble. */
  datatype MediaCall =
    | PostWebsite(title: string, websiteUrl: string)
    | PostMedia(body: MediaRoute.Body)

  /** The media request's result: success with the new record's id, a
      response that is not ok, or a thrown error. */
  datatype Reply = Ok(id: string) | NotOk | Threw

  /** Media is created only when both a media title and a media type are
      set: a website through the websites endpoint, any other kind only with
      a chosen file, as a multipart upload of the trimmed title, the type and
      the file. */
  function MediaCallOf(d: FormData): (r: Option<MediaCall>)
    ensures r.Some? ==> d.mediaTitle != "" && d.mediaType != ""
    ensures r.Some? && r.value.PostWebsite? ==> r.value.title == Trim(d.mediaTitle) && r.value.websiteUrl == d.mediaUrl
  {
    if d.mediaTitle == "" || d.mediaType == "" then None
    else if d.mediaType == "website" then Some(PostWebsite(Trim(d.mediaTitle), d.mediaUrl))
    else if d.mediaFile.Some? then
      Some(PostMedia(MediaRoute.Multipart([
        ("title", MediaRoute.Text(Trim(d.mediaTitle))),
        ("type", MediaRoute.Text(d.mediaType)),
        ("file", MediaRoute.Blob(d.mediaFile.value))])))
    else None
  }

  /** When a request is made, and which. */
  lemma MediaCallCases(d: FormData)
    ensures MediaCallOf(d).Some? <==>
      d.mediaTitle != "" && d.mediaType != "" && (d.mediaType == "website" || d.mediaFile.Some?)
    ensures MediaCallOf(d).Some? ==> (MediaCallOf(d).value.PostWebsite? <==> d.mediaType == "website")
    ensures MediaCallOf(d).Some? && MediaCallOf(d).value.PostMedia? ==>
      MediaCallOf(d).value.body == MediaRoute.UploadBody(Trim(d.mediaTitle), d.mediaType, d.mediaFile.value)
  {
  }

  /** What is handed to `onSubmit`: `None` stands for a key left out of the
      object. */
  datatype SubmitData = SubmitData(title: string, parentBubbleId: Option<string>, mediaId: Option<string>)

  /** The local `mediaId` after the media step: the returned id after a
      successful request, otherwise none. */
  function CreatedMediaId(d: FormData, reply: Reply): Option<string>
  {
    if MediaCallOf(d).Some? && reply.Ok? && reply.id != "" then Some(reply.id) else None
  }

  /** `submitData`: the trimmed title, `parentBubbleId` only when one was
      chosen, `mediaId` only when media was created. */
  function SubmitDataOf(d: FormData, reply: Reply): (s: SubmitData)
    ensures s.mediaId.Some? ==> MediaCallOf(d).Some? && reply.Ok?
    ensures s.parentBubbleId.Some? ==> s.parentBubbleId.value != ""
  {
    SubmitData(Trim(d.title), if d.parentBubbleId != "" then Some(d.parentBubbleId) else None,
               CreatedMediaId(d, reply))
  }

  /** The submitted title is the trimmed, non-empty title; the parent key is
      present exactly when a parent was chosen and then carries it; the
      media key is present exactly when a request was made and succeeded
      with an id, and then carries that id. */
  lemma SubmitShape(d: FormData, reply: Reply)
    requires !IsBlank(d.title)
    ensures var s := SubmitDataOf(d, reply);
      && s.title == Trim(d.title) && s.title != ""
      && (s.parentBubbleId.Some? <==> d.parentBubbleId != "")
      && (s.parentBubbleId.Some? ==> s.parentBubbleId.value == d.parentBubbleId)
      && (s.mediaId.Some? <==> MediaCallOf(d).Some? && reply.Ok? && reply.id != "")
      && (s.mediaId.Some? ==> s.mediaId.value == reply.id)
  {
    TrimmedNotBlank(d.title);
  }

  /** A non-website kind without a file makes no request, so the bubble is
      created without media whatever the reply. */
  lemma NoFileNoMedia(d: FormData, reply: Reply)
    requires d.mediaType != "website" && d.mediaFile.None?
    ensures MediaCallOf(d).None? && SubmitDataOf(d, reply).mediaId.None?
  {
  }

  /** `availableParentBubbles`: each bubble's key is compared with the
      form's `id`, which the form never sets, so every keyed bubble is
      offered and only keyless ones are dropped; none for a list that is
      not an array. */
  function AvailableParents(bubbles: Option<seq<Bubble>>): (r: seq<Bubble>)
    ensures bubbles.None? ==> r == []
    ensures bubbles.Some? ==> |r| <= |bubbles.value|
    decreases if bubbles.Some? then |bubbles.value| else 0
  {
    if bubbles.None? || bubbles.value == [] then []
    else
      var b := bubbles.value[0];
      (if b.key.Some? then [b] else []) + AvailableParents(Some(bubbles.value[1..]))
  }

  /** Exactly the keyed bubbles of the list are offered. */
  lemma {:induction false} AvailableParentsAreKeyed(bs: seq<Bubble>, b: Bubble)
    ensures b in AvailableParents(Some(bs)) <==> b in bs && b.key.Some?
  {
    if bs != [] {
      AvailableParentsAreKeyed(bs[1..], b);
      assert bs == [bs[0]] + bs[1..];
    }
  }

  /** The creation form's state. */
  class CreateForm {
    var formData: FormData
    var errors: map<Field, string>
    var isSubmitting: bool

    constructor ()
      ensures formData == EmptyForm && errors == map[] && !isSubmitting
    {
      formData := EmptyForm;
      errors := map[];
      isSubmitting := false;
    }

    /** `handleChange(field)`: writes the field and clears its message. */
    method HandleChange(f: Field, v: string)
      modifies this
      ensures formData == WithField(old(formData), f, v)
      ensures errors == ClearError(old(errors), f)
      ensures isSubmitting == old(isSubmitting)
    {
      formData := WithField(formData, f, v);
      if f in errors && errors[f] != "" {
        errors := errors[f := ""];
      }
    }

    /** The file input: the first chosen file. */
    method PickFile(file: Option<File>)
      modifies this
      ensures formData == old(formData).(mediaFile := file)
      ensures errors == old(errors) && isSubmitting == old(isSubmitting)
    {
      formData := formData.(mediaFile := file);
    }

    /** `validateForm`: replaces the error map; true when it is empty. */
    method Validate() returns (ok: bool)
      modifies this
      ensures errors == ErrorsOf(formData) && (ok <==> errors == map[])
      ensures formData == old(formData) && isSubmitting == old(isSubmitting)
    {
      errors := ErrorsOf(formData);
      ok := |errors| == 0;
    }

    /** `handleSubmit`: validation, the media request (answered by `reply`),
        then `onSubmit` (which throws when `rejected`); the form is reset
        only after `onSubmit` returns normally. */
    method Submit(reply: Reply, rejected: bool) returns (call: Option<MediaCall>, sent: Option<SubmitData>)
      modifies this
      ensures IsBlank(old(formData).title) ==>
        call.None? && sent.None? && formData == old(formData)
        && errors == map[Title := "Title is required"] && isSubmitting == old(isSubmitting)
      ensures !IsBlank(old(formData).title) ==>
        && call == MediaCallOf(old(formData)) && errors == map[] && !isSubmitting
        && sent == (if call.Some? && reply.Threw? then None else Some(SubmitDataOf(old(formData), reply)))
        && formData == (if sent.Some? && !rejected then EmptyForm else old(formData))
    {
      var ok := Validate();
      if !ok {
        return None, None;
      }
      isSubmitting := true;
      var d := formData;
      var mediaId: Option<string> := None;
      call := MediaCallOf(d);
      if call.Some? {
        if reply.Threw? {
          isSubmitting := false;
          return call, None;
        }
        if reply.Ok? {
          mediaId := Some(reply.id);
        }
      }
      sent := Some(SubmitData(Trim(d.title), if d.parentBubbleId != "" then Some(d.parentBubbleId) else None,
                              if Truthy(mediaId) then mediaId else None));
      assert mediaId == (if call.Some? && reply.Ok? then Some(reply.id) else None);
      if !rejected {
        formData := EmptyForm;
      }
      isSubmitting := false;
    }
  }
}
