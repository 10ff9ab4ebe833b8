/** The speakers collection endpoint (app/api/speakers/route.js): listing in
    carousel order, and creating a speaker after uploading their image and
    checking that their time slot overlaps no stored slot. */
module SpeakerRoute {
  import opened Common
  import opened Text
  import opened Models
  import opened SpeakerForm

  // ---------------------------------------------------------------------------
  // Time slots
  // ---------------------------------------------------------------------------

  /** The overlap query: a stored speaker matches when the new slot starts
      inside it, ends inside it, or encloses it, comparing the `HH:MM`
      strings as strings. */
  predicate Conflicts(start: string, end: string, other: Speaker)
    ensures LexLt(start, end) && other.startTime == start && other.endTime == end ==> Conflicts(start, end, other)
  {
    || (LexLe(other.startTime, start) && LexLt(start, other.endTime))
    || (LexLt(other.startTime, end) && LexLe(end, other.endTime))
    || (LexLe(start, other.startTime) && LexLe(other.endTime, end))
  }

  /** A slot the schedule can hold: two well-formed times, start before end. */
  predicate ValidSlot(start: string, end: string)
  {
    WellFormedTime(start) && WellFormedTime(end) && Minutes(start) < Minutes(end)
  }

  /** Two half-open slots `[start, end)` share at least one minute. */
  predicate Overlap(s1: string, e1: string, s2: string, e2: string)
    requires ValidSlot(s1, e1) && ValidSlot(s2, e2)
  {
    Minutes(s1) < Minutes(e2) && Minutes(s2) < Minutes(e1)
  }

  /** On valid slots the three-case string query finds exactly the stored
      slots that share a minute with the new one. */
  lemma ConflictsIffOverlap(start: string, end: string, other: Speaker)
    requires ValidSlot(start, end) && ValidSlot(other.startTime, other.endTime)
    ensures Conflicts(start, end, other) <==> Overlap(start, end, other.startTime, other.endTime)
  {
    var s, e, os, oe := start, end, other.startTime, other.endTime;
    LexOrderIsTimeOrder(os, s);
    LexOrderIsTimeOrder(s, oe);
    LexOrderIsTimeOrder(os, e);
    LexOrderIsTimeOrder(e, oe);
    LexOrderIsTimeOrder(s, os);
    LexOrderIsTimeOrder(oe, e);
  }

  /** Back-to-back slots are allowed: a slot that ends when a stored one
      starts, or starts when a stored one ends, does not conflict with it. */
  lemma AdjacentSlotsDoNotConflict(start: string, end: string, other: Speaker)
    requires ValidSlot(start, end) && ValidSlot(other.startTime, other.endTime)
    requires end == other.startTime || start == other.endTime
    ensures !Conflicts(start, end, other)
  {
    ConflictsIffOverlap(start, end, other);
  }

  /** Overlap does not depend on which slot is the new one. */
  lemma OverlapSymmetric(s1: string, e1: string, s2: string, e2: string)
    requires ValidSlot(s1, e1) && ValidSlot(s2, e2)
    ensures Overlap(s1, e1, s2, e2) <==> Overlap(s2, e2, s1, e1)
  {
  }

  /** The schedule the endpoint maintains: every slot valid and no two
      slots sharing a minute. */
  predicate Schedule(speakers: seq<Speaker>)
  {
    && (forall i :: 0 <= i < |speakers| ==> ValidSlot(speakers[i].startTime, speakers[i].endTime))
    && (forall i, j :: 0 <= i < j < |speakers| ==>
          !Overlap(speakers[i].startTime, speakers[i].endTime, speakers[j].startTime, speakers[j].endTime))
  }

  /** A speaker is live at minute `t` of the day. */
  predicate LiveAt(sp: Speaker, t: int)
    requires ValidSlot(sp.startTime, sp.endTime)
  {
    Minutes(sp.startTime) <= t < Minutes(sp.endTime)
  }

  /** "Only one speaker can be live at a time": in a schedule, two speakers
      live at the same minute are the same entry. */
  lemma AtMostOneLive(speakers: seq<Speaker>, t: int, i: nat, j: nat)
    requires Schedule(speakers) && i < |speakers| && j < |speakers|
    requires LiveAt(speakers[i], t) && LiveAt(speakers[j], t)
    ensures i == j
  {
  }

  /** The first stored speaker (in store order) the overlap query matches:
      what `findOne` returns. */
  function FirstConflict(speakers: seq<Speaker>, start: string, end: string): (r: Option<nat>)
    ensures r.Some? ==> r.value < |speakers| && Conflicts(start, end, speakers[r.value])
    ensures r.Some? ==> forall j :: 0 <= j < r.value ==> !Conflicts(start, end, speakers[j])
    ensures r.None? ==> forall j :: 0 <= j < |speakers| ==> !Conflicts(start, end, speakers[j])
  {
    if speakers == [] then None
    else if Conflicts(start, end, speakers[0]) then Some(0)
    else
      match FirstConflict(speakers[1..], start, end)
      case None => None
      case Some(k) => Some(k + 1)
  }

  /** Adding a valid slot that the query finds no conflict for keeps the
      schedule. */
  lemma AppendKeepsSchedule(speakers: seq<Speaker>, sp: Speaker)
    requires Schedule(speakers) && ValidSlot(sp.startTime, sp.endTime)
    requires FirstConflict(speakers, sp.startTime, sp.endTime).None?
    ensures Schedule(speakers + [sp])
  {
    var all := speakers + [sp];
    forall i, j | 0 <= i < j < |all|
      ensures !Overlap(all[i].startTime, all[i].endTime, all[j].startTime, all[j].endTime)
    {
      if j == |speakers| {
        ConflictsIffOverlap(sp.startTime, sp.endTime, speakers[i]);
      }
    }
  }

  // ---------------------------------------------------------------------------
  // Listing
  // ---------------------------------------------------------------------------

  predicate SortedByOrder(s: seq<Speaker>)
  {
    forall i, j :: 0 <= i < j < |s| ==> s[i].order <= s[j].order
  }

  /** Places `sp` before the first entry with a greater or equal `order`. */
  function InsertByOrder(sp: Speaker, s: seq<Speaker>): (r: seq<Speaker>)
    requires SortedByOrder(s)
    ensures SortedByOrder(r)
    ensures multiset(r) == multiset(s) + multiset{sp}
  {
    if s == [] || sp.order <= s[0].order then
      ConsSorted(sp, s);
      [sp] + s
    else
      var rest := InsertByOrder(sp, s[1..]);
      InsertStep(sp, s, rest);
      [s[0]] + rest
  }

  /** The recursive step of `InsertByOrder`: the head stays in front of the
      tail with `sp` inserted. */
  lemma InsertStep(sp: Speaker, s: seq<Speaker>, rest: seq<Speaker>)
    requires s != [] && SortedByOrder(s) && s[0].order < sp.order
    requires SortedByOrder(rest) && multiset(rest) == multiset(s[1..]) + multiset{sp}
    ensures SortedByOrder([s[0]] + rest)
    ensures multiset([s[0]] + rest) == multiset(s) + multiset{sp}
  {
    assert s == [s[0]] + s[1..];
    forall y | y in rest
      ensures s[0].order <= y.order
    {
      assert y in multiset(rest);
      if y != sp {
        assert y in multiset(s[1..]);
      }
    }
    ConsSorted(s[0], rest);
  }

  /** Putting an entry no later than all others in front keeps the order. */
  lemma ConsSorted(x: Speaker, rest: seq<Speaker>)
    requires SortedByOrder(rest) && forall y :: y in rest ==> x.order <= y.order
    ensures SortedByOrder([x] + rest)
  {
    var r := [x] + rest;
    forall i, j | 0 <= i < j < |r|
      ensures r[i].order <= r[j].order
    {
      assert r[j] == rest[j - 1];
      if i > 0 {
        assert r[i] == rest[i - 1];
      }
    }
  }

  /** `.sort({ order: 1 })`. */
  function SortByOrder(s: seq<Speaker>): (r: seq<Speaker>)
    ensures SortedByOrder(r)
    ensures multiset(r) == multiset(s)
  {
    if s == [] then []
    else
      assert s == [s[0]] + s[1..];
      InsertByOrder(s[0], SortByOrder(s[1..]))
  }

  // ---------------------------------------------------------------------------
  // Creation
  // ---------------------------------------------------------------------------

  /** The answer to a create request; only the checked handler below answers
      `InvalidSlot`. */
  datatype PostResponse =
    | MissingFile
    | Overlapping(existing: Speaker, message: string)
    | InvalidSlot
    | Failed
    | Created(speaker: Speaker)

  function Status(r: PostResponse): nat
  {
    match r
    case MissingFile => 400
    case Overlapping(_, _) => 409
    case InvalidSlot => 400
    case Failed => 500
    case Created(_) => 201
  }

  /** The 409 message names the stored speaker and their slot. */
  function OverlapMessage(existing: Speaker): string
  {
    "Time slot overlaps with " + existing.name + " (" + existing.startTime + " - " + existing.endTime
    + "). Only one speaker can be live at a time."
  }

  /** The schema's required-field validation: a missing or empty name,
      designation, image URL, popup image URL, start or end time makes
      `Speaker.create` throw. */
  predicate Admissible(body: SpeakerPayload, imageUrl: string)
  {
    Truthy(body.name) && Truthy(body.designation) && imageUrl != ""
    && Truthy(body.popupImageUrl) && body.startTime != "" && body.endTime != ""
  }

  /** The stored document: the body's fields, the hosted image URL in place
      of whatever `imageUrl` the body held, and `order` 0 by default. */
  function NewSpeaker(id: Id, body: SpeakerPayload, imageUrl: string): Speaker
    requires Admissible(body, imageUrl)
  {
    Speaker(id, body.name.value, body.designation.value, imageUrl,
            body.popupImageUrl.value,
            body.startTime, body.endTime,
            if body.order.Some? then body.order.value else 0)
  }

  /** The answer to a create request against the stored `speakers`, given
      what the media host answers (`upload`) and the id the store hands out. */
  function PostOutcome(speakers: seq<Speaker>, body: SpeakerPayload, upload: Upload, freshId: Id): (r: PostResponse)
    ensures r == MissingFile <==> body.file.None?
    ensures r.Overlapping? || r.Created? ==> upload.Hosted? && ',' in body.file.value.data
    ensures r.Created? ==> FirstConflict(speakers, body.startTime, body.endTime).None? && Admissible(body, upload.secureUrl)
  {
    if body.file.None? then MissingFile
    else if ',' !in body.file.value.data then Failed
    else if upload.HostFailed? then Failed
    else match FirstConflict(speakers, body.startTime, body.endTime)
      case Some(i) => Overlapping(speakers[i], OverlapMessage(speakers[i]))
      case None =>
        if Admissible(body, upload.secureUrl) then Created(NewSpeaker(freshId, body, upload.secureUrl))
        else Failed
  }

  /** Which requests reach the media host: every one with a file whose data
      URL has a comma, including the ones then refused with 409 or 500. */
  function Uploaded(body: SpeakerPayload, upload: Upload): seq<string>
  {
    if body.file.Some? && ',' in body.file.value.data && upload.Hosted? then [upload.secureUrl] else []
  }

  /** A created speaker carries the fresh id, the hosted image and the
      requested slot. The schedule still holds after it is appended when the
      store held one and the new slot is valid; the handler checks neither,
      and `UnpaddedSlotCreatedBesideOverlap` shows what gets through. */
  lemma CreatedKeepsSchedule(speakers: seq<Speaker>, body: SpeakerPayload, upload: Upload, freshId: Id)
    ensures var r := PostOutcome(speakers, body, upload, freshId);
      r.Created? ==>
        && r.speaker.id == freshId && r.speaker.imageUrl == upload.secureUrl
        && r.speaker.startTime == body.startTime && r.speaker.endTime == body.endTime
    ensures var r := PostOutcome(speakers, body, upload, freshId);
      r.Created? && Schedule(speakers) && ValidSlot(body.startTime, body.endTime) ==>
        Schedule(speakers + [r.speaker])
  {
    var r := PostOutcome(speakers, body, upload, freshId);
    if r.Created? && Schedule(speakers) && ValidSlot(body.startTime, body.endTime) {
      AppendKeepsSchedule(speakers, r.speaker);
    }
  }

  /** Once a file is hosted, the request is refused with 409 exactly when the
      string query matches some stored slot, and then the named speaker is
      the first match. For a valid slot against a schedule that is exactly
      when some stored slot shares a minute with the new one. */
  lemma RefusedIffOverlap(speakers: seq<Speaker>, body: SpeakerPayload, upload: Upload, freshId: Id)
    ensures var r := PostOutcome(speakers, body, upload, freshId);
      body.file.Some? && ',' in body.file.value.data && upload.Hosted? ==>
        (r.Overlapping? <==>
         exists i :: 0 <= i < |speakers| && Conflicts(body.startTime, body.endTime, speakers[i]))
    ensures var r := PostOutcome(speakers, body, upload, freshId);
      && body.file.Some? && ',' in body.file.value.data && upload.Hosted?
      && Schedule(speakers) && ValidSlot(body.startTime, body.endTime)
      ==>
        (r.Overlapping? <==>
         exists i :: 0 <= i < |speakers| && Overlap(body.startTime, body.endTime, speakers[i].startTime, speakers[i].endTime))
    ensures var r := PostOutcome(speakers, body, upload, freshId);
      r.Overlapping? ==> Status(r) == 409 && r.existing in speakers && r.message == OverlapMessage(r.existing)
  {
    if Schedule(speakers) && ValidSlot(body.startTime, body.endTime) {
      OverlapIsConflict(speakers, body.startTime, body.endTime);
    }
  }

  /** Against a schedule, a valid slot meets the string query exactly where
      it shares a minute with a stored slot. */
  lemma OverlapIsConflict(speakers: seq<Speaker>, start: string, end: string)
    requires Schedule(speakers) && ValidSlot(start, end)
    ensures (exists i :: 0 <= i < |speakers| && Conflicts(start, end, speakers[i]))
      <==> (exists i :: 0 <= i < |speakers| && Overlap(start, end, speakers[i].startTime, speakers[i].endTime))
  {
    forall i | 0 <= i < |speakers|
      ensures Conflicts(start, end, speakers[i]) <==> Overlap(start, end, speakers[i].startTime, speakers[i].endTime)
    {
      ConflictsIffOverlap(start, end, speakers[i]);
    }
  }

  // ---------------------------------------------------------------------------
  // Slots the handler does not check
  // ---------------------------------------------------------------------------

  /** A clock time as a person reads it: `HH:MM`, or `H:MM` with a one-digit
      hour; minutes since midnight. */
  function ReadMinutes(t: string): (r: Option<nat>)
    ensures WellFormedTime(t) ==> r == Some(Minutes(t))
    ensures r.Some? ==> r.value < 24 * 60
  {
    if WellFormedTime(t) then Some(Minutes(t))
    else if && |t| == 4 && IsDigit(t[0]) && t[1] == ':' && IsDigit(t[2]) && IsDigit(t[3])
            && DigitValue(t[2]) * 10 + DigitValue(t[3]) < 60
    then Some(DigitValue(t[0]) * 60 + DigitValue(t[2]) * 10 + DigitValue(t[3]))
    else None
  }

  /** A speaker is live at minute `t` as their slot reads on the clock. */
  predicate LiveOnClock(sp: Speaker, t: nat)
  {
    && ReadMinutes(sp.startTime).Some? && ReadMinutes(sp.endTime).Some?
    && ReadMinutes(sp.startTime).value <= t < ReadMinutes(sp.endTime).value
  }

  /** A test image with a data URL the handler can split. */
  function SampleFile(): FilePayload
  {
    FilePayload("data:image/png;base64,AA", "image/png", "a.png")
  }

  /** A complete body for the slot `[start, end)`. */
  function SampleBody(start: string, end: string): SpeakerPayload
  {
    SpeakerPayload(Some(SampleFile()), Some("B"), Some("Host"), None, Some("p"), start, end, None)
  }

  /** A store holding an entry whose slot is not valid is no schedule. */
  lemma InvalidEntryBreaksSchedule(speakers: seq<Speaker>, i: nat)
    requires i < |speakers| && !ValidSlot(speakers[i].startTime, speakers[i].endTime)
    ensures !Schedule(speakers)
  {
  }

  /** The stored 09:00–10:00 entry of the unpadded-slot example. */
  function MorningSlot(): Speaker
  {
    Speaker("s1", "A", "Host", "u", "p", "09:00", "10:00", 0)
  }

  /** `"9:30"` and `"9:45"` sort after `"10:00"`, so the string query does
      not match the stored 09:00–10:00 slot. */
  lemma UnpaddedSlotMissesQuery()
    ensures !Conflicts("9:30", "9:45", MorningSlot())
  {
    assert LexLt("09:00", "9:30") && LexLt("09:00", "9:45");
    assert !LexLt("9:30", "10:00") && !LexLt("9:45", "10:00") && !LexLe("9:30", "09:00");
  }

  /** On the clock, 09:00–10:00 and 9:30–9:45 both hold 9:35. */
  lemma UnpaddedSlotOnClock()
    ensures ReadMinutes("09:00") == Some(540) && ReadMinutes("10:00") == Some(600)
    ensures ReadMinutes("9:30") == Some(570) && ReadMinutes("9:45") == Some(585)
    ensures !WellFormedTime("9:30")
  {
  }

  lemma SampleFileSplits()
    ensures ',' in SampleFile().data
  {
    assert SampleFile().data[21] == ',';
  }

  /** As written: beside a stored 09:00–10:00, an unpadded 9:30–9:45 is
      created, because `"9:30"` sorts after `"10:00"` as a string. Both
      speakers are then live at 9:35 and the store is no schedule any more.
      The checked handler refuses the slot. */
  lemma UnpaddedSlotCreatedBesideOverlap()
    ensures var r := PostOutcome([MorningSlot()], SampleBody("9:30", "9:45"), Hosted("h"), "s2");
      && r.Created?
      && LiveOnClock(MorningSlot(), 9 * 60 + 35) && LiveOnClock(r.speaker, 9 * 60 + 35)
      && !Schedule([MorningSlot(), r.speaker])
    ensures CheckedPostOutcome([], SampleBody("9:30", "9:45"), Hosted("h"), "s2") == InvalidSlot
  {
    var body := SampleBody("9:30", "9:45");
    SampleFileSplits();
    UnpaddedSlotMissesQuery();
    UnpaddedSlotOnClock();
    var sp := NewSpeaker("s2", body, "h");
    assert FirstConflict([MorningSlot()], "9:30", "9:45") == None;
    assert PostOutcome([MorningSlot()], body, Hosted("h"), "s2") == Created(sp);
    InvalidEntryBreaksSchedule([MorningSlot(), sp], 1);
  }

  /** The stored 09:00–12:00 entry of the inverted-slot example. */
  function LateMorningSlot(): Speaker
  {
    Speaker("s1", "A", "Host", "u", "p", "09:00", "12:00", 0)
  }

  /** 13:00–08:00 matches none of the three query cases against 09:00–12:00,
      and it ends before it starts. */
  lemma InvertedSlotMissesQuery()
    ensures !Conflicts("13:00", "08:00", LateMorningSlot())
    ensures !ValidSlot("13:00", "08:00")
  {
    assert !LexLt("13:00", "12:00") by { assert "13:00"[0] == "12:00"[0] && "13:00"[1] > "12:00"[1]; }
    assert !LexLt("09:00", "08:00") by { assert "09:00"[0] == "08:00"[0] && "09:00"[1] > "08:00"[1]; }
    assert !LexLe("13:00", "09:00") by { assert "13:00"[0] > "09:00"[0]; }
    assert Minutes("13:00") == 780 && Minutes("08:00") == 480;
  }

  /** As written: an inverted slot 13:00–08:00 beside a stored 09:00–12:00
      matches none of the three query cases and is created, leaving an entry
      that ends before it starts. The checked handler refuses the slot. */
  lemma InvertedSlotCreated()
    ensures var r := PostOutcome([LateMorningSlot()], SampleBody("13:00", "08:00"), Hosted("h"), "s2");
      && r.Created? && !ValidSlot(r.speaker.startTime, r.speaker.endTime)
      && !Schedule([LateMorningSlot(), r.speaker])
    ensures CheckedPostOutcome([], SampleBody("13:00", "08:00"), Hosted("h"), "s2") == InvalidSlot
  {
    var body := SampleBody("13:00", "08:00");
    SampleFileSplits();
    InvertedSlotMissesQuery();
    var sp := NewSpeaker("s2", body, "h");
    assert FirstConflict([LateMorningSlot()], "13:00", "08:00") == None;
    assert PostOutcome([LateMorningSlot()], body, Hosted("h"), "s2") == Created(sp);
    InvalidEntryBreaksSchedule([LateMorningSlot(), sp], 1);
  }

  // ---------------------------------------------------------------------------
  // The create handler as intended
  // ---------------------------------------------------------------------------

  /** The required fields once the popup image is optional: a name, a
      designation and the hosted image URL. */
  predicate Storable(body: SpeakerPayload, imageUrl: string)
  {
    Truthy(body.name) && Truthy(body.designation) && imageUrl != ""
  }

  /** The stored document with an optional popup image (empty when none). */
  function StoredSpeaker(id: Id, body: SpeakerPayload, imageUrl: string): Speaker
    requires Storable(body, imageUrl)
  {
    Speaker(id, body.name.value, body.designation.value, imageUrl,
            if Truthy(body.popupImageUrl) then body.popupImageUrl.value else "",
            body.startTime, body.endTime,
            if body.order.Some? then body.order.value else 0)
  }

  /** The create handler with the two evident corrections: a slot that is not
      two well-formed `HH:MM` times with start before end is refused (400)
      before anything is uploaded, and the popup image URL, which no part of
      the kiosk sends or reads, is optional. */
  function CheckedPostOutcome(speakers: seq<Speaker>, body: SpeakerPayload, upload: Upload, freshId: Id): (r: PostResponse)
    ensures r.Overlapping? || r.Created? ==> ValidSlot(body.startTime, body.endTime) && upload.Hosted?
    ensures r.Created? ==> FirstConflict(speakers, body.startTime, body.endTime).None? && Storable(body, upload.secureUrl)
  {
    if body.file.None? then MissingFile
    else if !ValidSlot(body.startTime, body.endTime) then InvalidSlot
    else if ',' !in body.file.value.data then Failed
    else if upload.HostFailed? then Failed
    else match FirstConflict(speakers, body.startTime, body.endTime)
      case Some(i) => Overlapping(speakers[i], OverlapMessage(speakers[i]))
      case None =>
        if Storable(body, upload.secureUrl) then Created(StoredSpeaker(freshId, body, upload.secureUrl))
        else Failed
  }

  /** The checked handler keeps the schedule with no condition on the
      request: whatever it creates fits between the stored slots. */
  lemma CheckedCreatedKeepsSchedule(speakers: seq<Speaker>, body: SpeakerPayload, upload: Upload, freshId: Id)
    requires Schedule(speakers)
    ensures var r := CheckedPostOutcome(speakers, body, upload, freshId);
      r.Created? ==>
        && r.speaker.id == freshId && r.speaker.imageUrl == upload.secureUrl
        && r.speaker.startTime == body.startTime && r.speaker.endTime == body.endTime
        && Schedule(speakers + [r.speaker])
  {
    var r := CheckedPostOutcome(speakers, body, upload, freshId);
    if r.Created? {
      AppendKeepsSchedule(speakers, r.speaker);
    }
  }

  /** The checked handler answers 400 exactly for a bad slot, and, once the
      file is hosted, 409 exactly when a stored slot shares a minute with the
      new one. */
  lemma CheckedRefusedIffOverlap(speakers: seq<Speaker>, body: SpeakerPayload, upload: Upload, freshId: Id)
    requires Schedule(speakers)
    ensures var r := CheckedPostOutcome(speakers, body, upload, freshId);
      r == InvalidSlot <==> body.file.Some? && !ValidSlot(body.startTime, body.endTime)
    ensures Status(InvalidSlot) == 400
    ensures var r := CheckedPostOutcome(speakers, body, upload, freshId);
      body.file.Some? && ',' in body.file.value.data && upload.Hosted? ==>
        (r.Overlapping? <==>
         && ValidSlot(body.startTime, body.endTime)
         && exists i :: 0 <= i < |speakers| && Overlap(body.startTime, body.endTime, speakers[i].startTime, speakers[i].endTime))
  {
    if ValidSlot(body.startTime, body.endTime) {
      OverlapIsConflict(speakers, body.startTime, body.endTime);
    }
  }

  /** On a body the schema already accepted, with a valid slot, the checked
      handler answers as the handler as written. */
  lemma CheckedAgreesOnValidBodies(speakers: seq<Speaker>, body: SpeakerPayload, upload: Upload, freshId: Id)
    requires ValidSlot(body.startTime, body.endTime) && Truthy(body.popupImageUrl)
    ensures CheckedPostOutcome(speakers, body, upload, freshId) == PostOutcome(speakers, body, upload, freshId)
  {
  }

  /** With the popup image optional, the editor's create is stored: a picked
      image that is hosted, a name, a designation and a free valid slot give
      201 with the typed fields. */
  lemma EditorCreateStored(speakers: seq<Speaker>, d: FormData, file: Option<File>, dataUrl: string, upload: Upload, freshId: Id)
    requires Schedule(speakers)
    requires file.Some? && ',' in dataUrl && upload.Hosted? && upload.secureUrl != ""
    requires d.name != "" && d.designation != "" && ValidSlot(d.startTime, d.endTime)
    requires forall i :: 0 <= i < |speakers| ==>
      !Overlap(d.startTime, d.endTime, speakers[i].startTime, speakers[i].endTime)
    ensures var r := CheckedPostOutcome(speakers, Payload(d, file, dataUrl), upload, freshId);
      && r.Created? && Status(r) == 201
      && r.speaker.name == d.name && r.speaker.designation == d.designation
      && r.speaker.startTime == d.startTime && r.speaker.endTime == d.endTime
      && r.speaker.order == d.order && r.speaker.imageUrl == upload.secureUrl
  {
    OverlapIsConflict(speakers, d.startTime, d.endTime);
  }

  /** The speaker editor never sends a popup image URL, so no create it
      submits is stored: once the image is uploaded and the slot is free, the
      schema's validation makes it a 500. */
  lemma EditorCreateNeverStored(speakers: seq<Speaker>, d: FormData, file: Option<File>, dataUrl: string, upload: Upload, freshId: Id)
    ensures !PostOutcome(speakers, Payload(d, file, dataUrl), upload, freshId).Created?
    ensures file.Some? && ',' in dataUrl && upload.Hosted? && FirstConflict(speakers, d.startTime, d.endTime).None?
      ==> PostOutcome(speakers, Payload(d, file, dataUrl), upload, freshId) == Failed
  {
  }

  /** A body with every required field, a free valid slot and a hosted image
      is stored (201) with the requested fields and slot. */
  lemma CompleteBodyCreated(speakers: seq<Speaker>, body: SpeakerPayload, upload: Upload, freshId: Id)
    requires body.file.Some? && ',' in body.file.value.data && upload.Hosted?
    requires Admissible(body, upload.secureUrl) && ValidSlot(body.startTime, body.endTime)
    requires forall i :: 0 <= i < |speakers| ==>
      ValidSlot(speakers[i].startTime, speakers[i].endTime) &&
      !Overlap(body.startTime, body.endTime, speakers[i].startTime, speakers[i].endTime)
    ensures var r := PostOutcome(speakers, body, upload, freshId);
      && r.Created? && Status(r) == 201
      && r.speaker.name == body.name.value && r.speaker.popupImageUrl == body.popupImageUrl.value
      && r.speaker.imageUrl == upload.secureUrl
      && r.speaker.order == (if body.order.Some? then body.order.value else 0)
  {
    forall i | 0 <= i < |speakers|
      ensures !Conflicts(body.startTime, body.endTime, speakers[i])
    {
      ConflictsIffOverlap(body.startTime, body.endTime, speakers[i]);
    }
  }

  predicate UniqueIds(speakers: seq<Speaker>)
  {
    forall i, j :: 0 <= i < j < |speakers| ==> speakers[i].id != speakers[j].id
  }

  /** The speakers collection and the images sent to the media host. */
  class SpeakerStore {
    var speakers: seq<Speaker>
    var hosted: seq<string>

    ghost predicate Valid()
      reads this
    {
      UniqueIds(speakers)
    }

    constructor ()
      ensures speakers == [] && hosted == [] && Valid()
    {
      speakers := [];
      hosted := [];
    }

    /** `GET`: every stored speaker, in ascending `order`. */
    method Get() returns (r: seq<Speaker>)
      ensures SortedByOrder(r)
      ensures multiset(r) == multiset(speakers)
    {
      r := SortByOrder(speakers);
    }

    /** `POST`: refuse a body without a file (400); fail (500) on a data URL
        without a comma or a failed upload; refuse a slot the overlap query
        matches (409, naming the first stored match); fail (500) on a missing
        required field; otherwise store the new speaker (201). */
    method Post(body: SpeakerPayload, upload: Upload, freshId: Id) returns (resp: PostResponse)
      requires Valid()
      requires forall i :: 0 <= i < |speakers| ==> speakers[i].id != freshId
      modifies this
      ensures Valid()
      ensures resp == PostOutcome(old(speakers), body, upload, freshId)
      ensures speakers == if resp.Created? then old(speakers) + [resp.speaker] else old(speakers)
      ensures hosted == old(hosted) + Uploaded(body, upload)
    {
      if body.file.None? {
        return MissingFile;
      }
      var file := body.file.value;
      if ',' !in file.data {
        // `split(',')[1]` is undefined and `Buffer.from` throws.
        return Failed;
      }
      if upload.HostFailed? {
        return Failed;
      }
      hosted := hosted + [upload.secureUrl];
      var existing := FirstConflict(speakers, body.startTime, body.endTime);
      if existing.Some? {
        var sp := speakers[existing.value];
        return Overlapping(sp, OverlapMessage(sp));
      }
      if existing.Some? {
        // The second guard on the same query result can never fire.
        assert false;
      }
      if !Admissible(body, upload.secureUrl) {
        return Failed;
      }
      var sp := NewSpeaker(freshId, body, upload.secureUrl);
      speakers := speakers + [sp];
      resp := Created(sp);
    }
  }
}
