/** The kiosk menu over the background video (components/VideoOverlay.js):
    the fixed button hierarchy and video table, the main and sub button
    toggles, the modal a media record opens, and closing it. */
module VideoOverlay {
  import opened Common
  import opened Text
  import opened Models
  import MediaRoute

  // ---------------------------------------------------------------------------
  // The tables
  // ---------------------------------------------------------------------------

  /** A button of `buttonHierarchy`: its id and, for a button that opens a
      further row, its own labelled sub buttons in key order. */
  datatype Button = Button(id: nat, subButtons: Option<seq<Entry>>)
  datatype Entry = Entry(name: string, button: Button)

  const Hierarchy: seq<Entry> := [
    Entry("Discover OCI", Button(1, Some([
      Entry("OCI Information", Button(11, Some([
        Entry("Media", Button(111, None)),
        Entry("Website iFrame", Button(112, None))]))),
      Entry("3D Tour", Button(12, None)),
      Entry("Sustainability Journey", Button(13, None)),
      Entry("Ambitions", Button(14, None)),
      Entry("United Nations SDGs", Button(15, None)),
      Entry("Focus Areas", Button(16, None))]))),
    Entry("Featured Events", Button(2, Some([
      Entry("Sustainability Day", Button(21, None)),
      Entry("Today's Agenda", Button(22, None)),
      Entry("OCI Chatbot", Button(23, None))]))),
    Entry("Safety First (Zero & Beyond)", Button(3, Some([
      Entry("Safety Video", Button(31, None)),
      Entry("Emergency Evacuation Map", Button(32, None))])))]

  const Earth := "https://interactive-examples.mdn.mozilla.net/media/cc0-videos/earth.mp4"
  const Flower := "https://interactive-examples.mdn.mozilla.net/media/cc0-videos/flower.mp4"

  /** `videoSources`: the background video a label switches to. */
  const VideoSources: map<string, string> := map[
    "Featured Events" := Earth,
    "Safety First (Zero & Beyond)" := Flower,
    "OCI Information" := Earth,
    "Discover OCI" := Flower]

  /** `object[buttonLabel]`: the button under a key, if there is one. */
  function Find(es: seq<Entry>, buttonLabel: string): (r: Option<Button>)
    ensures r.Some? <==> exists i :: 0 <= i < |es| && es[i].name == buttonLabel
    ensures r.Some? ==> exists i :: 0 <= i < |es| && es[i] == Entry(buttonLabel, r.value)
  {
    if es == [] then None
    else if es[0].name == buttonLabel then Some(es[0].button)
    else Find(es[1..], buttonLabel)
  }

  /** A key of `buttonHierarchy`: a main button. */
  predicate IsMain(buttonLabel: string)
  {
    Find(Hierarchy, buttonLabel).Some?
  }

  /** The sub buttons shown under a main button. */
  function SubsOf(main: string): seq<Entry>
  {
    match Find(Hierarchy, main)
    case None => []
    case Some(b) => if b.subButtons.Some? then b.subButtons.value else []
  }

  /** `sub` is one of the buttons shown under `main`. */
  predicate IsSub(main: string, sub: string)
  {
    Find(SubsOf(main), sub).Some?
  }

  /** `buttonHierarchy[main].subButtons[sub].subButtons` exists. */
  predicate HasChildren(main: string, sub: string)
  {
    IsSub(main, sub) && Find(SubsOf(main), sub).value.subButtons.Some?
  }

  /** The three main buttons. */
  lemma MainButtons(buttonLabel: string)
    ensures IsMain(buttonLabel) <==>
      buttonLabel == "Discover OCI" || buttonLabel == "Featured Events" || buttonLabel == "Safety First (Zero & Beyond)"
  {
    assert Hierarchy[0].name == "Discover OCI";
    assert Hierarchy[1].name == "Featured Events";
    assert Hierarchy[2].name == "Safety First (Zero & Beyond)";
  }

  /** Only "OCI Information", under "Discover OCI", opens a third row. */
  lemma OnlyOciInformationExpands(main: string, sub: string)
    ensures HasChildren(main, sub) <==> main == "Discover OCI" && sub == "OCI Information"
  {
    var d := Hierarchy[0].button.subButtons.value;
    var f := Hierarchy[1].button.subButtons.value;
    var s := Hierarchy[2].button.subButtons.value;
    assert Find(Hierarchy, "Discover OCI") == Some(Hierarchy[0].button);
    assert Find(d, "OCI Information") == Some(d[0].button);
    if HasChildren(main, sub) {
      var b := Find(SubsOf(main), sub).value;
      assert Find(Hierarchy, main).Some?;
      var k :| 0 <= k < 3 && Hierarchy[k] == Entry(main, Find(Hierarchy, main).value);
      var es := SubsOf(main);
      assert es == Hierarchy[k].button.subButtons.value;
      var i :| 0 <= i < |es| && es[i] == Entry(sub, b);
      assert b.subButtons.Some?;
      assert k == 0 && i == 0;
    }
  }

  /** Every label with a background video is a main button or a sub button. */
  lemma VideoSourcesAreButtons(buttonLabel: string)
    requires buttonLabel in VideoSources
    ensures IsMain(buttonLabel) || IsSub("Discover OCI", buttonLabel)
  {
    MainButtons(buttonLabel);
    if buttonLabel == "OCI Information" {
      var d := Hierarchy[0].button.subButtons.value;
      assert Find(Hierarchy, "Discover OCI") == Some(Hierarchy[0].button);
      assert d[0].name == "OCI Information";
    }
  }

  // ---------------------------------------------------------------------------
  // Fetching the record behind a label
  // ---------------------------------------------------------------------------

  /** `fetchMediaByTitle`: the record the media endpoint returns for the
      label, or null for any answer that is not ok. */
  function FetchFromStore(docs: seq<Media>, buttonLabel: string): Option<Media>
  {
    match MediaRoute.GetOutcome(docs, Some(buttonLabel))
    case Found(m) => Some(m)
    case _ => None
  }

  /** A record whose title equals the label, up to case and surrounding
      blanks, shadows the button: the fetch returns such a record whenever
      one exists, and never returns anything else. */
  lemma FetchMeaning(docs: seq<Media>, buttonLabel: string)
    requires !IsBlank(buttonLabel)
    ensures FetchFromStore(docs, buttonLabel).Some? <==> exists m :: m in docs && EqualsIgnoringCase(m.title, Trim(buttonLabel))
    ensures FetchFromStore(docs, buttonLabel).Some? ==>
      FetchFromStore(docs, buttonLabel).value in docs && EqualsIgnoringCase(FetchFromStore(docs, buttonLabel).value.title, Trim(buttonLabel))
  {
  }

  // ---------------------------------------------------------------------------
  // Modals
  // ---------------------------------------------------------------------------

  /** The one-element `mediaArray` handed to the photo and video modals. */
  datatype Item = ImageItem(fileUrl: Option<string>, fileName: string, itemId: Id) | VideoItem(url: Option<string>, fileName: string, itemId: Id)

  /** `modalState`; `None` stands for null and for a member left out. */
  datatype ModalState = ModalState(
    open: bool, kind: Option<string>, url: Option<string>, title: Option<string>,
    mediaId: Option<Id>, mediaArray: Option<seq<Item>>)

  const Closed := ModalState(false, None, None, None, None, None)

  /** The modal of type `k` is shown: `modalState.open && modalState.type === k`. */
  predicate Shown(s: ModalState, k: string)
  {
    s.open && s.kind == Some(k)
  }

  /** The five modal types the overlay renders. */
  predicate ModalKind(k: string)
  {
    k in {"pdf", "website", "qr", "image", "video"}
  }

  /** No two modals are ever shown together. */
  lemma AtMostOneModal(s: ModalState, k1: string, k2: string)
    requires Shown(s, k1) && Shown(s, k2)
    ensures k1 == k2
  {
  }

  /** The modal state a fetched record sets, or `None` when it leaves the
      state as it was. */
  function ModalFor(m: Media): (r: Option<ModalState>)
    ensures r.Some? ==> r.value.open && r.value.kind == Some(m.kind) && r.value.mediaId == Some(m.id)
  {
    if m.kind == "pdf" then
      Some(ModalState(true, Some("pdf"), m.url, Some(m.title), Some(m.id), None))
    else if m.kind == "website" && Truthy(m.websiteUrl) then
      Some(ModalState(true, Some("website"), m.websiteUrl, Some(m.title), Some(m.id), None))
    else if m.kind == "qr" then
      Some(ModalState(true, Some("qr"), None, Some(m.title), Some(m.id), None))
    else if m.kind == "image" then
      Some(ModalState(true, Some("image"), None, Some(m.title), Some(m.id), Some([ImageItem(m.url, m.title, m.id)])))
    else if m.kind == "video" then
      Some(ModalState(true, Some("video"), None, Some(m.title), Some(m.id), Some([VideoItem(m.url, m.title, m.id)])))
    else None
  }

  /** A record opens a modal exactly when its kind is one of the five
      (a website only with a link); then the modal of its own kind and no
      other is shown, for that record, with the content that modal reads. */
  lemma ModalForMeaning(m: Media)
    ensures ModalFor(m).Some? <==> ModalKind(m.kind) && (m.kind == "website" ==> Truthy(m.websiteUrl))
    ensures ModalFor(m).Some? ==>
      var s := ModalFor(m).value;
      && (forall k :: Shown(s, k) <==> k == m.kind)
      && s.title == Some(m.title) && s.mediaId == Some(m.id)
      && (m.kind == "pdf" ==> s.url == m.url)
      && (m.kind == "website" ==> s.url == m.websiteUrl && s.url.Some? && s.url.value != "")
      && (m.kind == "qr" ==> s.url.None?)
      && (s.mediaArray.Some? <==> m.kind == "image" || m.kind == "video")
      && (s.mediaArray.Some? ==>
            |s.mediaArray.value| == 1 && s.mediaArray.value[0].fileName == m.title
            && s.mediaArray.value[0].itemId == m.id
            && (m.kind == "image" <==> s.mediaArray.value[0].ImageItem?)
            && (if m.kind == "image" then s.mediaArray.value[0].fileUrl else s.mediaArray.value[0].url) == m.url)
  {
  }

  /** Nothing is shown once the modal is closed. */
  lemma ClosedShowsNothing(k: string)
    ensures !Shown(Closed, k)
  {
  }

  // ---------------------------------------------------------------------------
  // The hierarchy state
  // ---------------------------------------------------------------------------

  /** `activeMain` after a main button click with no record: a second click
      on the active button closes it, any other opens that one. */
  function MainAfter(activeMain: Option<string>, buttonLabel: string): (r: Option<string>)
    ensures r.None? <==> activeMain == Some(buttonLabel)
    ensures r.Some? ==> r.value == buttonLabel
  {
    if activeMain == Some(buttonLabel) then None else Some(buttonLabel)
  }

  /** `activeSub` after a sub button click: only a sub button with its own
      row toggles. */
  function SubAfter(main: string, activeSub: Option<string>, sub: string): (r: Option<string>)
    ensures r != activeSub ==> HasChildren(main, sub)
    ensures r.Some? && r != activeSub ==> r.value == sub
  {
    if HasChildren(main, sub) then (if activeSub == Some(sub) then None else Some(sub))
    else activeSub
  }

  /** A main click makes the button active exactly when it was not, so two
      clicks in a row leave it as it was. */
  lemma MainToggle(activeMain: Option<string>, buttonLabel: string)
    ensures MainAfter(activeMain, buttonLabel) == Some(buttonLabel) <==> activeMain != Some(buttonLabel)
    ensures MainAfter(activeMain, buttonLabel) != Some(buttonLabel) ==> MainAfter(activeMain, buttonLabel).None?
    ensures activeMain == Some(buttonLabel) || activeMain.None? ==>
      MainAfter(MainAfter(activeMain, buttonLabel), buttonLabel) == activeMain
  {
  }

  /** A sub click leaves any active sub that can be active, and two clicks on
      the same button leave `activeSub` as it was. */
  lemma SubToggle(main: string, activeSub: Option<string>, sub: string)
    requires activeSub.Some? ==> HasChildren(main, activeSub.value)
    ensures var r := SubAfter(main, activeSub, sub); r.Some? ==> HasChildren(main, r.value)
    ensures activeSub == Some(sub) || activeSub.None? ==>
      SubAfter(main, SubAfter(main, activeSub, sub), sub) == activeSub
  {
  }

  /** The video `onVideoChange` is called with, if any. */
  function VideoFor(buttonLabel: string, hasHandler: bool): (r: Option<string>)
    ensures r.Some? <==> hasHandler && buttonLabel in VideoSources
    ensures r.Some? ==> r.value == VideoSources[buttonLabel] && r.value != ""
  {
    if buttonLabel in VideoSources && hasHandler then Some(VideoSources[buttonLabel]) else None
  }

  /** The overlay's state; `hasVideoHandler` says whether the page passed
      `onVideoChange`. */
  class Overlay {
    var activeMain: Option<string>
    var activeSub: Option<string>
    var modal: ModalState
    const hasVideoHandler: bool

    /** An active sub button always sits under the active main button and
        has its own row. */
    ghost predicate Valid()
      reads this
    {
      && (activeMain.Some? ==> IsMain(activeMain.value))
      && (activeSub.Some? ==> activeMain.Some? && HasChildren(activeMain.value, activeSub.value))
    }

    constructor (hasVideoHandler: bool)
      ensures Valid() && activeMain.None? && activeSub.None? && modal == Closed
      ensures this.hasVideoHandler == hasVideoHandler
    {
      activeMain := None;
      activeSub := None;
      modal := Closed;
      this.hasVideoHandler := hasVideoHandler;
    }

    /** `handleButtonClick(buttonLabel, isMain)` once the fetch has answered
        `fetched`; returns the video passed to `onVideoChange`. */
    method ButtonClick(buttonLabel: string, isMain: bool, fetched: Option<Media>) returns (video: Option<string>)
      requires Valid() && (isMain ==> IsMain(buttonLabel))
      modifies this
      ensures Valid()
      ensures fetched.Some? ==>
        && video.None? && activeMain == old(activeMain) && activeSub == old(activeSub)
        && modal == (if ModalFor(fetched.value).Some? then ModalFor(fetched.value).value else old(modal))
      ensures fetched.None? ==>
        && video == VideoFor(buttonLabel, hasVideoHandler) && modal == old(modal)
        && (isMain ==> activeMain == MainAfter(old(activeMain), buttonLabel) && activeSub.None?)
        && (!isMain ==> activeMain == old(activeMain) && activeSub == old(activeSub))
    {
      video := None;
      if fetched.Some? {
        var s := ModalFor(fetched.value);
        if s.Some? {
          modal := s.value;
        }
        return;
      }
      if buttonLabel in VideoSources && hasVideoHandler {
        video := Some(VideoSources[buttonLabel]);
      }
      if isMain {
        if activeMain == Some(buttonLabel) {
          activeMain := None;
          activeSub := None;
        } else {
          activeMain := Some(buttonLabel);
          activeSub := None;
        }
      }
    }

    /** A sub button's `onClick`: the toggle happens at once, the handler's
        effects once the fetch answers; they touch different state. */
    method SubButtonClick(sub: string, fetched: Option<Media>) returns (video: Option<string>)
      requires Valid() && activeMain.Some? && IsSub(activeMain.value, sub)
      modifies this
      ensures Valid() && activeMain == old(activeMain)
      ensures activeSub == SubAfter(activeMain.value, old(activeSub), sub)
      ensures fetched.Some? ==>
        video.None? && modal == (if ModalFor(fetched.value).Some? then ModalFor(fetched.value).value else old(modal))
      ensures fetched.None? ==> video == VideoFor(sub, hasVideoHandler) && modal == old(modal)
    {
      if HasChildren(activeMain.value, sub) {
        activeSub := if activeSub == Some(sub) then None else Some(sub);
      }
      video := ButtonClick(sub, false, fetched);
    }

    /** `handleCloseModal`: every modal member back to closed and null. */
    method CloseModal()
      modifies this
      ensures modal == Closed
      ensures activeMain == old(activeMain) && activeSub == old(activeSub)
    {
      modal := Closed;
    }
  }
}
