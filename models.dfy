/** The stored documents, shaped after the Mongoose schemas in
    models/Media.js, models/Bubble.js, models/Speaker.js and models/Home.js. */
module Models {
  import opened Common

  /** A document id as the store hands it out (a non-empty string). */
  type Id = s: string | |s| > 0 witness "0"

  /** A media asset: `type` is one of image, video, pdf, qr, website by
      convention only (the schema takes any string); uploaded kinds carry
      `url`, websites carry `websiteUrl`. */
  datatype Media = Media(id: Id, title: string, kind: string, url: Option<string>, websiteUrl: Option<string>)

  /** What a bubble's `media` field holds on the client: nothing, a bare id,
      or the populated media document. */
  datatype MediaRef = NoMedia | MediaId(ref: string) | Populated(doc: Media)

  /** A navigation bubble. `key` is `b.id || b._id` (absent for a malformed
      entry of a client-side list); `parent` is `parentBubbleId`, absent for a
      top-level bubble. */
  datatype Bubble = Bubble(key: Option<Id>, title: string, parent: Option<Id>, media: MediaRef)

  /** A speaker record; `order` is the carousel sort key (default 0). */
  datatype Speaker = Speaker(
    id: Id, name: string, designation: string, imageUrl: string, popupImageUrl: string,
    startTime: string, endTime: string, order: int)

  /** The `file` member of a speaker request body: the image as a data URL
      (`data:<type>;base64,<payload>`), its MIME type and its name. */
  datatype FilePayload = FilePayload(data: string, mime: string, name: string)

  /** The JSON body the speaker editor sends: the form fields spread next to
      an optional `file`. An absent member is `None`. */
  datatype SpeakerPayload = SpeakerPayload(
    file: Option<FilePayload>, name: Option<string>, designation: Option<string>,
    imageUrl: Option<string>, popupImageUrl: Option<string>,
    startTime: string, endTime: string, order: Option<int>)

  /** The singleton home document: the URL of the kiosk's hero video. */
  datatype Home = Home(videoUrl: string)
}
