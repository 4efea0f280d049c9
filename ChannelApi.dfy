/**
 * The channel server's /api/send_message endpoint: a post carries either
 * an uploaded file, which is stored and announced by an HTML snippet that
 * depends on its extension, or a text, stored as it is. At most one
 * message is saved per post.
 */
module ChannelApi {
  import opened Wrappers
  import opened Text

  /** How an upload is shown in the channel. */
  datatype MediaKind = Image | Video | Audio | Attachment

  /** The extension lists of the endpoint, checked in this order. */
  const ImageExtensions: seq<string> := [".jpg", ".png", ".gif"]
  const VideoExtensions: seq<string> := [".mp4", ".webm"]
  const AudioExtensions: seq<string> := [".mp3", ".wav"]

  /** The same lists read as one table from lower-cased extension to kind. */
  const MediaTable: map<string, MediaKind> :=
    map[".jpg" := Image, ".png" := Image, ".gif" := Image,
        ".mp4" := Video, ".webm" := Video,
        ".mp3" := Audio, ".wav" := Audio]

  /** Classifies a lower-cased extension; anything outside the lists (".jpeg" included) is an attachment. */
  function Classify(ext: string): (kind: MediaKind)
    ensures kind == if ext in MediaTable then MediaTable[ext] else Attachment
  {
    if ext in ImageExtensions then Image
    else if ext in VideoExtensions then Video
    else if ext in AudioExtensions then Audio
    else Attachment
  }

  /** The opening of each snippet, up to where the upload's web path goes. */
  function TagOpen(kind: MediaKind): string {
    match kind
    case Image => "<img src='"
    case Video => "<video controls src='"
    case Audio => "<audio controls src='"
    case Attachment => "<a href='"
  }

  /** The rest of each snippet after the web path's closing quote; an attachment link shows the file name. */
  function TagClose(kind: MediaKind, fileName: string): string {
    match kind
    case Image => " class='media-img'>"
    case Video => " class='media-vid'></video>"
    case Audio => "></audio>"
    case Attachment => " target='_blank'>\U{1F4CE} " + fileName + "</a>"
  }

  /** The snippet saved for an upload served at `webPath`. */
  function MediaContent(kind: MediaKind, webPath: string, fileName: string): string {
    TagOpen(kind) + webPath + "'" + TagClose(kind, fileName)
  }

  /** The element a browser makes of a snippet, read from its opening tag. */
  function RenderedKind(content: string): Option<MediaKind> {
    if StartsWith(content, "<img ") then Some(Image)
    else if StartsWith(content, "<video ") then Some(Video)
    else if StartsWith(content, "<audio ") then Some(Audio)
    else if StartsWith(content, "<a ") then Some(Attachment)
    else None
  }

  /** Each snippet renders as the kind it was made for. */
  lemma RenderedKindOfContent(kind: MediaKind, webPath: string, fileName: string)
    ensures RenderedKind(MediaContent(kind, webPath, fileName)) == Some(kind)
  {
    var c := MediaContent(kind, webPath, fileName);
    match kind
    case Image => assert c[..5] == "<img ";
    case Video =>
      assert c[..7] == "<video ";
      assert c[..5][1] != "<img "[1];
    case Audio =>
      assert c[..7] == "<audio ";
      assert c[..5][1] != "<img "[1];
      assert c[..7][1] != "<video "[1];
    case Attachment =>
      assert c[..3] == "<a ";
      assert c[..5][1] != "<img "[1];
      assert c[..7][1] != "<video "[1];
      assert c[..7][1] != "<audio "[2];
      assert c[..7][2] != "<audio "[2];
  }

  /** Each snippet carries the web path as its `src` or `href` and ends by closing a tag. */
  lemma MediaContentShape(kind: MediaKind, webPath: string, fileName: string)
    ensures StartsWith(MediaContent(kind, webPath, fileName), TagOpen(kind) + webPath + "'")
    ensures MediaContent(kind, webPath, fileName)[|MediaContent(kind, webPath, fileName)| - 1] == '>'
  {
    AppendParts(TagOpen(kind) + webPath + "'", TagClose(kind, fileName));
  }

  /** Only an attachment link shows the client's file name, just before `</a>`. */
  lemma FileNameOnlyInLinks(kind: MediaKind, webPath: string, fileName: string)
    ensures kind == Attachment ==> EndsWith(MediaContent(kind, webPath, fileName), fileName + "</a>")
    ensures kind != Attachment ==> MediaContent(kind, webPath, fileName) == MediaContent(kind, webPath, "")
  {
    if kind == Attachment {
      var open := TagOpen(kind) + webPath + "'";
      var link := " target='_blank'>\U{1F4CE} ";
      AppendAssoc(open, link + fileName, "</a>");
      AppendAssoc(open, link, fileName);
      AppendAssoc(open + link, fileName, "</a>");
      AppendParts(open + link, fileName + "</a>");
    }
  }

  /** One uploaded file: the client's file name and Path.GetExtension of it. */
  datatype FormFile = FormFile(fileName: string, extension: string)

  /** The posted form; absent fields are None. */
  datatype SendForm = SendForm(
    nick: Option<string>,
    channelId: Option<string>,
    message: Option<string>,
    files: seq<FormFile>)

  /**
   * Whether each call of the endpoint that can throw returns normally:
   * reading the form, writing the upload (File.Create and the copy), and
   * SaveMessage. A throw ends the request with HTTP 500 instead of the
   * success answer; a SaveMessage that throws saves nothing.
   */
  datatype SendIo = SendIo(formRead: bool, fileWritten: bool, messageSaved: bool)

  /** The arguments of one SaveMessage call. */
  datatype SavedMessage = SavedMessage(channelId: Option<string>, nick: Option<string>, content: string, ip: string)

  /**
   * What a post does: the name under which an upload is written to the
   * uploads folder (when the write throws, that file may be missing or
   * partial), the message saved, and whether the answer reports success.
   */
  datatype SendOutcome = SendOutcome(storedAs: Option<string>, saved: Option<SavedMessage>, success: bool)

  /** The name an upload is stored under: the Guid and the lower-cased extension. */
  function StoredName(guid: string, f: FormFile): string {
    guid + ToLower(f.extension)
  }

  /** A stored name is the Guid followed by the extension, lower-cased, so it holds no capital after the Guid. */
  lemma StoredNameShape(guid: string, f: FormFile)
    ensures |StoredName(guid, f)| == |guid| + |f.extension|
    ensures StartsWith(StoredName(guid, f), guid)
    ensures forall i :: |guid| <= i < |StoredName(guid, f)| ==> !('A' <= StoredName(guid, f)[i] <= 'Z')
    ensures forall i :: |guid| <= i < |StoredName(guid, f)| ==> StoredName(guid, f)[i] == LowerChar(f.extension[i - |guid|])
  {
    var n := StoredName(guid, f);
    assert n[..|guid|] == guid;
    forall i | |guid| <= i < |n|
      ensures !('A' <= n[i] <= 'Z') && n[i] == LowerChar(f.extension[i - |guid|])
    {
      assert n[i] == ToLower(f.extension)[i - |guid|];
    }
  }

  /**
   * Handles one post. `guid` is the fresh Guid for an upload, `remoteIp`
   * the peer address if known, `io` which of the throwing calls succeed.
   */
  function SendMessage(form: SendForm, guid: string, remoteIp: Option<string>, io: SendIo): (out: SendOutcome)
    ensures out.success <==>
      && io.formRead
      && (if |form.files| > 0 then io.fileWritten && io.messageSaved
          else IsNullOrWhiteSpace(form.message) || io.messageSaved)
    ensures out.saved.Some? ==> out.success
    ensures !io.formRead ==> out.storedAs.None? && out.saved.None?
    ensures io.formRead ==> (out.storedAs.Some? <==> |form.files| > 0)
    ensures io.formRead && |form.files| > 0 ==>
      var f := form.files[0];
      && out.storedAs == Some(StoredName(guid, f))
      && (out.saved.Some? <==> io.fileWritten && io.messageSaved)
      && (out.saved.Some? ==>
            out.saved.value.content
            == MediaContent(Classify(ToLower(f.extension)), "/uploads/" + StoredName(guid, f), f.fileName))
    ensures io.formRead && |form.files| == 0 ==>
      (out.saved.Some? <==> !IsNullOrWhiteSpace(form.message) && io.messageSaved)
      && (out.saved.Some? ==> out.saved.value.content == form.message.value)
    ensures out.saved.Some? ==>
      out.saved.value.channelId == form.channelId && out.saved.value.nick == form.nick
      && out.saved.value.ip == remoteIp.GetOr("0.0.0.0")
  {
    if !io.formRead then SendOutcome(None, None, false)
    else
      var ip := remoteIp.GetOr("0.0.0.0");
      if |form.files| > 0 then
        var file := form.files[0];
        var ext := ToLower(file.extension);
        var newName := guid + ext;
        if !io.fileWritten then SendOutcome(Some(newName), None, false)
        else
          var webPath := "/uploads/" + newName;
          var content := MediaContent(Classify(ext), webPath, file.fileName);
          if !io.messageSaved then SendOutcome(Some(newName), None, false)
          else SendOutcome(Some(newName), Some(SavedMessage(form.channelId, form.nick, content, ip)), true)
      else if !IsNullOrWhiteSpace(form.message) then
        if !io.messageSaved then SendOutcome(None, None, false)
        else SendOutcome(None, Some(SavedMessage(form.channelId, form.nick, form.message.value, ip)), true)
      else
        SendOutcome(None, None, true)
  }

  /** With a file attached, the text of the post makes no difference: it is never saved. */
  lemma FileHidesText(form: SendForm, text: Option<string>, guid: string, remoteIp: Option<string>, io: SendIo)
    requires |form.files| > 0
    ensures SendMessage(form, guid, remoteIp, io) == SendMessage(form.(message := text), guid, remoteIp, io)
  {
  }
}
