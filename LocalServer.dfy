/**
 * The HttpListener chat server: one in-memory message log, newest first,
 * with a separate message counter; text and image posts, deletion by id,
 * an incremental "what is new since my count" JSON feed, and the content
 * types of the files it serves.
 */
module LocalServer {
  import opened Wrappers
  import opened Text

  /** C#'s 32-bit `int`, as `LocalServer/Program.cs` declares the counters. */
  type Int32 = x: int | -0x8000_0000 <= x < 0x8000_0000

  /** Two's-complement wrap-around of an `int` result, as unchecked C# arithmetic does it. */
  function Wrap32(x: int): (r: Int32)
    ensures (r - x) % 0x1_0000_0000 == 0
    ensures -0x8000_0000 <= x < 0x8000_0000 ==> r == x
  {
    (x + 0x8000_0000) % 0x1_0000_0000 - 0x8000_0000
  }

  function Min(a: int, b: int): int {
    if a <= b then a else b
  }

  /** A logged message: its Guid id and its pre-rendered HTML content. */
  datatype MessageItem = MessageItem(id: string, content: string)

  // ---------------------------------------------------------------------
  // JSON rendering of the log
  // ---------------------------------------------------------------------

  /** `Replace("\"", "\\\"")`: a backslash goes in front of every double quote. */
  function EscapeQuotes(s: string): (r: string)
    ensures forall i :: 0 <= i < |r| && r[i] == '"' ==> 0 < i && r[i - 1] == '\\'
  {
    if s == [] then []
    else (if s[0] == '"' then "\\\"" else [s[0]]) + EscapeQuotes(s[1..])
  }

  /** Reads `\"` back as `"`, left to right, and keeps every other character. */
  function UnescapeQuotes(s: string): string {
    if s == [] then []
    else if |s| >= 2 && s[0] == '\\' && s[1] == '"' then ['"'] + UnescapeQuotes(s[2..])
    else [s[0]] + UnescapeQuotes(s[1..])
  }

  /**
   * Escaping only quotes loses nothing for a reader that knows only `\"`:
   * a backslash of the content is never followed by an inserted one.
   */
  lemma {:induction false} EscapeQuotesRoundTrip(s: string)
    ensures UnescapeQuotes(EscapeQuotes(s)) == s
  {
    if s != [] {
      var tail := EscapeQuotes(s[1..]);
      EscapeQuotesRoundTrip(s[1..]);
      if s[0] == '"' {
        assert EscapeQuotes(s) == "\\\"" + tail;
        assert ("\\\"" + tail)[2..] == tail;
      } else {
        assert EscapeQuotes(s) == [s[0]] + tail;
        assert ([s[0]] + tail)[1..] == tail;
        if s[0] == '\\' && |tail| > 0 {
          assert tail[0] != '"';
        }
      }
    }
  }

  /** The fixed text around an entry's id and content. */
  const IdOpen: string := "{\"id\":\""
  const ContentOpen: string := "\",\"content\":\""
  const EntryClose: string := "\"}"

  /** One log entry as the feed writes it: an object with the id first and the escaped content last. */
  function EntryJson(m: MessageItem): string {
    IdOpen + m.id + ContentOpen + EscapeQuotes(m.content) + EntryClose
  }

  /** The entries of `items`, in list order, separated by commas. */
  function EntriesJson(items: seq<MessageItem>): (r: string)
    ensures items == [] <==> r == []
    ensures items != [] ==> r[0] == '{' && r[|r| - 1] == '}'
  {
    if items == [] then []
    else if |items| == 1 then EntryJson(items[0])
    else EntriesJson(items[..|items| - 1]) + "," + EntryJson(items[|items| - 1])
  }

  /** Two runs of entries join with exactly one comma between them. */
  lemma {:induction false} EntriesJsonAppend(a: seq<MessageItem>, b: seq<MessageItem>)
    requires a != [] && b != []
    ensures EntriesJson(a + b) == EntriesJson(a) + "," + EntriesJson(b)
    decreases |b|
  {
    var init, last := b[..|b| - 1], b[|b| - 1];
    assert b == init + [last];
    assert a + b == (a + init) + [last];
    EntriesJsonSnoc(a + init, last);
    EntriesJsonSnoc(init, last);
    var p, e := EntriesJson(a) + ",", EntryJson(last);
    if init != [] {
      EntriesJsonAppend(a, init);
      var y := EntriesJson(init);
      assert EntriesJson(a + b) == p + y + "," + e;
      assert EntriesJson(b) == y + "," + e;
      AppendAssoc(p + y, ",", e);
      AppendAssoc(p, y, "," + e);
      AppendAssoc(y, ",", e);
    } else {
      assert EntriesJson(a + b) == p + e;
      assert EntriesJson(b) == e;
    }
  }

  /** One more entry extends the run by a comma (unless it is the first) and that entry. */
  lemma EntriesJsonSnoc(items: seq<MessageItem>, m: MessageItem)
    ensures EntriesJson(items + [m]) == (if items == [] then "" else EntriesJson(items) + ",") + EntryJson(m)
  {
    assert (items + [m])[..|items + [m]| - 1] == items;
  }

  /** The fixed text around the feed's entries and its counter. */
  const FeedOpen: string := "{ \"messages\": ["
  const CountOpen: string := "], \"count\": "
  const FeedClose: string := " }"

  /** The feed document: the entries of `items` in an array, then the counter. */
  function MessagesJson(items: seq<MessageItem>, count: nat): string {
    FeedOpen + EntriesJson(items) + CountOpen + NatToString(count) + FeedClose
  }

  /** An entry is one object: the id comes first and the quote-escaped content last. */
  lemma EntryJsonShape(m: MessageItem)
    ensures |EntryJson(m)| >= 2 && EntryJson(m)[0] == '{' && EntryJson(m)[|EntryJson(m)| - 1] == '}'
    ensures StartsWith(EntryJson(m), IdOpen + m.id + ContentOpen)
    ensures EndsWith(EntryJson(m), EscapeQuotes(m.content) + EntryClose)
  {
    var r := EntryJson(m);
    assert r == (IdOpen + m.id + ContentOpen) + (EscapeQuotes(m.content) + EntryClose);
  }

  /** The feed opens with the array of entries and closes with the counter; with no entries the array is `[]`. */
  lemma MessagesJsonShape(items: seq<MessageItem>, count: nat)
    ensures StartsWith(MessagesJson(items, count), FeedOpen + EntriesJson(items) + CountOpen)
    ensures EndsWith(MessagesJson(items, count), NatToString(count) + FeedClose)
    ensures items == [] ==> MessagesJson(items, count) == FeedOpen + CountOpen + NatToString(count) + FeedClose
  {
    var r := MessagesJson(items, count);
    assert r == (FeedOpen + EntriesJson(items) + CountOpen) + (NatToString(count) + FeedClose);
  }

  /**
   * How many of the newest messages GetNewMessagesJson lists:
   * Math.Min(messageCount - lastCount, messages.Count), the subtraction in
   * 32-bit arithmetic, and nothing when that is negative.
   */
  function NewSliceLength(messageCount: int, lastCount: Int32, available: nat): (k: nat)
    ensures k <= available
    ensures -0x8000_0000 <= messageCount - lastCount < 0x8000_0000 ==>
      k == if messageCount - lastCount <= 0 then 0 else Min(messageCount - lastCount, available)
    ensures 0 <= messageCount < 0x8000_0000 <= messageCount - lastCount ==> k == 0
  {
    var n := Min(Wrap32(messageCount - lastCount), available);
    if n < 0 then 0 else n
  }

  /** A client whose count is not behind the server's gets an empty list. */
  lemma UpToDateGetsNothing(messageCount: Int32, lastCount: Int32, available: nat)
    requires 0 <= messageCount <= lastCount
    ensures NewSliceLength(messageCount, lastCount, available) == 0
  {
  }

  /** A client behind by d <= the log's length gets exactly the d newest messages. */
  lemma BehindGetsDifference(messageCount: Int32, lastCount: Int32)
    requires 0 <= lastCount < messageCount
    ensures NewSliceLength(messageCount, lastCount, messageCount) == messageCount - lastCount
  {
  }

  // ---------------------------------------------------------------------
  // Requests
  // ---------------------------------------------------------------------

  /** One multipart form field. */
  datatype Param = Param(name: string, data: string)

  /** An uploaded file: the client's file name, its size, and Path.GetExtension of that name. */
  datatype FilePart = FilePart(fileName: string, size: nat, extension: string)

  datatype MultipartBody = MultipartBody(parameters: seq<Param>, files: seq<FilePart>)

  /**
   * A POST to /chat. `multipart` is the body as the multipart parser reads
   * it (None when the parser throws); `form` is the body as the url-encoded
   * reader reads it. Which one counts depends on the Content-Type.
   */
  datatype ChatRequest = ChatRequest(
    contentType: Option<string>,
    requestedWith: Option<string>,
    multipart: Option<MultipartBody>,
    form: map<string, string>)

  /**
   * What a post takes from its surroundings: the formatted clock for each
   * item, the item ids, the Guid naming a stored upload, HTML encoding, and
   * whether storing the upload succeeds.
   */
  datatype Env = Env(
    textTime: string,
    imageTime: string,
    textId: string,
    imageId: string,
    fileGuid: string,
    htmlEncode: string -> string,
    storeOk: bool)

  /** The answers of /chat. */
  datatype ChatReply =
    | NickMissingPage
    | UploadFailedJson
    | UploadFailedPage
    | EmptyFileJson
    | SuccessJson(count: int)
    | ChatPage(nick: string)

  /** The answers of /delete. */
  datatype DeleteReply = Deleted(count: int) | NotFound | ServerError

  /**
   * `FirstOrDefault(p => p.Name == name)?.Data`: the data of the first field
   * so named, or None (C#'s null) when no field has that name.
   */
  function FirstParam(ps: seq<Param>, name: string): (r: Option<string>)
    ensures r.None? <==> forall j :: 0 <= j < |ps| ==> ps[j].name != name
  {
    if ps == [] then None
    else if ps[0].name == name then Some(ps[0].data)
    else FirstParam(ps[1..], name)
  }

  /** The field found is the first one with that name: the ones before it are ignored. */
  lemma {:induction false} FirstParamIsFirst(ps: seq<Param>, name: string, j: nat)
    requires j < |ps| && ps[j].name == name
    requires forall k :: 0 <= k < j ==> ps[k].name != name
    ensures FirstParam(ps, name) == Some(ps[j].data)
  {
    if j > 0 {
      FirstParamIsFirst(ps[1..], name, j - 1);
    }
  }

  /** The Content-Type prefix of a multipart post, and the X-Requested-With value of a script's post. */
  const MultipartType: string := "multipart/form-data"
  const AjaxHeader: string := "XMLHttpRequest"

  /** Whether a request takes the multipart branch. */
  predicate IsMultipart(req: ChatRequest) {
    req.contentType.Some? && StartsWith(req.contentType.value, MultipartType)
  }

  /**
   * A post takes the multipart branch exactly when it has a Content-Type
   * that is `multipart/form-data` followed by anything (a boundary
   * parameter, say); the comparison is case-sensitive, so a capitalised
   * `Multipart/...` goes to the url-encoded branch.
   */
  lemma MultipartBranch(req: ChatRequest, rest: string)
    ensures req.contentType.None? ==> !IsMultipart(req)
    ensures req.contentType == Some(MultipartType + rest) ==> IsMultipart(req)
    ensures IsMultipart(req) ==>
      req.contentType.value == MultipartType + req.contentType.value[|MultipartType|..]
    ensures req.contentType.Some? && |req.contentType.value| > 0 && req.contentType.value[0] == 'M' ==>
      !IsMultipart(req)
  {
    AppendParts(MultipartType, rest);
    if IsMultipart(req) {
      var ct := req.contentType.value;
      assert ct == ct[..|MultipartType|] + ct[|MultipartType|..];
    }
    if req.contentType.Some? && |req.contentType.value| > 0 && IsMultipart(req) {
      assert req.contentType.value[0] == MultipartType[0];
    }
  }

  function Lookup(form: map<string, string>, key: string): Option<string> {
    if key in form then Some(form[key]) else None
  }

  /** The nick a post is accepted under; None when the body is unreadable or the nick is missing or blank. */
  function PostNick(req: ChatRequest): Option<string> {
    var nick :=
      if !IsMultipart(req) then Lookup(req.form, "nick")
      else if req.multipart.None? then None
      else FirstParam(req.multipart.value.parameters, "nick");
    if IsNullOrWhiteSpace(nick) then None else nick
  }

  /**
   * The nick is read from the field the branch uses and accepted only when
   * it is not blank; an unreadable multipart body has none.
   */
  lemma PostNickAccepted(req: ChatRequest)
    ensures PostNick(req).Some? ==> !IsNullOrWhiteSpace(PostNick(req))
    ensures IsMultipart(req) && req.multipart.None? ==> PostNick(req).None?
    ensures IsMultipart(req) && req.multipart.Some? ==>
      (PostNick(req).Some? <==> !IsNullOrWhiteSpace(FirstParam(req.multipart.value.parameters, "nick")))
    ensures IsMultipart(req) && req.multipart.Some? && PostNick(req).Some? ==>
      PostNick(req) == FirstParam(req.multipart.value.parameters, "nick")
    ensures !IsMultipart(req) ==>
      (PostNick(req).Some? <==> "nick" in req.form && !IsNullOrWhiteSpace(Some(req.form["nick"])))
    ensures !IsMultipart(req) && PostNick(req).Some? ==> PostNick(req).value == req.form["nick"]
  {
  }

  /**
   * The text a post stores. The multipart branch accepts any non-empty
   * message; the url-encoded branch ignores a blank one.
   */
  function PostText(req: ChatRequest): (text: Option<string>)
    ensures text.Some? ==> PostNick(req).Some? && text.value != ""
    ensures text.Some? && !IsMultipart(req) ==> !IsNullOrWhiteSpace(text)
    ensures PostNick(req).Some? && IsMultipart(req) ==>
      req.multipart.Some? &&
      (text.Some? <==> !IsNullOrEmpty(FirstParam(req.multipart.value.parameters, "message")))
    ensures PostNick(req).Some? && !IsMultipart(req) ==>
      (text.Some? <==> !IsNullOrWhiteSpace(Lookup(req.form, "message")))
    ensures text.Some? ==>
      text == (if IsMultipart(req) then FirstParam(req.multipart.value.parameters, "message")
               else Lookup(req.form, "message"))
  {
    if PostNick(req).None? then None
    else if IsMultipart(req) then
      var m := FirstParam(req.multipart.value.parameters, "message");
      if IsNullOrEmpty(m) then None else m
    else
      var m := Lookup(req.form, "message");
      if IsNullOrWhiteSpace(m) then None else m
  }

  /** A message that is only white space is kept from a multipart post and dropped from a url-encoded one. */
  lemma BlankMessageAsymmetry(nick: string, message: string, contentType: string, form: map<string, string>)
    requires !IsNullOrWhiteSpace(Some(nick)) && message != "" && IsNullOrWhiteSpace(Some(message))
    requires StartsWith(contentType, MultipartType)
    requires form == map["nick" := nick, "message" := message]
    ensures PostText(ChatRequest(Some(contentType), None,
                                 Some(MultipartBody([Param("nick", nick), Param("message", message)], [])), map[]))
            == Some(message)
    ensures PostText(ChatRequest(None, None, None, form)) == None
  {
    var ps := [Param("nick", nick), Param("message", message)];
    assert ps[1..] == [Param("message", message)];
    assert FirstParam(ps[1..], "message") == Some(message);
    assert FirstParam(ps, "nick") == Some(nick);
    assert FirstParam(ps, "message") == Some(message);
  }

  /** The ajax flag: the X-Requested-With header, or (once the nick is read) an `ajax=true` field. */
  function PostAjax(req: ChatRequest): bool {
    || req.requestedWith == Some(AjaxHeader)
    || (PostNick(req).Some? &&
        if IsMultipart(req) then FirstParam(req.multipart.value.parameters, "ajax") == Some("true")
        else Lookup(req.form, "ajax") == Some("true"))
  }

  /**
   * The header alone makes a post ajax; the `ajax=true` field counts only
   * once a nick is accepted, because `LocalServer/Program.cs` reads it after the nick
   * check. Nothing else makes a post ajax: both tests are exact and
   * case-sensitive, so `ajax=True` does not.
   */
  lemma AjaxFlag(req: ChatRequest)
    ensures req.requestedWith == Some(AjaxHeader) ==> PostAjax(req)
    ensures PostNick(req).None? ==> (PostAjax(req) <==> req.requestedWith == Some(AjaxHeader))
    ensures PostNick(req).Some? && !IsMultipart(req) && Lookup(req.form, "ajax") == Some("true") ==> PostAjax(req)
    ensures (PostNick(req).Some? && IsMultipart(req) && req.multipart.Some?
             && FirstParam(req.multipart.value.parameters, "ajax") == Some("true")) ==> PostAjax(req)
    ensures PostAjax(req) ==>
      || req.requestedWith == Some(AjaxHeader)
      || (PostNick(req).Some? &&
          (if IsMultipart(req) then FirstParam(req.multipart.value.parameters, "ajax")
           else Lookup(req.form, "ajax")) == Some("true"))
  {
  }

  /** The HTML around a posted line: a timestamp span, then the nick span. */
  const TimeOpen: string := "<span class='timestamp'>["
  const NickOpen: string := "]</span> <span class='nick'>"
  const NickClose: string := ":</span> "
  const UploadsPath: string := "/uploads/"
  const LineBreak: string := ":</span> <br/>"
  const ImgSrc: string := "<img src='"
  const ImageOpen: string := LineBreak + ImgSrc + UploadsPath
  const ImageClose: string := "' style='max-width:100%' alt='image'/>"

  /** The text item of a post, with the nick as given and the message HTML-encoded. */
  function TextItem(env: Env, nick: string, message: string): MessageItem {
    MessageItem(env.textId, TimeOpen + env.textTime + NickOpen + nick + NickClose + env.htmlEncode(message))
  }

  /** The image item of a post, pointing at the stored upload. */
  function ImageItem(env: Env, nick: string, storedName: string): MessageItem {
    MessageItem(env.imageId, TimeOpen + env.imageTime + NickOpen + nick + ImageOpen + storedName + ImageClose)
  }

  /** The text item opens with the timestamp span and ends with the HTML-encoded message. */
  lemma TextItemShape(env: Env, nick: string, message: string)
    ensures TextItem(env, nick, message).id == env.textId
    ensures StartsWith(TextItem(env, nick, message).content, TimeOpen + env.textTime + NickOpen + nick)
    ensures EndsWith(TextItem(env, nick, message).content, env.htmlEncode(message))
  {
    var head := TimeOpen + env.textTime + NickOpen + nick;
    var t := TextItem(env, nick, message).content;
    assert t == head + (NickClose + env.htmlEncode(message));
    assert t == (head + NickClose) + env.htmlEncode(message);
  }

  /** The image item opens with the timestamp span and ends with the image tag for the stored upload. */
  lemma ImageItemShape(env: Env, nick: string, storedName: string)
    ensures ImageItem(env, nick, storedName).id == env.imageId
    ensures StartsWith(ImageItem(env, nick, storedName).content, TimeOpen + env.imageTime + NickOpen + nick)
    ensures EndsWith(ImageItem(env, nick, storedName).content, ImgSrc + UploadsPath + storedName + ImageClose)
  {
    var head := TimeOpen + env.imageTime + NickOpen + nick;
    var g := ImageItem(env, nick, storedName).content;
    assert g == head + (ImageOpen + storedName + ImageClose);
    assert g == (head + LineBreak) + (ImgSrc + UploadsPath + storedName + ImageClose);
  }

  /** How the file part of a multipart post ends. */
  datatype FileStep = NoFile | EmptyFile | StoreFailed | Stored(file: FilePart)

  function PostFile(req: ChatRequest, env: Env): FileStep
    requires PostNick(req).Some? && IsMultipart(req)
  {
    var files := req.multipart.value.files;
    if files == [] then NoFile
    else if IsNullOrWhiteSpace(Some(files[0].fileName)) || files[0].size == 0 then EmptyFile
    else if !env.storeOk then StoreFailed
    else Stored(files[0])
  }

  /**
   * Only the first file counts. It is stored exactly when it has a
   * non-blank name and some content and the write succeeds.
   */
  lemma FileSteps(req: ChatRequest, env: Env)
    requires PostNick(req).Some? && IsMultipart(req) && req.multipart.Some?
    ensures PostFile(req, env).NoFile? <==> req.multipart.value.files == []
    ensures PostFile(req, env).Stored? <==>
      var files := req.multipart.value.files;
      files != [] && !IsNullOrWhiteSpace(Some(files[0].fileName)) && files[0].size > 0 && env.storeOk
    ensures PostFile(req, env).Stored? ==> PostFile(req, env).file == req.multipart.value.files[0]
    ensures PostFile(req, env).StoreFailed? <==>
      var files := req.multipart.value.files;
      files != [] && !IsNullOrWhiteSpace(Some(files[0].fileName)) && files[0].size > 0 && !env.storeOk
  {
  }

  /**
   * The items a post puts at the head of the log, newest first: the image
   * (if stored) before the text (if any). The text goes in even when the
   * file turns out to be empty or cannot be stored.
   */
  function PostedItems(req: ChatRequest, env: Env): (items: seq<MessageItem>)
    ensures |items| <= 2
    ensures PostNick(req).None? ==> items == []
    ensures PostText(req).Some? ==> |items| > 0 && items[|items| - 1] == TextItem(env, PostNick(req).value, PostText(req).value)
    ensures !IsMultipart(req) ==> |items| <= 1
    ensures !IsMultipart(req) ==> |items| == (if PostText(req).Some? then 1 else 0)
    ensures IsMultipart(req) && PostNick(req).Some? ==>
      |items| == (if PostFile(req, env).Stored? then 1 else 0) + (if PostText(req).Some? then 1 else 0)
    ensures IsMultipart(req) && PostNick(req).Some? && PostFile(req, env).Stored? ==>
      items[0] == ImageItem(env, PostNick(req).value, env.fileGuid + PostFile(req, env).file.extension)
  {
    if PostNick(req).None? then []
    else
      var nick := PostNick(req).value;
      var text := if PostText(req).Some? then [TextItem(env, nick, PostText(req).value)] else [];
      if !IsMultipart(req) then text
      else match PostFile(req, env)
        case Stored(f) => [ImageItem(env, nick, env.fileGuid + f.extension)] + text
        case _ => text
  }

  /** The answer to a post, given the counter after it. */
  function PostReply(req: ChatRequest, env: Env, countAfter: int): ChatReply {
    var ajax := PostAjax(req);
    if IsMultipart(req) && req.multipart.None? then
      (if ajax then UploadFailedJson else UploadFailedPage)
    else if PostNick(req).None? then NickMissingPage
    else if IsMultipart(req) && PostFile(req, env).EmptyFile? then
      (if ajax then EmptyFileJson else ChatPage(PostNick(req).value))
    else if IsMultipart(req) && PostFile(req, env).StoreFailed? then
      (if ajax then UploadFailedJson else UploadFailedPage)
    else if ajax then SuccessJson(countAfter)
    else ChatPage(PostNick(req).value)
  }

  /**
   * Which answer a post gets: the nick page exactly when a readable body
   * has no acceptable nick; JSON answers only to ajax posts and HTML pages
   * only to the others (the nick page goes to both); the success count is
   * the counter after the post; a url-encoded post ends in the nick page,
   * the success JSON or the chat page.
   */
  lemma PostReplyAnswers(req: ChatRequest, env: Env, countAfter: int)
    ensures PostReply(req, env, countAfter).NickMissingPage? <==>
      PostNick(req).None? && !(IsMultipart(req) && req.multipart.None?)
    ensures PostReply(req, env, countAfter).SuccessJson? ==>
      PostReply(req, env, countAfter).count == countAfter && PostNick(req).Some?
    ensures PostReply(req, env, countAfter).ChatPage? ==>
      PostNick(req).Some? && PostReply(req, env, countAfter).nick == PostNick(req).value
    ensures PostAjax(req) ==>
      !PostReply(req, env, countAfter).ChatPage? && !PostReply(req, env, countAfter).UploadFailedPage?
    ensures !PostAjax(req) ==>
      && !PostReply(req, env, countAfter).SuccessJson?
      && !PostReply(req, env, countAfter).EmptyFileJson?
      && !PostReply(req, env, countAfter).UploadFailedJson?
    ensures IsMultipart(req) && req.multipart.None? ==>
      PostReply(req, env, countAfter) == (if PostAjax(req) then UploadFailedJson else UploadFailedPage)
    ensures IsMultipart(req) && PostNick(req).Some? ==>
      (PostReply(req, env, countAfter).EmptyFileJson? <==> PostAjax(req) && PostFile(req, env).EmptyFile?)
    ensures IsMultipart(req) && PostNick(req).Some? && PostFile(req, env).EmptyFile? && !PostAjax(req) ==>
      PostReply(req, env, countAfter) == ChatPage(PostNick(req).value)
    ensures IsMultipart(req) && PostNick(req).Some? ==>
      ((PostReply(req, env, countAfter).UploadFailedJson? || PostReply(req, env, countAfter).UploadFailedPage?)
       <==> PostFile(req, env).StoreFailed?)
    ensures IsMultipart(req) && PostNick(req).Some? ==>
      (PostReply(req, env, countAfter).SuccessJson? <==>
       PostAjax(req) && (PostFile(req, env).NoFile? || PostFile(req, env).Stored?))
    ensures !IsMultipart(req) ==>
      || PostReply(req, env, countAfter).NickMissingPage?
      || PostReply(req, env, countAfter).SuccessJson?
      || PostReply(req, env, countAfter).ChatPage?
  {
  }

  /** `FindIndex` with ordinal id comparison: the position of the first item carrying `id`. */
  function FirstIndexOf(items: seq<MessageItem>, id: string): (r: Option<nat>)
    ensures r.None? <==> forall j :: 0 <= j < |items| ==> items[j].id != id
    ensures r.Some? ==> r.value < |items| && items[r.value].id == id
                        && forall j :: 0 <= j < r.value ==> items[j].id != id
  {
    if items == [] then None
    else if items[0].id == id then Some(0)
    else
      var r := FirstIndexOf(items[1..], id);
      if r.None? then None else Some(r.value + 1)
  }

  /** `RemoveAt(i)`: the others keep their relative order. */
  function RemoveAt(items: seq<MessageItem>, i: nat): (r: seq<MessageItem>)
    requires i < |items|
    ensures |r| == |items| - 1
    ensures forall j :: 0 <= j < i ==> r[j] == items[j]
    ensures forall j :: i <= j < |r| ==> r[j] == items[j + 1]
    ensures multiset(r) + multiset{items[i]} == multiset(items)
  {
    assert items == items[..i] + [items[i]] + items[i + 1..];
    items[..i] + items[i + 1..]
  }

  /** `HttpMethod.Equals("GET", OrdinalIgnoreCase)`, on ASCII. */
  predicate IsGet(httpMethod: string) {
    ToLower(httpMethod) == "get"
  }

  /** Every spelling of GET, in any letter case. */
  const GetSpellings: set<string> := {"GET", "GEt", "GeT", "Get", "gET", "gEt", "geT", "get"}

  /** A method is answered exactly when it is GET in some letter case. */
  lemma {:induction false} IsGetSpellings(httpMethod: string)
    ensures IsGet(httpMethod) <==> httpMethod in GetSpellings
  {
    var m := httpMethod;
    if m in GetSpellings {
      assert ToLower(m) == [LowerChar(m[0]), LowerChar(m[1]), LowerChar(m[2])];
    }
    if IsGet(m) {
      assert LowerChar(m[0]) == 'g' && LowerChar(m[1]) == 'e' && LowerChar(m[2]) == 't';
      assert m == [m[0], m[1], m[2]];
    }
  }

  /** Content type of a file under /js/ or /css/, from its extension. */
  const StaticTypes: map<string, string> := map[".js" := "application/javascript", ".css" := "text/css"]

  function StaticContentType(extension: string): (contentType: string)
    ensures contentType == if ToLower(extension) in StaticTypes then StaticTypes[ToLower(extension)] else "text/plain"
  {
    var e := ToLower(extension);
    if e == ".js" then "application/javascript"
    else if e == ".css" then "text/css"
    else "text/plain"
  }

  /** Content type of a file under /uploads/, from its extension. */
  const UploadTypes: map<string, string> :=
    map[".jpg" := "image/jpeg", ".jpeg" := "image/jpeg", ".png" := "image/png", ".gif" := "image/gif"]

  function UploadContentType(extension: string): (contentType: string)
    ensures contentType == if ToLower(extension) in UploadTypes then UploadTypes[ToLower(extension)] else "application/octet-stream"
  {
    var e := ToLower(extension);
    if e == ".jpg" || e == ".jpeg" then "image/jpeg"
    else if e == ".png" then "image/png"
    else if e == ".gif" then "image/gif"
    else "application/octet-stream"
  }

  /** One turn of the feed loops: the text grows by the next entry. */
  lemma EntriesJsonStep(items: seq<MessageItem>, i: nat, head: string, before: string, after: string, entry: string)
    requires i < |items|
    requires before == head + EntriesJson(items[..i])
    requires entry == EntryJson(items[i])
    requires after == (if i > 0 then before + "," else before) + entry
    ensures after == head + EntriesJson(items[..i + 1])
  {
    var done := items[..i];
    assert items[..i + 1] == done + [items[i]];
    EntriesJsonSnoc(done, items[i]);
    var sep := if i > 0 then "," else "";
    AppendAssoc(head, EntriesJson(done), sep + entry);
  }

  // ---------------------------------------------------------------------
  // The server's state
  // ---------------------------------------------------------------------

  /**
   * The log (`messages`, newest at index 0) and its counter. The counter is
   * kept apart from the list in `LocalServer/Program.cs`; every operation keeps the two
   * equal.
   */
  class ChatServer {
    var messages: seq<MessageItem>
    var messageCount: int

    ghost predicate Valid()
      reads this
    {
      messageCount == |messages|
    }

    constructor ()
      ensures Valid() && messages == []
    {
      messages := [];
      messageCount := 0;
    }

    /** `messages.Insert(0, item); messageCount++`. */
    method InsertNewest(item: MessageItem)
      requires Valid()
      modifies this
      ensures Valid()
      ensures messages == [item] + old(messages)
    {
      messages := [item] + messages;
      messageCount := messageCount + 1;
    }

    /**
     * POST /chat. Inserts exactly the items of PostedItems at the head of
     * the log, one counter step each, and answers as PostReply says.
     */
    method ProcessChatRequest(req: ChatRequest, env: Env) returns (reply: ChatReply)
      requires Valid()
      modifies this
      ensures Valid()
      ensures messages == PostedItems(req, env) + old(messages)
      ensures reply == PostReply(req, env, messageCount)
    {
      if IsMultipart(req) {
        reply := ProcessMultipart(req, env);
      } else {
        reply := ProcessUrlEncoded(req, env);
      }
    }

    /** The multipart branch of POST /chat: nick, ajax flag, text, then at most one file. */
    method ProcessMultipart(req: ChatRequest, env: Env) returns (reply: ChatReply)
      requires Valid() && IsMultipart(req)
      modifies this
      ensures Valid()
      ensures messages == PostedItems(req, env) + old(messages)
      ensures reply == PostReply(req, env, messageCount)
    {
      var ajax := req.requestedWith == Some(AjaxHeader);
      if req.multipart.None? {
        reply := if ajax then UploadFailedJson else UploadFailedPage;
        return;
      }
      var body := req.multipart.value;
      var paramNick := FirstParam(body.parameters, "nick");
      if IsNullOrWhiteSpace(paramNick) {
        reply := NickMissingPage;
        return;
      }
      var nick := paramNick.value;
      if FirstParam(body.parameters, "ajax") == Some("true") {
        ajax := true;
      }
      var paramMessage := FirstParam(body.parameters, "message");
      if !IsNullOrEmpty(paramMessage) {
        InsertNewest(TextItem(env, nick, paramMessage.value));
      }
      if |body.files| > 0 {
        var file := body.files[0];
        if IsNullOrWhiteSpace(Some(file.fileName)) || file.size == 0 {
          reply := if ajax then EmptyFileJson else ChatPage(nick);
          return;
        }
        if !env.storeOk {
          reply := if ajax then UploadFailedJson else UploadFailedPage;
          return;
        }
        InsertNewest(ImageItem(env, nick, env.fileGuid + file.extension));
      }
      reply := if ajax then SuccessJson(messageCount) else ChatPage(nick);
    }

    /** The url-encoded branch of POST /chat: nick, ajax flag, then a non-blank text. */
    method ProcessUrlEncoded(req: ChatRequest, env: Env) returns (reply: ChatReply)
      requires Valid() && !IsMultipart(req)
      modifies this
      ensures Valid()
      ensures messages == PostedItems(req, env) + old(messages)
      ensures reply == PostReply(req, env, messageCount)
    {
      var ajax := req.requestedWith == Some(AjaxHeader);
      var form := req.form;
      if "nick" !in form || IsNullOrWhiteSpace(Some(form["nick"])) {
        reply := NickMissingPage;
        return;
      }
      var nick := form["nick"];
      if "ajax" in form && form["ajax"] == "true" {
        ajax := true;
      }
      if "message" in form && !IsNullOrWhiteSpace(Some(form["message"])) {
        InsertNewest(TextItem(env, nick, form["message"]));
      }
      reply := if ajax then SuccessJson(messageCount) else ChatPage(nick);
    }

    /**
     * POST /delete. With a `messageId` that some item carries, removes the
     * first such item and steps the counter down; otherwise changes nothing.
     */
    method DeleteMessage(form: Option<map<string, string>>) returns (reply: DeleteReply)
      requires Valid()
      modifies this
      ensures Valid()
      ensures reply.ServerError? <==> form.None?
      ensures reply.Deleted? <==>
        form.Some? && "messageId" in form.value && FirstIndexOf(old(messages), form.value["messageId"]).Some?
      ensures reply.Deleted? ==>
        messages == RemoveAt(old(messages), FirstIndexOf(old(messages), form.value["messageId"]).value)
        && reply.count == messageCount
      ensures !reply.Deleted? ==> messages == old(messages)
    {
      if form.None? {
        reply := ServerError;
        return;
      }
      var data := form.value;
      if "messageId" in data {
        var messageId := data["messageId"];
        var index := FirstIndexOf(messages, messageId);
        if index.Some? {
          messages := RemoveAt(messages, index.value);
          messageCount := messageCount - 1;
          reply := Deleted(messageCount);
          return;
        }
      }
      reply := NotFound;
    }

    /** The feed of the newest messages a client with `lastCount` has not seen, newest first. */
    method GetNewMessagesJson(lastCount: Int32) returns (json: string)
      requires Valid()
      ensures json == MessagesJson(messages[..NewSliceLength(messageCount, lastCount, |messages|)], messageCount)
    {
      ghost var head := FeedOpen;
      json := FeedOpen;
      var newCount := Wrap32(messageCount - lastCount);
      var messagesToReturn := Min(newCount, |messages|);
      ghost var k := NewSliceLength(messageCount, lastCount, |messages|);
      assert k == if messagesToReturn < 0 then 0 else messagesToReturn;
      var i := 0;
      while i < messagesToReturn
        invariant 0 <= i <= k
        invariant json == head + EntriesJson(messages[..i])
      {
        ghost var before := json;
        if i > 0 {
          json := json + ",";
        }
        var escapedMessage := EscapeQuotes(messages[i].content);
        var entry := IdOpen + messages[i].id + ContentOpen + escapedMessage + EntryClose;
        json := json + entry;
        EntriesJsonStep(messages, i, head, before, json, entry);
        i := i + 1;
      }
      assert i == k;
      json := json + CountOpen + NatToString(messageCount) + FeedClose;
    }

    /** The feed of the whole log, newest first. */
    method GetAllMessagesJson() returns (json: string)
      requires Valid()
      ensures json == MessagesJson(messages, messageCount)
    {
      ghost var head := FeedOpen;
      json := FeedOpen;
      var i := 0;
      while i < |messages|
        invariant 0 <= i <= |messages|
        invariant json == head + EntriesJson(messages[..i])
      {
        ghost var before := json;
        if i > 0 {
          json := json + ",";
        }
        var escapedMessage := EscapeQuotes(messages[i].content);
        var entry := IdOpen + messages[i].id + ContentOpen + escapedMessage + EntryClose;
        json := json + entry;
        EntriesJsonStep(messages, i, head, before, json, entry);
        i := i + 1;
      }
      assert messages[..i] == messages;
      json := json + CountOpen + NatToString(messageCount) + FeedClose;
    }

    /**
     * GET /messages. `lastCount` is the query parameter when present,
     * non-empty and an int; otherwise None. A parsable count, behind or
     * not, gets the slice of messages it has not seen (empty when it is
     * not behind); anything else gets the whole log. Other methods get no
     * answer.
     */
    method GetMessages(httpMethod: string, lastCount: Option<Int32>) returns (reply: Option<string>)
      requires Valid()
      ensures reply.Some? <==> IsGet(httpMethod)
      ensures reply.Some? && lastCount.None? ==> reply.value == MessagesJson(messages, messageCount)
      ensures reply.Some? && lastCount.Some? ==>
        reply.value == MessagesJson(messages[..NewSliceLength(messageCount, lastCount.value, |messages|)], messageCount)
      ensures reply.Some? && lastCount.Some? && lastCount.value >= messageCount ==>
        reply.value == MessagesJson([], messageCount)
    {
      if !IsGet(httpMethod) {
        return None;
      }
      var json: string;
      if lastCount.Some? {
        if lastCount.value < messageCount {
          json := GetNewMessagesJson(lastCount.value);
        } else {
          json := FeedOpen + CountOpen + NatToString(messageCount) + FeedClose;
        }
      } else {
        json := GetAllMessagesJson();
      }
      reply := Some(json);
    }
  }
}
