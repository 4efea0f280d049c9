# Web-based local chat: signalling, message log and upload rendering in Dafny

This project models the three pieces of the chat application that carry
logic of their own, and proves what they promise.

- **Voice signalling** (`Voice.dfy`, from `VoiceManager.cs`). A
  `VoiceManager` object keeps two maps. `users` maps a nick to the time it
  was last seen. `signals` maps a nick to its mailbox, a FIFO queue of
  WebRTC signals.
  - `Join` stamps the caller, empties its mailbox and returns every other
    nick seen in the last 20 seconds.
  - `Poll` stamps the caller and hands over its whole mailbox.
  - `Signal` appends to the recipient's mailbox, creating it if needed.
  - `Leave` drops both entries.

  Time is a parameter, counted in DateTime ticks of 100 ns.
- **The HttpListener server's message log** (`LocalServer.dfy`, from
  `LocalServer/Program.cs`). A `ChatServer` object holds the list of
  messages, newest first, and a separate counter. The model covers:
  - posting through the multipart and url-encoded branches of `/chat`;
  - deleting by id;
  - the `/messages` feed, which is built as JSON text with only `"`
    escaped;
  - the content types chosen for static and uploaded files.

  The counter is kept equal to the list length as an object invariant.
  The feed's count arithmetic is 32-bit and wraps, as in the source.
- **The channel server's send endpoint** (`ChannelApi.dfy`, from
  `Program.cs`). This is a pure decision. A post with a file stores the
  file under a Guid plus its lower-cased extension and saves an
  `<img>`, `<video>`, `<audio>` or link snippet. Otherwise the post saves
  its text as it is, but only when the text is not blank. The answer
  reports success unless reading the form, writing the upload or saving
  the message throws.

`Text.dfy` holds the .NET string helpers the three rely on:
`Char.IsWhiteSpace`, `IsNullOrWhiteSpace`, `IsNullOrEmpty`, `StartsWith`,
lower-casing, and decimal printing of the counter. `Wrappers.dfy` holds
`Option`, which stands for null.

Calls into code outside the model become inputs:

- the clock and its `HH:mm:ss` formatting;
- `Guid.NewGuid`;
- `HttpUtility.HtmlEncode`, passed as a function;
- `Path.GetExtension`, whose result is a field of each uploaded file;
- the query-string, form and multipart parsers. A parser that throws is
  `None`.
- `int.TryParse` of `lastCount`, which is an `Option<Int32>`;
- whether each throwing call of the send endpoint returns normally
  (`ChannelApi.SendIo`).

## Model

| member | source | states |
|---|---|---|
| Voice.VoiceManager.constructor | VoiceManager.cs:17-18 | a new manager has no presence entries and no mailboxes |
| Voice.VoiceManager.Join | VoiceManager.cs:20-37 | the caller's last-seen becomes `now`; its mailbox is reset to empty, so earlier queued signals are discarded; the result holds every other nick seen strictly after `now` − 20 s, each exactly once, and never the caller |
| Voice.KeySnapshot | VoiceManager.cs:26 | the key snapshot lists every presence key exactly once |
| Voice.CollectPeers | VoiceManager.cs:25-35 | the loop keeps, in snapshot order, exactly the snapshot keys that are not the caller and were seen after the cut-off; a snapshot without duplicates gives a result without duplicates |
| Voice.ActiveAmongExact | VoiceManager.cs:29-35 | the filtered snapshot contains a nick iff it is in the snapshot and is an active peer, and it preserves distinctness |
| Voice.VoiceManager.Poll | VoiceManager.cs:39-47 | the caller's last-seen becomes `now`, even for a nick that never joined; the result is the caller's queued signals in arrival order, or empty when it has no mailbox; the mailbox is removed, so a second poll returns nothing |
| Voice.VoiceManager.Signal | VoiceManager.cs:49-56 | the state becomes `Enqueue` of the old mailboxes; presence, the sender's included, is unchanged |
| Voice.Enqueue | VoiceManager.cs:51-55 | the recipient's mailbox gains the signal at its end and is created if absent; every other mailbox is unchanged |
| Voice.EnqueueAllDelivers | VoiceManager.cs:49-56 | after any run of signals, a mailbox holds its old contents followed by exactly the signals addressed to it, each once, in send order |
| Voice.EnqueueAllKeys | VoiceManager.cs:51-54 | after any run of signals, the mailboxes are the old ones plus one for each recipient |
| Voice.VoiceManager.Leave | VoiceManager.cs:58-62 | the nick leaves both maps; every other entry is unchanged; an absent nick changes nothing |
| Voice.OfferHandshake | VoiceManager.cs:20-56 | in a fresh room, A's join sees nobody, B's join sees exactly A, A's offer reaches B once on B's poll, and B's next poll is empty |
| LocalServer.ChatServer.constructor | LocalServer/Program.cs:15-16 | the log starts empty with its counter at 0 |
| LocalServer.ChatServer.InsertNewest | LocalServer/Program.cs:274-276 | one item goes in at index 0 and the counter still equals the list length |
| LocalServer.ChatServer.ProcessChatRequest | LocalServer/Program.cs:234-356 | the log gains exactly `PostedItems` at its head, one counter step each, so counter and length stay equal; the answer is `PostReply` for the new count |
| LocalServer.ChatServer.ProcessMultipart | LocalServer/Program.cs:247-321 | on a multipart post the log gains exactly `PostedItems`, with the text before the image, and the answer is `PostReply`. An unreadable body or a missing nick stores nothing. An empty file or a failed store ends the post early, after the text was stored |
| LocalServer.ChatServer.ProcessUrlEncoded | LocalServer/Program.cs:322-346 | on a url-encoded post the log gains exactly `PostedItems`, at most the text, and the answer is `PostReply` |
| LocalServer.PostedItems | LocalServer/Program.cs:247-346 | nothing is inserted without an acceptable nick. A url-encoded post inserts exactly its text item, if it stores a text. Under an accepted nick, a multipart post inserts one item for a stored upload plus one for a stored text. A stored upload gives an image item at index 0 for `Guid + extension`. A missing, empty or unstorable file adds no image. The text item is always the older one, and it stays in when the file turns out empty or cannot be stored |
| LocalServer.PostText | LocalServer/Program.cs:268-277 | text is stored only under an accepted nick, and what is stored is the post's own `message` field: the first one in a multipart body, the form's in a url-encoded one. Under an accepted nick, a multipart post stores it iff it is present and non-empty (line 269), and a url-encoded post iff it is present and not blank (line 337) |
| LocalServer.BlankMessageAsymmetry | LocalServer/Program.cs:337 | a non-empty, whitespace-only message is stored by the multipart branch and dropped by the url-encoded branch |
| LocalServer.FirstParam | LocalServer/Program.cs:253 | the field lookup finds nothing exactly when no field has the given name |
| LocalServer.FirstParamIsFirst | LocalServer/Program.cs:253 | when several fields share a name, the lookup returns the data of the first of them |
| LocalServer.MultipartBranch | LocalServer/Program.cs:247 | a post takes the multipart branch iff its Content-Type is present and is `multipart/form-data` followed by anything; a missing Content-Type, or one starting with a capital `M`, takes the url-encoded branch. The culture-sensitive `StartsWith` is modelled as ordinal, as noted under Left out |
| LocalServer.PostNickAccepted | LocalServer/Program.cs:253-259 | an accepted nick is never blank. An unreadable multipart body has no nick. A readable multipart post is accepted iff its first `nick` field is present and not blank, and takes that field. A url-encoded post is accepted iff its form has a non-blank `nick`, and then uses that value (lines 325-330) |
| LocalServer.AjaxFlag | LocalServer/Program.cs:241-266 | a post is ajax iff it carries the `X-Requested-With: XMLHttpRequest` header, or a nick is accepted and the branch's `ajax` field is exactly `true` (lines 262-266 and 332-335); so `ajax=True`, or an `ajax` field on a post without a nick, does not make it ajax |
| LocalServer.FileSteps | LocalServer/Program.cs:279-303 | only the first file counts. There is no file step iff no file was sent. The file is stored iff its name is not blank, its size is positive and the write succeeds. It fails exactly when such a file cannot be written |
| LocalServer.TextItemShape | LocalServer/Program.cs:272-273 | a text item takes the text id and reads as the bracketed time, the nick, and the HTML-encoded message at the end |
| LocalServer.ImageItemShape | LocalServer/Program.cs:305-306 | an image item takes the image id and reads as the bracketed time and the nick, and ends with an `<img src='` tag pointing at `/uploads/` plus the stored name, with its closing attributes |
| LocalServer.PostReplyAnswers | LocalServer/Program.cs:254-355 | a readable post gets the nick-missing page iff it has no acceptable nick. An unreadable multipart body gets the upload-failed JSON or page, by the ajax flag. For a multipart post with an accepted nick: an empty file gets `EmptyFileJson` (ajax) or the chat page (lines 283-290); the upload-failed answer comes iff the store fails (312-319); the success JSON comes iff the post is ajax and the file is missing or stored. An ajax post gets no HTML chat or upload-failed page, and a non-ajax post gets no JSON. The success JSON carries the counter after the post and the chat page the accepted nick. A url-encoded post ends in the nick page, the success JSON or the chat page |
| LocalServer.ChatServer.DeleteMessage | LocalServer/Program.cs:167-195 | a delete happens iff the form has a `messageId` that some item carries; it then removes the first such item, keeps the others in order and steps the counter down; otherwise nothing changes; an unreadable form gives the server-error answer |
| LocalServer.FirstIndexOf | LocalServer/Program.cs:176-177 | the index search returns the first item whose id is ordinally equal, and nothing only when no item has that id |
| LocalServer.RemoveAt | LocalServer/Program.cs:180 | removing one item keeps the items before it in place, shifts those after it down by one, and removes exactly one copy of that item |
| LocalServer.ChatServer.GetNewMessagesJson | LocalServer/Program.cs:358-375 | the feed lists the first `NewSliceLength` messages in list order, newest first, followed by the counter |
| LocalServer.NewSliceLength | LocalServer/Program.cs:363-366 | at most the whole log is listed; without overflow the length is `min(messageCount − lastCount, Count)`, or 0 when that is not positive; when `messageCount − lastCount` overflows 32 bits, nothing is listed |
| LocalServer.Wrap32 | LocalServer/Program.cs:363 | the 32-bit result agrees with the exact difference modulo 2^32, and equals it when the difference fits |
| LocalServer.UpToDateGetsNothing | LocalServer/Program.cs:95-104 | a client whose count is not behind the server's gets no entries |
| LocalServer.BehindGetsDifference | LocalServer/Program.cs:363-364 | a client that is d messages behind gets exactly d entries |
| LocalServer.ChatServer.GetAllMessagesJson | LocalServer/Program.cs:377-391 | the feed lists the whole log in list order, followed by the counter |
| LocalServer.ChatServer.GetMessages | LocalServer/Program.cs:85-111 | only GET is answered. A missing or unparsable `lastCount` gets the whole log. A parsable one gets the unseen slice, so a count that is not behind gets an empty array with the current count |
| LocalServer.IsGetSpellings | LocalServer/Program.cs:85 | `/messages` answers a method exactly when it is `GET` in one of its eight letter-case spellings |
| LocalServer.EntryJsonShape | LocalServer/Program.cs:369-370 | an entry is one JSON object: it opens with the id field and the item's id, and ends with the escaped content and the closing brace |
| LocalServer.MessagesJsonShape | LocalServer/Program.cs:360-373 | the feed opens the `messages` array, lists the entries and then gives the counter in decimal before the closing brace. No items give an empty array |
| LocalServer.EscapeQuotes | LocalServer/Program.cs:369 | every `"` in the escaped content is preceded by a backslash |
| LocalServer.EscapeQuotesRoundTrip | LocalServer/Program.cs:385 | a reader that turns `\"` back into `"` recovers the content exactly, so only quotes are changed |
| LocalServer.EntriesJson | LocalServer/Program.cs:366-371 | the entry run is empty exactly when there are no items; otherwise it starts with `{` and ends with `}`, so there is no leading or trailing comma |
| LocalServer.EntriesJsonAppend | LocalServer/Program.cs:368 | two runs of entries join with exactly one comma between them |
| LocalServer.EntriesJsonSnoc | LocalServer/Program.cs:382-387 | one more entry adds a comma, except before the first entry, and then that entry |
| LocalServer.EntriesJsonStep | LocalServer/Program.cs:366-371 | one loop turn extends the text by the next entry |
| Text.NatToString | LocalServer/Program.cs:373 | the printed counter is a non-empty run of decimal digits without a leading zero |
| Text.NatToStringRoundTrip | LocalServer/Program.cs:389 | the printed counter reads back as the same number |
| LocalServer.StaticContentType | LocalServer/Program.cs:146-149 | the lower-cased extension `.js` gives `application/javascript` and `.css` gives `text/css`; anything else gives `text/plain` |
| LocalServer.UploadContentType | LocalServer/Program.cs:212-216 | the lower-cased extensions `.jpg` and `.jpeg` give `image/jpeg`, `.png` gives `image/png` and `.gif` gives `image/gif`; anything else gives `application/octet-stream` |
| Text.WhiteSpaceTable | LocalServer/Program.cs:254 | `Char.IsWhiteSpace` accepts exactly the 25 white-space code points of .NET, the ones the nick and message checks treat as blank |
| Text.BlankMeansWhiteSpaceOnly | LocalServer/Program.cs:337 | a string is blank iff it is null or made only of those code points. An empty string is blank, so `IsNullOrEmpty` implies `IsNullOrWhiteSpace`. A string that starts with another character is not blank |
| Text.ToLower | LocalServer/Program.cs:147 | lower-casing keeps the length, lowers each character and leaves no ASCII capital |
| ChannelApi.Classify | Program.cs:61-68 | the extension lists, read as one table: `.jpg`, `.png`, `.gif` are images, `.mp4` and `.webm` videos, `.mp3` and `.wav` audio, and everything else, `.jpeg` included, an attachment |
| ChannelApi.RenderedKindOfContent | Program.cs:61-68 | each snippet opens with the tag of its kind: `<img`, `<video`, `<audio` or `<a` |
| ChannelApi.MediaContentShape | Program.cs:61-68 | each snippet names the web path in its `src` or `href`, quoted, right after the tag's opening, and ends by closing a tag |
| ChannelApi.FileNameOnlyInLinks | Program.cs:61-68 | the client's file name appears only in an attachment link, just before `</a>`. For the other kinds the snippet does not depend on it |
| ChannelApi.StoredNameShape | Program.cs:52-53 | the stored name is the Guid followed by the extension, lower-cased character by character, so no capital follows the Guid |
| ChannelApi.SendMessage | Program.cs:43-76 | the answer reports success iff the form is read, and either a file is written and its message saved, or there is no file and the text is blank or saved. Nothing is stored when the form cannot be read. With a file, the upload is stored as Guid plus the lower-cased extension, and a message is saved iff the write and the save both succeed: the snippet for that extension, served under `/uploads/`. Without a file, a message is saved iff the text is not blank and the save succeeds, and it is saved as-is. The saved message keeps the channel and nick, and the IP defaults to `0.0.0.0` |
| ChannelApi.FileHidesText | Program.cs:50-74 | with a file attached, the text of the post makes no difference to what is saved |

## Left out

- Concurrency. The model is sequential and does not cover:
  - the thread safety of `ConcurrentDictionary`;
  - the non-atomic check-then-insert in `Signal`, where two concurrent
    first signals can race;
  - the unsynchronised `List.Add` on a mailbox;
  - the unsynchronised static message list.
- Voice.VoiceManager.Join: the source reads the clock twice, once for the stamp and once for the cut-off. The model uses one reading, `now`, for both.
- Voice: a missing form field reaches `VoiceManager` as a null nick or
  recipient. The dictionary then throws. The model takes every nick as a
  string, so this case is not modelled.
- LocalServer.EscapeQuotes: escapes `"` only, as the source does. A `\`
  in a nick or message is not escaped, so the browser's JSON reader sees a
  different content string, or rejects the feed when the backslash is
  followed by a character that is not a valid JSON escape. The model keeps
  that behaviour and proves only the quote escaping.
- ChannelApi.SendMessage: a throwing `SaveMessage` is taken to save
  nothing. The contents of an upload whose copy throws, which may be
  missing or partial, are not modelled. The HTTP 500 answer appears only as
  `success` being false.
- Text.ToLower: lowers ASCII letters only. The source calls the culture-sensitive `ToLower()`, which under a Turkish culture turns `I` into a dotless `ı`, so `.GIF` would not be recognised as `.gif`. The culture-sensitive `StartsWith` on the Content-Type is modelled as ordinal too.
- LocalServer.ChatServer: the counter is an unbounded integer. The
  source's `int` would wrap after 2^31 − 1 posts, but the list's capacity
  limit stops the server before that.
- LocalServer: the `Timestamp` of a message is never read by the modelled
  code, so items carry only their id and content.
- LocalServer.ChatServer.ProcessChatRequest:
  - `UploadFailedJson` leaves out the exception text that the source puts
    in its JSON;
  - an exception while reading a url-encoded body is not caught by the
    source and stops the listener loop, which the model does not
    represent.
- LocalServer.ChatServer.DeleteMessage: the `ServerError` answer leaves out the exception text.
- LocalServer: of `HandleRequest` only the `/messages` branch is modelled. Not modelled:
  - the other routes (`/`, `/chat` GET, `/delete` with 405, the 404 page);
  - the path lower-casing;
  - file existence checks, reading and writing, which give 404 or 500;
  - response writing.
- HTML pages and embedded scripts are not part of this model:
  `HtmlTemplates.cs`, `LocalServer/HtmlTemplates.cs`, `GetHomePage`,
  `GetChatPage` and `GetMessagesHtml`.
- SQLite access is not part of this model: `DbHelper.cs`,
  `LocalServer/DbHelper.cs` and `DatabaseService.cs`. `SaveMessage`
  appears only as its arguments, `ChannelApi.SavedMessage`. The channel
  endpoints and the voice endpoints of `Program.cs` are only plumbing
  into these services.
- Per-channel presence counting is described for the system but does not
  exist in the code, where `UserCount` is the constant 0
  (`DbHelper.cs:140`). It is not modelled. The only presence the code keeps
  is the voice room's, with a 20-second window.
- Signal types are free strings in the code, not an enumeration of offer,
  answer and candidate. The model follows the code.
- ChannelApi: a form field sent several times reaches the handler as one
  comma-joined string. The model has single-valued fields only.
- Browser scripts (`wwwroot/js/*.js`, `bin/Debug/net8.0/js/chat.js`) and
  the uploaded Unity script under `LocalServer/bin/` are not part of this
  model.
