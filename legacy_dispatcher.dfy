/**
 * main.go: the earlier revision of the bot.  One polling callback receives
 * every update; commands are recognised inside the text handler, only
 * "/start" is answered, a failed render is only logged and a delivered
 * document gets no reaction.  Kept apart from bot.go's dispatcher so that the
 * two behaviours are never mixed.
 */
module LegacyDispatcher {
  import opened Support
  import opened Transport
  import Rendering

  const DefaultMonitoringInterval := 5

  const CommandStart := "/start"
  const CommandPrefix := "/"

  const MessageStart := @"This is a [Telegram Bot](https://github\.com/meinside/telegram\-d2\-bot) which replies to your messages with [D2](https://github\.com/terrastruct/d2)\-generated \.svg files in \.png format\." + "\n\t"

  const DiagramExtension := ".d2"

  function NotDiagramText(fileName: string): string {
    "'" + fileName + "' does not seem to be a .d2 file."
  }

  datatype Config = Config(apiToken: string, allowedIds: seq<string>, monitorInterval: int, isVerbose: bool)

  /** Go's zero value of the config struct. */
  const ZeroConfig := Config("", [], 0, false)

  /** What `json.Unmarshal` leaves in the struct, and the error it returns. */
  datatype Decoded = Decoded(partial: Config, error: Option<string>)

  datatype Opened = Opened(conf: Config, error: Option<string>)

  /**
   * openConfig, with the file read and the JSON decoding as opaque outcomes:
   * any failure yields the zero config with the error, even when decoding had
   * already filled part of the struct.
   */
  function OpenConfig(read: Result<Bytes>, unmarshal: Bytes -> Decoded): (r: Opened)
    ensures r.error.Some? <==> read.Err? || unmarshal(read.value).error.Some?
    ensures r.error.Some? ==> r.conf == ZeroConfig
    ensures r.error.None? ==> r.conf == unmarshal(read.value).partial
  {
    match read
    case Err(e) => Opened(ZeroConfig, Some(e))
    case Ok(bytes) =>
      var decoded := unmarshal(bytes);
      if decoded.error.None? then Opened(decoded.partial, None) else Opened(ZeroConfig, decoded.error)
  }

  /** The monitoring interval `runBot` uses: the configured one when positive, else the default. */
  function MonitoringInterval(conf: Config): (interval: int)
    ensures interval > 0
    ensures conf.monitorInterval > 0 ==> interval == conf.monitorInterval
    ensures conf.monitorInterval <= 0 ==> interval == DefaultMonitoringInterval
  {
    if conf.monitorInterval <= 0 then DefaultMonitoringInterval else conf.monitorInterval
  }

  /** How the D2 libraries behave on each source text (this revision passes no style options). */
  type Library = string -> Rendering.Pipeline

  /** An update as this revision reads it: only its `Message` field (edited messages arrive with it nil). */
  datatype Incoming = Incoming(message: Option<Message>)

  // ---------------------------------------------------------------- allowance

  predicate Allowed(allowedIds: seq<string>, id: Option<string>) {
    id.Some? && id.value in allowedIds
  }

  /** checkAllowance: a linear search that stops at the first exact match. */
  method CheckAllowance(allowedIds: seq<string>, id: Option<string>) returns (allowed: bool)
    ensures allowed == Allowed(allowedIds, id)
  {
    if id.None? {
      return false;
    }
    for i := 0 to |allowedIds|
      invariant id.value !in allowedIds[..i]
    {
      if allowedIds[i] == id.value {
        return true;
      }
    }
    assert allowedIds[..|allowedIds|] == allowedIds;
    return false;
  }

  // ------------------------------------------------- calls each handler makes

  function ReplyErrorCalls(answer: Oracle, n: nat, chatId: int, messageId: int, text: string): seq<Exchange> {
    [Ask(answer, n, SendMessage(chatId, text, Some(messageId)))]
  }

  function ReplyRenderedCalls(answer: Oracle, n: nat, lib: Library, chatId: int, messageId: int, text: string): seq<Exchange> {
    [Ask(answer, n, SendChatAction(chatId))] +
    match Rendering.Rendered(lib(text))
    case Ok(png) => [Ask(answer, n + 1, SendDocument(chatId, png, messageId))]
    case Err(_) => []
  }

  function HandleMessageCalls(answer: Oracle, n: nat, lib: Library, allowedIds: seq<string>, message: Message): seq<Exchange>
    requires message.from.Some? && message.text.Some?
  {
    var text := message.text.value;
    if !Allowed(allowedIds, message.from.value.username) then
      []
    else if HasPrefix(text, CommandPrefix) then
      if text == CommandStart then [Ask(answer, n, SendMessage(message.chatId, MessageStart, None))] else []
    else
      ReplyRenderedCalls(answer, n, lib, message.chatId, message.messageId, text)
  }

  function HandleDocumentCalls(answer: Oracle, n: nat, lib: Library, allowedIds: seq<string>, message: Message,
                               download: Result<string>): seq<Exchange>
    requires message.from.Some? && message.document.Some?
  {
    var doc := message.document.value;
    if !Allowed(allowedIds, message.from.value.username) then
      []
    else if doc.fileName.Some? && HasSuffix(doc.fileName.value, DiagramExtension) then
      var file := Ask(answer, n, GetFile(doc.fileId));
      [file] +
      if file.ok && download.Ok? then
        ReplyRenderedCalls(answer, n + 1, lib, message.chatId, message.messageId, download.value)
      else
        []
    else if doc.fileName.Some? then
      ReplyErrorCalls(answer, n, message.chatId, message.messageId, NotDiagramText(doc.fileName.value))
    else
      []
  }

  /** The handlers read `Message.From` without a nil check. */
  predicate Deliverable(update: Incoming) {
    update.message.Some? && (update.message.value.text.Some? || update.message.value.document.Some?) ==>
      update.message.value.from.Some?
  }

  function HandleUpdateCalls(answer: Oracle, n: nat, lib: Library, allowedIds: seq<string>, update: Incoming,
                             error: Option<string>, download: Result<string>): seq<Exchange>
    requires Deliverable(update)
  {
    if error.Some? then
      []
    else if update.message.Some? && update.message.value.text.Some? then
      HandleMessageCalls(answer, n, lib, allowedIds, update.message.value)
    else if update.message.Some? && update.message.value.document.Some? then
      HandleDocumentCalls(answer, n, lib, allowedIds, update.message.value, download)
    else
      []
  }

  // ----------------------------------------------------------------- handlers

  method ReplyError(bot: Bot, chatId: int, messageId: int, text: string)
    modifies bot
    ensures bot.log == old(bot.log) + ReplyErrorCalls(bot.answer, |old(bot.log)|, chatId, messageId, text)
  {
    var sent := bot.SendMessageTo(chatId, text, Some(messageId));
  }

  method ReplyRendered(bot: Bot, lib: Library, chatId: int, messageId: int, text: string)
    modifies bot
    ensures bot.log == old(bot.log) + ReplyRenderedCalls(bot.answer, |old(bot.log)|, lib, chatId, messageId, text)
  {
    var typing := bot.SendChatActionTyping(chatId);
    ghost var stages;
    var rendered;
    rendered, stages := Rendering.RenderDiagram(lib(text));
    if rendered.Ok? {
      var sent := bot.SendDocumentTo(chatId, rendered.value, messageId);
    }
  }

  method HandleMessage(bot: Bot, lib: Library, allowedIds: seq<string>, message: Message)
    requires message.from.Some? && message.text.Some?
    modifies bot
    ensures bot.log == old(bot.log) + HandleMessageCalls(bot.answer, |old(bot.log)|, lib, allowedIds, message)
  {
    var allowed := CheckAllowance(allowedIds, message.from.value.username);
    if allowed {
      var text := message.text.value;
      if HasPrefix(text, CommandPrefix) {
        if text == CommandStart {
          var sent := bot.SendMessageTo(message.chatId, MessageStart, None);
        }
        // any other command falls through unanswered
      } else {
        ReplyRendered(bot, lib, message.chatId, message.messageId, text);
      }
    }
  }

  method HandleDocument(bot: Bot, lib: Library, allowedIds: seq<string>, message: Message, download: Result<string>)
    requires message.from.Some? && message.document.Some?
    modifies bot
    ensures bot.log == old(bot.log) + HandleDocumentCalls(bot.answer, |old(bot.log)|, lib, allowedIds, message, download)
  {
    var allowed := CheckAllowance(allowedIds, message.from.value.username);
    if allowed {
      var doc := message.document.value;
      if doc.fileName.Some? && HasSuffix(doc.fileName.value, DiagramExtension) {
        var fetched := bot.FetchFile(doc.fileId);
        if fetched {
          if download.Ok? {
            ReplyRendered(bot, lib, message.chatId, message.messageId, download.value);
          }
        }
      } else {
        if doc.fileName.Some? {
          ReplyError(bot, message.chatId, message.messageId, NotDiagramText(doc.fileName.value));
        }
      }
    }
  }

  /** The callback `updateHandleFunc` builds, applied to one polling result. */
  method HandleUpdate(bot: Bot, lib: Library, allowedIds: seq<string>, update: Incoming,
                      error: Option<string>, download: Result<string>)
    requires Deliverable(update)
    modifies bot
    ensures bot.log == old(bot.log) + HandleUpdateCalls(bot.answer, |old(bot.log)|, lib, allowedIds, update, error, download)
  {
    if error.Some? {
      return;
    }
    if update.message.Some? && update.message.value.text.Some? {
      HandleMessage(bot, lib, allowedIds, update.message.value);
    } else if update.message.Some? && update.message.value.document.Some? {
      HandleDocument(bot, lib, allowedIds, update.message.value, download);
    }
  }

  // --------------------------------------------------------------- properties

  /** Allowed text starting with "/" is never rendered; only exactly "/start" is answered. */
  lemma CommandsAreNeverRendered(answer: Oracle, n: nat, lib: Library, allowedIds: seq<string>, message: Message)
    requires message.from.Some? && message.text.Some?
    requires Allowed(allowedIds, message.from.value.username)
    requires HasPrefix(message.text.value, CommandPrefix)
    ensures HandleMessageCalls(answer, n, lib, allowedIds, message)
         == if message.text.value == CommandStart
            then [Ask(answer, n, SendMessage(message.chatId, MessageStart, None))]
            else []
  {
  }

  /** Allowed text that is not a command is rendered and answered in reply to its message. */
  lemma PlainTextIsRendered(answer: Oracle, n: nat, lib: Library, allowedIds: seq<string>, message: Message)
    requires message.from.Some? && message.text.Some?
    requires Allowed(allowedIds, message.from.value.username)
    requires !HasPrefix(message.text.value, CommandPrefix)
    ensures HandleMessageCalls(answer, n, lib, allowedIds, message)
         == ReplyRenderedCalls(answer, n, lib, message.chatId, message.messageId, message.text.value)
  {
  }

  /** In this revision a failed render only reaches the log: the chat sees the typing notice and nothing else. */
  lemma RenderFailureIsSilent(answer: Oracle, n: nat, lib: Library, chatId: int, messageId: int, text: string)
    requires Rendering.Rendered(lib(text)).Err?
    ensures ReplyRenderedCalls(answer, n, lib, chatId, messageId, text) == [Ask(answer, n, SendChatAction(chatId))]
    ensures Replies(ReplyRenderedCalls(answer, n, lib, chatId, messageId, text)) == 0
  {
    assert [Ask(answer, n, SendChatAction(chatId))][1..] == [];
  }

  /** A successful render sends one document with exactly the rendered bytes, and no reaction. */
  lemma RenderSuccessSendsDocumentOnly(answer: Oracle, n: nat, lib: Library, chatId: int, messageId: int,
                                       text: string, png: Bytes)
    requires Rendering.Rendered(lib(text)) == Ok(png)
    ensures ReplyRenderedCalls(answer, n, lib, chatId, messageId, text)
         == [Ask(answer, n, SendChatAction(chatId)), Ask(answer, n + 1, SendDocument(chatId, png, messageId))]
  {
  }

  /** A sender that is absent or not listed gets no call at all, whatever the message. */
  lemma DeniedSenderIsSilent(answer: Oracle, n: nat, lib: Library, allowedIds: seq<string>, update: Incoming,
                             download: Result<string>)
    requires Deliverable(update) && update.message.Some? && update.message.value.from.Some?
    requires !Allowed(allowedIds, update.message.value.from.value.username)
    ensures HandleUpdateCalls(answer, n, lib, allowedIds, update, None, download) == []
  {
  }

  /** A polling error is only logged. */
  lemma PollErrorDoesNothing(answer: Oracle, n: nat, lib: Library, allowedIds: seq<string>, update: Incoming,
                             error: string, download: Result<string>)
    requires Deliverable(update)
    ensures HandleUpdateCalls(answer, n, lib, allowedIds, update, Some(error), download) == []
  {
  }

  /** A message with text goes to the text handler even when it also has a document. */
  lemma TextBeforeDocument(answer: Oracle, n: nat, lib: Library, allowedIds: seq<string>, message: Message,
                           download: Result<string>)
    requires message.from.Some? && message.text.Some?
    ensures HandleUpdateCalls(answer, n, lib, allowedIds, Incoming(Some(message)), None, download)
         == HandleMessageCalls(answer, n, lib, allowedIds, message)
  {
  }

  /** A document whose name lacks ".d2" gets one rejection naming the file, and is not rendered. */
  lemma NonDiagramFileIsRejected(answer: Oracle, n: nat, lib: Library, allowedIds: seq<string>, message: Message,
                                 download: Result<string>, name: string)
    requires message.from.Some? && message.document.Some?
    requires Allowed(allowedIds, message.from.value.username)
    requires message.document.value.fileName == Some(name) && !HasSuffix(name, DiagramExtension)
    ensures HandleDocumentCalls(answer, n, lib, allowedIds, message, download)
         == [Ask(answer, n, SendMessage(message.chatId, NotDiagramText(name), Some(message.messageId)))]
    ensures NotDiagramText(name)[1..|name| + 1] == name
  {
  }

  /** A document without a file name gets no call at all. */
  lemma NamelessDocumentIsIgnored(answer: Oracle, n: nat, lib: Library, allowedIds: seq<string>, message: Message,
                                  download: Result<string>)
    requires message.from.Some? && message.document.Some?
    requires message.document.value.fileName.None?
    ensures HandleDocumentCalls(answer, n, lib, allowedIds, message, download) == []
  {
  }

  /** A ".d2" file whose metadata or download fails: only the metadata request, no reply, no render. */
  lemma FetchFailureIsSilent(answer: Oracle, n: nat, lib: Library, allowedIds: seq<string>, message: Message,
                             download: Result<string>, name: string)
    requires message.from.Some? && message.document.Some?
    requires Allowed(allowedIds, message.from.value.username)
    requires message.document.value.fileName == Some(name) && HasSuffix(name, DiagramExtension)
    requires !answer(n, GetFile(message.document.value.fileId)) || download.Err?
    ensures HandleDocumentCalls(answer, n, lib, allowedIds, message, download)
         == [Ask(answer, n, GetFile(message.document.value.fileId))]
  {
  }

  /** Whatever the update, this revision replies at most once and never sets a reaction. */
  lemma {:induction false} EveryUpdateRepliesAtMostOnce(answer: Oracle, n: nat, lib: Library, allowedIds: seq<string>,
                                                        update: Incoming, error: Option<string>, download: Result<string>)
    requires Deliverable(update)
    ensures var calls := HandleUpdateCalls(answer, n, lib, allowedIds, update, error, download);
      Replies(calls) <= 1 && forall i :: 0 <= i < |calls| ==> !calls[i].request.SetMessageReaction?
  {
    var calls := HandleUpdateCalls(answer, n, lib, allowedIds, update, error, download);
    if |calls| == 1 {
      assert calls[1..] == [];
    } else if |calls| == 2 {
      RepliesAppend([calls[0]], [calls[1]]);
      assert calls == [calls[0]] + [calls[1]];
      assert [calls[0]][1..] == [] && [calls[1]][1..] == [];
    } else if |calls| == 3 {
      RepliesAppend([calls[0]], calls[1..]);
      RepliesAppend([calls[1]], [calls[2]]);
      assert calls == [calls[0]] + calls[1..];
      assert calls[1..] == [calls[1]] + [calls[2]];
      assert [calls[0]][1..] == [] && [calls[1]][1..] == [] && [calls[2]][1..] == [];
    }
  }
}
