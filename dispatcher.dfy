/**
 * bot.go: the current dispatcher.  The Telegram library routes each update
 * to one of the handlers registered in `runBot` (modelled as an `Event`);
 * each handler checks the sender against `allowed_ids` and then replies
 * through the bot client.  Every handler method is specified by a function
 * giving the exact calls it appends to the client's log, and the lemmas at
 * the end state the properties the bot promises about those calls.
 */
module Dispatcher {
  import opened Support
  import opened Transport
  import Rendering

  const DefaultPollingInterval := 5

  const CommandStart := "/start"
  const CommandHelp := "/help"
  const CommandPrivacy := "/privacy"

  const MessageHelp := @"This is a [Telegram Bot](https://github\.com/meinside/telegram\-d2\-bot) which replies to your messages with [D2](https://github\.com/terrastruct/d2)\-generated \.svg files in \.png format\." + "\n"
  const MessagePrivacy := @"[Privacy Policy](https://github\.com/meinside/telegram\-d2\-bot/raw/master/PRIVACY\.md)"
  const MessageNotSupported := "This type of message is not supported (yet)."

  const RenderPadding := 40

  const DiagramExtension := ".d2"

  function NoMatchingCommandText(cmd: string): string {
    "Not a supported command: " + cmd
  }

  function RenderFailureText(err: string): string {
    "Failed to render message: " + err
  }

  function NotDiagramText(fileName: string): string {
    "'" + fileName + "' does not seem to be a .d2 file."
  }

  /** The configuration fields the dispatcher reads (the token and secret-store settings are not modelled). */
  datatype Config = Config(
    allowedIds: seq<string>,
    monitorInterval: int,
    themeId: int,
    sketch: bool,
    isVerbose: bool)

  /** The SVG rendering options taken from the configuration. */
  datatype Style = Style(pad: int, sketch: bool, themeId: int)

  function StyleOf(conf: Config): Style {
    Style(RenderPadding, conf.sketch, conf.themeId)
  }

  /** How the D2 libraries behave on each style and source text. */
  type Library = (Style, string) -> Rendering.Pipeline

  /** The poll interval `runBot` uses: the configured one when positive, else the default. */
  function PollingInterval(conf: Config): (interval: int)
    ensures interval > 0
    ensures conf.monitorInterval > 0 ==> interval == conf.monitorInterval
    ensures conf.monitorInterval <= 0 ==> interval == DefaultPollingInterval
  {
    if conf.monitorInterval <= 0 then DefaultPollingInterval else conf.monitorInterval
  }

  // ---------------------------------------------------------------- allowance

  /** The allowance rule: a username that is present and listed, compared exactly. */
  predicate UsernameAllowed(conf: Config, username: Option<string>) {
    username.Some? && username.value in conf.allowedIds
  }

  predicate UpdateAllowed(conf: Config, update: Update) {
    update.from.Some? && UsernameAllowed(conf, update.from.value.username)
  }

  /** isUsernameAllowed: a linear search of `allowed_ids` that stops at the first match. */
  method IsUsernameAllowed(conf: Config, username: Option<string>) returns (allowed: bool)
    ensures allowed == UsernameAllowed(conf, username)
  {
    if username.None? {
      return false;
    }
    var i := 0;
    while i < |conf.allowedIds|
      invariant 0 <= i <= |conf.allowedIds|
      invariant username.value !in conf.allowedIds[..i]
    {
      if conf.allowedIds[i] == username.value {
        return true;
      }
      i := i + 1;
    }
    assert conf.allowedIds[..i] == conf.allowedIds;
    return false;
  }

  method IsUpdateAllowed(conf: Config, update: Update) returns (allowed: bool)
    ensures allowed == UpdateAllowed(conf, update)
  {
    allowed := false;
    if update.from.Some? {
      allowed := IsUsernameAllowed(conf, update.from.value.username);
    }
  }

  // ------------------------------------------------- calls each handler makes

  function ReplyErrorCalls(answer: Oracle, n: nat, chatId: int, messageId: int, text: string): seq<Exchange> {
    [Ask(answer, n, SendMessage(chatId, text, Some(messageId)))]
  }

  function ReplyRenderedCalls(answer: Oracle, n: nat, lib: Library, conf: Config,
                              chatId: int, messageId: int, text: string): seq<Exchange>
  {
    [Ask(answer, n, SendChatAction(chatId))] +
    match Rendering.Rendered(lib(StyleOf(conf), text))
    case Ok(png) =>
      var sent := Ask(answer, n + 1, SendDocument(chatId, png, messageId));
      [sent] + if sent.ok then [Ask(answer, n + 2, SetMessageReaction(chatId, messageId))] else []
    case Err(e) =>
      ReplyErrorCalls(answer, n + 1, chatId, messageId, RenderFailureText(e))
  }

  function HandleMessageCalls(answer: Oracle, n: nat, lib: Library, conf: Config, message: Message): seq<Exchange>
    requires message.from.Some? && message.text.Some?
  {
    if UsernameAllowed(conf, message.from.value.username) then
      ReplyRenderedCalls(answer, n, lib, conf, message.chatId, message.messageId, message.text.value)
    else
      []
  }

  /** `download` is the outcome of fetching the file once its URL is known, as text. */
  function HandleDocumentCalls(answer: Oracle, n: nat, lib: Library, conf: Config, message: Message,
                               download: Result<string>): seq<Exchange>
    requires message.from.Some? && message.document.Some?
  {
    var doc := message.document.value;
    if !UsernameAllowed(conf, message.from.value.username) then
      []
    else if doc.fileName.Some? && HasSuffix(doc.fileName.value, DiagramExtension) then
      var file := Ask(answer, n, GetFile(doc.fileId));
      [file] +
      if file.ok && download.Ok? then
        ReplyRenderedCalls(answer, n + 1, lib, conf, message.chatId, message.messageId, download.value)
      else
        []
    else if doc.fileName.Some? then
      ReplyErrorCalls(answer, n, message.chatId, message.messageId, NotDiagramText(doc.fileName.value))
    else
      []
  }

  function HandleNoSupportCalls(answer: Oracle, n: nat, conf: Config, update: Update): seq<Exchange> {
    if UpdateAllowed(conf, update) && update.message.Some? then
      ReplyErrorCalls(answer, n, update.message.value.chatId, update.message.value.messageId, MessageNotSupported)
    else
      []
  }

  function HandleHelpCommandCalls(answer: Oracle, n: nat, conf: Config, update: Update): seq<Exchange> {
    if UpdateAllowed(conf, update) && update.message.Some? then
      [Ask(answer, n, SendMessage(update.message.value.chatId, MessageHelp, None))]
    else
      []
  }

  function HandlePrivacyCommandCalls(answer: Oracle, n: nat, update: Update): seq<Exchange> {
    if update.message.Some? then
      [Ask(answer, n, SendMessage(update.message.value.chatId, MessagePrivacy, None))]
    else
      []
  }

  function HandleNoMatchingCommandCalls(answer: Oracle, n: nat, conf: Config, update: Update, cmd: string): seq<Exchange> {
    if UpdateAllowed(conf, update) && update.message.Some? then
      [Ask(answer, n, SendMessage(update.message.value.chatId, NoMatchingCommandText(cmd), None))]
    else
      []
  }

  // ------------------------------------------------------------------ routing

  /** The command handlers `runBot` registers. */
  datatype CommandHandler = HelpHandler | PrivacyHandler | NoMatchingHandler

  function CommandRoute(cmd: string): CommandHandler {
    if cmd == CommandStart || cmd == CommandHelp then HelpHandler
    else if cmd == CommandPrivacy then PrivacyHandler
    else NoMatchingHandler
  }

  /** What the library hands to the handlers registered in `runBot`. */
  datatype Event =
    | MessageReceived(update: Update, message: Message, edited: bool)   // the message handler
    | CommandReceived(update: Update, command: string, args: string)    // a command handler
    | Polled(update: Update, error: Option<string>)                     // the polling callback

  /** The message handlers read `message.From` without a nil check. */
  predicate Deliverable(event: Event) {
    (event.MessageReceived? && (event.message.text.Some? || event.message.document.Some?)) ==>
      event.message.from.Some?
  }

  function DispatchCalls(answer: Oracle, n: nat, lib: Library, conf: Config, download: Result<string>,
                         event: Event): seq<Exchange>
    requires Deliverable(event)
  {
    match event
    case MessageReceived(_, message, _) =>
      if message.text.Some? then HandleMessageCalls(answer, n, lib, conf, message)
      else if message.document.Some? then HandleDocumentCalls(answer, n, lib, conf, message, download)
      else []
    case CommandReceived(update, command, _) =>
      (match CommandRoute(command)
       case HelpHandler => HandleHelpCommandCalls(answer, n, conf, update)
       case PrivacyHandler => HandlePrivacyCommandCalls(answer, n, update)
       case NoMatchingHandler => HandleNoMatchingCommandCalls(answer, n, conf, update, command))
    case Polled(update, error) =>
      if error.None? then HandleNoSupportCalls(answer, n, conf, update) else []
  }

  // ----------------------------------------------------------------- handlers

  method ReplyError(bot: Bot, chatId: int, messageId: int, text: string)
    modifies bot
    ensures bot.log == old(bot.log) + ReplyErrorCalls(bot.answer, |old(bot.log)|, chatId, messageId, text)
  {
    var sent := bot.SendMessageTo(chatId, text, Some(messageId));
  }

  method ReplyRendered(bot: Bot, lib: Library, conf: Config, chatId: int, messageId: int, text: string)
    modifies bot
    ensures bot.log == old(bot.log) + ReplyRenderedCalls(bot.answer, |old(bot.log)|, lib, conf, chatId, messageId, text)
  {
    var typing := bot.SendChatActionTyping(chatId);
    ghost var stages;
    var rendered;
    rendered, stages := Rendering.RenderDiagram(lib(StyleOf(conf), text));
    match rendered
    case Ok(png) =>
      var sent := bot.SendDocumentTo(chatId, png, messageId);
      if sent {
        var reacted := bot.SetReaction(chatId, messageId);
      }
    case Err(e) =>
      ReplyError(bot, chatId, messageId, RenderFailureText(e));
  }

  method HandleMessage(bot: Bot, lib: Library, conf: Config, message: Message)
    requires message.from.Some? && message.text.Some?
    modifies bot
    ensures bot.log == old(bot.log) + HandleMessageCalls(bot.answer, |old(bot.log)|, lib, conf, message)
  {
    var allowed := IsUsernameAllowed(conf, message.from.value.username);
    if allowed {
      ReplyRendered(bot, lib, conf, message.chatId, message.messageId, message.text.value);
    }
  }

  method HandleDocument(bot: Bot, lib: Library, conf: Config, message: Message, download: Result<string>)
    requires message.from.Some? && message.document.Some?
    modifies bot
    ensures bot.log == old(bot.log) + HandleDocumentCalls(bot.answer, |old(bot.log)|, lib, conf, message, download)
  {
    var allowed := IsUsernameAllowed(conf, message.from.value.username);
    if allowed {
      var doc := message.document.value;
      if doc.fileName.Some? && HasSuffix(doc.fileName.value, DiagramExtension) {
        var fetched := bot.FetchFile(doc.fileId);
        if fetched {
          if download.Ok? {
            ReplyRendered(bot, lib, conf, message.chatId, message.messageId, download.value);
          }
        }
      } else {
        if doc.fileName.Some? {
          ReplyError(bot, message.chatId, message.messageId, NotDiagramText(doc.fileName.value));
        }
      }
    }
  }

  method HandleNoSupport(bot: Bot, conf: Config, update: Update)
    modifies bot
    ensures bot.log == old(bot.log) + HandleNoSupportCalls(bot.answer, |old(bot.log)|, conf, update)
  {
    var allowed := IsUpdateAllowed(conf, update);
    if allowed {
      if update.message.Some? {
        ReplyError(bot, update.message.value.chatId, update.message.value.messageId, MessageNotSupported);
      }
    }
  }

  method HandleHelpCommand(bot: Bot, conf: Config, update: Update)
    modifies bot
    ensures bot.log == old(bot.log) + HandleHelpCommandCalls(bot.answer, |old(bot.log)|, conf, update)
  {
    var allowed := IsUpdateAllowed(conf, update);
    if allowed {
      if update.message.Some? {
        var sent := bot.SendMessageTo(update.message.value.chatId, MessageHelp, None);
      }
    }
  }

  method HandlePrivacyCommand(bot: Bot, update: Update)
    modifies bot
    ensures bot.log == old(bot.log) + HandlePrivacyCommandCalls(bot.answer, |old(bot.log)|, update)
  {
    if update.message.Some? {
      var sent := bot.SendMessageTo(update.message.value.chatId, MessagePrivacy, None);
    }
  }

  method HandleNoMatchingCommand(bot: Bot, conf: Config, update: Update, cmd: string)
    modifies bot
    ensures bot.log == old(bot.log) + HandleNoMatchingCommandCalls(bot.answer, |old(bot.log)|, conf, update, cmd)
  {
    var allowed := IsUpdateAllowed(conf, update);
    if allowed {
      if update.message.Some? {
        var sent := bot.SendMessageTo(update.message.value.chatId, NoMatchingCommandText(cmd), None);
      }
    }
  }

  /** The handlers registered in `runBot`, applied to one event. */
  method Dispatch(bot: Bot, lib: Library, conf: Config, download: Result<string>, event: Event)
    requires Deliverable(event)
    modifies bot
    ensures bot.log == old(bot.log) + DispatchCalls(bot.answer, |old(bot.log)|, lib, conf, download, event)
  {
    match event
    case MessageReceived(_, message, _) =>
      if message.text.Some? {
        HandleMessage(bot, lib, conf, message);
      } else if message.document.Some? {
        HandleDocument(bot, lib, conf, message, download);
      }
    case CommandReceived(update, command, _) =>
      match CommandRoute(command) {
        case HelpHandler => HandleHelpCommand(bot, conf, update);
        case PrivacyHandler => HandlePrivacyCommand(bot, update);
        case NoMatchingHandler => HandleNoMatchingCommand(bot, conf, update, command);
      }
    case Polled(update, error) =>
      if error.None? {
        HandleNoSupport(bot, conf, update);
      }
  }

  // --------------------------------------------------------------- properties

  /** The sender the handler reached by an event checks. */
  function Sender(event: Event): Option<User> {
    match event
    case MessageReceived(_, message, _) => message.from
    case CommandReceived(update, _, _) => update.from
    case Polled(update, _) => update.from
  }

  predicate IsPrivacyCommand(event: Event) {
    event.CommandReceived? && CommandRoute(event.command) == PrivacyHandler
  }

  /** A sender that is absent or not listed gets no call at all, except for /privacy. */
  lemma DeniedSenderIsSilent(answer: Oracle, n: nat, lib: Library, conf: Config, download: Result<string>, event: Event)
    requires Deliverable(event) && !IsPrivacyCommand(event)
    requires Sender(event).None? || !UsernameAllowed(conf, Sender(event).value.username)
    ensures DispatchCalls(answer, n, lib, conf, download, event) == []
  {
  }

  /** /privacy needs no allowance: any update that carries a message gets the policy text. */
  lemma PrivacyIsUnconditional(answer: Oracle, n: nat, lib: Library, conf: Config, download: Result<string>,
                               update: Update, args: string)
    requires update.message.Some?
    ensures DispatchCalls(answer, n, lib, conf, download, CommandReceived(update, CommandPrivacy, args))
         == [Ask(answer, n, SendMessage(update.message.value.chatId, MessagePrivacy, None))]
  {
  }

  /** /start and /help reach the same handler: the help text, for allowed senders only. */
  lemma StartAndHelpAnswerAlike(answer: Oracle, n: nat, lib: Library, conf: Config, download: Result<string>,
                                update: Update, args1: string, args2: string)
    ensures DispatchCalls(answer, n, lib, conf, download, CommandReceived(update, CommandStart, args1))
         == DispatchCalls(answer, n, lib, conf, download, CommandReceived(update, CommandHelp, args2))
    ensures DispatchCalls(answer, n, lib, conf, download, CommandReceived(update, CommandStart, args1))
         == if UpdateAllowed(conf, update) && update.message.Some?
            then [Ask(answer, n, SendMessage(update.message.value.chatId, MessageHelp, None))]
            else []
  {
  }

  /** Any other command gets the "not supported" notice naming it, for allowed senders only. */
  lemma UnknownCommandIsNamed(answer: Oracle, n: nat, lib: Library, conf: Config, download: Result<string>,
                              update: Update, cmd: string, args: string)
    requires cmd != CommandStart && cmd != CommandHelp && cmd != CommandPrivacy
    requires UpdateAllowed(conf, update) && update.message.Some?
    ensures DispatchCalls(answer, n, lib, conf, download, CommandReceived(update, cmd, args))
         == [Ask(answer, n, SendMessage(update.message.value.chatId, NoMatchingCommandText(cmd), None))]
    ensures NoMatchingCommandText(cmd)[|NoMatchingCommandText(cmd)| - |cmd|..] == cmd
  {
  }

  /** The `edited` flag is ignored: an edited message is rendered again. */
  lemma EditsRerender(answer: Oracle, n: nat, lib: Library, conf: Config, download: Result<string>,
                      update: Update, message: Message)
    requires Deliverable(MessageReceived(update, message, false))
    ensures DispatchCalls(answer, n, lib, conf, download, MessageReceived(update, message, true))
         == DispatchCalls(answer, n, lib, conf, download, MessageReceived(update, message, false))
  {
  }

  /** A message with text goes to the text handler even when it also has a document. */
  lemma TextBeforeDocument(answer: Oracle, n: nat, lib: Library, conf: Config, download: Result<string>,
                           update: Update, message: Message, edited: bool)
    requires message.from.Some? && message.text.Some?
    ensures DispatchCalls(answer, n, lib, conf, download, MessageReceived(update, message, edited))
         == HandleMessageCalls(answer, n, lib, conf, message)
  {
  }

  /** Rendering always ends in exactly one reply: the document or the error text. */
  lemma {:induction false} RenderedReplyIsExactlyOne(answer: Oracle, n: nat, lib: Library, conf: Config,
                                                     chatId: int, messageId: int, text: string)
    ensures Replies(ReplyRenderedCalls(answer, n, lib, conf, chatId, messageId, text)) == 1
  {
    var typing := [Ask(answer, n, SendChatAction(chatId))];
    var calls := ReplyRenderedCalls(answer, n, lib, conf, chatId, messageId, text);
    var rest := calls[1..];
    assert calls == typing + rest;
    RepliesAppend(typing, rest);
    assert Replies(typing) == 0 by {
      assert typing[1..] == [];
    }
    if rest != [] {
      assert Replies(rest) == 1 by {
        RepliesAppend([rest[0]], rest[1..]);
        assert [rest[0]] + rest[1..] == rest;
        assert [rest[0]][1..] == [];
        assert rest[1..] == [] || rest[1..] == [rest[1]];
        if rest[1..] != [] {
          assert [rest[1]][1..] == [];
        }
      }
    }
  }

  /** On success the document carries exactly the rendered bytes, and a reaction follows exactly when it was delivered. */
  lemma RenderSuccessSendsRenderedBytes(answer: Oracle, n: nat, lib: Library, conf: Config,
                                        chatId: int, messageId: int, text: string, png: Bytes)
    requires Rendering.Rendered(lib(StyleOf(conf), text)) == Ok(png)
    ensures var calls := ReplyRenderedCalls(answer, n, lib, conf, chatId, messageId, text);
      2 <= |calls| <= 3 &&
      calls[0].request == SendChatAction(chatId) &&
      calls[1].request == SendDocument(chatId, png, messageId) &&
      (|calls| == 3 <==> calls[1].ok) &&
      (|calls| == 3 ==> calls[2].request == SetMessageReaction(chatId, messageId))
  {
  }

  /** On failure the only reply is the error text quoting the failure, and no document is sent. */
  lemma RenderFailureSendsErrorOnly(answer: Oracle, n: nat, lib: Library, conf: Config,
                                    chatId: int, messageId: int, text: string, err: string)
    requires Rendering.Rendered(lib(StyleOf(conf), text)) == Err(err)
    ensures var calls := ReplyRenderedCalls(answer, n, lib, conf, chatId, messageId, text);
      calls == [Ask(answer, n, SendChatAction(chatId)),
                Ask(answer, n + 1, SendMessage(chatId, RenderFailureText(err), Some(messageId)))] &&
      forall i :: 0 <= i < |calls| ==> !calls[i].request.SendDocument?
  {
  }

  /** Every reaction comes right after a document the server accepted. */
  predicate ReactionsFollowDelivery(calls: seq<Exchange>) {
    forall i :: 0 <= i < |calls| && calls[i].request.SetMessageReaction? ==>
      0 < i && calls[i - 1].request.SendDocument? && calls[i - 1].ok
  }

  lemma ReactionsFollowDeliveryPrepend(x: Exchange, calls: seq<Exchange>)
    requires ReactionsFollowDelivery(calls)
    requires !x.request.SetMessageReaction?
    requires calls != [] ==> !calls[0].request.SetMessageReaction?
    ensures ReactionsFollowDelivery([x] + calls)
  {
    var all := [x] + calls;
    forall i | 0 <= i < |all| && all[i].request.SetMessageReaction?
      ensures 0 < i && all[i - 1].request.SendDocument? && all[i - 1].ok
    {
      assert i > 0;
      assert all[i] == calls[i - 1];
    }
  }

  /** Whatever the event, the bot sends at most one reply, and reacts only to a delivered document. */
  lemma EveryDispatchRepliesAtMostOnce(answer: Oracle, n: nat, lib: Library, conf: Config,
                                       download: Result<string>, event: Event)
    requires Deliverable(event)
    ensures Replies(DispatchCalls(answer, n, lib, conf, download, event)) <= 1
    ensures ReactionsFollowDelivery(DispatchCalls(answer, n, lib, conf, download, event))
  {
    var calls := DispatchCalls(answer, n, lib, conf, download, event);
    if event.MessageReceived? && |calls| > 1 {
      var message := event.message;
      if message.text.Some? {
        RenderedReplyIsExactlyOne(answer, n, lib, conf, message.chatId, message.messageId, message.text.value);
      } else {
        var rendered := ReplyRenderedCalls(answer, n + 1, lib, conf, message.chatId, message.messageId, download.value);
        assert calls == [calls[0]] + rendered;
        RenderedReplyIsExactlyOne(answer, n + 1, lib, conf, message.chatId, message.messageId, download.value);
        RepliesAppend([calls[0]], rendered);
        assert [calls[0]][1..] == [];
        ReactionsFollowDeliveryPrepend(calls[0], rendered);
      }
    } else if |calls| == 1 {
      assert calls[1..] == [];
    }
  }

  /** An allowed text message is rendered once (one typing notice) and answered exactly once. */
  lemma AuthorizedTextRendersOnce(answer: Oracle, n: nat, lib: Library, conf: Config, download: Result<string>,
                                  update: Update, message: Message, edited: bool)
    requires message.from.Some? && message.text.Some?
    requires UsernameAllowed(conf, message.from.value.username)
    ensures var calls := DispatchCalls(answer, n, lib, conf, download, MessageReceived(update, message, edited));
      calls == ReplyRenderedCalls(answer, n, lib, conf, message.chatId, message.messageId, message.text.value) &&
      Replies(calls) == 1
  {
    RenderedReplyIsExactlyOne(answer, n, lib, conf, message.chatId, message.messageId, message.text.value);
  }

  /** A document whose name lacks ".d2" gets one rejection naming the file, and is not rendered. */
  lemma NonDiagramFileIsRejected(answer: Oracle, n: nat, lib: Library, conf: Config, message: Message,
                                 download: Result<string>, name: string)
    requires message.from.Some? && message.document.Some?
    requires UsernameAllowed(conf, message.from.value.username)
    requires message.document.value.fileName == Some(name) && !HasSuffix(name, DiagramExtension)
    ensures HandleDocumentCalls(answer, n, lib, conf, message, download)
         == [Ask(answer, n, SendMessage(message.chatId, NotDiagramText(name), Some(message.messageId)))]
    ensures NotDiagramText(name)[1..|name| + 1] == name
  {
  }

  /** A document without a file name gets no call at all. */
  lemma NamelessDocumentIsIgnored(answer: Oracle, n: nat, lib: Library, conf: Config, message: Message,
                                  download: Result<string>)
    requires message.from.Some? && message.document.Some?
    requires message.document.value.fileName.None?
    ensures HandleDocumentCalls(answer, n, lib, conf, message, download) == []
  {
  }

  /** A ".d2" file whose metadata or download fails: only the metadata request, no reply, no render. */
  lemma FetchFailureIsSilent(answer: Oracle, n: nat, lib: Library, conf: Config, message: Message,
                             download: Result<string>, name: string)
    requires message.from.Some? && message.document.Some?
    requires UsernameAllowed(conf, message.from.value.username)
    requires message.document.value.fileName == Some(name) && HasSuffix(name, DiagramExtension)
    requires !answer(n, GetFile(message.document.value.fileId)) || download.Err?
    ensures HandleDocumentCalls(answer, n, lib, conf, message, download)
         == [Ask(answer, n, GetFile(message.document.value.fileId))]
  {
  }

  /** A fetched ".d2" file is rendered from its downloaded content and answered like a text message. */
  lemma FetchedDiagramIsRendered(answer: Oracle, n: nat, lib: Library, conf: Config, message: Message,
                                 source: string, name: string)
    requires message.from.Some? && message.document.Some?
    requires UsernameAllowed(conf, message.from.value.username)
    requires message.document.value.fileName == Some(name) && HasSuffix(name, DiagramExtension)
    requires answer(n, GetFile(message.document.value.fileId))
    ensures HandleDocumentCalls(answer, n, lib, conf, message, Ok(source))
         == [Ask(answer, n, GetFile(message.document.value.fileId))] +
            ReplyRenderedCalls(answer, n + 1, lib, conf, message.chatId, message.messageId, source)
  {
  }
}
