# telegram-d2-bot: dispatch and authorization model

A Dafny model of the part of `meinside/telegram-d2-bot` that the repository
itself owns: deciding, for each Telegram update, whether the sender is
allowed, which handler runs, which calls go out to the Telegram Bot API, and
how the chain of D2 rendering library calls short-circuits and cleans up.
The D2 libraries, the Telegram client and the file download are not
modelled; they enter only as opaque outcomes.

- `support.dfy` (`Support`): Go pointers as `Option`, `(value, error)` as
  `Result`, byte slices, `strings.HasPrefix` / `strings.HasSuffix`.
- `transport.dfy` (`Transport`): the Telegram types the handlers read
  (`User`, `Document`, `Message`, `Update`) and the client as a class `Bot`
  whose methods append one `Exchange` (request plus the server's ok flag)
  to `log`.  The server is an oracle `answer(n, request)`: the ok flag of
  the n-th call.
- `rendering.dfy` (`Rendering`): `renderDiagram`.  A `Pipeline` says which
  library call fails and with what message, and which PNG bytes come out;
  `RenderDiagram` keeps the source's nested shape and its deferred cleanup,
  and is proved equal to a short-circuiting chain over the list of stages.
  bot.go and main.go nest the same calls the same way (main.go:64-96), so
  both revisions use this one model.
- `dispatcher.dfy` (`Dispatcher`): bot.go, the current revision.  Each
  handler is a method whose postcondition says the log grew by exactly the
  calls a specification function lists (`HandleMessageCalls`, ...); the
  lemmas state the bot's promises about those calls.
- `legacy_dispatcher.dfy` (`LegacyDispatcher`): main.go, the earlier
  revision, kept as a separate module so that the two behaviours are never
  mixed: commands are recognised inside the text handler, only `/start` is
  answered, a failed render is only logged, and no reaction is set.

A handler that renders always sends the "typing" chat action first, and no
other code path sends it, so a `SendChatAction` in a log marks a render
attempt.  The code bounds no call with a timeout (the render runs under
`context.Background()`), and it returns the library's error message
unchanged, with no prefix naming the stage.

## Model

| member | source | states |
|---|---|---|
| `Rendering.Attempted` | bot.go:144-170 | the stages a short-circuiting chain runs are a prefix of the chain |
| `Rendering.AllSucceed` | bot.go:144-171 | when no stage fails, every stage runs and no error is reported |
| `Rendering.FailsAt` | bot.go:144-180 | when stage i is the first to fail, exactly stages 0..i run and stage i's error is the result |
| `Rendering.FailureIndex` | bot.go:144-170 | the index of the first failing stage: all before it succeed, it fails (or there is none) |
| `Rendering.EarlyFailure` | bot.go:144-180 | a failure up to rasteriser init stops the chain there, with that error and no cleanup call |
| `Rendering.LateOutcome` | bot.go:162-172 | once the rasteriser is initialised, conversion and then cleanup run; a conversion error wins over a cleanup error |
| `Rendering.RenderDiagram` | bot.go:142-181 | the nested calls return exactly the chain's result and call exactly the chain's stages, plus cleanup when init succeeded |
| `Rendering.ShortCircuit` | bot.go:144-180 | the first failing stage's error is returned and no later stage is called |
| `Rendering.CleanupIffRasteriserStarted` | bot.go:162-168 | cleanup is called exactly when every stage up to rasteriser init succeeded |
| `Rendering.CleanupErrorOnlyAfterSuccess` | bot.go:163-172 | a cleanup error replaces the result only when everything else succeeded; the PNG is returned only when no call failed |
| `Dispatcher.PollingInterval` | bot.go:398-401 | the interval is the configured one when positive, otherwise 5, and always positive |
| `Dispatcher.IsUsernameAllowed` | bot.go:184-196 | true exactly when the username is present and equals some entry of `allowed_ids`; a nil username is denied |
| `Dispatcher.IsUpdateAllowed` | bot.go:199-205 | false without a sender, otherwise the username rule on the sender |
| `Dispatcher.ReplyError` | bot.go:233-241 | one text message to the chat, in reply to the message id |
| `Dispatcher.ReplyRendered` | bot.go:208-230 | typing notice, then the document with the rendered bytes and a reaction only if it was accepted, or one error text on render failure |
| `Dispatcher.HandleMessage` | bot.go:244-258 | an allowed sender's text is rendered in reply to its message; otherwise no call |
| `Dispatcher.HandleDocument` | bot.go:261-292 | allowed `.d2` files are fetched and rendered; other names get the rejection; nameless files and fetch failures get nothing |
| `Dispatcher.HandleNoSupport` | bot.go:295-310 | an allowed update with a message gets the "not supported" reply; otherwise no call |
| `Dispatcher.HandleHelpCommand` | bot.go:313-331 | an allowed update with a message gets the help text; otherwise no call |
| `Dispatcher.HandlePrivacyCommand` | bot.go:334-346 | any update with a message gets the privacy text, with no allowance check |
| `Dispatcher.HandleNoMatchingCommand` | bot.go:349-367 | an allowed update with a message gets the notice naming the command; otherwise no call |
| `Dispatcher.Dispatch` | bot.go:403-434 | the registered handlers: text before document, `/start` and `/help` to help, `/privacy` to privacy, other commands to no-match, polled updates to no-support unless polling failed |
| `Dispatcher.DeniedSenderIsSilent` | bot.go:244-367 | a sender that is absent or not allowed gets no outbound call for any event except `/privacy` |
| `Dispatcher.PrivacyIsUnconditional` | bot.go:419-421 | `/privacy` sends the policy text whenever the update carries a message, whoever sent it |
| `Dispatcher.StartAndHelpAnswerAlike` | bot.go:413-418 | `/start` and `/help` produce the same calls: the help text for allowed senders, nothing otherwise |
| `Dispatcher.UnknownCommandIsNamed` | bot.go:422-424 | any other command, from an allowed sender when the update carries a message, gets one notice that ends with the command's name |
| `Dispatcher.EditsRerender` | bot.go:404-410 | the `edited` flag does not change what is sent, so an edit is rendered again |
| `Dispatcher.TextBeforeDocument` | bot.go:405-409 | a message with text goes to the text handler even when it also has a document |
| `Dispatcher.RenderedReplyIsExactlyOne` | bot.go:213-229 | every render ends in exactly one reply: the document or the error text, never both, never neither |
| `Dispatcher.RenderSuccessSendsRenderedBytes` | bot.go:213-224 | on success the document carries exactly the rendered bytes in reply to the message, and a reaction follows exactly when it was accepted |
| `Dispatcher.RenderFailureSendsErrorOnly` | bot.go:225-229 | on failure the only reply is "Failed to render message: " and the error, and no document is sent |
| `Dispatcher.EveryDispatchRepliesAtMostOnce` | bot.go:403-434 | for every event at most one reply is sent, and every reaction follows a document the server accepted |
| `Dispatcher.AuthorizedTextRendersOnce` | bot.go:247-252 | an allowed text message is rendered once and gets exactly one reply |
| `Dispatcher.NonDiagramFileIsRejected` | bot.go:282-285 | from an allowed sender, a file name without the `.d2` suffix gets one rejection quoting the exact name, and no render |
| `Dispatcher.NamelessDocumentIsIgnored` | bot.go:269-286 | a document without a file name gets no call at all |
| `Dispatcher.FetchFailureIsSilent` | bot.go:270-281 | a failed file lookup or download leaves only the lookup call: no reply, no render |
| `Dispatcher.FetchedDiagramIsRendered` | bot.go:269-275 | from an allowed sender, a fetched `.d2` file is rendered from its downloaded content in reply to its message |
| `LegacyDispatcher.OpenConfig` | main.go:49-61 | any read or decode failure yields the zero config with the error, even after a partial decode; otherwise the decoded config |
| `LegacyDispatcher.MonitoringInterval` | main.go:257-260 | the interval is the configured one when positive, otherwise 5 |
| `LegacyDispatcher.CheckAllowance` | main.go:99-111 | true exactly when the id is present and a member of `allowedIds` |
| `LegacyDispatcher.ReplyError` | main.go:133-141 | one text message in reply to the message id |
| `LegacyDispatcher.ReplyRendered` | main.go:114-130 | typing notice, then one document with the rendered bytes on success, and nothing more on failure |
| `LegacyDispatcher.HandleMessage` | main.go:144-176 | allowed commands: only exactly `/start` is answered; allowed other text is rendered; denied senders get nothing |
| `LegacyDispatcher.HandleDocument` | main.go:194-227 | the same `.d2` rule as the current revision |
| `LegacyDispatcher.HandleUpdate` | main.go:230-243 | a polling error does nothing; text takes precedence over documents |
| `LegacyDispatcher.CommandsAreNeverRendered` | main.go:151-163 | allowed text starting with "/" is never rendered; only text equal to `/start` gets the start message |
| `LegacyDispatcher.PlainTextIsRendered` | main.go:164-168 | allowed non-command text is rendered in reply to its own message |
| `LegacyDispatcher.RenderFailureIsSilent` | main.go:127-129 | a failed render sends no reply at all in this revision |
| `LegacyDispatcher.RenderSuccessSendsDocumentOnly` | main.go:119-126 | a successful render sends one document with exactly the rendered bytes and no reaction |
| `LegacyDispatcher.DeniedSenderIsSilent` | main.go:169-175 | a sender whose username is absent or not allowed gets no outbound call |
| `LegacyDispatcher.PollErrorDoesNothing` | main.go:232-235 | a polling error makes no call |
| `LegacyDispatcher.TextBeforeDocument` | main.go:237-241 | a message with text goes to the text handler even when it also has a document |
| `LegacyDispatcher.NonDiagramFileIsRejected` | main.go:215-218 | from an allowed sender, a file name without `.d2` gets one rejection quoting the exact name, and no render |
| `LegacyDispatcher.NamelessDocumentIsIgnored` | main.go:202-219 | a document without a file name gets no call |
| `LegacyDispatcher.FetchFailureIsSilent` | main.go:203-214 | a failed file lookup or download leaves only the lookup call |
| `LegacyDispatcher.EveryUpdateRepliesAtMostOnce` | main.go:230-243 | for every update at most one reply is sent and no reaction is ever set |

## Left out

- config.go and bot.go's `loadConfig`/`standardizeJSON`: file reading, JSON-with-comments normalisation, JSON decoding and the Infisical secret lookup are library and network calls with no logic of their own.
- The D2 compiler, text measurement, dagre layout, exporter, SVG renderer and the Playwright rasteriser: each is one opaque success or failure in `Rendering.Pipeline`.  The render options that do not affect control flow (scale 1.0, the dark theme) are not modelled.
- `getURL` and `GetFileURL`: the HTTP download is the opaque `download` outcome, delivered as text (Go's `string(content)` only reinterprets the bytes).
- The Telegram client itself: `GetMe`, `DeleteWebhook`, the polling loop, concurrency between handlers, and the library's choice of which registered handler receives an update (the model starts from the `Event` the library delivers).
- `main()`: the Playwright install and the usage text are process and console I/O; `runBot`'s panic on a configuration error is not modelled beyond `OpenConfig`'s result.
- Logging: every `log.Printf`, including the denial messages that bot.go prints only when `is_verbose` is set, is console output and is not modelled; the model shows only that a denial makes no outbound call.
- The MarkdownV2 parse mode of the fixed texts, the reaction emoji and `toPointer` are cosmetic.
- Rendering.RenderDiagram: when cleanup fails after a successful conversion, Go returns the PNG bytes together with the error; every caller reads only the error, so the model returns just the error.
- Dispatcher.HandleMessage, Dispatcher.HandleDocument, LegacyDispatcher.HandleMessage, LegacyDispatcher.HandleDocument: the source dereferences the message's sender without a nil check, so the model requires a sender; messages without one (channel posts) are not modelled.
- LegacyDispatcher.HandleUpdate: an update with no `Message` reaches `update.Message.HasDocument()` on a nil pointer; what that does depends on the library's method body, which is not part of this model, and the model treats it as making no call.
