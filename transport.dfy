/**
 * The Telegram Bot API client (`*tg.Bot`) as the bot sees it: a sequence of
 * outbound calls, each answered ok or not ok by the server.  The server is an
 * oracle: `answer(n, r)` is the `Ok` flag the n-th call of the process gets
 * back when that call is request `r`.
 */
module Transport {
  import opened Support

  /** The parts of a Telegram user, document, message and update the handlers read. */
  datatype User = User(username: Option<string>)

  datatype Document = Document(fileId: string, fileName: Option<string>)

  datatype Message = Message(
    chatId: int,
    messageId: int,
    from: Option<User>,
    text: Option<string>,
    document: Option<Document>)

  /** `from` is what `update.GetFrom()` returns, `message` what `update.GetMessage()` returns. */
  datatype Update = Update(from: Option<User>, message: Option<Message>)

  /** The outbound calls the handlers make. */
  datatype Request =
    | SendChatAction(chatId: int)                                  // always the "typing" action
    | SendMessage(chatId: int, text: string, replyTo: Option<int>)
    | SendDocument(chatId: int, file: Bytes, replyToId: int)
    | SetMessageReaction(chatId: int, messageId: int)
    | GetFile(fileId: string)

  /** One call as it happened: what was asked and whether the server said ok. */
  datatype Exchange = Exchange(request: Request, ok: bool)

  type Oracle = (nat, Request) -> bool

  /** The exchange that results when the n-th call of the process is `r`. */
  function Ask(answer: Oracle, n: nat, r: Request): Exchange {
    Exchange(r, answer(n, r))
  }

  /** A reply the user sees in the chat: a text message or a document. */
  predicate IsReply(r: Request) {
    r.SendMessage? || r.SendDocument?
  }

  /** How many user-visible replies a sequence of calls contains. */
  function Replies(calls: seq<Exchange>): (k: nat)
    ensures k <= |calls|
  {
    if calls == [] then 0
    else (if IsReply(calls[0].request) then 1 else 0) + Replies(calls[1..])
  }

  lemma {:induction false} RepliesAppend(a: seq<Exchange>, b: seq<Exchange>)
    ensures Replies(a + b) == Replies(a) + Replies(b)
  {
    if a == [] {
      assert a + b == b;
    } else {
      assert (a + b)[1..] == a[1..] + b;
      RepliesAppend(a[1..], b);
    }
  }

  class Bot {
    /** What the server answers; fixed for the life of the client. */
    const answer: Oracle
    /** Every call made so far, oldest first. */
    var log: seq<Exchange>

    constructor (answer: Oracle)
      ensures this.answer == answer && log == []
    {
      this.answer := answer;
      log := [];
    }

    /** Issues one call; the answer is the server's for the next position. */
    method Call(r: Request) returns (ok: bool)
      modifies this
      ensures ok == answer(|old(log)|, r)
      ensures log == old(log) + [Ask(answer, |old(log)|, r)]
    {
      ok := answer(|log|, r);
      log := log + [Exchange(r, ok)];
    }

    method SendChatActionTyping(chatId: int) returns (ok: bool)
      modifies this
      ensures log == old(log) + [Ask(answer, |old(log)|, SendChatAction(chatId))]
      ensures ok == log[|log| - 1].ok
    {
      ok := Call(SendChatAction(chatId));
    }

    method SendMessageTo(chatId: int, text: string, replyTo: Option<int>) returns (ok: bool)
      modifies this
      ensures log == old(log) + [Ask(answer, |old(log)|, SendMessage(chatId, text, replyTo))]
      ensures ok == log[|log| - 1].ok
    {
      ok := Call(SendMessage(chatId, text, replyTo));
    }

    method SendDocumentTo(chatId: int, file: Bytes, replyTo: int) returns (ok: bool)
      modifies this
      ensures log == old(log) + [Ask(answer, |old(log)|, SendDocument(chatId, file, replyTo))]
      ensures ok == log[|log| - 1].ok
    {
      ok := Call(SendDocument(chatId, file, replyTo));
    }

    method SetReaction(chatId: int, messageId: int) returns (ok: bool)
      modifies this
      ensures log == old(log) + [Ask(answer, |old(log)|, SetMessageReaction(chatId, messageId))]
      ensures ok == log[|log| - 1].ok
    {
      ok := Call(SetMessageReaction(chatId, messageId));
    }

    method FetchFile(fileId: string) returns (ok: bool)
      modifies this
      ensures log == old(log) + [Ask(answer, |old(log)|, GetFile(fileId))]
      ensures ok == log[|log| - 1].ok
    {
      ok := Call(GetFile(fileId));
    }
  }
}
