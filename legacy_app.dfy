/**
 * The older single-file client (static/app.js): its conversation rules, the
 * line-buffered stream reading loop of `streamResponse`, the diagram
 * classification of `renderMarkdown`, and the error path of `sendMessage`.
 * The conversation list lives in a `ConversationManager`, whose create, delete
 * and switch behave exactly as the older copies do; the title rule and
 * `addMessage` differ and are modelled here.
 */
module Legacy {
  import opened Wrappers
  import opened Text
  import opened Json
  import opened Conversations
  import Api
  import Markdown

  /** The only title the older client replaces. */
  const NewChatTitle := "New Chat"

  // ---------------------------------------------------------------------------
  // Conversation rules

  /**
   * `addMessage(role, content)` on conversation `c`: the message is pushed and
   * `updatedAt` set; a user message that is the first message renames the
   * conversation when its title is exactly `New Chat` (`updateConversationTitle`).
   */
  function LegacyWithMessage(c: Conversation, m: Message): (r: Conversation)
    ensures r.messages == c.messages + [m] && r.updatedAt == m.timestamp
    ensures r.id == c.id && r.createdAt == c.createdAt
    ensures r.title != c.title ==> m.role == User && c.messages == [] && c.title == NewChatTitle
    ensures m.role == User && c.messages == [] && c.title == NewChatTitle ==> r.title == DerivedTitle(m.content)
  {
    var messages := c.messages + [m];
    var title := if m.role == User && |messages| == 1 && c.title == NewChatTitle then DerivedTitle(m.content) else c.title;
    Conversation(c.id, title, messages, c.createdAt, m.timestamp)
  }

  /**
   * The two title rules differ only on a conversation titled `新对话`, which the
   * newer client renames and the older one keeps.
   */
  lemma TitleRulesAgreeExceptChineseDefault(c: Conversation, m: Message)
    ensures c.title != "新对话" ==> LegacyWithMessage(c, m) == WithMessage(c, m)
    ensures c.title == "新对话" ==> LegacyWithMessage(c, m).title == "新对话"
    ensures c.title == "新对话" && m.role == User && c.messages == [] ==> WithMessage(c, m).title == DerivedTitle(m.content)
  {
    assert "新对话" in DefaultTitles;
  }

  // ---------------------------------------------------------------------------
  // Stream reading

  /** The inline parsing of one `data: ` payload, which is the same test as `_parseChunk`. */
  function LegacyChunk(parse: string -> Option<Json>): string -> string {
    data => Api.ParseChunk(parse, data)
  }

  /**
   * What the reading loop extracts from the text read so far: the deltas of its
   * complete lines only (every piece of the split but the last).
   */
  function BufferedExtract(chunk: string -> string, text: string): string {
    Api.ExtractLines(chunk, AllButLast(Split(text)))
  }

  /** The contents passed to `updateLastMessage`, one per emitted delta. */
  function Fulls(es: seq<(string, string)>): (r: seq<string>)
    ensures |r| == |es| && forall k :: 0 <= k < |es| ==> r[k] == es[k].1
  {
    if es == [] then [] else [es[0].1] + Fulls(es[1..])
  }

  lemma FullsAppend(a: seq<(string, string)>, b: seq<(string, string)>)
    ensures Fulls(a + b) == Fulls(a) + Fulls(b)
  {
  }

  /** Emitting over two line lists in turn is emitting over their concatenation. */
  lemma {:induction false} EmissionsAppend(chunk: string -> string, base: string, x: seq<string>, y: seq<string>)
    ensures Api.Emissions(chunk, base, x + y)
      == Api.Emissions(chunk, base, x) + Api.Emissions(chunk, base + Api.ExtractLines(chunk, x), y)
    decreases |x|
  {
    if x == [] {
      assert x + y == y;
      assert base + "" == base;
    } else {
      var d := Api.LineDelta(chunk, x[0]);
      var e := Api.Emitted(d, base);
      var rest := Api.ExtractLines(chunk, x[1..]);
      assert Api.Emissions(chunk, base, x + y) == e + Api.Emissions(chunk, base + d, x[1..] + y) by {
        assert (x + y)[0] == x[0];
        assert (x + y)[1..] == x[1..] + y;
        Api.EmissionsHead(chunk, base, x + y);
      }
      EmissionsAppend(chunk, base + d, x[1..], y);
      Api.EmissionsHead(chunk, base, x);
      assert (base + d) + rest == base + Api.ExtractLines(chunk, x) by {
        AppendAssoc(base, d, rest);
      }
      AppendAssoc(e, Api.Emissions(chunk, base + d, x[1..]), Api.Emissions(chunk, (base + d) + rest, y));
    }
  }

  /** One pass of the line loop's body: a non-empty delta extends the content, which is rendered. */
  method ReadLine(chunk: string -> string, base: string, line: string) returns (content: string, rendered: seq<string>)
    ensures content == base + Api.LineDelta(chunk, line)
    ensures rendered == Fulls(Api.Emitted(Api.LineDelta(chunk, line), base))
  {
    content := base;
    rendered := [];
    if !StartsWith(line, Api.DataPrefix) {
      return;
    }
    var data := line[|Api.DataPrefix|..];
    if data == Api.DoneSentinel {
      return;
    }
    var text := chunk(data);
    if text != "" {
      content := content + text;
      rendered := [content];
    }
  }

  /**
   * The `for (const line of lines)` loop: each non-empty delta is appended to the
   * assistant message's content, which is then rendered.
   */
  method ReadLines(chunk: string -> string, base: string, lines: seq<string>)
    returns (content: string, renders: seq<string>)
    ensures content == base + Api.ExtractLines(chunk, lines)
    ensures renders == Fulls(Api.Emissions(chunk, base, lines))
  {
    content := base;
    renders := [];
    ghost var emitted: seq<(string, string)> := [];
    assert [] + Api.Emissions(chunk, base, lines) == Api.Emissions(chunk, base, lines);
    var i := 0;
    while i < |lines|
      invariant 0 <= i <= |lines|
      invariant content + Api.ExtractLines(chunk, lines[i..]) == base + Api.ExtractLines(chunk, lines)
      invariant emitted + Api.Emissions(chunk, content, lines[i..]) == [] + Api.Emissions(chunk, base, lines)
      invariant renders == Fulls(emitted)
    {
      ghost var d := Api.LineDelta(chunk, lines[i]);
      ghost var before := content;
      Api.EmitStep(chunk, base, lines, i, content, [], emitted);
      var rendered;
      content, rendered := ReadLine(chunk, content, lines[i]);
      renders := renders + rendered;
      FullsAppend(emitted, Api.Emitted(d, before));
      emitted := emitted + Api.Emitted(d, before);
      i := i + 1;
    }
    assert lines[i..] == [];
    assert [] + Api.Emissions(chunk, base, lines) == Api.Emissions(chunk, base, lines);
  }

  /**
   * One read of the loop: the lines completed by appending `piece` are the
   * complete lines of the old buffer plus `piece`, so extraction and rendering
   * proceed from where the text before it left off.
   */
  lemma ReadLoopStep(chunk: string -> string, x: string, piece: string)
    ensures var lines := Split(Last(Split(x)) + piece);
      && Last(Split(x + piece)) == Last(lines)
      && BufferedExtract(chunk, x + piece) == BufferedExtract(chunk, x) + Api.ExtractLines(chunk, AllButLast(lines))
      && Fulls(Api.Emissions(chunk, "", AllButLast(Split(x + piece))))
         == Fulls(Api.Emissions(chunk, "", AllButLast(Split(x))))
            + Fulls(Api.Emissions(chunk, BufferedExtract(chunk, x), AllButLast(lines)))
  {
    var lines := Split(Last(Split(x)) + piece);
    var done := AllButLast(Split(x));
    var complete := AllButLast(lines);
    SplitAppend(x, piece);
    var all := Split(x + piece);
    assert all == done + lines;
    assert AllButLast(all) == done + complete;
    Api.ExtractLinesAppend(chunk, done, complete);
    EmissionsAppend(chunk, "", done, complete);
    assert "" + Api.ExtractLines(chunk, done) == Api.ExtractLines(chunk, done);
    FullsAppend(Api.Emissions(chunk, "", done), Api.Emissions(chunk, Api.ExtractLines(chunk, done), complete));
  }

  /**
   * The `while (true)` read loop of `streamResponse` over the decoded reads
   * `pieces`: the buffer keeps only the text after the last newline, and only
   * complete lines are parsed. What is extracted and rendered depends on the
   * concatenated text alone, not on where the reads split it; the final buffer is
   * never parsed.
   */
  method ReadLoop(chunk: string -> string, pieces: seq<string>)
    returns (content: string, buffer: string, renders: seq<string>)
    ensures content == BufferedExtract(chunk, Concat(pieces))
    ensures buffer == Last(Split(Concat(pieces)))
    ensures renders == Fulls(Api.Emissions(chunk, "", AllButLast(Split(Concat(pieces)))))
  {
    content := "";
    buffer := "";
    renders := [];
    assert pieces[..0] == [];
    assert Split("") == [[]];
    var i := 0;
    while i < |pieces|
      invariant 0 <= i <= |pieces|
      invariant buffer == Last(Split(Concat(pieces[..i])))
      invariant content == BufferedExtract(chunk, Concat(pieces[..i]))
      invariant renders == Fulls(Api.Emissions(chunk, "", AllButLast(Split(Concat(pieces[..i])))))
    {
      ReadLoopStep(chunk, Concat(pieces[..i]), pieces[i]);
      buffer := buffer + pieces[i];
      var lines := Split(buffer);
      buffer := lines[|lines| - 1];
      var complete := lines[..|lines| - 1];
      var more;
      content, more := ReadLines(chunk, content, complete);
      renders := renders + more;
      ConcatPrefix(pieces, i);
      i := i + 1;
    }
    assert pieces[..i] == pieces;
  }

  /** A terminated text is parsed in full: the buffered loop then agrees with a single pass. */
  lemma TerminatedTextParsedInFull(chunk: string -> string, t: string)
    ensures BufferedExtract(chunk, t + "\n") == Api.Extract(chunk, t)
  {
    assert t + "\n" == t + "\n" + "";
    SplitAroundNewline(t, "");
    assert Split("") == [[]];
    assert AllButLast(Split(t) + [[]]) == Split(t);
  }

  /** Text after the last newline changes nothing: an unterminated last line is never parsed. */
  lemma TrailingLineNeverParsed(chunk: string -> string, t: string, tail: string)
    requires '\n' !in tail
    ensures BufferedExtract(chunk, t + tail) == BufferedExtract(chunk, t)
  {
    SplitAppend(t, tail);
    assert '\n' !in Last(Split(t)) + tail;
    SplitWithoutNewline(Last(Split(t)) + tail);
  }

  /**
   * A stream that ends on `data: <payload>` without a newline: the older loop
   * drops the payload, whereas a single pass of the newer client's poll parses it.
   */
  lemma UnterminatedEventDropped(chunk: string -> string, payload: string)
    requires '\n' !in payload && payload != Api.DoneSentinel && chunk(payload) != ""
    ensures BufferedExtract(chunk, Api.DataPrefix + payload) == ""
    ensures Api.Extract(chunk, Api.DataPrefix + payload) == chunk(payload)
  {
    TrailingLineNeverParsed(chunk, "", Api.DataPrefix + payload);
    assert "" + (Api.DataPrefix + payload) == Api.DataPrefix + payload;
    assert Split("") == [[]];
    Api.PartialLineIsLost(chunk, payload);
  }

  // ---------------------------------------------------------------------------
  // renderMarkdown

  /** What the older `renderMarkdown` does with one code block. */
  datatype LegacyBlockAction = DrawDiagram(code: string) | AddCopyButton

  /**
   * A block is drawn as a diagram iff its language is `mermaid` or its trimmed
   * text starts with a diagram keyword; the engine gets the untrimmed text, and
   * there is no check that the block is complete.
   */
  function LegacyAction(block: Markdown.CodeBlock): (a: LegacyBlockAction)
    ensures a.DrawDiagram? <==> Markdown.IsDiagram(Markdown.LanguageOf(block.className), Trim(block.text))
    ensures a.DrawDiagram? ==> a.code == block.text
  {
    var lang := Markdown.LanguageOf(block.className);
    if lang == "mermaid" || Markdown.MatchesKeyword(Trim(block.text)) then DrawDiagram(block.text) else AddCopyButton
  }

  /**
   * The older and newer renderers classify blocks alike: outside streaming, the
   * newer one draws exactly the blocks the older one draws; while streaming, a
   * diagram the newer one holds back as a placeholder is drawn by the older one.
   */
  lemma LegacyClassifiesLikeRenderer(block: Markdown.CodeBlock, streaming: bool, completed: set<string>,
                                     cache: map<string, Markdown.Wrapper>)
    ensures LegacyAction(block).AddCopyButton? <==> Markdown.Decide(block, streaming, completed, cache).CopyButton?
    ensures Markdown.Decide(block, streaming, completed, cache).Placeholder? ==> LegacyAction(block).DrawDiagram?
  {
  }

  // ---------------------------------------------------------------------------
  // sendMessage

  /** A rejection seen by `sendMessage`: an abort, or any other error with its message. */
  datatype LegacyError = Aborted | Failed(message: string)

  /** The assistant message added for an error. */
  function ErrorText(e: LegacyError): (r: string)
    ensures e.Aborted? ==> r == "Generation stopped"
    ensures e.Failed? ==> |r| == 7 + |e.message| && r[..7] == "Error: " && r[7..] == e.message
  {
    match e
    case Aborted => "Generation stopped"
    case Failed(message) => "Error: " + message
  }

  /**
   * How the request went: refused before any body (a failed fetch, an abort, or
   * a non-OK status with its error message), or a body read as `pieces`, possibly
   * interrupted by an error after them.
   */
  datatype Response =
    | Refused(error: LegacyError)
    | Streamed(pieces: seq<string>, interruption: Option<LegacyError>)

  /** `streamResponse` pushes the assistant message without touching `updatedAt`. */
  function WithReply(c: Conversation, m: Message): (r: Conversation)
    ensures r.messages == c.messages + [m] && r.title == c.title && r.updatedAt == c.updatedAt
  {
    c.(messages := c.messages + [m])
  }

  /** The current conversation once `sendMessage(content)` has finished. */
  function AfterSend(c: Conversation, content: string, userMsgId: string, assistantMsgId: string, errorMsgId: string,
                     now: string, chunk: string -> string, response: Response): Conversation
  {
    Answered(LegacyWithMessage(c, Message(userMsgId, User, content, now)), assistantMsgId, errorMsgId, now, chunk, response)
  }

  /** The current conversation after the request part of `sendMessage`, from the conversation holding the question. */
  function Answered(asked: Conversation, assistantMsgId: string, errorMsgId: string, now: string,
                    chunk: string -> string, response: Response): Conversation
  {
    match response
    case Refused(e) => LegacyWithMessage(asked, Message(errorMsgId, Assistant, ErrorText(e), now))
    case Streamed(pieces, interruption) =>
      var answered := WithReply(asked, Message(assistantMsgId, Assistant, BufferedExtract(chunk, Concat(pieces)), now));
      if interruption.None? then answered
      else LegacyWithMessage(answered, Message(errorMsgId, Assistant, ErrorText(interruption.value), now))
  }

  /** Every send ends with the reply or the error as the last message, after the user's message. */
  lemma SendEndsWithReplyOrError(c: Conversation, content: string, userMsgId: string, assistantMsgId: string,
                                 errorMsgId: string, now: string, chunk: string -> string, response: Response)
    ensures var r := AfterSend(c, content, userMsgId, assistantMsgId, errorMsgId, now, chunk, response);
      && |r.messages| == |c.messages| + (if response.Streamed? && response.interruption.Some? then 3 else 2)
      && r.messages[..|c.messages|] == c.messages
      && r.messages[|c.messages|] == Message(userMsgId, User, content, now)
      && r.messages[|r.messages| - 1].role == Assistant
      && (response.Refused? ==> r.messages[|r.messages| - 1].content == ErrorText(response.error))
      && (response.Streamed? && response.interruption.Some? ==>
            r.messages[|r.messages| - 1].content == ErrorText(response.interruption.value))
      && (response.Streamed? && response.interruption.None? ==>
            r.messages[|r.messages| - 1].content == BufferedExtract(chunk, Concat(response.pieces)))
  {
  }

  /** The alert `showConfigPrompt` shows when it gets no key. */
  const NoKeyAlert := "No API Key configured. Chat will be unavailable.\nYou can reconfigure later via browser console: app.showConfigPrompt()"

  /** The older client's state: its conversation list, the API key, and the streaming flag. */
  class LegacyChat {
    const store: ConversationManager
    /** `apiConfig.apiKey` */
    var apiKey: string
    /** `isStreaming` */
    var isStreaming: bool
    /** The `alert` texts shown. */
    var alerts: seq<string>
    /** How many times the configuration prompt was opened. */
    var prompts: nat

    constructor(store: ConversationManager, apiKey: string)
      ensures this.store == store && this.apiKey == apiKey && !isStreaming && alerts == [] && prompts == 0
    {
      this.store := store;
      this.apiKey := apiKey;
      isStreaming := false;
      alerts := [];
      prompts := 0;
    }

    /** `createNewConversation()`: an empty `New Chat` conversation is prepended, made current and saved. */
    method CreateNewConversation(newId: string, now: string)
      modifies store
      ensures store.conversations == [Conversation(newId, NewChatTitle, [], now, now)] + old(store.conversations)
      ensures store.currentId == newId && store.saved == store.conversations
    {
      var _ := store.CreateNew(newId, NewChatTitle, now);
    }

    /**
     * `deleteConversation(id)`: refused with an alert when one conversation is
     * left; otherwise, when confirmed, every conversation with that id goes and
     * the first remaining one becomes current if the current one went.
     */
    method DeleteConversation(id: string, confirmed: bool) returns (outcome: DeleteOutcome)
      modifies this, store
      ensures outcome == KeptLastOne <==> |old(store.conversations)| == 1
      ensures outcome == KeptLastOne ==> alerts == old(alerts) + ["At least one conversation must be kept"]
      ensures outcome != KeptLastOne ==> alerts == old(alerts)
      ensures outcome == Declined <==> |old(store.conversations)| != 1 && !confirmed
      ensures outcome == KeptLastOne || outcome == Declined ==>
        store.conversations == old(store.conversations) && store.currentId == old(store.currentId)
      ensures outcome == Deleted || outcome == Threw ==> store.conversations == Without(old(store.conversations), id)
      ensures outcome == Threw <==> |old(store.conversations)| != 1 && confirmed && old(store.currentId) == id && store.conversations == []
      ensures outcome == Deleted && old(store.currentId) == id ==> store.currentId == store.conversations[0].id
      ensures outcome == Deleted && old(store.currentId) != id ==> store.currentId == old(store.currentId)
      ensures outcome == Deleted ==> store.saved == store.conversations
    {
      outcome := store.Delete(id, confirmed);
      if outcome == KeptLastOne {
        alerts := alerts + ["At least one conversation must be kept"];
      }
    }

    /** `switchConversation(id)` */
    method SwitchConversation(id: string)
      modifies store
      ensures store.currentId == id && store.conversations == old(store.conversations)
    {
      store.SwitchTo(id);
    }

    /**
     * `addMessage(role, content)`: appends to the current conversation under the
     * older title rule and saves; without a current conversation it throws
     * (`None`) and nothing changes.
     */
    method AddMessage(role: Role, content: string, msgId: string, now: string) returns (r: Option<Message>)
      modifies store
      ensures FirstIndexOf(old(store.conversations), store.currentId).None? ==>
        r == None && store.conversations == old(store.conversations) && store.saved == old(store.saved)
      ensures FirstIndexOf(old(store.conversations), store.currentId).Some? ==>
        var k := FirstIndexOf(old(store.conversations), store.currentId).value;
        && r == Some(Message(msgId, role, content, now))
        && store.conversations == old(store.conversations)[k := LegacyWithMessage(old(store.conversations)[k], r.value)]
        && store.saved == store.conversations
      ensures store.currentId == old(store.currentId)
    {
      var k := FirstIndexOf(store.conversations, store.currentId);
      if k.None? {
        return None;
      }
      var message := Message(msgId, role, content, now);
      var c := store.conversations[k.value];
      var messages := c.messages + [message];
      store.conversations := store.conversations[k.value := Conversation(c.id, c.title, messages, c.createdAt, now)];
      FirstIndexOfSameIds(old(store.conversations), store.conversations, c.id);
      if role == User && |messages| == 1 {
        UpdateConversationTitle(c.id, content);
      }
      store.saved := store.conversations;
      return Some(message);
    }

    /**
     * `updateConversationTitle(id, firstMessage)`: the first conversation with
     * that id is renamed, and the list saved, only when its title is `New Chat`.
     */
    method UpdateConversationTitle(id: string, firstMessage: string)
      modifies store
      ensures var k := FirstIndexOf(old(store.conversations), id);
        if k.Some? && old(store.conversations)[k.value].title == NewChatTitle then
          && store.conversations == old(store.conversations)[k.value := old(store.conversations)[k.value].(title := DerivedTitle(firstMessage))]
          && store.saved == store.conversations
        else store.conversations == old(store.conversations) && store.saved == old(store.saved)
      ensures store.currentId == old(store.currentId)
    {
      var k := FirstIndexOf(store.conversations, id);
      if k.Some? && store.conversations[k.value].title == NewChatTitle {
        var c := store.conversations[k.value];
        var title := if |firstMessage| > TitleMaxLength then firstMessage[..TitleMaxLength] + "..." else firstMessage;
        store.conversations := store.conversations[k.value := c.(title := title)];
        store.saved := store.conversations;
      }
    }

    /**
     * `streamResponse(messages)` once the response is OK: the assistant message is
     * pushed onto the current conversation, filled by the read loop, and the list
     * is saved only when the body was read to its end.
     */
    method StreamResponse(chunk: string -> string, pieces: seq<string>, finished: bool, msgId: string, now: string)
      requires FirstIndexOf(store.conversations, store.currentId).Some?
      modifies store
      ensures var k := FirstIndexOf(old(store.conversations), old(store.currentId)).value;
        store.conversations == old(store.conversations)[k := WithReply(old(store.conversations)[k],
          Message(msgId, Assistant, BufferedExtract(chunk, Concat(pieces)), now))]
      ensures store.saved == if finished then store.conversations else old(store.saved)
      ensures store.currentId == old(store.currentId)
    {
      var k := FirstIndexOf(store.conversations, store.currentId).value;
      var c := store.conversations[k];
      var content, leftover, renders := ReadLoop(chunk, pieces);
      store.conversations := store.conversations[k := WithReply(c, Message(msgId, Assistant, content, now))];
      if finished {
        store.saved := store.conversations;
      }
    }

    /**
     * The `try`/`catch` of `sendMessage` after the question is added: the reply is
     * streamed in, or the error is added as an assistant message (which saves).
     */
    method Request(assistantMsgId: string, errorMsgId: string, now: string, chunk: string -> string, response: Response)
      requires FirstIndexOf(store.conversations, store.currentId).Some?
      modifies store
      ensures store.currentId == old(store.currentId)
      ensures var k := FirstIndexOf(old(store.conversations), old(store.currentId)).value;
        store.conversations == old(store.conversations)[k := Answered(old(store.conversations)[k], assistantMsgId, errorMsgId, now, chunk, response)]
      ensures response.Streamed? && response.interruption.None? ==> store.saved == store.conversations
      ensures response.Refused? || response.interruption.Some? ==> store.saved == store.conversations
    {
      ghost var convs := store.conversations;
      var error: Option<LegacyError> := None;
      match response {
        case Refused(e) =>
          error := Some(e);
        case Streamed(pieces, interruption) =>
          StreamResponse(chunk, pieces, interruption.None?, assistantMsgId, now);
          FirstIndexOfSameIds(convs, store.conversations, store.currentId);
          error := interruption;
      }
      if error.Some? {
        var _ := AddMessage(Assistant, ErrorText(error.value), errorMsgId, now);
      }
    }


    /**
     * `showConfigPrompt()`: a truthy key answer becomes the key, anything else
     * gives the no-key alert. The base URL answer and the save are not modelled.
     */
    method ShowConfigPrompt(keyAnswer: Option<string>)
      modifies this
      ensures prompts == old(prompts) + 1
      ensures keyAnswer.Some? && keyAnswer.value != "" ==> apiKey == keyAnswer.value && alerts == old(alerts)
      ensures !(keyAnswer.Some? && keyAnswer.value != "") ==> apiKey == old(apiKey) && alerts == old(alerts) + [NoKeyAlert]
      ensures isStreaming == old(isStreaming)
    {
      prompts := prompts + 1;
      if keyAnswer.Some? && keyAnswer.value != "" {
        apiKey := keyAnswer.value;
      } else {
        alerts := alerts + [NoKeyAlert];
      }
    }

    /**
     * `sendMessage(content)`. Without a key: an alert and the configuration prompt.
     * Without a current conversation `addMessage` throws before the request and
     * nothing changes. Otherwise the current conversation ends as `AfterSend`
     * says, everything is saved, and `isStreaming` is cleared whatever happened.
     */
    method SendMessage(content: string, userMsgId: string, assistantMsgId: string, errorMsgId: string, now: string,
                       parse: string -> Option<Json>, response: Response, keyAnswer: Option<string>)
      modifies this, store
      ensures old(apiKey) == "" ==>
        && alerts == old(alerts) + ["Please configure API Key first"]
                      + (if keyAnswer.Some? && keyAnswer.value != "" then [] else [NoKeyAlert])
        && prompts == old(prompts) + 1
        && apiKey == (if keyAnswer.Some? && keyAnswer.value != "" then keyAnswer.value else "")
        && store.conversations == old(store.conversations) && isStreaming == old(isStreaming)
      ensures old(apiKey) != "" ==> alerts == old(alerts) && prompts == old(prompts)
      ensures old(apiKey) != "" && FirstIndexOf(old(store.conversations), old(store.currentId)).None? ==>
        store.conversations == old(store.conversations) && isStreaming == old(isStreaming)
      ensures old(apiKey) != "" && FirstIndexOf(old(store.conversations), old(store.currentId)).Some? ==>
        var k := FirstIndexOf(old(store.conversations), old(store.currentId)).value;
        && store.conversations == old(store.conversations)[k := AfterSend(old(store.conversations)[k], content,
             userMsgId, assistantMsgId, errorMsgId, now, LegacyChunk(parse), response)]
        && store.saved == store.conversations
        && !isStreaming
      ensures store.currentId == old(store.currentId)
    {
      if apiKey == "" {
        alerts := alerts + ["Please configure API Key first"];
        ShowConfigPrompt(keyAnswer);
        return;
      }
      ghost var convs := store.conversations;
      var user := AddMessage(User, content, userMsgId, now);
      if user.None? {
        return;
      }
      ghost var k := FirstIndexOf(convs, store.currentId).value;
      ghost var asked := LegacyWithMessage(convs[k], Message(userMsgId, User, content, now));
      assert store.conversations == convs[k := asked];
      isStreaming := true;
      FirstIndexOfSameIds(convs, store.conversations, store.currentId);
      Request(assistantMsgId, errorMsgId, now, LegacyChunk(parse), response);
      assert store.conversations == convs[k := Answered(asked, assistantMsgId, errorMsgId, now, LegacyChunk(parse), response)];
      isStreaming := false;
    }
  }
}
