/**
 * Send orchestration of the chat page (static/js/app.js): the guard of
 * `handleSend`, the set-up of `sendMessage`, the callbacks of one streaming
 * request (the `firstChunk` marker and the content of the assistant message),
 * its error path, and the validation of the custom-model form. The translation
 * function `t` is a parameter.
 */
module App {
  import opened Wrappers
  import opened Text
  import opened Conversations
  import Ui
  import Api
  import Config

  /**
   * `saveCustomModel()`: every field is trimmed; base URL, key, model id and
   * model name are required; the provider defaults to `custom` and the API kind
   * is always `openai-completions`.
   */
  function CustomModelFromForm(provider: string, baseUrl: string, apiKey: string, modelId: string, modelName: string)
    : (r: Result<Config.CustomModel, string>)
    ensures r.Failure? <==> Trim(baseUrl) == "" || Trim(apiKey) == "" || Trim(modelId) == "" || Trim(modelName) == ""
    ensures r.Failure? ==> r.error == "settings.modelRequired"
    ensures r.Success? ==>
      && r.value.provider == (if Trim(provider) == "" then "custom" else Trim(provider))
      && r.value.baseUrl == Trim(baseUrl) && r.value.apiKey == Trim(apiKey)
      && r.value.api == "openai-completions"
      && r.value.model == Config.ModelRef(Trim(modelId), Trim(modelName))
  {
    var p := Trim(provider);
    var b := Trim(baseUrl);
    var k := Trim(apiKey);
    var id := Trim(modelId);
    var name := Trim(modelName);
    if b == "" || k == "" || id == "" || name == "" then Failure("settings.modelRequired")
    else Success(Config.CustomModel(if p == "" then "custom" else p, b, "openai-completions", k, Config.ModelRef(id, name)))
  }

  /** Saved fields never carry surrounding whitespace. */
  lemma SavedModelFieldsAreTrimmed(provider: string, baseUrl: string, apiKey: string, modelId: string, modelName: string)
    requires CustomModelFromForm(provider, baseUrl, apiKey, modelId, modelName).Success?
    ensures var m := CustomModelFromForm(provider, baseUrl, apiKey, modelId, modelName).value;
      && !IsJsSpace(m.baseUrl[0]) && !IsJsSpace(m.baseUrl[|m.baseUrl| - 1])
      && !IsJsSpace(m.model.id[0]) && !IsJsSpace(m.model.id[|m.model.id| - 1])
  {
  }

  /** `handleSend()`: the trimmed input, unless it is empty or a request is in flight. */
  function SendableContent(input: string, requesting: bool): (r: Option<string>)
    ensures r.Some? <==> Trim(input) != "" && !requesting
    ensures r.Some? ==> r.value == Trim(input)
  {
    var content := Trim(input);
    if content == "" || requesting then None else Some(content)
  }

  /** The text of an error message in the current language. */
  function MessageString(m: Api.MessageText, t: string -> string): string {
    match m
    case Localized(key) => t(key)
    case Literal(text) => text
  }

  /**
   * The content of the assistant message added when a request fails: the
   * localized "aborted" text for an `AbortError`, otherwise the localized error
   * prefix followed by the error's message.
   */
  function ErrorContent(err: Api.StreamError, t: string -> string): (r: string)
    ensures err.AbortError? ==> r == t("error.aborted")
    ensures err.RequestError? ==> r == t("error.prefix") + MessageString(err.message, t)
  {
    if err.AbortError? then t("error.aborted") else t("error.prefix") + MessageString(err.message, t)
  }

  /** `conversation.messages.map(m => ({role, content}))` */
  function WireHistory(ms: seq<Message>): (r: seq<Api.WireMessage>)
    ensures |r| == |ms|
    ensures forall i :: 0 <= i < |ms| ==>
      r[i] == Api.WireMessage(if ms[i].role == User then "user" else "assistant", ms[i].content)
  {
    if ms == [] then []
    else [Api.WireMessage(if ms[0].role == User then "user" else "assistant", ms[0].content)] + WireHistory(ms[1..])
  }

  lemma {:induction false} WireHistoryAppend(a: seq<Message>, b: seq<Message>)
    ensures WireHistory(a + b) == WireHistory(a) + WireHistory(b)
  {
    var r := WireHistory(a + b);
    var s := WireHistory(a) + WireHistory(b);
    assert |r| == |s|;
    forall i | 0 <= i < |r| ensures r[i] == s[i] {
      if i < |a| {
        assert (a + b)[i] == a[i];
      } else {
        assert (a + b)[i] == b[i - |a|];
      }
    }
  }

  /**
   * The closure state of one `sendMessage` call once streaming has started: the
   * `firstChunk` flag and the assistant message it fills in (the message at
   * `index` of conversation `convId`).
   */
  class Session {
    const conversations: ConversationManager
    const ui: Ui.UiManager
    const convId: string
    const index: nat
    var firstChunk: bool
    /** How many times the assistant message element was appended to the page. */
    var appends: nat
    var typingShown: bool
    /** Whether `onComplete` has run. */
    var completed: bool

    /** The assistant element is appended exactly once over the session: before the first chunk it has not been. */
    ghost predicate Valid()
      reads this
    {
      && (if completed then appends == 1 else appends == (if firstChunk then 0 else 1))
      && (typingShown <==> firstChunk && !completed)
    }

    constructor(conversations: ConversationManager, ui: Ui.UiManager, convId: string, index: nat)
      ensures this.conversations == conversations && this.ui == ui && this.convId == convId && this.index == index
      ensures firstChunk && appends == 0 && typingShown && !completed && Valid()
    {
      this.conversations := conversations;
      this.ui := ui;
      this.convId := convId;
      this.index := index;
      firstChunk := true;
      appends := 0;
      typingShown := true;
      completed := false;
    }

    /** The content of the assistant message, while it is in the list. */
    function AssistantContent(): Option<string>
      reads this, conversations
    {
      ContentAt(conversations.conversations, convId, index)
    }

    /**
     * The `onChunk(chunk, fullContent)` callback: the first chunk hides the typing
     * indicator and appends the message element; every chunk stores the full
     * content in the message and schedules a throttled render.
     */
    method OnChunk(fullContent: string)
      requires Valid() && !completed
      modifies this, conversations, ui
      ensures Valid() && !firstChunk && appends == 1 && !typingShown && !completed
      ensures conversations.conversations == WithContent(old(conversations.conversations), convId, index, fullContent)
      ensures old(AssistantContent()).Some? ==> AssistantContent() == Some(fullContent)
      ensures conversations.currentId == old(conversations.currentId) && conversations.saved == old(conversations.saved)
      ensures ui.State() == Ui.Update(old(ui.State()), fullContent).0 && ui.State().pending == Some(fullContent)
      ensures ui.renders == old(ui.renders) && ui.isStreaming == old(ui.isStreaming)
    {
      if firstChunk {
        firstChunk := false;
        typingShown := false;
        appends := appends + 1;
      }
      ghost var before := conversations.conversations;
      conversations.SetMessageContent(convId, index, fullContent);
      if ContentAt(before, convId, index).Some? {
        ContentRoundTrip(before, convId, index, fullContent);
      }
      var _ := ui.UpdateLastMessage(fullContent);
    }

    /**
     * The `onComplete(fullContent)` callback: the element is appended if no chunk
     * came, the message gets the final content, the last message is rendered
     * once in final mode, and the conversations are saved.
     */
    method OnComplete(fullContent: string, hasLast: bool)
      requires Valid() && !completed
      modifies this, conversations, ui, ui.renderer
      ensures Valid() && completed && appends == 1 && !typingShown
      ensures conversations.conversations == WithContent(old(conversations.conversations), convId, index, fullContent)
      ensures old(AssistantContent()).Some? ==> AssistantContent() == Some(fullContent)
      ensures conversations.saved == conversations.conversations && conversations.currentId == old(conversations.currentId)
      ensures ui.State() == Ui.Idle && ui.renders == old(ui.renders) + Ui.RenderIfPresent(fullContent, false, hasLast)
    {
      if firstChunk {
        typingShown := false;
        appends := appends + 1;
      }
      completed := true;
      ghost var before := conversations.conversations;
      conversations.SetMessageContent(convId, index, fullContent);
      if ContentAt(before, convId, index).Some? {
        ContentRoundTrip(before, convId, index, fullContent);
      }
      ui.FinalRenderLastMessage(fullContent, hasLast);
      conversations.Save();
    }
  }

  /** The list after the user's message and then the empty assistant message are appended to conversation `k`. */
  function WithExchange(convs: seq<Conversation>, k: nat, user: Message, assistant: Message): seq<Conversation>
    requires k < |convs|
  {
    convs[k := WithMessage(WithMessage(convs[k], user), assistant)]
  }

  /**
   * After the exchange is appended, the current conversation is still found at
   * the same place and the assistant message (two past the old history) holds
   * the assistant's content.
   */
  lemma ExchangeKeepsPlace(convs: seq<Conversation>, id: string, user: Message, assistant: Message)
    requires FirstIndexOf(convs, id).Some?
    ensures var k := FirstIndexOf(convs, id).value;
      var r := WithExchange(convs, k, user, assistant);
      && FirstIndexOf(r, id) == Some(k)
      && ContentAt(r, id, |convs[k].messages| + 1) == Some(assistant.content)
  {
    var k := FirstIndexOf(convs, id).value;
    var r := WithExchange(convs, k, user, assistant);
    FirstIndexOfSameIds(convs, r, id);
  }

  /**
   * What a started exchange leaves behind: without a current conversation
   * `addMessage` throws and nothing changes; otherwise the user message and an
   * empty assistant message are appended, the input is locked, the request
   * carries the history up to and including the user message, and the session
   * points at the (still empty) assistant message.
   */
  ghost predicate Begun(convs: seq<Conversation>, currentId: string, content: string, userMsgId: string,
                        assistantMsgId: string, now: string, conversations: ConversationManager, ui: Ui.UiManager,
                        session: Option<Session>, request: seq<Api.WireMessage>)
    reads conversations, ui, if session.Some? then {session.value} else {}
    reads if session.Some? then {session.value.conversations} else {}
  {
    var k := FirstIndexOf(convs, currentId);
    if k.None? then session.None? && conversations.conversations == convs
    else
      var c := convs[k.value];
      var user := Message(userMsgId, User, content, now);
      && session.Some?
      && request == WireHistory(c.messages) + [Api.WireMessage("user", content)]
      && conversations.conversations == WithExchange(convs, k.value, user, Message(assistantMsgId, Assistant, "", now))
      && session.value.conversations == conversations && session.value.ui == ui
      && session.value.convId == currentId && session.value.index == |c.messages| + 1
      && session.value.AssistantContent() == Some("")
      && session.value.Valid() && session.value.firstChunk && session.value.typingShown
      && ui.isStreaming
  }

  class ChatApp {
    const config: Config.ConfigManager
    const conversations: ConversationManager
    const ui: Ui.UiManager
    /** The `alert` texts shown, as translation keys. */
    var alerts: seq<string>

    constructor(config: Config.ConfigManager, conversations: ConversationManager, ui: Ui.UiManager)
      ensures this.config == config && this.conversations == conversations && this.ui == ui && alerts == []
    {
      this.config := config;
      this.conversations := conversations;
      this.ui := ui;
      alerts := [];
    }

    /**
     * `sendMessage(content)` up to the start of streaming. Without a key it only
     * alerts and shows the configuration prompt, which alerts again when it gets
     * no key. Otherwise the exchange begins
     * (see `BeginExchange`). `None` for the session means the call ended early.
     */
    method StartSend(content: string, userMsgId: string, assistantMsgId: string, now: string,
                     keyAnswer: Option<string>, urlAnswer: Option<string>)
      returns (session: Option<Session>, request: seq<Api.WireMessage>)
      modifies this, config, conversations, ui
      ensures !old(config.HasAPIKey()) ==>
        && session.None?
        && alerts == old(alerts) + ["error.noApiKey"]
                      + (if keyAnswer.Some? && keyAnswer.value != "" then [] else ["config.noKeyAlert"])
        && config.config == Config.PromptedConfig(old(config.config), keyAnswer, urlAnswer)
        && conversations.conversations == old(conversations.conversations)
        && ui.isStreaming == old(ui.isStreaming)
      ensures old(config.HasAPIKey()) ==>
        && alerts == old(alerts) && config.config == old(config.config)
        && Begun(old(conversations.conversations), old(conversations.currentId), content, userMsgId, assistantMsgId, now,
                 conversations, ui, session, request)
    {
      if !config.HasAPIKey() {
        alerts := alerts + ["error.noApiKey"];
        var alerted := config.ShowConfigPrompt(keyAnswer, urlAnswer);
        if alerted {
          alerts := alerts + ["config.noKeyAlert"];
        }
        return None, [];
      }
      session, request := BeginExchange(content, userMsgId, assistantMsgId, now);
    }

    /** The part of `sendMessage` after the key check, up to the request. */
    method BeginExchange(content: string, userMsgId: string, assistantMsgId: string, now: string)
      returns (session: Option<Session>, request: seq<Api.WireMessage>)
      modifies conversations, ui
      ensures Begun(old(conversations.conversations), old(conversations.currentId), content, userMsgId, assistantMsgId, now,
                    conversations, ui, session, request)
      ensures session.Some? ==> fresh(session.value)
      ensures conversations.currentId == old(conversations.currentId)
    {
      ghost var convs := conversations.conversations;
      ghost var k0 := FirstIndexOf(convs, conversations.currentId);
      var added := conversations.AddMessage(User, content, userMsgId, now);
      if added.None? {
        return None, [];
      }
      ui.UpdateInputState(true);
      ghost var c0 := convs[k0.value];
      FirstIndexOfSameIds(convs, conversations.conversations, conversations.currentId);
      var history := conversations.GetMessages();
      assert history == c0.messages + [added.value];
      request := WireHistory(history);
      WireHistoryAppend(c0.messages, [added.value]);
      var assistant := conversations.AddMessage(Assistant, "", assistantMsgId, now);
      ExchangeKeepsPlace(convs, conversations.currentId, added.value, assistant.value);
      var s := new Session(conversations, ui, conversations.currentId, |history|);
      session := Some(s);
    }

    /** `handleSend()`: sends the trimmed input unless it is empty or a request is in flight. */
    method HandleSend(input: string, requesting: bool, userMsgId: string, assistantMsgId: string, now: string,
                      keyAnswer: Option<string>, urlAnswer: Option<string>)
      returns (session: Option<Session>, request: seq<Api.WireMessage>)
      modifies this, config, conversations, ui
      ensures SendableContent(input, requesting).None? ==>
        && session.None? && alerts == old(alerts) && conversations.conversations == old(conversations.conversations)
        && config.config == old(config.config) && ui.isStreaming == old(ui.isStreaming)
      ensures SendableContent(input, requesting).Some? ==> old(config.HasAPIKey()) ==>
        FirstIndexOf(old(conversations.conversations), old(conversations.currentId)).Some? ==>
        session.Some? && |request| >= 1 && request[|request| - 1] == Api.WireMessage("user", Trim(input))
    {
      var content := SendableContent(input, requesting);
      if content.None? {
        return None, [];
      }
      session, request := StartSend(content.value, userMsgId, assistantMsgId, now, keyAnswer, urlAnswer);
    }

    /**
     * The `catch` and `finally` of `sendMessage` when the request rejects: the
     * typing indicator goes, the error text is added as an assistant message, and
     * the input is unlocked.
     */
    method OnSendError(session: Session, err: Api.StreamError, t: string -> string, msgId: string, now: string)
      requires session.conversations == conversations && session.ui == ui
      modifies session, conversations, ui
      ensures !session.typingShown && !ui.isStreaming
      ensures var k := FirstIndexOf(old(conversations.conversations), old(conversations.currentId));
        var error := Message(msgId, Assistant, ErrorContent(err, t), now);
        k.Some? ==> conversations.conversations == old(conversations.conversations)[k.value := WithMessage(old(conversations.conversations)[k.value], error)]
    {
      session.typingShown := false;
      var errorContent := if err.AbortError? then t("error.aborted") else t("error.prefix") + MessageString(err.message, t);
      var _ := conversations.AddMessage(Assistant, errorContent, msgId, now);
      ui.UpdateInputState(false);
    }

    /** The `finally` of `sendMessage` after a successful stream. */
    method OnSendSettled()
      modifies ui
      ensures !ui.isStreaming && ui.State() == old(ui.State()) && ui.renders == old(ui.renders)
    {
      ui.UpdateInputState(false);
    }
  }
}
