# ai-chat: a verified model of the streaming chat client

ai-chat is a browser chat client for an Anthropic-style streaming completion endpoint. It can also use an OpenAI-compatible endpoint, and a small Python proxy server sits beside it. This project models the client's logic in Dafny and proves properties of that model:

- how a growing response text becomes assistant text;
- how each fenced code block of a reply is rendered;
- how re-renders are throttled;
- the conversation and configuration stores;
- the send flow, the translation lookup and the proxy's request decisions.

There is one module per source file:

| module | file | models |
|---|---|---|
| `Api` | `api_service.dfy` | static/js/api-service.js: the chunk parsers, the poll-based line framing of `_streamXHR` (as a specification function `Poll` and as the `XhrStream` class), the load/error/abort paths, `abort`/`isRequesting`, and the request routing of `streamMessage` |
| `Markdown` | `markdown_renderer.dfy` | static/js/markdown-renderer.js: the diagram keyword test, the lazy fence pattern and its `exec` loop, the per-block decision of `render`, and the diagram cache |
| `Ui` | `ui_manager.dfy` | static/js/ui-manager.js: the render throttle as a two-field state machine with an explicit timer event, the input state and the theme toggle |
| `Conversations` | `conversation_manager.dfy` | static/js/conversation-manager.js: the ordered conversation list, delete guarded by "keep one", append-only messages and the one-shot title rule |
| `Config` | `config_manager.dfy` | static/js/config-manager.js: proxy and model decisions, the precedence merge of `load`, and dedupe-on-add / reset-on-remove |
| `App` | `chat_app.dfy` | static/js/app.js: `handleSend`, the `sendMessage` session (the `firstChunk` marker, the assistant content, the error path) and the custom-model form |
| `Legacy` | `legacy_app.dfy` | static/app.js: the older client's line-buffered read loop, its conversation rules, `renderMarkdown` classification and the `sendMessage` error path |
| `I18n` | `i18n.dfy` | static/js/i18n.js: the fallback lookup `t` and the guarded language setter |
| `Server` | `web_server.dfy` | web_server.py: key masking, the 400/403/401 validation order, the upstream URL and headers, the relayed response headers and POST routing |

The modules share three helpers:
- `Wrappers` holds `Option` and `Result`.
- `Text` holds JavaScript's `split('\n')`, `trim()` and an ASCII case-insensitive prefix test.
- `Json` is an abstract JSON value. `JSON.parse` is a parameter `string -> Option<Json>`, where `None` is a syntax error.

Browser storage is represented by ghost fields that hold what was last persisted. Clock values and generated ids are parameters. User dialogs (`confirm`, `prompt`) are parameters carrying the user's answer.

**Stream framing.** static/js/api-service.js:88-92 moves `processedLength` to the end of the response text on every poll and splits only the new slice. A partial trailing line is therefore not deferred to the next poll; it is parsed on its own. The model follows the code:
- `Api.LineAlignedPollsLoseNothing` proves that polls which each end on a newline give exactly a single pass over the whole text.
- `Api.PartialLineIsLost` exhibits a `data: ` line cut after two characters whose payload is never recovered, not even at completion.
- The older loop in static/app.js does buffer. `Legacy.ReadLoop` proves its result depends only on the concatenated text.
- `Legacy.UnterminatedEventDropped` shows the other side of that buffering: a final unterminated line is never parsed.

## Model

| member | source | states |
|---|---|---|
| Text.Split | static/app.js:246 | `split('\n')` gives at least one piece, and no piece contains a newline |
| Text.SplitJoin | static/app.js:246 | joining the pieces of a split with newlines gives the input back |
| Text.SplitWithoutNewline | static/js/api-service.js:92 | a text without a newline splits into itself alone |
| Text.SplitAppend | static/app.js:245-247 | appending text only changes the last piece of a split; the complete lines before it stay as they were |
| Text.SplitAroundNewline | static/app.js:246 | splitting `a + "\n" + b` is splitting `a` and `b` separately |
| Text.Trim | static/js/markdown-renderer.js:44 | `trim()` is no longer than its input and neither starts nor ends with JavaScript whitespace |
| Text.TrimCutsOnlySpace | static/js/markdown-renderer.js:44 | `trim()` is a contiguous slice of its input, and everything cut off on either side is whitespace |
| Text.VisibleAsciiIsNotSpace | static/js/markdown-renderer.js:44 | no visible ASCII character is JavaScript whitespace, so `trim()` stops at it |
| Text.LowerAllKeepsPrefixMatch | static/js/markdown-renderer.js:5 | lower-casing the text never changes whether a case-insensitive prefix matches |
| Api.ParseChunk | static/js/api-service.js:170-180 | non-empty exactly for a `content_block_delta` event with a non-empty `delta.text`, and then that text; "" for any other event or a payload that is not JSON |
| Api.ParseOpenAIChunk | static/js/api-service.js:161-168 | a non-empty result is `choices[0].delta.content`, and a non-empty string `choices[0].delta.content` is always the result; "" when the payload is not JSON |
| Api.EmissionsAccumulate | static/js/api-service.js:98-102 | every `onChunk` call has a non-empty delta and the previous content plus that delta; the last call's content is everything the pass extracted; no call means nothing was extracted |
| Api.EmissionsReachExtract | static/js/api-service.js:98-102 | the last `onChunk` call carries everything the pass extracted, and a pass with no call extracted nothing |
| Api.ExtractAroundNewline | static/js/api-service.js:92-103 | text on either side of a newline is extracted independently |
| Api.ExtractOneLine | static/js/api-service.js:92-98 | a text without a newline is a single line, and a pass over it extracts exactly that line's delta |
| Api.ExtractNonDataLine | static/js/api-service.js:94 | a line without the `data: ` prefix contributes nothing |
| Api.LineAlignedPollsLoseNothing | static/js/api-service.js:85-132 | if every poll sees a prefix of the final text that ends on a newline, the content resolved on load equals one pass over the whole text |
| Api.DataLineParsed | static/js/api-service.js:94-98 | a single pass over one `data: <payload>` line other than `[DONE]` yields the parsed payload |
| Api.EarlyPollLosesLine | static/js/api-service.js:88-92 | after a first poll that saw only `da`, completion parses the rest of the line on its own and yields nothing |
| Api.PartialLineIsLost | static/js/api-service.js:88-92 | a `data: ` line first polled as `da` yields nothing, even on completion, while a single pass over it yields its delta |
| Api.ErrorMessage | static/js/api-service.js:134-141 | the rejection text is the body's `error.message` exactly when the body is JSON and that is a non-empty string, otherwise the generic `error.requestFailed` text |
| Api.Route | static/js/api-service.js:21-67 | fails with `error.noApiKey` iff there is no proxy, no key and no custom model; a custom model goes to its `/chat/completions` with a Bearer key and the OpenAI parser; otherwise the native parser with `max_tokens` 64000 and web search as configured, via `/api/messages` without `x-api-key` when proxying, else `baseUrl/v1/messages` with the key |
| Api.HasApiKeyRoutes | static/js/api-service.js:26-28 | whenever `hasAPIKey()` holds, routing succeeds |
| Api.ApiService.StreamXhr | static/js/api-service.js:72-78 | a fresh request with empty content and offset 0 is recorded as the one in flight |
| Api.ApiService.IsRequesting | static/js/api-service.js:188-190 | a request is in flight exactly while `_xhr` is set; `StreamXhr` sets it and every completion path clears it |
| Api.ApiService.Abort | static/js/api-service.js:182-186 | a request in flight is rejected with `AbortError`, its content and callbacks untouched, and nothing is in flight afterwards |
| Api.XhrStream.constructor | static/js/api-service.js:77-78 | a request starts with empty content, offset 0, no callbacks and a pending promise |
| Api.XhrStream.ProcessNewData | static/js/api-service.js:85-107 | the closure state becomes `Poll` of the old state and the text; a poll without new text calls nothing; otherwise the `onChunk` calls are the emissions of the new slice's lines |
| Api.XhrStream.EmitLines | static/js/api-service.js:92-103 | the content grows by the lines' extracted deltas and `onChunk` gets one call per non-empty delta, carrying the new content |
| Api.XhrStream.ConsumeRemaining | static/js/api-service.js:120-129 | the completion tail extracts as a poll does, without any `onChunk` call |
| Api.XhrStream.OnLoad | static/js/api-service.js:114-143 | nothing is in flight afterwards; on 2xx the content is `Completed` (the unprocessed rest included), `onComplete` gets it once and the promise resolves with it; otherwise the promise rejects with `ErrorMessage` and the content is unchanged |
| Api.XhrStream.OnError | static/js/api-service.js:145-148 | rejects with the generic failure text; nothing is in flight afterwards |
| Api.XhrStream.OnAbort | static/js/api-service.js:150-155 | rejects with `AbortError` and never calls `onComplete`; nothing is in flight afterwards |
| Markdown.KeywordTestIgnoresCase | static/js/markdown-renderer.js:5 | the keyword test accepts a text iff it accepts its lower-cased form |
| Markdown.MatchesKeyword | static/js/markdown-renderer.js:5 | `MERMAID_KEYWORDS.test`: some keyword of the alternation, tried left to right, is a case-insensitive prefix of the code |
| Markdown.StartsWithAnyOfMeans | static/js/markdown-renderer.js:5 | the left-to-right alternation accepts iff some alternative is a case-insensitive prefix |
| Markdown.IsDiagram | static/js/markdown-renderer.js:45 | `isMermaid`: the tag is `mermaid`, or the trimmed code passes the keyword test |
| Markdown.KeywordOverridesLanguageTag | static/js/markdown-renderer.js:43-45 | a `python` block beginning with `pieces` is classified as a diagram, because the keyword test is a bare prefix test |
| Markdown.PlainCodeIsNoDiagram | static/js/markdown-renderer.js:43-45 | a `python` block beginning with `x = 1` is not a diagram |
| Markdown.LanguageOf | static/js/markdown-renderer.js:43 | the tag consists of word characters |
| Markdown.LanguageOfIsFirstTag | static/js/markdown-renderer.js:43 | the tag is non-empty whenever the class name contains `language-` followed by a word character, and then it is the whole word run after the first such occurrence |
| Markdown.LanguageFromIsFirstTag | static/js/markdown-renderer.js:43 | the same, for the search started at any position |
| Markdown.MermaidClassIsMermaid | static/js/markdown-renderer.js:43-44 | the class `language-mermaid` yields the tag `mermaid` |
| Markdown.FindFence | static/js/markdown-renderer.js:71 | the first closing fence at or after a position, or none at all |
| Markdown.MatchAt | static/js/markdown-renderer.js:71 | a result is a genuine match of the fence pattern at that position, ending after its closing fence |
| Markdown.MatchAtIsLazyMatch | static/js/markdown-renderer.js:71 | whenever the pattern can match at a position, `MatchAt` finds a match with the same language and a body no longer than any other fitting body (the lazy choice) |
| Markdown.Exec | static/js/markdown-renderer.js:73 | `exec` from `lastIndex` returns the first position at or after it where the pattern matches, and no match is skipped |
| Markdown.CompletedAreClosedDiagramFences | static/js/markdown-renderer.js:69-81 | every completed source is the trimmed body of a closed diagram fence in the text |
| Markdown.NoFenceNothingCompleted | static/js/markdown-renderer.js:69-81 | a text without a fence has no completed diagram |
| Markdown.OnlyClosedFenceCompleted | static/js/markdown-renderer.js:69-81 | for ``abc ```mermaid\ngraph TD;A-->B\n``` def ```mermaid\ngraph TD;C`` the completed set is exactly {`graph TD;A-->B`} |
| Markdown.Decide | static/js/markdown-renderer.js:42-66 | copy button iff not a diagram; placeholder with the raw text iff a diagram while streaming that is not completed; otherwise a clone of the cache entry keyed by the trimmed text, or an engine call when there is none |
| Markdown.FinalModeDrawsEveryDiagram | static/js/markdown-renderer.js:52-62 | outside streaming every diagram block is drawn from the cache or by the engine |
| Markdown.CopyButtonIndependentOfMode | static/js/markdown-renderer.js:47-50 | whether a block gets a copy button does not depend on the mode, the completed set or the cache |
| Markdown.FirstWrapperFor | static/js/markdown-renderer.js:89-92 | the first wrapper whose diagram carries the code as its original source, or none |
| Markdown.MarkdownRenderer.constructor | static/js/markdown-renderer.js:8-12 | the cache starts empty |
| Markdown.MarkdownRenderer.FindCompletedMermaidBlocks | static/js/markdown-renderer.js:69-81 | the `exec` loop collects exactly the specified completed set |
| Markdown.MarkdownRenderer.Render | static/js/markdown-renderer.js:36-67 | one action per block, each the `Decide` of that block with the completed set of the raw content; with a well-formed cache, every cached clone carries no action buttons and belongs to its own source |
| Markdown.DecisionsPointwise | static/js/markdown-renderer.js:42-66 | the block-by-block decisions have one entry per block, and entry `i` is the `Decide` of block `i` |
| Markdown.MarkdownRenderer.StoreRendered | static/js/markdown-renderer.js:83-100 | with a parent and a wrapper carrying the code, the first such wrapper is cached under the code with its actions stripped; otherwise the cache is unchanged; every entry stays keyed by its own source |
| Markdown.MarkdownRenderer.UpdateMermaidTheme | static/js/markdown-renderer.js:140-143 | the cache is emptied when the diagram library is loaded, untouched otherwise; the cache is well formed afterwards iff it was before or was emptied |
| Markdown.MarkdownRenderer.ClearCache | static/js/ui-manager.js:133 | the cache is empty afterwards |
| Ui.RenderIfPresent | static/js/ui-manager.js:137-146 | exactly one render iff there is a last message element, none otherwise |
| Ui.Update | static/js/ui-manager.js:114-124 | the content becomes pending and a timer is armed; this call armed it iff none was armed |
| Ui.Fire | static/js/ui-manager.js:117-122 | the timer clears itself and renders the content pending at fire time in streaming mode; nothing when none is pending |
| Ui.Finalize | static/js/ui-manager.js:126-135 | the timer and the pending content are cleared and the content is rendered once in final mode |
| Ui.Step | static/js/ui-manager.js:114-135 | an event renders at most once and arms at most one timer; only timer and finalize events render; only updates arm |
| Ui.BurstArmsOneTimer | static/js/ui-manager.js:115-117 | any non-empty burst of updates renders nothing, arms exactly one timer (none if one was armed) and leaves the newest content pending |
| Ui.BurstThenFireRendersLatest | static/js/ui-manager.js:115-121 | a burst followed by the timer renders exactly once, the newest content, in streaming mode |
| Ui.NoRenderAfterFinalize | static/js/ui-manager.js:128-132 | after finalize, any number of timer events render nothing |
| Ui.RendersBounded | static/js/ui-manager.js:114-135 | a run renders at most once per timer or finalize event, and arms at most one timer more than it has timer and finalize events, however many content updates arrive |
| Ui.UiManager.constructor | static/js/ui-manager.js:10-16 | not streaming, no timer, nothing pending, nothing rendered |
| Ui.UiManager.RenderLastMessageContent | static/js/ui-manager.js:137-146 | appends `RenderIfPresent` to the renders and changes nothing else |
| Ui.UiManager.UpdateLastMessage | static/js/ui-manager.js:114-124 | the new scheduler state and the armed flag are `Update` of the old state |
| Ui.UiManager.FireTimer | static/js/ui-manager.js:117-122 | the new state and the renders are `Fire` of the old state |
| Ui.UiManager.FinalRenderLastMessage | static/js/ui-manager.js:126-135 | the new state and the renders are `Finalize` of the old state, and the diagram cache is empty |
| Ui.UiManager.UpdateInputState | static/js/ui-manager.js:179-192 | while streaming only the stop button shows and the input is disabled; the reverse otherwise |
| Ui.UiManager.ToggleTheme | static/js/ui-manager.js:199-205 | the theme becomes `NextTheme` of the old one and is persisted; the diagram cache is cleared when the library is loaded |
| Ui.NextTheme | static/js/ui-manager.js:200-201 | `dark` exactly from `light`, `light` from anything else, including no theme |
| Ui.ToggleTwice | static/js/ui-manager.js:199-204 | two toggles return to `light` or `dark`; from any other value they land on `dark` |
| Conversations.DerivedTitle | static/js/conversation-manager.js:83-85 | the content itself when at most 30 characters, else its first 30 characters followed by `...`; never longer than 33 |
| Conversations.DerivedTitleKeepsPrefix | static/js/conversation-manager.js:83-85 | a title starts with the content's first characters and adds at most three |
| Conversations.FirstIndexOf | static/js/conversation-manager.js:61 | the position of the first conversation with the id; none iff no conversation has it |
| Conversations.Without | static/js/conversation-manager.js:46 | keeps exactly the conversations whose id differs |
| Conversations.WithoutAppend | static/js/conversation-manager.js:46 | the filter distributes over concatenation, so the kept conversations keep their order and multiplicity |
| Conversations.DeleteLeavesOne | static/js/conversation-manager.js:46-49 | with unique ids and at least two conversations, a delete leaves at least one |
| Conversations.DeleteRemovesOne | static/js/conversation-manager.js:46 | with unique ids, a delete removes exactly one conversation when the id is present and nothing otherwise |
| Conversations.WithMessage | static/js/conversation-manager.js:68-90 | the message is appended and `updatedAt` is its timestamp; the title changes only for a first user message under a default title, and then becomes `DerivedTitle` |
| Conversations.WithContent | static/js/app.js:304 | the message at that index of the first conversation with that id gets the content; every other conversation, every other message, and the title and timestamps are unchanged; an index out of range changes nothing |
| Conversations.ContentRoundTrip | static/js/app.js:304 | writing a message's content and reading it back gives what was written |
| Conversations.MessagesOnlyGrow | static/js/conversation-manager.js:78 | adding a message keeps every earlier message in place and puts the new one last |
| Conversations.TitleSetOnce | static/js/conversation-manager.js:81-86 | once a conversation has a message, adding another never changes its title |
| Conversations.ConversationManager.constructor | static/js/conversation-manager.js:8-17 | a loaded non-empty list is kept with its first conversation current; an empty one gets one new conversation, which is current and saved |
| Conversations.ConversationManager.CreateNew | static/js/conversation-manager.js:19-34 | an empty conversation is prepended, made current and saved |
| Conversations.ConversationManager.Delete | static/js/conversation-manager.js:36-54 | refused iff one conversation is left; declined leaves everything; otherwise every conversation with the id goes, the first remaining one becomes current if the current one went, and the list is saved; when nothing remains the call throws |
| Conversations.ConversationManager.SwitchTo | static/js/conversation-manager.js:56-58 | only the current id changes |
| Conversations.ConversationManager.GetCurrent | static/js/conversation-manager.js:60-62 | the first conversation with the current id, or none iff there is none |
| Conversations.ConversationManager.AddMessage | static/js/conversation-manager.js:68-90 | the current conversation becomes `WithMessage` of it and the list is saved; without a current conversation nothing changes |
| Conversations.ConversationManager.SetMessageContent | static/js/app.js:304 | the list becomes `WithContent` and nothing is saved |
| Conversations.ConversationManager.Save | static/js/conversation-manager.js:97-99 | the stored list becomes the current list |
| Conversations.ConversationManager.GetMessages | static/js/conversation-manager.js:92-95 | the current conversation's messages, or none without a current conversation |
| Config.UseProxy | static/js/config-manager.js:169-171 | true iff developer mode is on and the server configuration says it holds a key |
| Config.ConfigManager.UsingProxy | static/js/config-manager.js:169-171 | `useProxy()` on the manager's own dev mode and server configuration |
| Config.FindDefault | static/js/config-manager.js:40 | the first entry flagged as default; none iff no entry is |
| Config.IsModelAllowed | static/js/config-manager.js:79-85 | a custom model is always allowed; else, when proxying with a non-empty allowed list, membership in it; else membership in the built-in models |
| Config.FindCustomModel | static/js/config-manager.js:190-192 | the first custom model with the selected id; none iff there is none |
| Config.ConfigManager.CustomModelConfig | static/js/config-manager.js:190-192 | `getCustomModelConfig()`: the custom model whose id is the selected model, if any |
| Config.HasApiKey | static/js/config-manager.js:183-185 | true iff a key is set, the proxy is used, or the selected model is a custom model |
| Config.ConfigManager.HasAPIKey | static/js/config-manager.js:183-185 | `hasAPIKey()` on the manager's own key, proxy setting and custom models |
| Config.WithoutModel | static/js/config-manager.js:196 | keeps exactly the entries with another id, and none with the id |
| Config.WithoutModelAppend | static/js/config-manager.js:196 | the filter distributes over concatenation, so kept entries keep their order |
| Config.WithoutAbsentModel | static/js/config-manager.js:196 | filtering out an id no entry has changes nothing |
| Config.AddedModelIsUnique | static/js/config-manager.js:194-198 | after adding, exactly one entry has the id; it is the new one, it is last, and lookup finds it |
| Config.AddedModelIsAllowed | static/js/config-manager.js:80 | an added custom model is allowed whatever the proxy settings |
| Config.ServerMerged | static/js/config-manager.js:32-44 | a non-empty server `base_url` replaces the base URL; the model becomes the default entry of the proxy's list or of the built-in models, if there is one; key and web search are untouched |
| Config.SavedMerged | static/js/config-manager.js:50-59 | each non-empty saved field overrides; the saved model only when allowed; a saved web-search flag always overrides |
| Config.SavedBaseUrlWins | static/js/config-manager.js:33-52 | the saved base URL wins over the server's, which wins over the current one |
| Config.SavedModelOnlyIfAllowed | static/js/config-manager.js:37-55 | the merged model is the saved one iff that is set and allowed, otherwise what the server step chose |
| Config.PromptedConfig | static/js/config-manager.js:120-131 | a non-empty key answer is stored together with the URL answer or the Anthropic default; otherwise nothing changes |
| Config.ConfigManager.constructor | static/js/config-manager.js:15-25 | the initial configuration, no server configuration, and the stored developer mode and custom models |
| Config.ConfigManager.LoadServerConfig | static/js/config-manager.js:68-77 | the server configuration is replaced only by a successful fetch |
| Config.ConfigManager.ShowConfigPrompt | static/js/config-manager.js:120-131 | the configuration becomes `PromptedConfig`, saved only when a key was given; the `config.noKeyAlert` alert is shown exactly when no key was given |
| Config.ConfigManager.Load | static/js/config-manager.js:27-66 | the configuration is the server merge followed by the saved merge, then the prompt exactly when there is no proxy, no key and no custom model; the stored configuration changes exactly when the prompt (lines 120-127) returns a key, and the prompt alerts exactly when it runs and gets no key |
| Config.SavedConfigRestored | static/js/config-manager.js:50-59 | a configuration stored with non-empty key, URL and allowed model is restored in full by the saved merge |
| Config.ConfigManager.AddCustomModel | static/js/config-manager.js:194-200 | entries with the id are removed and the new one appended and saved; exactly one entry has the id and it is last |
| Config.ConfigManager.RemoveCustomModel | static/js/config-manager.js:202-212 | no entry keeps the id and the list is saved; a removed selected model resets to `claude-sonnet-4-5-20250929`, which is saved |
| Config.ConfigManager.UpdateModel | static/js/config-manager.js:154-157 | only the model changes, and the configuration is saved |
| App.CustomModelFromForm | static/js/app.js:234-252 | rejected with `settings.modelRequired` iff base URL, key, model id or name is empty after trimming; otherwise the trimmed fields, provider defaulting to `custom` and API `openai-completions` |
| App.SavedModelFieldsAreTrimmed | static/js/app.js:235-239 | a saved base URL and model id neither start nor end with whitespace |
| App.SendableContent | static/js/app.js:260-264 | something is sent iff the trimmed input is non-empty and no request is in flight, and it is the trimmed input |
| App.ErrorContent | static/js/app.js:322-324 | an `AbortError` gives the localized aborted text; any other error gives the localized prefix followed by its message |
| App.WireHistory | static/js/app.js:288-291 | one wire message per message, with the same role and content, in order |
| App.WireHistoryAppend | static/js/app.js:288-291 | the mapping distributes over concatenation |
| App.ExchangeKeepsPlace | static/js/app.js:280-293 | after the user and assistant messages are added, the conversation is found at the same place and the assistant message sits two past the old history |
| App.Session.constructor | static/js/app.js:294 | `firstChunk` is set, nothing is appended yet and the typing indicator shows |
| App.Session.OnChunk | static/js/app.js:298-306 | the assistant element has been appended exactly once and the typing indicator is gone; the assistant message reads back the full content; the render is scheduled with it |
| App.Session.OnComplete | static/js/app.js:307-315 | the element is appended exactly once over the session; the message reads back the final content; one final render; the conversations are saved |
| App.ChatApp.StartSend | static/js/app.js:273-296 | without a key, the `error.noApiKey` alert and the configuration prompt, followed by its `config.noKeyAlert` alert when it gets no key, with no message added; otherwise the user message and an empty assistant message are added, the input is locked, and the request carries the history through the user message |
| App.ChatApp.BeginExchange | static/js/app.js:280-296 | the exchange is begun as above; without a current conversation nothing changes |
| App.ChatApp.HandleSend | static/js/app.js:260-271 | nothing happens for an empty input or while requesting; otherwise a keyed send with a current conversation ends its request with the trimmed input as the user message |
| App.ChatApp.OnSendError | static/js/app.js:318-329 | the typing indicator goes, the error content is added as an assistant message, and the input is unlocked |
| App.ChatApp.OnSendSettled | static/js/app.js:327-329 | the input is unlocked and nothing else in the view changes |
| Legacy.LegacyWithMessage | static/app.js:133-151 | the message is appended and `updatedAt` set; the title changes only for a first user message titled exactly `New Chat`, and then becomes the derived title |
| Legacy.TitleRulesAgreeExceptChineseDefault | static/app.js:124-131 | the older and newer title rules agree except on `新对话`, which only the newer client renames |
| Legacy.Fulls | static/app.js:260 | one rendered content per emitted delta, in order |
| Legacy.LegacyChunk | static/app.js:255-261 | the inline parse of the older loop: the `delta.text` of a `content_block_delta` payload, the same chunk `Api.ParseChunk` extracts |
| Legacy.EmissionsAppend | static/app.js:249-261 | emitting over two line lists in turn is emitting over their concatenation |
| Legacy.ReadLine | static/app.js:250-261 | a line extends the content by its delta and renders the new content iff the delta is non-empty |
| Legacy.ReadLines | static/app.js:249-273 | the content grows by the lines' deltas, with one render per non-empty delta |
| Legacy.ReadLoopStep | static/app.js:245-273 | one read adds to the content and renders exactly the deltas of the lines it completes, continuing from the text before it |
| Legacy.ReadLoop | static/app.js:241-274 | whatever the read boundaries, the content is the deltas of the complete lines of the concatenated text, the buffer is the text after its last newline, and the renders follow the deltas in order |
| Legacy.TerminatedTextParsedInFull | static/app.js:245-249 | for a text ending in a newline, the buffered loop agrees with a single pass |
| Legacy.TrailingLineNeverParsed | static/app.js:243-247 | text after the last newline never changes what is extracted |
| Legacy.UnterminatedEventDropped | static/app.js:241-276 | a stream ending on an unterminated `data: ` line loses its delta, which a single pass would keep |
| Legacy.LegacyAction | static/app.js:430-447 | a diagram is drawn, from the untrimmed text, iff the language is `mermaid` or the trimmed text starts with a keyword; otherwise a copy button; there is no completeness check |
| Legacy.LegacyClassifiesLikeRenderer | static/app.js:433-445 | both renderers give copy buttons to the same blocks; a diagram the newer one holds back while streaming is drawn by the older one |
| Legacy.ErrorText | static/app.js:182-186 | an abort gives `Generation stopped`; any other error gives `Error: ` followed by its message |
| Legacy.WithReply | static/app.js:228-235 | the assistant message is appended; title and `updatedAt` are untouched |
| Legacy.SendEndsWithReplyOrError | static/app.js:153-194 | a send keeps the earlier messages, adds the user's message, and ends with an assistant message holding the streamed reply or the error text |
| Legacy.LegacyChat.CreateNewConversation | static/app.js:76-93 | an empty `New Chat` conversation is prepended, made current and saved |
| Legacy.LegacyChat.DeleteConversation | static/app.js:95-112 | with one conversation left, an alert and nothing else; declined changes nothing; otherwise as the conversation store's delete |
| Legacy.LegacyChat.SwitchConversation | static/app.js:114-118 | only the current id changes |
| Legacy.LegacyChat.AddMessage | static/app.js:133-151 | the current conversation becomes `LegacyWithMessage` of it and the list is saved; without a current conversation nothing changes |
| Legacy.LegacyChat.UpdateConversationTitle | static/app.js:124-131 | the first conversation with the id is renamed, and the list saved, only when its title is `New Chat` |
| Legacy.LegacyChat.StreamResponse | static/app.js:226-276 | the assistant message is appended with the buffered content of the reads; the list is saved only when the body was read to its end |
| Legacy.LegacyChat.Request | static/app.js:169-187 | the current conversation becomes `Answered`, and the list is saved whether the reply completed or an error was added |
| Legacy.LegacyChat.ShowConfigPrompt | static/app.js:50-61 | the prompt is counted; a truthy key answer becomes the key, anything else leaves the key and adds the no-key alert |
| Legacy.LegacyChat.SendMessage | static/app.js:153-194 | without a key, the `Please configure API Key first` alert and the prompt only: the prompt's answer becomes the key, or its no-key alert follows; otherwise the current conversation ends as `AfterSend`, everything is saved and `isStreaming` is cleared |
| I18n.Translate | static/js/i18n.js:6-8 | the current language's entry, else the English entry, else the key |
| I18n.Translator.T | static/js/i18n.js:6-8 | `t(key)` is `Translate` under the current language |
| I18n.Translator.GetLanguage | static/js/i18n.js:10-12 | the current language |
| I18n.KeyReturnedOnlyWhenMissing | static/js/i18n.js:7 | a result other than the key means one of the two tables has the entry |
| I18n.Toggled | static/js/i18n.js:21-23 | `en` exactly from `zh`, `zh` from anything else |
| I18n.ToggleTwiceReturns | static/js/i18n.js:21-23 | two toggles return to `zh` or `en`, and lead any other language to `en` |
| I18n.Translator.constructor | static/js/i18n.js:4 | the stored language, or `en` when none or an empty one is stored |
| I18n.Translator.SetLanguage | static/js/i18n.js:14-19 | `zh` and `en` become current, are stored and update the page; any other value changes nothing |
| I18n.Translator.ToggleLanguage | static/js/i18n.js:21-23 | the language becomes `Toggled` of the old one and is stored |
| Server.MaskKey | web_server.py:57-62 | a key longer than 12 characters shows its first 8, `...` and its last 4; a shorter non-empty key gives `****`; no key gives "" |
| Server.MaskShowsOnlyTheEnds | web_server.py:57-58 | the mask has at most 15 characters, and every key character it shows sits at the same distance from the same end of the key |
| Server.ConfigReply | web_server.py:52-71 | `has_server_key` iff a key is configured, which is iff the mask is non-empty; base URL and models are passed on |
| Server.HandleMessages | web_server.py:73-111 | no reply iff the body is not text, or is non-object JSON while an allowed list is set; 400 iff the body is text but not JSON; 403 iff a non-empty allowed list does not contain the requested model; 401 iff the request passes those checks and neither the server nor the client supplies a key; a forwarded request carries the body unchanged |
| Server.UpstreamUrl | web_server.py:99-100 | the configured base URL, or `https://api.anthropic.com` when unset, followed by `/v1/messages` |
| Server.UpstreamHeaders | web_server.py:105-109 | JSON content type, the chosen key as `x-api-key`, and the client's `anthropic-version` or `2023-06-01` |
| Server.ServerKeyTakesPrecedence | web_server.py:94-109 | a forwarded request carries the server's key when one is configured, the client's otherwise, and never an empty key |
| Server.EmptyListAcceptsAnyModel | web_server.py:86-97 | with no allowed list, any JSON object with a key available is forwarded |
| Server.ValidationOrder | web_server.py:80-92 | a request failing several checks gets the first failing check's answer, in the order 400, 403, 401 |
| Server.RelayedHeaders | web_server.py:116-118 | never more headers than upstream sent |
| Server.RelayedExactly | web_server.py:116-118 | exactly the upstream `content-type` and `transfer-encoding` headers are relayed, in any letter case |
| Server.RelayHeader | web_server.py:116-118 | a header is sent iff its name matches |
| Server.ReplyHeaders | web_server.py:115-121 | the relayed headers in upstream order, then `X-Accel-Buffering: no` and `Cache-Control: no-cache` |
| Server.RelayIgnoresCase | web_server.py:117 | letter case of the name does not matter to the filter |
| Server.PostRoute | web_server.py:42-46 | only the exact path `/api/messages` is handled; any other POST gets 404 |
| Server.GetRoute | web_server.py:36-40 | only the exact path `/api/config` reaches the configuration endpoint; everything else goes to the static files |
| Server.QueryStringIsNotFound | web_server.py:43 | a POST to `/api/messages` with a query string gets 404 |

## Left out

- DOM rendering and event wiring are not modelled. This covers `renderConversations`, `renderMessages`, `appendMessageElement`, the typing indicator's markup, focus and scrolling, settings and sidebar set-up, `applyToDOM` (counted, not modelled), `renderModelSelector` and `updateUI`.
- The markdown parser, the syntax highlighter and the diagram engine are abstract. A reply's code blocks are a list of (class name, text), and the engine's output is the list of wrappers it leaves.
- XMLHttpRequest, `fetch`, `TextDecoder` and the network become events and parameters. `JSON.parse` is a parameter.
- The translation tables (translations.js) are not part of this model. `t` is a parameter of the callers.
- static/js/mermaid-renderer.js and static/js/utils.js are not part of this model. Of static/js/storage.js only the saved configuration record is modelled (`Config.Stored`); other persisted state is a ghost field.
- Timers and asynchronous interleaving are not modelled. The throttle timer is an explicit event. A conversation switch while a reply streams and two concurrent engine calls for one source are not modelled.
- Clock values and generated ids are parameters. One clock value stands for both `updatedAt` and the message timestamp, which the older client reads twice.
- `toggleWebSearch`, `toggleDevMode`, `getConfig` and `getCustomModels` are not modelled. They only set or copy fields.
- Legacy: the older client's `loadAPIConfig`, the base URL answer and the save of `showConfigPrompt`, `stopGeneration` and the request body are not modelled. Each prompt is counted.
- Legacy.LegacyChat.StreamResponse: writes only the final content of the assistant message. The per-delta content is recorded as the render list of `Legacy.ReadLoop`.
- Legacy.LegacyChat.StreamResponse: requires a current conversation. `sendMessage` only reaches it after `addMessage` succeeded.
- App.Session.OnChunk: the assistant message is addressed by conversation id and position, so aliasing of the message object is not modelled. This includes the message left behind when its conversation is deleted mid-stream.
- Api.ParseChunk: a truthy non-string `delta.text` is treated as absent. The same holds for `choices[0].delta.content` in `Api.ParseOpenAIChunk` and `error.message` in `Api.ErrorMessage`; JavaScript would turn these into strings.
- Conversations.DerivedTitle: length counts Unicode scalar values, whereas JavaScript counts UTF-16 code units. Titles with characters outside the Basic Multilingual Plane are cut at a different place.
- Server.HandleMessages: the 403 reply keeps the requested JSON value, not Python's `str()` formatting of it in the message.
- Server.HandleMessages: a JSON body that is not an object, sent while an allowed list is configured, raises in the handler. This is modelled as `Dropped`, with no reply.
- Server.ConfigReply: the allowed models are kept by id only. `handle_config` passes each entry on whole and never reads its `id`.
- Server.HandleMessages: an allowed-model entry without an `id` makes `handle_messages` raise while it builds the id list (web_server.py:88). Entries are ids here, so this case is not represented.
- Server.HandleMessages: a body that is not valid UTF-8 raises `UnicodeDecodeError`, which web_server.py:80-84 does not catch. This is the `NotText` input, modelled as `Dropped`, with no reply.
- Api.XhrStream.ProcessNewData: the try/catch at static/js/api-service.js:86-106 also swallows an exception thrown by `onChunk`. The remaining lines of that poll are then skipped although `processedLength` has already moved past them. The model has no throwing callback, so every line of the new slice is emitted.
- Config.ConfigManager.Load: the `saved` parameter, the record read from storage, is not tied to the ghost `savedConfig`. The store-then-load round trip is stated on values by `Config.SavedConfigRestored`.
- Server.RelayIgnoresCase: header names are folded with ASCII case only. Python's `str.lower` folds more characters, but only two of them lower-case to ASCII: the Kelvin sign becomes `k`, which neither name contains, and `İ` becomes `i` followed by a combining dot, which cannot match.
- web_server.py socket I/O is not modelled. This covers the body relay loop, the pass-through of upstream HTTP errors, the 502 on connection failure, `load_config`, `do_OPTIONS`, CORS headers, `run_server` and logging.
