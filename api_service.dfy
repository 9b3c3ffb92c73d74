/**
 * The streaming transport (static/js/api-service.js). A request's response text
 * grows while it is open; each poll parses the part not yet seen, line by line,
 * keeping `data: ` lines, dropping the `[DONE]` sentinel and feeding the rest to
 * the provider's chunk parser. The XMLHttpRequest is replaced by its events:
 * progress polls with the current response text, then exactly one of load,
 * error or abort.
 */
module Api {
  import opened Wrappers
  import opened Text
  import opened Json
  import Config

  const DataPrefix := "data: "
  const DoneSentinel := "[DONE]"

  // ---------------------------------------------------------------------------
  // Chunk parsers

  /** The native event shape: `{type: "content_block_delta", delta: {text}}`. */
  predicate IsTextDelta(j: Option<Json>, text: string) {
    && Member(j, "type") == Some(JString("content_block_delta"))
    && Member(Member(j, "delta"), "text") == Some(JString(text))
  }

  /**
   * `_parseChunk(data)`: the delta text of a `content_block_delta` event, or "" for
   * any other event, an empty text, or a payload that is not JSON.
   */
  function ParseChunk(parse: string -> Option<Json>, data: string): (r: string)
    ensures parse(data).None? ==> r == ""
    ensures r != "" ==> IsTextDelta(parse(data), r)
    ensures forall t :: t != "" && IsTextDelta(parse(data), t) ==> r == t
  {
    match parse(data)
    case None => ""
    case Some(j) =>
      if Member(Some(j), "type") == Some(JString("content_block_delta"))
      then TextOf(Member(Member(Some(j), "delta"), "text"))
      else ""
  }

  /**
   * `_parseOpenAIChunk(data)`: `choices[0].delta.content` when it is a non-empty
   * string, "" otherwise (including a payload that is not JSON).
   */
  function ParseOpenAIChunk(parse: string -> Option<Json>, data: string): (r: string)
    ensures parse(data).None? ==> r == ""
    ensures r != "" ==> Member(Member(First(Member(parse(data), "choices")), "delta"), "content") == Some(JString(r))
    ensures forall s :: s != "" && Member(Member(First(Member(parse(data), "choices")), "delta"), "content") == Some(JString(s)) ==> r == s
  {
    match parse(data)
    case None => ""
    case Some(j) => TextOf(Member(Member(First(Member(Some(j), "choices")), "delta"), "content"))
  }

  // ---------------------------------------------------------------------------
  // Line framing: the specification of what a poll extracts

  /** What one line contributes: the parsed delta of a `data: ` line other than `[DONE]`, else "". */
  function LineDelta(chunk: string -> string, line: string): string {
    if StartsWith(line, DataPrefix) then
      var data := line[|DataPrefix|..];
      if data == DoneSentinel then "" else chunk(data)
    else ""
  }

  function ExtractLines(chunk: string -> string, lines: seq<string>): string {
    if lines == [] then "" else LineDelta(chunk, lines[0]) + ExtractLines(chunk, lines[1..])
  }

  /** The text a single pass over `text` extracts: the deltas of all its lines, in order. */
  function Extract(chunk: string -> string, text: string): string {
    ExtractLines(chunk, Split(text))
  }

  /**
   * The `onChunk(delta, fullContent)` calls a pass over `lines` makes, starting
   * from accumulated content `base`: one per non-empty delta.
   */
  function Emissions(chunk: string -> string, base: string, lines: seq<string>): seq<(string, string)>
    decreases |lines|
  {
    if lines == [] then []
    else
      var d := LineDelta(chunk, lines[0]);
      if d == "" then Emissions(chunk, base, lines[1..])
      else [(d, base + d)] + Emissions(chunk, base + d, lines[1..])
  }

  /**
   * Every `onChunk` call carries a non-empty delta and the content accumulated so
   * far, which is the previous call's content plus that delta; the last call's
   * content is everything the pass extracted.
   */
  lemma {:induction false} EmissionsAccumulate(chunk: string -> string, base: string, lines: seq<string>)
    ensures var es := Emissions(chunk, base, lines);
      && (forall k :: 0 <= k < |es| ==> es[k].0 != "")
      && (|es| > 0 ==> es[0].1 == base + es[0].0)
      && (forall k :: 0 < k < |es| ==> es[k].1 == es[k - 1].1 + es[k].0)
      && (|es| > 0 ==> es[|es| - 1].1 == base + ExtractLines(chunk, lines))
      && (|es| == 0 ==> ExtractLines(chunk, lines) == "")
    decreases |lines|
  {
    EmissionsReachExtract(chunk, base, lines);
    if lines != [] {
      var d := LineDelta(chunk, lines[0]);
      var rest := Emissions(chunk, base + d, lines[1..]);
      EmissionsHead(chunk, base, lines);
      EmissionsAccumulate(chunk, base + d, lines[1..]);
      if d == "" {
        assert base + d == base;
        assert Emissions(chunk, base, lines) == rest;
      } else {
        var es := [(d, base + d)] + rest;
        assert Emissions(chunk, base, lines) == es;
        assert forall k :: 0 < k < |es| ==> es[k] == rest[k - 1];
      }
    }
  }

  /** The last `onChunk` call carries everything the pass extracted; no call means nothing was extracted. */
  lemma {:induction false} EmissionsReachExtract(chunk: string -> string, base: string, lines: seq<string>)
    ensures var es := Emissions(chunk, base, lines);
      && (|es| > 0 ==> es[|es| - 1].1 == base + ExtractLines(chunk, lines))
      && (|es| == 0 ==> ExtractLines(chunk, lines) == "")
    decreases |lines|
  {
    if lines != [] {
      var d := LineDelta(chunk, lines[0]);
      var tail := ExtractLines(chunk, lines[1..]);
      var rest := Emissions(chunk, base + d, lines[1..]);
      EmissionsHead(chunk, base, lines);
      EmissionsReachExtract(chunk, base + d, lines[1..]);
      assert ExtractLines(chunk, lines) == d + tail;
      if d == "" {
        assert base + d == base && d + tail == tail;
        assert Emissions(chunk, base, lines) == rest;
      } else {
        var es := [(d, base + d)] + rest;
        assert Emissions(chunk, base, lines) == es;
        if |rest| == 0 {
          assert d + tail == d;
        } else {
          assert es[|es| - 1] == rest[|rest| - 1];
          AppendAssoc(base, d, tail);
        }
      }
    }
  }

  /** Unfolds the extraction and the emissions of a line list at its first line. */
  lemma UnfoldAt(chunk: string -> string, base: string, lines: seq<string>, i: nat)
    requires i < |lines|
    ensures lines[i..][0] == lines[i] && lines[i..][1..] == lines[i + 1..]
    ensures ExtractLines(chunk, lines[i..]) == LineDelta(chunk, lines[i]) + ExtractLines(chunk, lines[i + 1..])
  {
    assert lines[i..][1..] == lines[i + 1..];
  }

  /** One line's `onChunk` calls: none for an empty delta, else one carrying the new content. */
  function Emitted(d: string, base: string): seq<(string, string)> {
    if d == "" then [] else [(d, base + d)]
  }

  /** The emissions of a non-empty line list, unfolded at its first line. */
  lemma EmissionsHead(chunk: string -> string, base: string, lines: seq<string>)
    requires lines != []
    ensures var d := LineDelta(chunk, lines[0]);
      Emissions(chunk, base, lines) == Emitted(d, base) + Emissions(chunk, base + d, lines[1..])
  {
    var d := LineDelta(chunk, lines[0]);
    if d == "" {
      assert base + d == base;
    }
  }

  lemma EmissionsAt(chunk: string -> string, base: string, lines: seq<string>, i: nat)
    requires i < |lines|
    ensures var d := LineDelta(chunk, lines[i]);
      Emissions(chunk, base, lines[i..]) == Emitted(d, base) + Emissions(chunk, base + d, lines[i + 1..])
  {
    assert lines[i..][1..] == lines[i + 1..];
    var d := LineDelta(chunk, lines[i]);
    if d == "" {
      assert base + d == base;
    }
  }

  /** One line of a line loop: the extraction invariant carries over to the next line. */
  lemma ExtractStep(chunk: string -> string, base: string, lines: seq<string>, i: nat, content: string)
    requires i < |lines|
    requires content + ExtractLines(chunk, lines[i..]) == base + ExtractLines(chunk, lines)
    ensures (content + LineDelta(chunk, lines[i])) + ExtractLines(chunk, lines[i + 1..]) == base + ExtractLines(chunk, lines)
  {
    UnfoldAt(chunk, content, lines, i);
    AppendAssoc(content, LineDelta(chunk, lines[i]), ExtractLines(chunk, lines[i + 1..]));
  }

  /** One line of an emitting line loop: both loop invariants carry over to the next line. */
  lemma EmitStep(chunk: string -> string, base: string, lines: seq<string>, i: nat, content: string,
                 calls0: seq<(string, string)>, calls: seq<(string, string)>)
    requires i < |lines|
    requires content + ExtractLines(chunk, lines[i..]) == base + ExtractLines(chunk, lines)
    requires calls + Emissions(chunk, content, lines[i..]) == calls0 + Emissions(chunk, base, lines)
    ensures var d := LineDelta(chunk, lines[i]);
      && (content + d) + ExtractLines(chunk, lines[i + 1..]) == base + ExtractLines(chunk, lines)
      && (calls + Emitted(d, content)) + Emissions(chunk, content + d, lines[i + 1..]) == calls0 + Emissions(chunk, base, lines)
  {
    ExtractStep(chunk, base, lines, i, content);
    var d := LineDelta(chunk, lines[i]);
    EmissionsAt(chunk, content, lines, i);
    AppendAssoc(calls, Emitted(d, content), Emissions(chunk, content + d, lines[i + 1..]));
  }

  lemma {:induction false} ExtractLinesAppend(chunk: string -> string, x: seq<string>, y: seq<string>)
    ensures ExtractLines(chunk, x + y) == ExtractLines(chunk, x) + ExtractLines(chunk, y)
  {
    if x == [] {
      assert x + y == y;
    } else {
      assert (x + y)[0] == x[0];
      assert (x + y)[1..] == x[1..] + y;
      ExtractLinesAppend(chunk, x[1..], y);
    }
  }

  /** Text on either side of a newline is extracted independently. */
  lemma ExtractAroundNewline(chunk: string -> string, a: string, b: string)
    ensures Extract(chunk, a + "\n" + b) == Extract(chunk, a) + Extract(chunk, b)
  {
    SplitAroundNewline(a, b);
    ExtractLinesAppend(chunk, Split(a), Split(b));
  }

  /** A text that is empty or ends with a newline: a poll of it stops at a line boundary. */
  predicate AtLineBoundary(t: string) {
    t == [] || t[|t| - 1] == '\n'
  }

  /** After a line boundary, extraction of the rest is independent of what came before. */
  lemma ExtractAfterBoundary(chunk: string -> string, t: string, b: string)
    requires AtLineBoundary(t)
    ensures Extract(chunk, t + b) == Extract(chunk, t) + Extract(chunk, b)
  {
    if t == [] {
      assert t + b == b;
      assert Split(t) == [[]];
    } else {
      var a := t[..|t| - 1];
      assert t == a + "\n" + [];
      assert t + b == a + "\n" + b;
      ExtractAroundNewline(chunk, a, b);
      ExtractAroundNewline(chunk, a, []);
      assert Split([]) == [[]];
    }
  }

  // ---------------------------------------------------------------------------
  // The poll state machine, as a function of the polls seen

  /** The two closure variables of `_streamXHR`. */
  datatype PollState = PollState(full: string, processed: nat)

  /** One `processNewData()` over the current response text. */
  function Poll(chunk: string -> string, s: PollState, text: string): PollState {
    if |text| <= s.processed then s
    else PollState(s.full + Extract(chunk, text[s.processed..]), |text|)
  }

  function Polls(chunk: string -> string, s: PollState, texts: seq<string>): PollState
    decreases |texts|
  {
    if texts == [] then s else Polls(chunk, Poll(chunk, s, texts[0]), texts[1..])
  }

  /** The content `onload` resolves with on a 2xx status: the unprocessed rest is parsed too. */
  function Completed(chunk: string -> string, s: PollState, text: string): string {
    var remaining := if s.processed <= |text| then text[s.processed..] else [];
    if remaining != [] then s.full + Extract(chunk, remaining) else s.full
  }

  /** What a response text `t` has been consumed up to, when every poll so far stopped at a line boundary. */
  ghost predicate ConsumedToBoundary(chunk: string -> string, s: PollState, t: string) {
    && s.processed <= |t|
    && AtLineBoundary(t[..s.processed])
    && s.full == Extract(chunk, t[..s.processed])
  }

  lemma PollAtBoundary(chunk: string -> string, s: PollState, text: string, t: string)
    requires ConsumedToBoundary(chunk, s, t)
    requires |text| <= |t| && text == t[..|text|] && AtLineBoundary(text)
    ensures ConsumedToBoundary(chunk, Poll(chunk, s, text), t)
  {
    if |text| > s.processed {
      var head := t[..s.processed];
      assert text == head + text[s.processed..];
      ExtractAfterBoundary(chunk, head, text[s.processed..]);
      assert t[..|text|] == text;
    }
  }

  lemma CompletedAtBoundary(chunk: string -> string, s: PollState, t: string)
    requires ConsumedToBoundary(chunk, s, t)
    ensures Completed(chunk, s, t) == Extract(chunk, t)
  {
    var head := t[..s.processed];
    assert t == head + t[s.processed..];
    ExtractAfterBoundary(chunk, head, t[s.processed..]);
    if t[s.processed..] == [] {
      assert Split([]) == [[]];
      assert t == head;
    }
  }

  lemma {:induction false} PollsAtBoundaries(chunk: string -> string, s: PollState, texts: seq<string>, t: string)
    requires ConsumedToBoundary(chunk, s, t)
    requires forall i :: 0 <= i < |texts| ==> |texts[i]| <= |t| && texts[i] == t[..|texts[i]|] && AtLineBoundary(texts[i])
    ensures ConsumedToBoundary(chunk, Polls(chunk, s, texts), t)
    decreases |texts|
  {
    if texts != [] {
      PollAtBoundary(chunk, s, texts[0], t);
      PollsAtBoundaries(chunk, Poll(chunk, s, texts[0]), texts[1..], t);
    }
  }

  /**
   * No fragment loss: when every poll saw a prefix of the final response text
   * that ends on a line boundary, the content resolved on completion is exactly a
   * single pass over the whole text.
   */
  lemma LineAlignedPollsLoseNothing(chunk: string -> string, texts: seq<string>, t: string)
    requires forall i :: 0 <= i < |texts| ==> |texts[i]| <= |t| && texts[i] == t[..|texts[i]|] && AtLineBoundary(texts[i])
    ensures Completed(chunk, Polls(chunk, PollState("", 0), texts), t) == Extract(chunk, t)
  {
    assert Split(t[..0]) == [[]];
    PollsAtBoundaries(chunk, PollState("", 0), texts, t);
    CompletedAtBoundary(chunk, Polls(chunk, PollState("", 0), texts), t);
  }

  /** A text without a newline is one line: a pass extracts that line's delta. */
  lemma ExtractOneLine(chunk: string -> string, s: string)
    requires '\n' !in s
    ensures Extract(chunk, s) == LineDelta(chunk, s)
  {
    SplitWithoutNewline(s);
    var one := Split(s);
    assert one[1..] == [];
    assert ExtractLines(chunk, one) == LineDelta(chunk, one[0]) + ExtractLines(chunk, one[1..]);
  }

  /** A single line that is not a `data: ` line contributes nothing. */
  lemma ExtractNonDataLine(chunk: string -> string, s: string)
    requires '\n' !in s && !StartsWith(s, DataPrefix)
    ensures Extract(chunk, s) == ""
  {
    ExtractOneLine(chunk, s);
  }

  /** A single pass over `data: <payload>` parses the payload. */
  lemma DataLineParsed(chunk: string -> string, payload: string)
    requires '\n' !in payload && payload != DoneSentinel
    ensures Extract(chunk, DataPrefix + payload) == chunk(payload)
  {
    var t := DataPrefix + payload;
    assert '\n' !in t;
    ExtractOneLine(chunk, t);
    assert t[..|DataPrefix|] == DataPrefix && t[|DataPrefix|..] == payload;
  }

  /** A first poll that saw only `da` leaves the rest of the line to `onload`, which cannot parse it. */
  lemma EarlyPollLosesLine(chunk: string -> string, payload: string)
    requires '\n' !in payload
    ensures Completed(chunk, Polls(chunk, PollState("", 0), ["da"]), DataPrefix + payload) == ""
  {
    var t := DataPrefix + payload;
    var s1 := PollState("", 2);
    assert Polls(chunk, PollState("", 0), ["da"]) == s1 by {
      assert '\n' !in "da" && !StartsWith("da", DataPrefix);
      ExtractNonDataLine(chunk, "da");
      assert Poll(chunk, PollState("", 0), "da") == s1;
      assert Polls(chunk, PollState("", 0), ["da"]) == Polls(chunk, s1, []);
    }
    var rest := t[2..];
    assert rest[0] == 't' && '\n' !in rest;
    ExtractNonDataLine(chunk, rest);
  }

  /**
   * A poll that stops inside a line loses that line: the poll only splits the new
   * text, so the two halves of `data: <payload>` are never put back together.
   */
  lemma PartialLineIsLost(chunk: string -> string, payload: string)
    requires '\n' !in payload && payload != DoneSentinel && chunk(payload) != ""
    ensures Extract(chunk, DataPrefix + payload) == chunk(payload)
    ensures Completed(chunk, Polls(chunk, PollState("", 0), ["da"]), DataPrefix + payload) == ""
  {
    DataLineParsed(chunk, payload);
    EarlyPollLosesLine(chunk, payload);
  }

  // ---------------------------------------------------------------------------
  // Errors and the request outcome

  /** A message shown to the user: a translation key or a literal text. */
  datatype MessageText = Localized(key: string) | Literal(text: string)

  /** The `Error` objects the transport rejects with. */
  datatype StreamError = AbortError | RequestError(message: MessageText)

  datatype Outcome = Pending | Resolved(content: string) | Rejected(error: StreamError)

  /**
   * The rejection message for a non-2xx response: the body's `error.message` when
   * the body is JSON and that is a non-empty string, else the generic failure text.
   */
  function ErrorMessage(parse: string -> Option<Json>, body: string): (r: MessageText)
    ensures r.Literal? <==> TextOf(Member(Member(parse(body), "error"), "message")) != ""
    ensures r.Literal? ==> Member(Member(parse(body), "error"), "message") == Some(JString(r.text))
    ensures r.Localized? ==> r.key == "error.requestFailed"
  {
    var m := TextOf(Member(Member(parse(body), "error"), "message"));
    if m != "" then Literal(m) else Localized("error.requestFailed")
  }

  // ---------------------------------------------------------------------------
  // Request routing in streamMessage

  datatype ParserKind = NativeParser | OpenAIParser
  datatype WireMessage = WireMessage(role: string, content: string)
  /** The JSON body; `stream` is always true. */
  datatype RequestBody = RequestBody(model: string, maxTokens: Option<int>, messages: seq<WireMessage>, webSearchTool: bool)
  datatype RequestSpec = RequestSpec(url: string, headers: seq<(string, string)>, body: RequestBody, parser: ParserKind)

  /** The chunk parser a route selects, given `JSON.parse`. */
  function ChunkParser(kind: ParserKind, parse: string -> Option<Json>): string -> string {
    match kind
    case NativeParser => data => ParseChunk(parse, data)
    case OpenAIParser => data => ParseOpenAIChunk(parse, data)
  }

  /**
   * `streamMessage` routing: a selected custom model goes to its own
   * `/chat/completions` with a bearer key; otherwise the proxy or the native
   * `/v1/messages` endpoint. With no way to authenticate it throws `error.noApiKey`.
   */
  function Route(config: Config.ApiConfig, useProxy: bool, custom: Option<Config.CustomModel>, messages: seq<WireMessage>)
    : (r: Result<RequestSpec, MessageText>)
    ensures r.Failure? <==> !useProxy && config.apiKey == "" && custom.None?
    ensures r.Failure? ==> r.error == Localized("error.noApiKey")
    ensures custom.Some? ==>
      && r.Success? && r.value.parser == OpenAIParser
      && r.value.url == custom.value.baseUrl + "/chat/completions"
      && ("Authorization", "Bearer " + custom.value.apiKey) in r.value.headers
      && r.value.body == RequestBody(custom.value.model.id, None, messages, false)
    ensures custom.None? && r.Success? ==>
      && r.value.parser == NativeParser
      && r.value.body == RequestBody(config.model, Some(64000), messages, config.webSearchEnabled)
      && ("anthropic-version", "2023-06-01") in r.value.headers
    ensures custom.None? && r.Success? && useProxy ==>
      r.value.url == "/api/messages" && forall h :: h in r.value.headers ==> h.0 != "x-api-key"
    ensures custom.None? && r.Success? && !useProxy ==>
      r.value.url == config.baseUrl + "/v1/messages" && ("x-api-key", config.apiKey) in r.value.headers
  {
    if !useProxy && config.apiKey == "" && custom.None? then Failure(Localized("error.noApiKey"))
    else if custom.Some? then
      var cm := custom.value;
      Success(RequestSpec(cm.baseUrl + "/chat/completions",
                          [("Content-Type", "application/json"), ("Authorization", "Bearer " + cm.apiKey)],
                          RequestBody(cm.model.id, None, messages, false), OpenAIParser))
    else
      var url := if useProxy then "/api/messages" else config.baseUrl + "/v1/messages";
      var base := [("Content-Type", "application/json"), ("anthropic-version", "2023-06-01")];
      var headers := if useProxy then base else base + [("x-api-key", config.apiKey)];
      Success(RequestSpec(url, headers, RequestBody(config.model, Some(64000), messages, config.webSearchEnabled), NativeParser))
  }

  /** Whenever `hasAPIKey()` holds, routing succeeds: the check in `sendMessage` is the same condition. */
  lemma HasApiKeyRoutes(config: Config.ApiConfig, useProxy: bool, customs: seq<Config.CustomModel>, messages: seq<WireMessage>)
    requires Config.HasApiKey(config, useProxy, customs)
    ensures Route(config, useProxy, Config.FindCustomModel(customs, config.model), messages).Success?
  {
  }

  // ---------------------------------------------------------------------------
  // The service and one streaming request

  class ApiService {
    /** `this._xhr`: the request in flight, if any. */
    var xhr: XhrStream?

    ghost predicate Valid()
      reads this, xhr
    {
      xhr != null ==> xhr.outcome.Pending? && xhr.service == this
    }

    constructor()
      ensures xhr == null && Valid()
    {
      xhr := null;
    }

    /** `isRequesting()` */
    predicate IsRequesting()
      reads this
    {
      xhr != null
    }

    /** `_streamXHR(...)`: opens a request whose chunk parser is `chunk` and records it as in flight. */
    method StreamXhr(chunk: string -> string) returns (s: XhrStream)
      modifies this
      ensures fresh(s) && xhr == s && Valid()
      ensures s.service == this && s.chunk == chunk
      ensures s.fullContent == "" && s.processedLength == 0
      ensures s.chunkCalls == [] && s.completeCalls == [] && s.outcome == Pending
    {
      s := new XhrStream(this, chunk);
      xhr := s;
    }

    /** `abort()`: aborting a request in flight rejects it with an `AbortError`. */
    method Abort()
      requires Valid()
      modifies this, xhr
      ensures xhr == null && Valid()
      ensures old(xhr) != null ==>
        && old(xhr).outcome == Rejected(AbortError)
        && old(xhr).completeCalls == old(xhr.completeCalls)
        && old(xhr).chunkCalls == old(xhr.chunkCalls)
        && old(xhr).fullContent == old(xhr.fullContent)
    {
      if xhr != null {
        xhr.OnAbort();
      }
    }
  }

  class XhrStream {
    const service: ApiService
    /** The provider's `parseChunk`. */
    const chunk: string -> string
    /** The closure variable `fullContent`. */
    var fullContent: string
    /** The closure variable `processedLength`. */
    var processedLength: nat
    /** The `onChunk(delta, fullContent)` calls made so far, in order. */
    var chunkCalls: seq<(string, string)>
    /** The `onComplete(fullContent)` calls made so far. */
    var completeCalls: seq<string>
    /** How the returned promise has settled. */
    var outcome: Outcome

    constructor(service: ApiService, chunk: string -> string)
      ensures this.service == service && this.chunk == chunk
      ensures fullContent == "" && processedLength == 0
      ensures chunkCalls == [] && completeCalls == [] && outcome == Pending
    {
      this.service := service;
      this.chunk := chunk;
      fullContent := "";
      processedLength := 0;
      chunkCalls := [];
      completeCalls := [];
      outcome := Pending;
    }

    /** The closure state, as the poll specification sees it. */
    function State(): PollState
      reads this
    {
      PollState(fullContent, processedLength)
    }

    /**
     * `processNewData()` on the current response text: only the text after
     * `processedLength` is split and parsed, and `processedLength` moves to the end,
     * so no range is parsed twice; a poll with nothing new changes nothing.
     */
    method ProcessNewData(text: string)
      requires outcome.Pending?
      modifies this
      ensures State() == Poll(chunk, old(State()), text)
      ensures |text| <= old(processedLength) ==> chunkCalls == old(chunkCalls)
      ensures |text| > old(processedLength) ==>
        chunkCalls == old(chunkCalls) + Emissions(chunk, old(fullContent), Split(text[old(processedLength)..]))
      ensures completeCalls == old(completeCalls) && outcome == old(outcome)
    {
      if |text| <= processedLength {
        return;
      }
      var newText := text[processedLength..];
      processedLength := |text|;
      var lines := Split(newText);
      EmitLines(lines);
    }

    /** The line loop of `processNewData()`: each non-empty delta is appended and reported through `onChunk`. */
    method EmitLines(lines: seq<string>)
      modifies this
      ensures fullContent == old(fullContent) + ExtractLines(chunk, lines)
      ensures chunkCalls == old(chunkCalls) + Emissions(chunk, old(fullContent), lines)
      ensures processedLength == old(processedLength) && completeCalls == old(completeCalls) && outcome == old(outcome)
    {
      var i := 0;
      while i < |lines|
        invariant 0 <= i <= |lines|
        invariant fullContent + ExtractLines(chunk, lines[i..]) == old(fullContent) + ExtractLines(chunk, lines)
        invariant chunkCalls + Emissions(chunk, fullContent, lines[i..]) == old(chunkCalls) + Emissions(chunk, old(fullContent), lines)
        invariant processedLength == old(processedLength) && completeCalls == old(completeCalls) && outcome == old(outcome)
      {
        var line := lines[i];
        ghost var d := LineDelta(chunk, line);
        ghost var before := fullContent;
        ghost var callsBefore := chunkCalls;
        EmitStep(chunk, old(fullContent), lines, i, fullContent, old(chunkCalls), chunkCalls);
        if StartsWith(line, DataPrefix) {
          var data := line[|DataPrefix|..];
          if data != DoneSentinel {
            var delta := chunk(data);
            assert delta == d;
            if delta != "" {
              fullContent := fullContent + delta;
              chunkCalls := chunkCalls + [(delta, fullContent)];
            }
          }
        }
        assert fullContent == before + d;
        assert chunkCalls == callsBefore + Emitted(d, before);
        i := i + 1;
      }
      assert lines[i..] == [];
    }

    /** The line loop of `onload`: the same parsing as a poll, with no `onChunk` calls. */
    method ConsumeRemaining(lines: seq<string>)
      modifies this
      ensures fullContent == old(fullContent) + ExtractLines(chunk, lines)
      ensures chunkCalls == old(chunkCalls) && processedLength == old(processedLength)
      ensures completeCalls == old(completeCalls) && outcome == old(outcome)
    {
      var i := 0;
      while i < |lines|
        invariant 0 <= i <= |lines|
        invariant fullContent + ExtractLines(chunk, lines[i..]) == old(fullContent) + ExtractLines(chunk, lines)
        invariant chunkCalls == old(chunkCalls) && processedLength == old(processedLength)
        invariant completeCalls == old(completeCalls) && outcome == old(outcome)
      {
        var line := lines[i];
        ghost var before := fullContent;
        ExtractStep(chunk, old(fullContent), lines, i, fullContent);
        if StartsWith(line, DataPrefix) {
          var data := line[|DataPrefix|..];
          if data != DoneSentinel {
            var delta := chunk(data);
            if delta != "" {
              fullContent := fullContent + delta;
            }
          }
        }
        assert fullContent == before + LineDelta(chunk, line);
        i := i + 1;
      }
      assert lines[i..] == [];
    }

    /**
     * `onload`: on a 2xx status the unprocessed rest is parsed (without `onChunk`),
     * then `onComplete` runs and the promise resolves with the content; on any
     * other status the promise rejects with the body's error message.
     */
    method OnLoad(status: int, responseText: string, parse: string -> Option<Json>)
      requires outcome.Pending?
      modifies this, service
      ensures service.xhr == null
      ensures chunkCalls == old(chunkCalls) && processedLength == old(processedLength)
      ensures 200 <= status < 300 ==>
        && fullContent == Completed(chunk, old(State()), responseText)
        && completeCalls == old(completeCalls) + [fullContent]
        && outcome == Resolved(fullContent)
      ensures !(200 <= status < 300) ==>
        && fullContent == old(fullContent) && completeCalls == old(completeCalls)
        && outcome == Rejected(RequestError(ErrorMessage(parse, responseText)))
    {
      service.xhr := null;
      if 200 <= status < 300 {
        var remaining := if processedLength <= |responseText| then responseText[processedLength..] else [];
        if remaining != [] {
          var lines := Split(remaining);
          ConsumeRemaining(lines);
        }
        completeCalls := completeCalls + [fullContent];
        outcome := Resolved(fullContent);
      } else {
        outcome := Rejected(RequestError(ErrorMessage(parse, responseText)));
      }
    }

    /** `onerror`: the promise rejects with the generic failure text. */
    method OnError()
      requires outcome.Pending?
      modifies this, service
      ensures service.xhr == null
      ensures outcome == Rejected(RequestError(Localized("error.requestFailed")))
      ensures fullContent == old(fullContent) && processedLength == old(processedLength)
      ensures chunkCalls == old(chunkCalls) && completeCalls == old(completeCalls)
    {
      service.xhr := null;
      outcome := Rejected(RequestError(Localized("error.requestFailed")));
    }

    /** `onabort`: the promise rejects with an `AbortError`; `onComplete` is never called. */
    method OnAbort()
      requires outcome.Pending?
      modifies this, service
      ensures service.xhr == null
      ensures outcome == Rejected(AbortError)
      ensures fullContent == old(fullContent) && processedLength == old(processedLength)
      ensures chunkCalls == old(chunkCalls) && completeCalls == old(completeCalls)
    {
      service.xhr := null;
      outcome := Rejected(AbortError);
    }
  }
}
