// OpenRouterService: the completion request it assembles, how it reads the
// reply (one JSON body, or a server-sent-event stream handled chunk by
// chunk), the API-key format check and the fixed model catalogue.
module OpenRouter {
  import opened Common
  import opened Http

  datatype Role = User | Assistant | System

  datatype ChatMessage = ChatMessage(role: Role, content: string)

  datatype Pricing = Pricing(prompt: string, completion: string)

  datatype OpenRouterModel = OpenRouterModel(id: string, name: string, description: string, pricing: Pricing)

  /** The caller's options; `hasOnChunk` says whether an `onChunk` callback was given. */
  datatype ChatCompletionOptions = ChatCompletionOptions(
    model: string,
    messages: seq<ChatMessage>,
    temperature: Option<real>,
    maxTokens: Option<int>,
    stream: Option<bool>,
    hasOnChunk: bool)

  datatype ChatRequestBody = ChatRequestBody(
    model: string,
    messages: seq<ChatMessage>,
    temperature: real,
    max_tokens: int,
    stream: bool)

  datatype ResponseType = JsonResponse | StreamResponse

  datatype ChatRequest = ChatRequest(url: string, body: ChatRequestBody, headers: Headers, responseType: ResponseType)

  /** `JSON.parse` on the payloads of one stream: a payload in the table
      parses to its value, any other payload throws. */
  type Parser = map<string, Json>

  const OPENROUTER_API_URL := "https://openrouter.ai/api/v1/chat/completions"
  const DEFAULT_TEMPERATURE: real := 0.7
  const DEFAULT_MAX_TOKENS := 4096
  const DATA_PREFIX := "data: "
  const DONE_MARKER := "[DONE]"
  const API_ERROR_PREFIX := "OpenRouter API error: "
  /** Stands for the TypeError that reading `choices[0].message.content` of
      a malformed reply throws; its exact text is not modelled. */
  const MALFORMED_REPLY := "TypeError: malformed completion reply"
  /** Stands for the TypeError of `response.data.choices[0]` when the body
      was requested as a stream: a stream has no `choices`. */
  const STREAM_WITHOUT_CALLBACK := "TypeError: cannot read properties of undefined (reading '0')"

  function AvailableModels(): (r: seq<OpenRouterModel>)
    ensures |r| == 5 && r[0].id == "anthropic/claude-3.5-sonnet"
    ensures forall i, j :: 0 <= i < j < |r| ==> r[i].id != r[j].id
  {
    [ OpenRouterModel("anthropic/claude-3.5-sonnet", "Claude 3.5 Sonnet",
        "Most intelligent model, best for complex coding tasks", Pricing("$3/M tokens", "$15/M tokens")),
      OpenRouterModel("openai/gpt-4-turbo", "GPT-4 Turbo",
        "Powerful model with broad knowledge", Pricing("$10/M tokens", "$30/M tokens")),
      OpenRouterModel("google/gemini-pro-1.5", "Gemini Pro 1.5",
        "Fast and capable for most tasks", Pricing("$0.35/M tokens", "$1.05/M tokens")),
      OpenRouterModel("meta-llama/llama-3.1-70b-instruct", "Llama 3.1 70B",
        "Open source, good for general tasks", Pricing("$0.35/M tokens", "$0.40/M tokens")),
      OpenRouterModel("mistralai/mistral-large", "Mistral Large",
        "Balanced performance and cost", Pricing("$2/M tokens", "$6/M tokens")) ]
  }

  /** `validateApiKey`: the `sk-or-` prefix and more than 20 characters. */
  function ValidateApiKey(apiKey: string): (r: bool)
    ensures r <==> |apiKey| >= 21 && forall i :: 0 <= i < 6 ==> apiKey[i] == "sk-or-"[i]
  {
    StartsWith(apiKey, "sk-or-") && |apiKey| > 20
  }

  /** The request `chat` sends. Defaults apply only to options that are
      absent (destructuring defaults), so an explicit 0 is kept. */
  function BuildChatRequest(apiKey: string, o: ChatCompletionOptions): (r: ChatRequest)
    ensures r.url == OPENROUTER_API_URL
    ensures r.body == ChatRequestBody(o.model, o.messages,
      if o.temperature.Some? then o.temperature.value else DEFAULT_TEMPERATURE,
      if o.maxTokens.Some? then o.maxTokens.value else DEFAULT_MAX_TOKENS,
      o.stream == Some(true))
    ensures "Authorization" in r.headers && r.headers["Authorization"] == "Bearer " + apiKey
    ensures r.responseType == if o.stream == Some(true) then StreamResponse else JsonResponse
  {
    var stream := o.stream.GetOr(false);
    ChatRequest(
      OPENROUTER_API_URL,
      ChatRequestBody(o.model, o.messages, o.temperature.GetOr(DEFAULT_TEMPERATURE), o.maxTokens.GetOr(DEFAULT_MAX_TOKENS), stream),
      map["Authorization" := "Bearer " + apiKey,
          "Content-Type" := "application/json",
          "HTTP-Referer" := "https://ai-assistant-pro.app",
          "X-Title" := "AI Assistant Pro"],
      if stream then StreamResponse else JsonResponse)
  }

  // ---- Server-sent-event framing of one stream chunk ----

  /** `s.split('\n')`. */
  function Split(s: string): (r: seq<string>)
    ensures |r| >= 1
    ensures forall i :: 0 <= i < |r| ==> '\n' !in r[i]
    decreases |s|
  {
    if s == [] then [""]
    else
      var rest := Split(s[1..]);
      if s[0] == '\n' then [""] + rest else [[s[0]] + rest[0]] + rest[1..]
  }

  /** `lines.join('\n')`. */
  function Join(lines: seq<string>): string
    requires |lines| >= 1
  {
    if |lines| == 1 then lines[0] else lines[0] + "\n" + Join(lines[1..])
  }

  /** Splitting on newlines loses nothing: joining the pieces gives the chunk back. */
  lemma {:induction false} SplitJoin(s: string)
    ensures Join(Split(s)) == s
    decreases |s|
  {
    if s != [] {
      SplitJoin(s[1..]);
      var rest := Split(s[1..]);
      if s[0] == '\n' {
        assert Split(s)[1..] == rest;
        assert s == [s[0]] + s[1..];
      } else if |rest| == 1 {
        assert s == [s[0]] + s[1..];
      } else {
        assert Split(s)[1..] == rest[1..];
        assert s == [s[0]] + s[1..];
      }
    }
  }

  /** The characters `String.prototype.trim` removes. */
  predicate IsWhitespace(c: char) {
    c in {' ', '\t', '\n', '\r', '\U{000B}', '\U{000C}', '\U{00A0}', '\U{1680}', '\U{2000}', '\U{2001}',
          '\U{2002}', '\U{2003}', '\U{2004}', '\U{2005}', '\U{2006}', '\U{2007}', '\U{2008}', '\U{2009}',
          '\U{200A}', '\U{2028}', '\U{2029}', '\U{202F}', '\U{205F}', '\U{3000}', '\U{FEFF}'}
  }

  /** `line.trim() === ''`. */
  predicate IsBlank(line: string) {
    forall i :: 0 <= i < |line| ==> IsWhitespace(line[i])
  }

  /** `lines.filter(line => line.trim() !== '')`. */
  function NonBlank(lines: seq<string>): (r: seq<string>)
    ensures |r| <= |lines|
    ensures forall i :: 0 <= i < |r| ==> !IsBlank(r[i])
  {
    if lines == [] then []
    else if IsBlank(lines[0]) then NonBlank(lines[1..])
    else [lines[0]] + NonBlank(lines[1..])
  }

  /** `parsed.choices[0]?.delta?.content || ''`; a reply without `choices`
      throws inside the try block and is ignored, which also gives ''. */
  function DeltaContent(parsed: Json): (r: string)
    ensures Member(Some(parsed), "choices").None? ==> r == ""
    ensures var c := Member(Member(Element(Member(Some(parsed), "choices"), 0), "delta"), "content");
      c.Some? && c.value.JStr? ==> r == c.value.s
    ensures var c := Member(Member(Element(Member(Some(parsed), "choices"), 0), "delta"), "content");
      !(c.Some? && c.value.JStr?) ==> r == ""
  {
    StringOr(Member(Member(Element(Member(Some(parsed), "choices"), 0), "delta"), "content"), "")
  }

  /** The text one line contributes: only `data: ` lines, never the `[DONE]`
      marker, and nothing for a payload that does not parse. */
  function LineContent(line: string, parse: Parser): (r: string)
    ensures !StartsWith(line, DATA_PREFIX) ==> r == ""
    ensures line == DATA_PREFIX + DONE_MARKER ==> r == ""
    ensures r != "" ==>
      (StartsWith(line, DATA_PREFIX) && line[|DATA_PREFIX|..] in parse
       && r == DeltaContent(parse[line[|DATA_PREFIX|..]]))
    ensures StartsWith(line, DATA_PREFIX) && line[|DATA_PREFIX|..] != DONE_MARKER ==>
      r == (if line[|DATA_PREFIX|..] in parse then DeltaContent(parse[line[|DATA_PREFIX|..]]) else "")
  {
    if !StartsWith(line, DATA_PREFIX) then ""
    else
      var data := line[|DATA_PREFIX|..];
      if data == DONE_MARKER then ""
      else
        if data !in parse then "" else DeltaContent(parse[data])
  }

  /** The content of every line, blank contents included. */
  function LineContents(lines: seq<string>, parse: Parser): (r: seq<string>)
    ensures |r| == |lines|
    ensures forall i :: 0 <= i < |lines| ==> r[i] == LineContent(lines[i], parse)
  {
    seq(|lines|, i requires 0 <= i < |lines| => LineContent(lines[i], parse))
  }

  /** The non-empty strings of `xs`, in order. */
  function NonEmpty(xs: seq<string>): (r: seq<string>)
    ensures |r| <= |xs|
    ensures forall i :: 0 <= i < |r| ==> r[i] != ""
  {
    if xs == [] then [] else Piece(xs[0]) + NonEmpty(xs[1..])
  }

  /** One `onChunk` call for a non-empty content, none otherwise. */
  function Piece(content: string): seq<string> {
    if content == "" then [] else [content]
  }

  /** The non-empty contents of a run of lines, in order: one `onChunk` call each. */
  function LinesContents(lines: seq<string>, parse: Parser): seq<string> {
    NonEmpty(LineContents(lines, parse))
  }

  /** The `onChunk` calls one `data` event causes. */
  function ChunkContents(chunk: string, parse: Parser): seq<string> {
    LinesContents(NonBlank(Split(chunk)), parse)
  }

  function Concat(pieces: seq<string>): string {
    if pieces == [] then "" else pieces[0] + Concat(pieces[1..])
  }

  /** The full response after the given `data` events, one chunk at a time. */
  function StreamText(chunks: seq<string>, parse: Parser): (r: string)
    ensures chunks == [] ==> r == ""
    ensures |chunks| == 1 ==> r == Concat(ChunkContents(chunks[0], parse))
  {
    if chunks == [] then ""
    else StreamText(chunks[..|chunks| - 1], parse) + Concat(ChunkContents(chunks[|chunks| - 1], parse))
  }

  lemma {:induction false} NonEmptyConcat(a: seq<string>, b: seq<string>)
    ensures NonEmpty(a + b) == NonEmpty(a) + NonEmpty(b)
    decreases |a|
  {
    if a == [] {
      assert a + b == b;
    } else {
      NonEmptyConcat(a[1..], b);
      assert (a + b)[1..] == a[1..] + b;
    }
  }

  lemma {:induction false} ConcatAppend(a: seq<string>, b: seq<string>)
    ensures Concat(a + b) == Concat(a) + Concat(b)
    decreases |a|
  {
    if a == [] {
      assert a + b == b;
    } else {
      ConcatAppend(a[1..], b);
      assert (a + b)[1..] == a[1..] + b;
    }
  }

  lemma LinesContentsConcat(a: seq<string>, b: seq<string>, parse: Parser)
    ensures LinesContents(a + b, parse) == LinesContents(a, parse) + LinesContents(b, parse)
  {
    assert LineContents(a + b, parse) == LineContents(a, parse) + LineContents(b, parse);
    NonEmptyConcat(LineContents(a, parse), LineContents(b, parse));
  }

  /** A `[DONE]` line is skipped, not a stop: what follows it still counts. */
  lemma DoneDoesNotStop(before: seq<string>, after: seq<string>, parse: Parser)
    ensures LinesContents(before + [DATA_PREFIX + DONE_MARKER] + after, parse)
         == LinesContents(before, parse) + LinesContents(after, parse)
  {
    var done := DATA_PREFIX + DONE_MARKER;
    assert done[..|DATA_PREFIX|] == DATA_PREFIX;
    assert done[|DATA_PREFIX|..] == DONE_MARKER;
    assert LineContent(done, parse) == "";
    assert LineContents([done], parse) == [""];
    assert LinesContents([done], parse) == Piece("") + NonEmpty([]) == [];
    LinesContentsConcat(before + [done], after, parse);
    LinesContentsConcat(before, [done], parse);
    assert LinesContents(before, parse) + [] == LinesContents(before, parse);
  }

  lemma BlankLineContent(line: string, parse: Parser)
    requires IsBlank(line)
    ensures LineContent(line, parse) == ""
  {
    if |line| > 0 {
      assert IsWhitespace(line[0]);
    }
  }

  /** Dropping blank lines changes nothing: a blank line never starts with `data: `. */
  lemma {:induction false} BlankLinesContributeNothing(lines: seq<string>, parse: Parser)
    ensures LinesContents(NonBlank(lines), parse) == LinesContents(lines, parse)
    decreases |lines|
  {
    if lines != [] {
      var head, tail := lines[0], lines[1..];
      BlankLinesContributeNothing(tail, parse);
      assert lines == [head] + tail;
      LinesContentsConcat([head], tail, parse);
      assert LineContents([head], parse) == [LineContent(head, parse)];
      if IsBlank(head) {
        BlankLineContent(head, parse);
        assert NonBlank(lines) == NonBlank(tail);
      } else {
        assert NonBlank(lines) == [head] + NonBlank(tail);
        LinesContentsConcat([head], NonBlank(tail), parse);
      }
    }
  }

  /** Associativity of concatenation, stated once so that the loop below
      does not leave it to the solver's sequence reasoning. */
  lemma AppendAssoc<T>(a: seq<T>, b: seq<T>, c: seq<T>)
    ensures (a + b) + c == a + (b + c)
  {
  }

  /** One more line extends the calls and the text by that line's content. */
  lemma LinesContentsSnoc(lines: seq<string>, i: nat, parse: Parser)
    requires i < |lines|
    ensures LinesContents(lines[..i + 1], parse) == LinesContents(lines[..i], parse) + Piece(LineContent(lines[i], parse))
    ensures Concat(LinesContents(lines[..i + 1], parse)) == Concat(LinesContents(lines[..i], parse)) + LineContent(lines[i], parse)
  {
    var c := LineContent(lines[i], parse);
    assert lines[..i + 1] == lines[..i] + [lines[i]];
    LinesContentsConcat(lines[..i], [lines[i]], parse);
    assert LineContents([lines[i]], parse) == [c];
    assert NonEmpty([c]) == Piece(c) + NonEmpty([]);
    ConcatAppend(LinesContents(lines[..i], parse), Piece(c));
    assert Concat(Piece(c)) == c;
  }

  /** The accumulator behind a streamed reply: `fullResponse` and the
      sequence of `onChunk` calls made so far. */
  class StreamCollector {
    var fullResponse: string
    var emitted: seq<string>

    constructor ()
      ensures fullResponse == "" && emitted == []
    {
      fullResponse := "";
      emitted := [];
    }

    /** The `data` event handler: every non-blank line of the chunk, in order. */
    method OnData(chunk: string, parse: Parser)
      modifies this`fullResponse, this`emitted
      ensures emitted == old(emitted) + ChunkContents(chunk, parse)
      ensures fullResponse == old(fullResponse) + Concat(ChunkContents(chunk, parse))
    {
      OnLines(NonBlank(Split(chunk)), parse);
    }

    /** The per-line loop of the handler, over the chunk's non-blank lines. */
    method OnLines(lines: seq<string>, parse: Parser)
      modifies this`fullResponse, this`emitted
      ensures emitted == old(emitted) + LinesContents(lines, parse)
      ensures fullResponse == old(fullResponse) + Concat(LinesContents(lines, parse))
    {
      for i := 0 to |lines|
        invariant emitted == old(emitted) + LinesContents(lines[..i], parse)
        invariant fullResponse == old(fullResponse) + Concat(LinesContents(lines[..i], parse))
      {
        ghost var done := LinesContents(lines[..i], parse);
        ghost var text := Concat(done);
        ghost var c := LineContent(lines[i], parse);
        LinesContentsSnoc(lines, i, parse);
        OnLine(lines[i], parse);
        AppendAssoc(old(emitted), done, Piece(c));
        AppendAssoc(old(fullResponse), text, c);
      }
      assert lines[..|lines|] == lines;
    }

    /** The body of the per-line loop: a `data: ` line other than `[DONE]`
        whose payload parses and carries a non-empty delta is appended to
        `fullResponse` and passed to `onChunk`. */
    method OnLine(line: string, parse: Parser)
      modifies this`fullResponse, this`emitted
      ensures emitted == old(emitted) + Piece(LineContent(line, parse))
      ensures fullResponse == old(fullResponse) + LineContent(line, parse)
    {
      if StartsWith(line, DATA_PREFIX) {
        var data := line[|DATA_PREFIX|..];
        if data == DONE_MARKER {
          return;
        }
        if data in parse {
          var content := DeltaContent(parse[data]);
          if content != "" {
            fullResponse := fullResponse + content;
            emitted := emitted + [content];
          }
        }
      }
    }
  }

  /** Chunks are independent: the text streamed over two runs of `data`
      events is the text of the first run followed by that of the second. */
  lemma {:induction false} StreamTextConcat(a: seq<string>, b: seq<string>, parse: Parser)
    ensures StreamText(a + b, parse) == StreamText(a, parse) + StreamText(b, parse)
    decreases |b|
  {
    if b == [] {
      assert a + b == a;
    } else {
      var front := b[..|b| - 1];
      var last := Concat(ChunkContents(b[|b| - 1], parse));
      assert (a + b)[..|a + b| - 1] == a + front;
      assert (a + b)[|a + b| - 1] == b[|b| - 1];
      StreamTextConcat(a, front, parse);
      calc {
        StreamText(a + b, parse);
        StreamText(a + front, parse) + last;
        (StreamText(a, parse) + StreamText(front, parse)) + last;
        { AppendAssoc(StreamText(a, parse), StreamText(front, parse), last); }
        StreamText(a, parse) + (StreamText(front, parse) + last);
        StreamText(a, parse) + StreamText(b, parse);
      }
    }
  }

  /** `error.response?.data?.error?.message || error.message`. */
  function ApiErrorMessage(t: Transport): (r: string)
    requires t.Failed?
    ensures var m := Member(Member(t.responseData, "error"), "message");
      if m.Some? && m.value.JStr? && m.value.s != "" then r == m.value.s else r == t.message
  {
    StringOr(Member(Member(t.responseData, "error"), "message"), t.message)
  }

  /** `data.choices[0]?.message`, None where a step is missing. */
  function ReplyMessage(data: Json): Option<Json> {
    Member(Element(Member(Some(data), "choices"), 0), "message")
  }

  /** `data.choices[0].message.content`: every step but the last throws on
      `undefined` or `null`; a missing `content` reads as `null`. */
  function ReplyContent(data: Json): (r: Result<Json>)
    ensures r.Err? <==> ReplyMessage(data).None? || ReplyMessage(data).value.JNull?
    ensures r.Err? ==> r.message == MALFORMED_REPLY
    ensures r.Ok? && ReplyMessage(data).value.JObj? && "content" in ReplyMessage(data).value.fields ==>
      r.value == ReplyMessage(data).value.fields["content"]
  {
    var message := ReplyMessage(data);
    if message.None? || message.value.JNull? then Err(MALFORMED_REPLY)
    else Ok(Member(message, "content").GetOr(JNull))
  }

  /** What `chat` resolves to, given the transport's outcome and, for a
      stream with a callback, the chunks of the stream. */
  function ChatReply(o: ChatCompletionOptions, transport: Transport, chunks: seq<string>, parse: Parser)
    : (r: Result<Json>)
    ensures transport.Failed? ==> r == Err(API_ERROR_PREFIX + ApiErrorMessage(transport))
    ensures transport.Delivered? && o.stream == Some(true) && o.hasOnChunk ==> r == Ok(JStr(StreamText(chunks, parse)))
    ensures transport.Delivered? && o.stream == Some(true) && !o.hasOnChunk ==> r == Err(STREAM_WITHOUT_CALLBACK)
    ensures transport.Delivered? && o.stream != Some(true) ==> r == ReplyContent(transport.response.data)
    ensures transport.Delivered? && o.stream != Some(true) ==>
      (r.Err? <==> ReplyMessage(transport.response.data).None? || ReplyMessage(transport.response.data) == Some(JNull))
  {
    match transport
    case Failed(_, _) => Err(API_ERROR_PREFIX + ApiErrorMessage(transport))
    case Delivered(response) =>
      if o.stream.GetOr(false) then
        if o.hasOnChunk then Ok(JStr(StreamText(chunks, parse))) else Err(STREAM_WITHOUT_CALLBACK)
      else ReplyContent(response.data)
  }

  /** Appending characters to a valid key keeps it valid: the test is a
      prefix check plus a lower bound on the length. */
  lemma ValidateApiKeyExtends(apiKey: string, suffix: string)
    requires ValidateApiKey(apiKey)
    ensures ValidateApiKey(apiKey + suffix)
  {
    assert forall i :: 0 <= i < 6 ==> (apiKey + suffix)[i] == apiKey[i];
  }

  lemma ValidateApiKeyExamples()
    ensures ValidateApiKey("sk-or-abcdefghijklmno")
    ensures !ValidateApiKey("sk-123")
  {
  }
}
