/**
 * The chat side of the home page: the sampling parameters of the selected
 * provider (defaults merged with the provider's profile), the request sent
 * to each provider, the error strings returned instead of a reply, the
 * accumulation of a streamed reply, and the chat history it extends.
 * The providers themselves are abstract: what an SDK returned is a
 * parameter (`SdkOutcome`).
 */
module Chat {
  import opened Wrappers
  import opened Text

  const OPENAI: string := "OpenAI (ChatGPT)"
  const GEMINI: string := "Google (Gemini)"
  const GROK: string := "xAI (Grok)"

  const GEMINI_MODEL_NAME: string := "gemini-2.5-flash"
  const OPENAI_MODEL_NAME: string := "gpt-4o-mini"
  const GROK_MODEL_NAME: string := "grok-1"
  const GROK_BASE_URL: string := "https://api.x.ai/v1"

  /** A sampling parameter value as the Python dicts hold it: a float, an int, or `None`. */
  datatype Param = Float(x: real) | Int(n: int) | Null

  type Params = map<string, Param>

  const LLM_DEFAULTS: Params := map["temperature" := Float(0.7), "top_p" := Float(1.0), "top_k" := Null]

  const CUSTOM_LLM_PROFILES: map<string, Params> := map[
    OPENAI := map["temperature" := Float(0.5), "top_p" := Float(0.9)],
    GEMINI := map["temperature" := Float(0.3), "top_p" := Float(0.95), "top_k" := Int(30)],
    GROK := map["temperature" := Float(0.8)]
  ]

  /** `CUSTOM_LLM_PROFILES.get(provider, {})`. */
  function ProfileFor(provider: string): (profile: Params)
    ensures provider !in CUSTOM_LLM_PROFILES ==> profile == map[]
  {
    if provider in CUSTOM_LLM_PROFILES then CUSTOM_LLM_PROFILES[provider] else map[]
  }

  /** A copy of `defaults` updated with `overrides`: every override wins, every other default stays. */
  function Merge(defaults: Params, overrides: Params): (r: Params)
    ensures r.Keys == defaults.Keys + overrides.Keys
    ensures forall k :: k in overrides ==> r[k] == overrides[k]
    ensures forall k :: k in defaults && k !in overrides ==> r[k] == defaults[k]
  {
    defaults + overrides
  }

  /**
   * `params = LLM_DEFAULTS.copy(); params.update(profile)`: the copy is a
   * value, so the defaults are never changed; the update writes the
   * profile's keys one at a time.
   */
  method LoadParams(provider: string) returns (params: Params)
    ensures params == Merge(LLM_DEFAULTS, ProfileFor(provider))
  {
    params := LLM_DEFAULTS;
    var overrides := ProfileFor(provider);
    var pending := overrides.Keys;
    while pending != {}
      invariant pending <= overrides.Keys
      invariant params.Keys == LLM_DEFAULTS.Keys + (overrides.Keys - pending)
      invariant forall k :: k in overrides && k !in pending ==> params[k] == overrides[k]
      invariant forall k :: k in LLM_DEFAULTS && (k !in overrides || k in pending) ==> params[k] == LLM_DEFAULTS[k]
      decreases pending
    {
      var k :| k in pending;
      params := params[k := overrides[k]];
      pending := pending - {k};
    }
  }

  /** A provider without a profile runs on exactly the defaults. */
  lemma MergeWithoutProfile(provider: string)
    requires provider !in CUSTOM_LLM_PROFILES
    ensures Merge(LLM_DEFAULTS, ProfileFor(provider)) == LLM_DEFAULTS
  {
    assert LLM_DEFAULTS + map[] == LLM_DEFAULTS;
  }

  /** The parameters each of the three providers ends up with. */
  lemma ProviderParams()
    ensures Merge(LLM_DEFAULTS, ProfileFor(OPENAI)) == map["temperature" := Float(0.5), "top_p" := Float(0.9), "top_k" := Null]
    ensures Merge(LLM_DEFAULTS, ProfileFor(GEMINI)) == map["temperature" := Float(0.3), "top_p" := Float(0.95), "top_k" := Int(30)]
    ensures Merge(LLM_DEFAULTS, ProfileFor(GROK)) == map["temperature" := Float(0.8), "top_p" := Float(1.0), "top_k" := Null]
  {
  }

  /** The sampling values `get_llm_response` reads out of its parameter dict. */
  datatype Sampling = Sampling(temperature: Param, topP: Param, topK: Param)

  /** `params.get('temperature', 0.7)`, `params.get('top_p', 1.0)`, `params.get('top_k')`. */
  function SamplingOf(params: Params): (s: Sampling)
    ensures s.temperature == (if "temperature" in params then params["temperature"] else Float(0.7))
    ensures s.topP == (if "top_p" in params then params["top_p"] else Float(1.0))
    ensures s.topK == (if "top_k" in params then params["top_k"] else Null)
  {
    Sampling(
      if "temperature" in params then params["temperature"] else Float(0.7),
      if "top_p" in params then params["top_p"] else Float(1.0),
      if "top_k" in params then params["top_k"] else Null)
  }

  /** Gemini's top_k: 40 when none was given, otherwise the given value. */
  function GeminiTopK(topK: Param): (k: Param)
    ensures topK.Null? ==> k == Int(40)
    ensures !topK.Null? ==> k == topK
    ensures !k.Null?
  {
    if topK.Null? then Int(40) else topK
  }

  datatype Message = Message(role: string, content: string)

  /** A Gemini content entry: a role and its parts. */
  datatype GeminiContent = GeminiContent(role: string, parts: seq<string>)

  /** `role.replace("assistant", "model")`. */
  function GeminiRole(role: string): (r: string)
    ensures role == "assistant" ==> r == "model"
    ensures !Contains(role, "assistant") ==> r == role
  {
    ReplaceAllOfPattern("assistant", "model");
    if !Contains(role, "assistant") then
      ReplaceAllWithoutOccurrence(role, "assistant", "model");
      ReplaceAll(role, "assistant", "model")
    else ReplaceAll(role, "assistant", "model")
  }

  /** The assistant becomes the model; the user, and any role not mentioning "assistant", stays. */
  lemma GeminiRoles(role: string)
    ensures GeminiRole("assistant") == "model"
    ensures !Contains(role, "assistant") ==> GeminiRole(role) == role
    ensures GeminiRole("user") == "user"
  {
  }

  /** The history in Gemini's format: same length, same order, one part holding each content. */
  function ToGeminiContents(messages: seq<Message>): (r: seq<GeminiContent>)
    ensures |r| == |messages|
    ensures forall i :: 0 <= i < |messages| ==>
              r[i].role == GeminiRole(messages[i].role) && r[i].parts == [messages[i].content]
  {
    seq(|messages|, i requires 0 <= i < |messages| => GeminiContent(GeminiRole(messages[i].role), [messages[i].content]))
  }

  /** What is sent to a provider. */
  datatype Request =
    | ChatCompletion(model: string, baseUrl: Option<string>, messages: seq<Message>,
                     temperature: Param, topP: Param, stream: bool)
    | GenerateContent(model: string, contents: seq<GeminiContent>,
                      temperature: Param, topP: Param, topK: Param)

  predicate KnownProvider(provider: string) {
    provider == OPENAI || provider == GEMINI || provider == GROK
  }

  /** The request of each provider branch of `get_llm_response`; none for an unknown provider. */
  function RequestFor(provider: string, messages: seq<Message>, params: Params): (r: Option<Request>)
    ensures r.Some? <==> KnownProvider(provider)
    ensures r.Some? ==> r.value.temperature == SamplingOf(params).temperature
    ensures r.Some? ==> r.value.topP == SamplingOf(params).topP
    ensures provider == OPENAI || provider == GROK ==>
              r.value.ChatCompletion? && r.value.messages == messages && r.value.stream
    ensures provider == OPENAI ==> r.value.baseUrl == None && r.value.model == OPENAI_MODEL_NAME
    ensures provider == GROK ==> r.value.baseUrl == Some(GROK_BASE_URL) && r.value.model == GROK_MODEL_NAME
    ensures provider == GEMINI ==>
              r.value.GenerateContent? && r.value.model == GEMINI_MODEL_NAME &&
              r.value.contents == ToGeminiContents(messages) &&
              r.value.topK == GeminiTopK(SamplingOf(params).topK)
  {
    var s := SamplingOf(params);
    if provider == OPENAI then
      Some(ChatCompletion(OPENAI_MODEL_NAME, None, messages, s.temperature, s.topP, true))
    else if provider == GEMINI then
      Some(GenerateContent(GEMINI_MODEL_NAME, ToGeminiContents(messages), s.temperature, s.topP, GeminiTopK(s.topK)))
    else if provider == GROK then
      Some(ChatCompletion(GROK_MODEL_NAME, Some(GROK_BASE_URL), messages, s.temperature, s.topP, true))
    else None
  }

  /** With no parameters at all, the request uses temperature 0.7, top_p 1.0 and, for Gemini, top_k 40. */
  lemma DefaultSampling(provider: string, messages: seq<Message>)
    requires KnownProvider(provider)
    ensures RequestFor(provider, messages, map[]).value.temperature == Float(0.7)
    ensures RequestFor(provider, messages, map[]).value.topP == Float(1.0)
    ensures provider == GEMINI ==> RequestFor(provider, messages, map[]).value.topK == Int(40)
  {
  }

  /** One streamed chunk: `chunk.choices[0].delta.content`, each level possibly missing. */
  datatype Delta = Delta(content: Option<string>)
  datatype StreamChoice = StreamChoice(delta: Option<Delta>)
  datatype Chunk = Chunk(choices: seq<StreamChoice>)

  /** What a provider SDK gave back: an exception, a stream of chunks (which may break off), or a text. */
  datatype SdkOutcome = Raised(message: string) | Streamed(chunks: seq<Chunk>, completes: bool) | Generated(text: string)

  /** What `get_llm_response` returns: an error string, a stream, a text, or `None`. */
  datatype Reply = Failed(text: string) | Streaming(chunks: seq<Chunk>, completes: bool) | Whole(text: string) | NoReply

  /** The mark every error string starts with, and that the caller tests for. */
  const FAILURE_MARK: string := "\U{274C}"

  const MISSING_KEY_ERROR: string :=
    FAILURE_MARK + " ERROR: " + "The API Key is missing in your `secrets.toml` file for this provider."

  /** `f"❌ LLM API Error: {e}"`. */
  function ApiError(message: string): (r: string)
    ensures StartsWith(r, FAILURE_MARK)
  {
    StartsWithConcat(FAILURE_MARK, " LLM API Error: " + message);
    assert FAILURE_MARK + " LLM API Error: " + message == FAILURE_MARK + (" LLM API Error: " + message);
    FAILURE_MARK + " LLM API Error: " + message
  }

  /** Python's `not api_key` for a key that may be `None`. */
  function KeyMissing(apiKey: Option<string>): (missing: bool)
    ensures missing <==> apiKey.GetOr("") == ""
  {
    apiKey.None? || apiKey.value == ""
  }

  /**
   * `get_llm_response`: the missing-key error before any provider is
   * contacted; otherwise what the provider's SDK gave back for
   * `RequestFor(...)`, with an exception turned into an error string.
   */
  function GetLlmResponse(provider: string, apiKey: Option<string>, messages: seq<Message>,
                          params: Params, outcome: SdkOutcome): (r: Reply)
    ensures KeyMissing(apiKey) ==> r == Failed(MISSING_KEY_ERROR)
    ensures r.Failed? ==> StartsWith(r.text, FAILURE_MARK)
    ensures r.Failed? <==> KeyMissing(apiKey) || (KnownProvider(provider) && outcome.Raised?)
    ensures r == NoReply <==> !KeyMissing(apiKey) && RequestFor(provider, messages, params).None?
    ensures !KeyMissing(apiKey) && KnownProvider(provider) && outcome.Streamed? ==>
              r == Streaming(outcome.chunks, outcome.completes)
    ensures !KeyMissing(apiKey) && KnownProvider(provider) && outcome.Generated? ==> r == Whole(outcome.text)
  {
    StartsWithConcat(FAILURE_MARK, " ERROR: " + "The API Key is missing in your `secrets.toml` file for this provider.");
    assert MISSING_KEY_ERROR == FAILURE_MARK + (" ERROR: " + "The API Key is missing in your `secrets.toml` file for this provider.");
    if KeyMissing(apiKey) then Failed(MISSING_KEY_ERROR)
    else if RequestFor(provider, messages, params).None? then NoReply
    else match outcome
      case Raised(e) => Failed(ApiError(e))
      case Streamed(chunks, completes) => Streaming(chunks, completes)
      case Generated(text) => Whole(text)
  }

  /**
   * The text one chunk adds: `chunk.choices[0].delta.content` when there is
   * a first choice with a delta and non-empty content, nothing otherwise.
   */
  function DeltaText(chunk: Chunk): (t: string)
    ensures chunk.choices == [] ==> t == ""
    ensures t != "" ==> chunk.choices[0].delta.Some? && chunk.choices[0].delta.value.content == Some(t)
  {
    if |chunk.choices| > 0 && chunk.choices[0].delta.Some? && chunk.choices[0].delta.value.content.Some?
    then chunk.choices[0].delta.value.content.value
    else ""
  }

  /** The in-order concatenation of the chunks' texts. */
  function StreamedText(chunks: seq<Chunk>): (text: string)
    ensures chunks == [] ==> text == ""
    ensures chunks != [] ==> EndsWith(text, DeltaText(chunks[|chunks| - 1]))
    decreases |chunks|
  {
    if chunks == [] then ""
    else
      var before, last := StreamedText(chunks[..|chunks| - 1]), DeltaText(chunks[|chunks| - 1]);
      assert (before + last)[|before|..] == last;
      before + last
  }

  /** The text of two stretches of a stream is the text of the first followed by that of the second. */
  lemma {:induction false} StreamedTextAppend(a: seq<Chunk>, b: seq<Chunk>)
    ensures StreamedText(a + b) == StreamedText(a) + StreamedText(b)
    decreases |b|
  {
    if b == [] {
      assert a + b == a;
    } else {
      var init, last := b[..|b| - 1], b[|b| - 1];
      assert (a + b)[..|a + b| - 1] == a + init;
      assert (a + b)[|a + b| - 1] == last;
      assert StreamedText(a + b) == StreamedText(a + init) + DeltaText(last);
      assert StreamedText(b) == StreamedText(init) + DeltaText(last);
      StreamedTextAppend(a, init);
    }
  }

  /** A chunk with no choice, no delta or no content adds nothing, wherever it arrives. */
  lemma EmptyChunkAddsNothing(before: seq<Chunk>, chunk: Chunk, after: seq<Chunk>)
    requires DeltaText(chunk) == ""
    ensures StreamedText(before + [chunk] + after) == StreamedText(before + after)
  {
    assert [chunk][..0] == [];
    assert StreamedText([chunk]) == "";
    StreamedTextAppend(before, [chunk]);
    assert StreamedText(before + [chunk]) == StreamedText(before);
    StreamedTextAppend(before + [chunk], after);
    StreamedTextAppend(before, after);
  }

  /** Text received before a stream breaks off is a prefix of what the whole stream would give. */
  lemma StreamedTextOfPrefix(chunks: seq<Chunk>, n: nat)
    requires n <= |chunks|
    ensures StreamedText(chunks[..n]) <= StreamedText(chunks)
  {
    assert chunks == chunks[..n] + chunks[n..];
    StreamedTextAppend(chunks[..n], chunks[n..]);
  }

  /** The streaming loop: appends each chunk's content, in arrival order. */
  method AccumulateStream(chunks: seq<Chunk>) returns (full: string)
    ensures full == StreamedText(chunks)
  {
    full := "";
    for i := 0 to |chunks|
      invariant full == StreamedText(chunks[..i])
    {
      var chunk := chunks[i];
      if |chunk.choices| > 0 && chunk.choices[0].delta.Some? && chunk.choices[0].delta.value.content.Some?
         && chunk.choices[0].delta.value.content.value != "" {
        full := full + chunk.choices[0].delta.value.content.value;
      }
      assert chunks[..i + 1][..i] == chunks[..i];
    }
    assert chunks[..|chunks|] == chunks;
  }

  /**
   * The assistant message a chat turn appends: an error string or a text as
   * it is, a completed stream's accumulated text; nothing when the turn
   * raises (a stream that breaks off, or no reply at all).
   */
  function ReplyText(reply: Reply): (r: Option<string>)
    ensures reply.Failed? || reply.Whole? ==> r == Some(reply.text)
    ensures reply.Streaming? && reply.completes ==> r == Some(StreamedText(reply.chunks))
    ensures r.None? <==> reply.NoReply? || (reply.Streaming? && !reply.completes)
  {
    match reply
    case Failed(text) => Some(text)
    case Whole(text) => Some(text)
    case Streaming(chunks, completes) => if completes then Some(StreamedText(chunks)) else None
    case NoReply => None
  }

  /** `get_secret_key`: the provider's secret path and the key stored there, `""` when either is missing. */
  const KEY_PATHS: map<string, string> := map[
    OPENAI := "api_keys.openai",
    GEMINI := "api_keys.google",
    GROK := "api_keys.grok"
  ]

  function GetSecretKey(provider: string, secrets: map<string, string>): (key: string)
    ensures provider !in KEY_PATHS || KEY_PATHS[provider] !in secrets ==> key == ""
    ensures provider in KEY_PATHS && KEY_PATHS[provider] in secrets ==> key == secrets[KEY_PATHS[provider]]
  {
    if provider in KEY_PATHS then
      var path := KEY_PATHS[provider];
      if path in secrets && secrets[path] != "" then secrets[path] else ""
    else ""
  }

  /** An exception's error string is never the missing-key error string. */
  lemma ApiErrorIsNotMissingKey(message: string)
    ensures ApiError(message) != MISSING_KEY_ERROR
  {
    assert MISSING_KEY_ERROR[2] == 'E';
    assert ApiError(message)[2] == 'L';
  }

  /**
   * A provider whose key is not configured gets the missing-key error,
   * whatever its SDK would have done; one whose key is configured never does.
   */
  lemma UnconfiguredKeyFails(provider: string, secrets: map<string, string>, messages: seq<Message>,
                             params: Params, outcome: SdkOutcome)
    ensures GetLlmResponse(provider, Some(GetSecretKey(provider, secrets)), messages, params, outcome)
              == Failed(MISSING_KEY_ERROR)
            <==> provider !in KEY_PATHS || KEY_PATHS[provider] !in secrets || secrets[KEY_PATHS[provider]] == ""
  {
    if outcome.Raised? {
      ApiErrorIsNotMissingKey(outcome.message);
    }
  }

  /** The chat history of one session. */
  class ChatSession {
    var messages: seq<Message>

    /** The history starts with the assistant's greeting naming the provider. */
    constructor (provider: string)
      ensures messages == [Message("assistant", "Hello! LLM chat is powered by **" + provider + "**. Ask me anything about LLMs!")]
    {
      messages := [Message("assistant", "Hello! LLM chat is powered by **" + provider + "**. Ask me anything about LLMs!")];
    }

    /** "Clear Chat History" and logout empty the history. */
    method Clear()
      modifies this
      ensures messages == []
    {
      messages := [];
    }

    /**
     * One chat turn: the prompt joins the history, the whole history goes to
     * the provider, and the reply's text joins the history unless the turn
     * raises.
     */
    method Ask(prompt: string, provider: string, apiKey: Option<string>, params: Params, outcome: SdkOutcome)
      returns (reply: Option<string>)
      modifies this
      ensures reply == ReplyText(GetLlmResponse(provider, apiKey, old(messages) + [Message("user", prompt)], params, outcome))
      ensures messages == old(messages) + [Message("user", prompt)] +
                          (if reply.Some? then [Message("assistant", reply.value)] else [])
    {
      messages := messages + [Message("user", prompt)];
      var response := GetLlmResponse(provider, apiKey, messages, params, outcome);
      match response {
        case Failed(text) =>
          reply := Some(text);
        case Whole(text) =>
          reply := Some(text);
        case Streaming(chunks, completes) =>
          var full := AccumulateStream(chunks);
          reply := if completes then Some(full) else None;
        case NoReply =>
          reply := None;
      }
      if reply.Some? {
        messages := messages + [Message("assistant", reply.value)];
      }
    }
  }
}
