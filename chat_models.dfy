/** The chat back-ends: the prompt format shared by the local models, and the small
    amount of state the adapters keep around the foreign model calls (the OpenAI
    token counter, the GPU adapter's stop reason), their fixed defaults, and the
    factory that picks one from the configuration. */
module ChatModels {
  import opened Wrappers
  import opened PyText
  import opened ModelUtils

  // ---------------------------------------------------------------------------
  // Prompt construction

  /** The three roles a chat message may have. */
  datatype Role = System | User | Assistant

  datatype ChatMessage = ChatMessage(role: Role, content: string)

  /** `content.strip('\n').strip()` */
  function CleanContent(content: string): string
  {
    Strip(Trim(content, {'\n'}))
  }

  /** What precedes a message's content on its line. */
  function Tag(role: Role): string
  {
    match role
    case System => ""
    case User => "Human:"
    case Assistant => "AI:"
  }

  /** The line a message contributes to the prompt. */
  function Line(m: ChatMessage): string
  {
    Tag(m.role) + CleanContent(m.content) + "\n"
  }

  /** The lines of all messages, in order. */
  function Lines(messages: seq<ChatMessage>): string
  {
    if messages == [] then "" else Lines(messages[..|messages| - 1]) + Line(messages[|messages| - 1])
  }

  /** The prompt for a non-empty conversation: its lines, then an open "AI:" turn
      when the last message is the user's. */
  function Prompt(messages: seq<ChatMessage>): string
    requires messages != []
  {
    Lines(messages) + if messages[|messages| - 1].role == User then "AI:" else ""
  }

  /** `messages[-1]` on an empty conversation raises IndexError. */
  datatype PromptError = EmptyConversation

  /** `build_llm_prompt(messages)` */
  method BuildLlmPrompt(messages: seq<ChatMessage>) returns (r: Result<string, PromptError>)
    ensures r.Err? <==> messages == []
    ensures r.Err? ==> r.error == EmptyConversation
    ensures r.Ok? ==> r.value == Prompt(messages)
  {
    var prompt := "";
    var i := 0;
    while i < |messages|
      invariant 0 <= i <= |messages|
      invariant prompt == Lines(messages[..i])
    {
      var message := messages[i];
      var clean := CleanContent(message.content);
      ghost var before := prompt;
      match message.role {
        case System =>
          prompt := prompt + clean + "\n";
        case User =>
          prompt := prompt + "Human:" + clean + "\n";
        case Assistant =>
          prompt := prompt + "AI:" + clean + "\n";
      }
      AppendLine(before, Tag(message.role), clean);
      assert prompt == before + Line(message);
      assert messages[..i + 1][..i] == messages[..i];
      i := i + 1;
    }
    if |messages| == 0 {
      return Err(EmptyConversation);
    }
    assert messages[..i] == messages;
    if messages[|messages| - 1].role == User {
      prompt := prompt + "AI:";
    }
    r := Ok(prompt);
  }

  lemma AppendLine(prompt: string, tag: string, clean: string)
    ensures prompt + tag + clean + "\n" == prompt + (tag + clean + "\n")
    ensures prompt + clean + "\n" == prompt + ("" + clean + "\n")
  {
    assert "" + clean == clean;
  }

  lemma {:induction false} LinesAppend(a: seq<ChatMessage>, b: seq<ChatMessage>)
    ensures Lines(a + b) == Lines(a) + Lines(b)
  {
    if b == [] {
      assert a + b == a;
    } else {
      assert (a + b)[..|a + b| - 1] == a + b[..|b| - 1];
      LinesAppend(a, b[..|b| - 1]);
    }
  }

  /** One line per message, in order: message `i`'s line starts right after the
      lines of the messages before it. */
  lemma LineOfEachMessage(messages: seq<ChatMessage>, i: nat)
    requires i < |messages|
    ensures OccursAt(Lines(messages), Line(messages[i]), |Lines(messages[..i])|)
  {
    assert messages == messages[..i] + [messages[i]] + messages[i + 1..];
    LinesAppend(messages[..i] + [messages[i]], messages[i + 1..]);
    LinesAppend(messages[..i], [messages[i]]);
    assert Lines([messages[i]]) == Lines([]) + Line(messages[i]);
  }

  /** The prompt ends with the open "AI:" marker exactly when the last message is
      the user's, and with a newline otherwise. */
  lemma LineEndsWithNewline(m: ChatMessage)
    ensures |Line(m)| > 0 && Line(m)[|Line(m)| - 1] == '\n'
  {
    var c := CleanContent(m.content);
    assert Line(m) == (Tag(m.role) + c) + "\n";
  }

  lemma PromptEnding(messages: seq<ChatMessage>)
    requires messages != []
    ensures EndsWith(Prompt(messages), "AI:") <==> messages[|messages| - 1].role == User
    ensures messages[|messages| - 1].role != User ==> EndsWith(Prompt(messages), "\n")
  {
    var last := messages[|messages| - 1];
    var lines := Lines(messages);
    var p := Prompt(messages);
    if last.role == User {
      assert p == lines + "AI:";
      assert p[|p| - 3..] == "AI:";
    } else {
      var line := Line(last);
      LineEndsWithNewline(last);
      assert p == Lines(messages[..|messages| - 1]) + line;
      assert p[|p| - 1] == '\n';
      assert p[|p| - 1..] == "\n";
      if |p| >= 3 {
        assert p[|p| - 3..][2] != ':';
      }
    }
  }

  /** A cleaned content has no surrounding whitespace (newlines included). */
  lemma CleanContentIsStripped(content: string)
    ensures var c := CleanContent(content);
      c == [] || (c[0] !in Whitespace && c[|c| - 1] !in Whitespace)
  {
    var i, j := TrimIsSlice(Trim(content, {'\n'}), Whitespace);
  }

  // ---------------------------------------------------------------------------
  // Generation settings and adapter descriptions

  /** The settings an adapter passes to its model; `None` leaves a setting at the
      library's own default. */
  datatype GenerationConfig = GenerationConfig(
    temperature: Option<real>,
    topP: Option<real>,
    topK: Option<int>,
    repetitionPenalty: Option<real>,
    maxNewTokens: Option<int>,
    numBeams: Option<int>,
    useCache: Option<bool>)

  /** `GenerationConfig()`: the base adapter's default. */
  const LibraryDefaults: GenerationConfig := GenerationConfig(None, None, None, None, None, None, None)

  datatype ModelInfo = ModelInfo(name: string, model: string, accelerator: string)

  datatype Backend = OpenAiBackend | GpuBackend | CpuBackend

  /** `default_config()` of each adapter. */
  function DefaultConfig(backend: Backend): GenerationConfig
  {
    match backend
    case OpenAiBackend =>
      LibraryDefaults.(temperature := Some(1.0), topP := Some(1.0), repetitionPenalty := Some(0.0),
                       maxNewTokens := Some(256))
    case GpuBackend =>
      LibraryDefaults.(topP := Some(0.9), numBeams := Some(1), repetitionPenalty := Some(1.1),
                       maxNewTokens := Some(256), useCache := Some(true))
    case CpuBackend =>
      LibraryDefaults.(topP := Some(0.9), topK := Some(40), temperature := Some(0.8),
                       repetitionPenalty := Some(1.1), maxNewTokens := Some(256))
  }

  /** Every back-end bounds a reply at 256 new tokens, and only the GPU back-end
      leaves the temperature to the library. */
  lemma DefaultsBoundReplies(backend: Backend)
    ensures DefaultConfig(backend).maxNewTokens == Some(256)
    ensures DefaultConfig(backend).temperature.None? <==> backend == GpuBackend
    ensures DefaultConfig(backend) != LibraryDefaults
  {
  }

  // ---------------------------------------------------------------------------
  // OpenAI adapter

  datatype AdapterError =
    | MissingOpenAiToken     // ChatGPT_Adapter without a (truthy) token
    | NoGpu                  // HF_Gpu_Adapter without CUDA
    | LlamaUnsupported       // the factory's "GPU" branch without LLaMA support
    | UnknownModel(name: string)

  /** The part of a (non-streamed) chat completion the adapter reads. */
  datatype Completion = Completion(totalTokens: int, content: string)

  /** One chunk of a streamed chat completion: whether its delta names a role, and
      its content, if any. */
  datatype Delta = Delta(hasRole: bool, content: Option<string>)

  /** The fragments the streaming loop yields: role chunks are skipped, content is
      yielded, and the first chunk with neither ends the stream. */
  function StreamedContent(deltas: seq<Delta>): seq<string>
  {
    if deltas == [] then []
    else if deltas[0].hasRole then StreamedContent(deltas[1..])
    else if deltas[0].content.Some? then [deltas[0].content.value] + StreamedContent(deltas[1..])
    else []
  }

  /** Nothing after the first chunk with neither role nor content is ever yielded. */
  lemma {:induction false} StreamIgnoresAfterStop(before: seq<Delta>, stop: Delta, after: seq<Delta>)
    requires !stop.hasRole && stop.content.None?
    ensures StreamedContent(before + [stop] + after) == StreamedContent(before + [stop])
  {
    if before == [] {
      assert (before + [stop] + after)[1..] == after;
    } else {
      assert (before + [stop] + after)[1..] == before[1..] + [stop] + after;
      assert (before + [stop])[1..] == before[1..] + [stop];
      StreamIgnoresAfterStop(before[1..], stop, after);
    }
  }

  /** Every yielded fragment is the content of some chunk. */
  lemma {:induction false} StreamedContentComesFromChunks(deltas: seq<Delta>, k: nat)
    requires k < |StreamedContent(deltas)|
    ensures exists i :: 0 <= i < |deltas| && deltas[i].content == Some(StreamedContent(deltas)[k])
  {
    if deltas[0].hasRole {
      StreamedContentComesFromChunks(deltas[1..], k);
      var i :| 0 <= i < |deltas[1..]| && deltas[1..][i].content == Some(StreamedContent(deltas[1..])[k]);
      assert deltas[i + 1].content == Some(StreamedContent(deltas)[k]);
    } else if k > 0 {
      StreamedContentComesFromChunks(deltas[1..], k - 1);
      var i :| 0 <= i < |deltas[1..]| && deltas[1..][i].content == Some(StreamedContent(deltas[1..])[k - 1]);
      assert deltas[i + 1].content == Some(StreamedContent(deltas)[k]);
    } else {
      assert deltas[0].content == Some(StreamedContent(deltas)[k]);
    }
  }

  /** `ChatGPT_Adapter` */
  class ChatGptAdapter {
    const token: string
    const modelName: string
    /** Tokens used by all requests so far, as reported by the API. */
    var totalTokens: int

    constructor (token: string)
      requires token != ""
      ensures this.token == token && modelName == "gpt-3.5-turbo" && totalTokens == 0
    {
      this.token := token;
      modelName := "gpt-3.5-turbo";
      totalTokens := 0;
    }

    function Info(): (info: ModelInfo)
    {
      ModelInfo("OpenAI", modelName, "External API")
    }

    /** `generate`, given the completion the API returned for the conversation:
        the reported usage is added to the counter and the reply's content returned. */
    method Generate(messages: seq<ChatMessage>, reply: Completion) returns (content: string)
      modifies this
      ensures totalTokens == old(totalTokens) + reply.totalTokens
      ensures content == reply.content
    {
      var usedTokens := reply.totalTokens;
      totalTokens := totalTokens + usedTokens;
      content := reply.content;
    }

    /** `generate_streaming`, given the chunks the API streamed back: the yielded
        fragments, after which the counter is unchanged (the request's own count
        is never updated from 0). */
    method GenerateStreaming(messages: seq<ChatMessage>, chunks: seq<Delta>) returns (fragments: seq<string>)
      modifies this
      ensures fragments == StreamedContent(chunks)
      ensures totalTokens == old(totalTokens)
    {
      var tokensOfRequest := 0;
      fragments := [];
      var i := 0;
      while i < |chunks|
        invariant 0 <= i <= |chunks|
        invariant fragments + StreamedContent(chunks[i..]) == StreamedContent(chunks)
      {
        var delta := chunks[i];
        if delta.hasRole {
          assert chunks[i..][1..] == chunks[i + 1..];
        } else if delta.content.Some? {
          fragments := fragments + [delta.content.value];
          assert chunks[i..][1..] == chunks[i + 1..];
        } else {
          break;
        }
        i := i + 1;
      }
      totalTokens := totalTokens + tokensOfRequest;
    }
  }

  /** `ChatGPT_Adapter(token)`: a missing or empty token raises. */
  method NewChatGptAdapter(token: Option<string>) returns (r: Result<ChatGptAdapter, AdapterError>)
    ensures r.Ok? <==> token.Some? && token.value != ""
    ensures r.Err? ==> r.error == MissingOpenAiToken
    ensures r.Ok? ==> fresh(r.value) && r.value.token == token.value && r.value.totalTokens == 0
  {
    if token.Some? && token.value != "" {
      var adapter := new ChatGptAdapter(token.value);
      return Ok(adapter);
    }
    r := Err(MissingOpenAiToken);
  }

  // ---------------------------------------------------------------------------
  // GPU adapter

  /** The loaded tokenizer: encoding a prompt, decoding as the streamer does, and
      decoding with special tokens skipped. */
  datatype Tokenizer = Tokenizer(
    encode: string -> seq<int>,
    decode: seq<int> -> string,
    decodeSkippingSpecial: seq<int> -> string)

  /** The calls `generate` makes on its streamer for a prompt and the tokens
      produced so far: the prompt as one row, then each new token on its own. */
  function PutEvents(promptIds: seq<int>, produced: seq<int>): (events: seq<Event>)
    ensures |events| == |produced| + 1
  {
    if produced == [] then [PutTokens(Rows([promptIds]))]
    else PutEvents(promptIds, produced[..|produced| - 1]) + [PutTokens(Row([produced[|produced| - 1]]))]
  }

  /** The whole life of a streamer under `generate`: all puts, then `end()`. */
  function GenerationEvents(promptIds: seq<int>, produced: seq<int>): seq<Event>
  {
    PutEvents(promptIds, produced) + [EndStream]
  }

  /** The model's generation loop, run sequentially against a streamer: the prompt
      is put first, then each token the model produces (`steps`, as far as the
      token budget allows), and after every token the stop condition is asked
      whether to stop; then the streamer is ended. Generation stops early only
      when the stop flag is set. */
  method DriveGeneration(streamer: StopWordStreamer, promptIds: seq<int>, steps: seq<int>)
    returns (produced: seq<int>)
    modifies streamer, streamer.decoder, streamer.stopCondition
    ensures produced <= steps
    ensures |produced| < |steps| ==> streamer.stopCondition.shouldStop
    ensures |produced| < |steps| ==>
      && |produced| > 0
      && Run(streamer.decoder.decode, streamer.decoder.skipPrompt, streamer.stopWords,
             old(streamer.State()), PutEvents(promptIds, produced)).stopped
    ensures |produced| > 0 ==> NoStopWithin(streamer.decoder.decode, streamer.decoder.skipPrompt, streamer.stopWords,
                                            old(streamer.State()), promptIds, produced, |produced| - 1)
    ensures streamer.State() == Run(streamer.decoder.decode, streamer.decoder.skipPrompt, streamer.stopWords,
                                    old(streamer.State()), GenerationEvents(promptIds, produced))
    ensures streamer.taken == old(streamer.taken)
  {
    var decode, skip, words := streamer.decoder.decode, streamer.decoder.skipPrompt, streamer.stopWords;
    ghost var start := streamer.State();
    PutPrompt(streamer, promptIds);
    produced := [];
    var i, stop := 0, false;
    while i < |steps| && !stop
      invariant 0 <= i <= |steps| && produced == steps[..i]
      invariant streamer.State() == Run(decode, skip, words, start, PutEvents(promptIds, produced))
      invariant streamer.taken == old(streamer.taken)
      invariant stop ==> |produced| > 0 && streamer.stopCondition.shouldStop
      invariant NoStopWithin(decode, skip, words, start, promptIds, produced, if stop then |produced| - 1 else |produced|)
    {
      PrefixGrows(steps, i);
      stop := ProduceToken(streamer, start, promptIds, produced, steps[i]);
      produced := produced + [steps[i]];
      i := i + 1;
    }
    assert |produced| < |steps| ==> Run(decode, skip, words, start, PutEvents(promptIds, produced)).stopped;
    EndGeneration(streamer, start, promptIds, produced);
  }

  /** One token of the generation loop: it is handed to the streamer, and then the
      stop condition is asked whether to stop. */
  method ProduceToken(streamer: StopWordStreamer, ghost start: StreamState, promptIds: seq<int>,
                      ghost produced: seq<int>, t: int) returns (stop: bool)
    modifies streamer, streamer.decoder, streamer.stopCondition
    requires streamer.State() == Run(streamer.decoder.decode, streamer.decoder.skipPrompt, streamer.stopWords,
                                     start, PutEvents(promptIds, produced))
    requires NoStopWithin(streamer.decoder.decode, streamer.decoder.skipPrompt, streamer.stopWords,
                          start, promptIds, produced, |produced|)
    ensures streamer.State() == Run(streamer.decoder.decode, streamer.decoder.skipPrompt, streamer.stopWords,
                                    start, PutEvents(promptIds, produced + [t]))
    ensures streamer.taken == old(streamer.taken)
    ensures stop == streamer.stopCondition.shouldStop
    ensures NoStopWithin(streamer.decoder.decode, streamer.decoder.skipPrompt, streamer.stopWords,
                         start, promptIds, produced + [t], if stop then |produced| else |produced| + 1)
  {
    var decode, skip, words := streamer.decoder.decode, streamer.decoder.skipPrompt, streamer.stopWords;
    PutProduced(streamer, start, promptIds, produced, t);
    NoStopExtends(decode, skip, words, start, promptIds, produced, t);
    stop := streamer.stopCondition.Call();
    if !stop {
      NoStopOnce(decode, skip, words, start, promptIds, produced + [t]);
    }
  }

  /** After none of the first `n` produced tokens (the prompt put first) was the
      stop flag set. */
  ghost predicate NoStopWithin(decode: seq<int> -> string, skip: bool, words: seq<string>, start: StreamState,
                               promptIds: seq<int>, produced: seq<int>, n: nat)
    requires n <= |produced|
  {
    forall k :: 1 <= k <= n ==> !Run(decode, skip, words, start, PutEvents(promptIds, produced[..k])).stopped
  }

  /** One more produced token leaves the earlier checks as they were. */
  lemma NoStopExtends(decode: seq<int> -> string, skip: bool, words: seq<string>, start: StreamState,
                      promptIds: seq<int>, produced: seq<int>, t: int)
    requires NoStopWithin(decode, skip, words, start, promptIds, produced, |produced|)
    ensures NoStopWithin(decode, skip, words, start, promptIds, produced + [t], |produced|)
  {
    forall k | 1 <= k <= |produced|
      ensures (produced + [t])[..k] == produced[..k]
    {
    }
  }

  /** A check that found the flag clear extends the tokens checked by one. */
  lemma NoStopOnce(decode: seq<int> -> string, skip: bool, words: seq<string>, start: StreamState,
                   promptIds: seq<int>, produced: seq<int>)
    requires |produced| > 0 && NoStopWithin(decode, skip, words, start, promptIds, produced, |produced| - 1)
    requires !Run(decode, skip, words, start, PutEvents(promptIds, produced)).stopped
    ensures NoStopWithin(decode, skip, words, start, promptIds, produced, |produced|)
  {
    assert produced[..|produced|] == produced;
  }

  /** The first `i + 1` planned tokens are the first `i` and the next one. */
  lemma PrefixGrows(steps: seq<int>, i: nat)
    requires i < |steps|
    ensures steps[..i + 1] == steps[..i] + [steps[i]]
  {
  }

  /** The prompt handed to a streamer is the first call of a run. */
  method PutPrompt(streamer: StopWordStreamer, promptIds: seq<int>)
    modifies streamer, streamer.decoder, streamer.stopCondition
    ensures streamer.State() == Run(streamer.decoder.decode, streamer.decoder.skipPrompt, streamer.stopWords,
                                    old(streamer.State()), PutEvents(promptIds, []))
    ensures streamer.taken == old(streamer.taken)
  {
    ghost var start := streamer.State();
    var _ := streamer.Put(Rows([promptIds]));
    RunSnoc(streamer.decoder.decode, streamer.decoder.skipPrompt, streamer.stopWords, start, [], PutTokens(Rows([promptIds])));
  }

  /** Ending the stream completes the run of a whole generation. */
  method EndGeneration(streamer: StopWordStreamer, ghost start: StreamState, promptIds: seq<int>, ghost produced: seq<int>)
    modifies streamer, streamer.decoder, streamer.stopCondition
    requires streamer.State() == Run(streamer.decoder.decode, streamer.decoder.skipPrompt, streamer.stopWords,
                                     start, PutEvents(promptIds, produced))
    ensures streamer.State() == Run(streamer.decoder.decode, streamer.decoder.skipPrompt, streamer.stopWords,
                                    start, GenerationEvents(promptIds, produced))
    ensures streamer.taken == old(streamer.taken)
    ensures old(streamer.stopCondition.shouldStop) ==> streamer.stopCondition.shouldStop
  {
    streamer.End();
    RunSnoc(streamer.decoder.decode, streamer.decoder.skipPrompt, streamer.stopWords, start,
            PutEvents(promptIds, produced), EndStream);
  }

  /** One produced token handed to the streamer extends the run by one put. */
  method PutProduced(streamer: StopWordStreamer, ghost start: StreamState, promptIds: seq<int>,
                     ghost produced: seq<int>, t: int)
    modifies streamer, streamer.decoder, streamer.stopCondition
    requires streamer.State() == Run(streamer.decoder.decode, streamer.decoder.skipPrompt, streamer.stopWords,
                                     start, PutEvents(promptIds, produced))
    ensures streamer.State() == Run(streamer.decoder.decode, streamer.decoder.skipPrompt, streamer.stopWords,
                                    start, PutEvents(promptIds, produced + [t]))
    ensures streamer.taken == old(streamer.taken)
  {
    var decode, skip, words := streamer.decoder.decode, streamer.decoder.skipPrompt, streamer.stopWords;
    var _ := streamer.Put(Row([t]));
    RunSnoc(decode, skip, words, start, PutEvents(promptIds, produced), PutTokens(Row([t])));
    PutEventsSnoc(promptIds, produced, t);
  }

  lemma PutEventsSnoc(promptIds: seq<int>, produced: seq<int>, t: int)
    ensures PutEvents(promptIds, produced + [t]) == PutEvents(promptIds, produced) + [PutTokens(Row([t]))]
  {
    assert (produced + [t])[..|produced|] == produced;
  }

  /** What a whole generation leaves in a fresh stop-word streamer: it is finished
      and nothing it queued holds a stop word; and when no stop word is empty, its
      flag says whether the generated text holds a stop word. */
  lemma GenerationOutcome(decode: seq<int> -> string, stopWords: seq<string>, promptIds: seq<int>, produced: seq<int>)
    ensures var g := Run(decode, true, stopWords, FreshStream(false), GenerationEvents(promptIds, produced));
      && g.finished
      && (g.enqueued == [] || !ContainsAny(Concat(g.enqueued), stopWords))
      && ("" !in stopWords ==> (g.stopped <==> ContainsAny(g.total, stopWords)))
  {
    EndFinishes(decode, true, stopWords, FreshStream(false), PutEvents(promptIds, produced));
    NoStopWordIsQueued(decode, true, stopWords, GenerationEvents(promptIds, produced));
  }

  /** The reason recorded after a generation. */
  function StopReason(stopped: bool): string
  {
    if stopped then "Stopword detected!" else "Max Tokens!"
  }

  /** Why `generate` on the GPU adapter could not start. */
  datatype GenerateError = PromptFailed(error: PromptError) | NotLoaded

  /** `HF_Gpu_Adapter` */
  class HfGpuAdapter {
    const baseModel: string
    const usePeft: bool
    const adapterModel: string
    const use8bit: bool
    const applyOptimizations: bool
    const maxLength: int
    /** Set by `load()`. */
    var tokenizer: Option<Tokenizer>
    var stopReason: Option<string>

    constructor (baseModel: string, usePeft: bool, adapterModel: string, use8bit: bool,
                 applyOptimizations: bool, maxLength: int)
      ensures this.baseModel == baseModel && this.usePeft == usePeft && this.adapterModel == adapterModel
      ensures this.use8bit == use8bit && this.applyOptimizations == applyOptimizations
      ensures this.maxLength == maxLength
      ensures tokenizer == None && stopReason == None
    {
      this.baseModel := baseModel;
      this.usePeft := usePeft;
      this.adapterModel := adapterModel;
      this.use8bit := use8bit;
      this.applyOptimizations := applyOptimizations;
      this.maxLength := maxLength;
      tokenizer := None;
      stopReason := None;
    }

    /** `info()`: the adapter model is reported when PEFT is in use. */
    function Info(): (info: ModelInfo)
    {
      ModelInfo("Huggingface", if usePeft then adapterModel else baseModel, "GPU")
    }

    /** The tokenizer part of `load()`. */
    method Load(loaded: Tokenizer)
      modifies this
      ensures tokenizer == Some(loaded) && stopReason == old(stopReason)
    {
      tokenizer := Some(loaded);
    }

    /** `generate(messages, config, stop_words)`, given the tokens the model would
        produce: a fresh stop condition and stop-word streamer watch the output;
        the reply is the decoded output without the prompt's first `len(prompt)`
        characters, and the stop reason says whether a stop word ended it. */
    method Generate(messages: seq<ChatMessage>, stopWords: seq<string>, steps: seq<int>)
      returns (r: Result<string, GenerateError>, ghost produced: seq<int>)
      modifies this
      ensures messages == [] ==> r == Err(PromptFailed(EmptyConversation))
      ensures messages != [] && tokenizer.None? ==> r == Err(NotLoaded)
      ensures r.Err? ==> stopReason == old(stopReason)
      ensures r.Ok? ==> messages != [] && tokenizer.Some? && produced <= steps
      ensures r.Ok? ==>
        var t := tokenizer.value;
        var prompt := Prompt(messages);
        var ids := t.encode(prompt);
        var output := t.decodeSkippingSpecial(ids + produced);
        var g := Run(t.decode, true, stopWords, FreshStream(false), GenerationEvents(ids, produced));
        && r.value == Slice(output, |prompt|, |output|)
        && stopReason == Some(StopReason(g.stopped))
        && (|produced| < |steps| ==>
              |produced| > 0 && Run(t.decode, true, stopWords, FreshStream(false), PutEvents(ids, produced)).stopped)
        && (|produced| > 0 ==> NoStopWithin(t.decode, true, stopWords, FreshStream(false), ids, produced, |produced| - 1))
        && ("" !in stopWords ==> (g.stopped <==> ContainsAny(g.total, stopWords)))
      ensures tokenizer == old(tokenizer)
    {
      produced := [];
      var prompt := BuildLlmPrompt(messages);
      if prompt.Err? {
        return Err(PromptFailed(prompt.error)), produced;
      }
      if tokenizer.None? {
        return Err(NotLoaded), produced;
      }
      var t := tokenizer.value;
      var manualStop := new ManualStopCondition();
      var streamer := new StopWordStreamer(t.decode, manualStop, true, Some(stopWords));
      var inputIds := t.encode(prompt.value);
      var generated := DriveGeneration(streamer, inputIds, steps);
      produced := generated;
      var output := t.decodeSkippingSpecial(inputIds + generated);
      GenerationOutcome(t.decode, stopWords, inputIds, generated);
      if manualStop.shouldStop {
        stopReason := Some("Stopword detected!");
      } else {
        stopReason := Some("Max Tokens!");
      }
      r := Ok(Slice(output, |prompt.value|, |output|));
    }

    /** `generate_streaming`, run sequentially: the model runs to its end, then the
        streamer is iterated; the fragments yielded are exactly those it queued,
        which never contain a stop word, and then the stop reason is recorded. */
    method GenerateStreaming(messages: seq<ChatMessage>, stopWords: seq<string>, steps: seq<int>)
      returns (r: Result<seq<string>, GenerateError>, ghost produced: seq<int>)
      modifies this
      ensures messages == [] ==> r == Err(PromptFailed(EmptyConversation))
      ensures messages != [] && tokenizer.None? ==> r == Err(NotLoaded)
      ensures r.Err? ==> stopReason == old(stopReason)
      ensures r.Ok? ==> messages != [] && tokenizer.Some? && produced <= steps
      ensures r.Ok? ==>
        var t := tokenizer.value;
        var ids := t.encode(Prompt(messages));
        var g := Run(t.decode, true, stopWords, FreshStream(false), GenerationEvents(ids, produced));
        && r.value == g.enqueued
        && g.finished
        && stopReason == Some(StopReason(g.stopped))
        && (|produced| < |steps| ==>
              |produced| > 0 && Run(t.decode, true, stopWords, FreshStream(false), PutEvents(ids, produced)).stopped)
        && (|produced| > 0 ==> NoStopWithin(t.decode, true, stopWords, FreshStream(false), ids, produced, |produced| - 1))
        && (r.value == [] || !ContainsAny(Concat(r.value), stopWords))
      ensures tokenizer == old(tokenizer)
    {
      produced := [];
      var prompt := BuildLlmPrompt(messages);
      if prompt.Err? {
        return Err(PromptFailed(prompt.error)), produced;
      }
      if tokenizer.None? {
        return Err(NotLoaded), produced;
      }
      var t := tokenizer.value;
      var manualStop := new ManualStopCondition();
      var streamer := new StopWordStreamer(t.decode, manualStop, true, Some(stopWords));
      var inputIds := t.encode(prompt.value);
      var generated := DriveGeneration(streamer, inputIds, steps);
      produced := generated;
      GenerationOutcome(t.decode, stopWords, inputIds, generated);
      var fragments, _ := streamer.Drain();
      if manualStop.shouldStop {
        stopReason := Some("Stopword detected!");
      } else {
        stopReason := Some("Max Tokens!");
      }
      r := Ok(fragments);
    }
  }

  /** `HF_Gpu_Adapter(...)`: raises when no GPU is available. */
  method NewHfGpuAdapter(baseModel: string, usePeft: bool, adapterModel: string, use8bit: bool,
                         applyOptimizations: bool, maxLength: int, cudaAvailable: bool)
    returns (r: Result<HfGpuAdapter, AdapterError>)
    ensures r.Ok? <==> cudaAvailable
    ensures r.Err? ==> r.error == NoGpu
    ensures r.Ok? ==>
      && fresh(r.value) && r.value.tokenizer.None? && r.value.stopReason.None?
      && r.value.Info() == ModelInfo("Huggingface", if usePeft then adapterModel else baseModel, "GPU")
  {
    var adapter := new HfGpuAdapter(baseModel, usePeft, adapterModel, use8bit, applyOptimizations, maxLength);
    if !cudaAvailable {
      return Err(NoGpu);
    }
    r := Ok(adapter);
  }

  // ---------------------------------------------------------------------------
  // CPU adapter

  /** `Cpu_Adapter`: only its description and defaults are modelled. */
  class CpuAdapter {
    const hfToken: Option<string>
    const repository: string
    const filename: string
    const maxLength: int
    const threads: int

    constructor (hfToken: Option<string>, repository: string, filename: string, maxLength: int, threads: int)
      ensures this.hfToken == hfToken && this.repository == repository && this.filename == filename
      ensures this.maxLength == maxLength && this.threads == threads
    {
      this.hfToken := hfToken;
      this.repository := repository;
      this.filename := filename;
      this.maxLength := maxLength;
      this.threads := threads;
    }

    function Info(): (info: ModelInfo)
    {
      ModelInfo("LLaMA.cpp", repository, "CPU")
    }
  }

  // ---------------------------------------------------------------------------
  // The factory

  /** The configuration keys the factory reads. */
  datatype Configuration = Configuration(
    chatModel: string,
    openAiToken: Option<string>,
    baseChatModel: string,
    usePeft: bool,
    adapterChatModel: string,
    use8bit: bool,
    chatApplyOptimizations: bool,
    chatMaxLength: int,
    hfToken: Option<string>,
    cpuModelThreads: int,
    cpuModelRepo: string,
    cpuModelFilename: string)

  /** What the factory learns from the machine: whether LLaMA models can be
      imported, and whether CUDA is available. */
  datatype Machine = Machine(canRunLlama: bool, cudaAvailable: bool)

  datatype Adapter = OpenAi(chatGpt: ChatGptAdapter) | Gpu(gpu: HfGpuAdapter) | Cpu(cpu: CpuAdapter)

  function BackendOf(a: Adapter): Backend
  {
    match a
    case OpenAi(_) => OpenAiBackend
    case Gpu(_) => GpuBackend
    case Cpu(_) => CpuBackend
  }

  function AdapterInfo(a: Adapter): ModelInfo
  {
    match a
    case OpenAi(x) => x.Info()
    case Gpu(x) => x.Info()
    case Cpu(x) => x.Info()
  }

  /** Each back-end reports its own name and accelerator, so `info()` tells them apart. */
  lemma InfoIdentifiesBackend(a: Adapter, b: Adapter)
    ensures AdapterInfo(a).name == AdapterInfo(b).name <==> BackendOf(a) == BackendOf(b)
    ensures AdapterInfo(a).accelerator == AdapterInfo(b).accelerator <==> BackendOf(a) == BackendOf(b)
  {
  }

  /** The factory's decision: which back-end the configuration selects, or why
      none can be built. */
  function Dispatch(config: Configuration, machine: Machine): (r: Result<Backend, AdapterError>)
    ensures r == Ok(OpenAiBackend) <==>
      config.chatModel == "OPENAI" && config.openAiToken.Some? && config.openAiToken.value != ""
    ensures r == Ok(GpuBackend) <==> config.chatModel == "GPU" && machine.canRunLlama && machine.cudaAvailable
    ensures r == Ok(CpuBackend) <==> config.chatModel == "CPU"
    ensures r.Err? && r.error.UnknownModel? <==> config.chatModel !in {"OPENAI", "GPU", "CPU"}
    ensures r.Err? && r.error.UnknownModel? ==> r.error.name == config.chatModel
    ensures config.chatModel == "OPENAI" && r.Err? ==> r.error == MissingOpenAiToken
    ensures config.chatModel == "GPU" && r.Err? ==>
      r.error == if !machine.canRunLlama then LlamaUnsupported else NoGpu
  {
    if config.chatModel == "OPENAI" then
      if config.openAiToken.Some? && config.openAiToken.value != "" then Ok(OpenAiBackend)
      else Err(MissingOpenAiToken)
    else if config.chatModel == "GPU" then
      if !machine.canRunLlama then Err(LlamaUnsupported)
      else if !machine.cudaAvailable then Err(NoGpu)
      else Ok(GpuBackend)
    else if config.chatModel == "CPU" then Ok(CpuBackend)
    else Err(UnknownModel(config.chatModel))
  }

  /** `adapter_factory(configuration)` */
  method AdapterFactory(config: Configuration, machine: Machine) returns (r: Result<Adapter, AdapterError>)
    ensures r.Ok? <==> Dispatch(config, machine).Ok?
    ensures r.Err? ==> r.error == Dispatch(config, machine).error
    ensures r.Ok? ==> BackendOf(r.value) == Dispatch(config, machine).value
    ensures r.Ok? && r.value.Gpu? ==>
      && fresh(r.value.gpu) && r.value.gpu.tokenizer.None?
      && AdapterInfo(r.value).model == if config.usePeft then config.adapterChatModel else config.baseChatModel
    ensures r.Ok? && r.value.Cpu? ==> fresh(r.value.cpu) && AdapterInfo(r.value).model == config.cpuModelRepo
    ensures r.Ok? && r.value.OpenAi? ==> fresh(r.value.chatGpt) && r.value.chatGpt.totalTokens == 0
  {
    var modelToUse := config.chatModel;
    if modelToUse == "OPENAI" {
      var a := NewChatGptAdapter(config.openAiToken);
      if a.Err? {
        return Err(a.error);
      }
      return Ok(OpenAi(a.value));
    } else if modelToUse == "GPU" {
      if !machine.canRunLlama {
        return Err(LlamaUnsupported);
      }
      var a := NewHfGpuAdapter(config.baseChatModel, config.usePeft, config.adapterChatModel, config.use8bit,
                               config.chatApplyOptimizations, config.chatMaxLength, machine.cudaAvailable);
      if a.Err? {
        return Err(a.error);
      }
      return Ok(Gpu(a.value));
    } else if modelToUse == "CPU" {
      var a := new CpuAdapter(config.hfToken, config.cpuModelRepo, config.cpuModelFilename,
                              config.chatMaxLength, config.cpuModelThreads);
      return Ok(Cpu(a));
    } else {
      return Err(UnknownModel(modelToUse));
    }
  }
}
