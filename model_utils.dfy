/** The streaming machinery of the local chat backends: a stop flag shared with
    the generation loop, an incremental decoder that hands on text only up to a
    word boundary, and a streamer that withholds everything from the first
    fragment whose accumulation contains a stop word.

    `tokenizer.decode` is an arbitrary function from token ids to text. The
    streamer's state is specified by pure step functions over datatypes; the
    classes below update their fields in place and are proved to follow them. */
module ModelUtils {
  import opened Wrappers
  import opened PyText

  // ---------------------------------------------------------------------------
  // Stop condition

  /** `ManualStopCondition`: a flag that starts clear, is set by `stop()`, is read
      by the generation loop each step, and is never cleared. */
  class ManualStopCondition {
    var shouldStop: bool

    constructor ()
      ensures !shouldStop
    {
      shouldStop := false;
    }

    /** `stop()` */
    method Stop()
      modifies this
      ensures shouldStop
    {
      shouldStop := true;
    }

    /** `__call__`: the generation loop asks whether to stop. */
    method Call() returns (stop: bool)
      ensures stop == shouldStop
    {
      stop := shouldStop;
    }
  }

  // ---------------------------------------------------------------------------
  // Incremental decoding (`TextStreamer.put` / `end`)

  /** The shape of the tensor handed to `put`: one-dimensional, or two-dimensional
      with one row per batch element. */
  datatype TokenBatch = Row(ids: seq<int>) | Rows(rows: seq<seq<int>>)

  datatype StreamError =
    | BatchTooLarge   // ValueError: "TextStreamer only supports batch size 1"
    | NoRows          // indexing row 0 of a two-dimensional tensor without rows

  /** The token ids `put` works on: a two-dimensional input must have exactly one row. */
  function Unwrap(value: TokenBatch): (r: Result<seq<int>, StreamError>)
    ensures r.Err? <==> value.Rows? && |value.rows| != 1
    ensures value.Rows? && |value.rows| > 1 ==> r == Err(BatchTooLarge)
    ensures r.Ok? ==> r.value == if value.Row? then value.ids else value.rows[0]
  {
    match value
    case Row(ids) => Ok(ids)
    case Rows(rows) =>
      if |rows| > 1 then Err(BatchTooLarge)
      else if |rows| == 0 then Err(NoRows)
      else Ok(rows[0])
  }

  /** The fields `token_cache`, `print_len` and `next_tokens_are_prompt`. */
  datatype DecoderState = DecoderState(tokenCache: seq<int>, printLen: nat, nextTokensArePrompt: bool)

  const FreshDecoder: DecoderState := DecoderState([], 0, true)

  /** The result of the printable-text rule applied to a decoded cache. */
  datatype Cut = Cut(fragment: string, flushed: bool, printLen: nat)

  /** No space follows position `from` in `text`. */
  predicate NoSpaceFrom(text: string, from: nat)
  {
    forall k :: from <= k < |text| ==> text[k] != ' '
  }

  /** The printable-text rule: text ending in a newline is flushed from `printLen` to
      its end and the counter restarts; otherwise the text is handed on from
      `printLen` up to and including its last space, and the counter advances by
      the length handed on. Every fragment ends at a word boundary. */
  function CutPrintable(text: string, printLen: nat): (c: Cut)
    ensures c.flushed <==> EndsWith(text, "\n")
    ensures c.flushed ==> c.printLen == 0 && c.fragment == Slice(text, printLen, |text|)
    ensures c.flushed ==> c.fragment == "" || c.fragment[|c.fragment| - 1] == '\n'
    ensures !c.flushed ==> c.printLen == printLen + |c.fragment|
    ensures !c.flushed ==> (c.fragment == "" <==> NoSpaceFrom(text, printLen))
    ensures !c.flushed && c.fragment != "" ==>
      && c.printLen <= |text|
      && c.fragment == text[printLen..c.printLen]
      && c.fragment[|c.fragment| - 1] == ' '
      && NoSpaceFrom(text, c.printLen)
  {
    if EndsWith(text, "\n") then
      Cut(Slice(text, printLen, |text|), true, 0)
    else
      var fragment := Slice(text, printLen, RFind(text, ' ') + 1);
      Cut(fragment, false, printLen + |fragment|)
  }

  /** What `put` hands to `on_finalized_text`: nothing when it raised or skipped the
      prompt, otherwise the finalized fragment. */
  datatype PutOutcome = Raised(error: StreamError) | PromptSkipped | Finalized(text: string)

  /** `put(value)` once the ids are unwrapped: the new decoder state and what is
      handed on. */
  function PutIds(decode: seq<int> -> string, skipPrompt: bool, s: DecoderState, ids: seq<int>)
    : (r: (DecoderState, PutOutcome))
    ensures skipPrompt && s.nextTokensArePrompt ==> r == (s.(nextTokensArePrompt := false), PromptSkipped)
    ensures !(skipPrompt && s.nextTokensArePrompt) ==>
      var c := CutPrintable(decode(s.tokenCache + ids), s.printLen);
      && r.1 == Finalized(c.fragment)
      && r.0 == DecoderState(if c.flushed then [] else s.tokenCache + ids, c.printLen, s.nextTokensArePrompt)
    ensures r.1.Finalized? ==> r.0.nextTokensArePrompt == s.nextTokensArePrompt
    ensures r.1.Finalized? ==> var f := r.1.text;
      f == "" || f[|f| - 1] == ' ' || f[|f| - 1] == '\n'
  {
    if skipPrompt && s.nextTokensArePrompt then
      (s.(nextTokensArePrompt := false), PromptSkipped)
    else
      var cache := s.tokenCache + ids;
      var c := CutPrintable(decode(cache), s.printLen);
      if c.flushed then (DecoderState([], 0, s.nextTokensArePrompt), Finalized(c.fragment))
      else (DecoderState(cache, c.printLen, s.nextTokensArePrompt), Finalized(c.fragment))
  }

  /** `put(value)`: the new decoder state and what is handed on. */
  function PutStep(decode: seq<int> -> string, skipPrompt: bool, s: DecoderState, value: TokenBatch)
    : (r: (DecoderState, PutOutcome))
    ensures Unwrap(value).Err? ==> r == (s, Raised(Unwrap(value).error))
    ensures Unwrap(value).Ok? && skipPrompt && s.nextTokensArePrompt ==>
      r == (s.(nextTokensArePrompt := false), PromptSkipped)
    ensures Unwrap(value).Ok? && !(skipPrompt && s.nextTokensArePrompt) ==>
      var cache := s.tokenCache + Unwrap(value).value;
      var c := CutPrintable(decode(cache), s.printLen);
      && r.1 == Finalized(c.fragment)
      && r.0 == DecoderState(if c.flushed then [] else cache, c.printLen, s.nextTokensArePrompt)
    ensures r.1.Finalized? ==> r.0.nextTokensArePrompt == s.nextTokensArePrompt
    ensures r.1.Finalized? ==> var f := r.1.text;
      f == "" || f[|f| - 1] == ' ' || f[|f| - 1] == '\n'
  {
    match Unwrap(value)
    case Err(e) => (s, Raised(e))
    case Ok(ids) => PutIds(decode, skipPrompt, s, ids)
  }

  /** `end()`: flush whatever was decoded but not yet handed on, reset the cache and
      the counter, and re-arm prompt skipping. */
  function EndStep(decode: seq<int> -> string, s: DecoderState): (r: (DecoderState, string))
    ensures r.0.tokenCache == [] && r.0.nextTokensArePrompt
    ensures s.tokenCache != [] ==> r.0 == FreshDecoder
    ensures s.tokenCache == [] ==> r == (s.(nextTokensArePrompt := true), "")
  {
    if |s.tokenCache| > 0 then
      var text := decode(s.tokenCache);
      (FreshDecoder, Slice(text, s.printLen, |text|))
    else (s.(nextTokensArePrompt := true), "")
  }

  /** The decoded text a decoder state has already handed on since its last flush. */
  function Printed(decode: seq<int> -> string, s: DecoderState): string
    requires s.printLen <= |decode(s.tokenCache)|
  {
    decode(s.tokenCache)[..s.printLen]
  }

  /** Decoding more tokens does not rewrite text decoded before (true of tokenizers
      that decode token by token; assumed only where a lemma says so). */
  predicate DecodesStably(decode: seq<int> -> string, cache: seq<int>, ids: seq<int>)
  {
    decode(cache) <= decode(cache + ids)
  }

  /** Nothing is lost or repeated by `put`: when decoding the new tokens leaves the
      earlier text in place, what was handed on before followed by the new fragment
      is the whole decoded line on a flush, and otherwise exactly the prefix the
      new counter marks as handed on. */
  lemma PutReassembles(decode: seq<int> -> string, skipPrompt: bool, s: DecoderState, value: TokenBatch)
    requires s.printLen <= |decode(s.tokenCache)|
    requires Unwrap(value).Ok? ==> DecodesStably(decode, s.tokenCache, Unwrap(value).value)
    ensures var (s', out) := PutStep(decode, skipPrompt, s, value);
      && s'.printLen <= |decode(s'.tokenCache)|
      && (out.Finalized? ==>
            var text := decode(s.tokenCache + Unwrap(value).value);
            if EndsWith(text, "\n") then Printed(decode, s) + out.text == text && s'.tokenCache == []
            else Printed(decode, s) + out.text == Printed(decode, s') && s'.tokenCache == s.tokenCache + Unwrap(value).value)
  {
    var (s', out) := PutStep(decode, skipPrompt, s, value);
    if out.Finalized? {
      var ids := Unwrap(value).value;
      var text := decode(s.tokenCache + ids);
      var old_text := decode(s.tokenCache);
      assert old_text[..s.printLen] == text[..s.printLen];
      var c := CutPrintable(text, s.printLen);
      if c.flushed {
        if s.printLen < |text| {
          assert text[..s.printLen] + text[s.printLen..] == text;
        }
      } else if c.fragment != "" {
        assert text[..s.printLen] + text[s.printLen..c.printLen] == text[..c.printLen];
      }
    }
  }

  /** `end()` completes the line: what was handed on before followed by the final
      fragment is the whole decoded cache. */
  lemma EndReassembles(decode: seq<int> -> string, s: DecoderState)
    requires s.printLen <= |decode(s.tokenCache)|
    requires s.tokenCache != []
    ensures Printed(decode, s) + EndStep(decode, s).1 == decode(s.tokenCache)
  {
    var text := decode(s.tokenCache);
    assert text[..s.printLen] + text[s.printLen..] == text;
  }

  // ---------------------------------------------------------------------------
  // The stop-word streamer (`GeneratorStreamer` in model_utils.py), as a state machine

  /** The streamer's whole state: its decoder, `finished`, the shared stop flag,
      `total_generated_text`, and every fragment ever put on the queue, in order
      (those the consumer already took followed by those still waiting). */
  datatype StreamState = StreamState(
    decoder: DecoderState,
    finished: bool,
    stopped: bool,
    total: string,
    enqueued: seq<string>)

  /** A freshly constructed streamer over a stop flag that is `stopped`. */
  function FreshStream(stopped: bool): StreamState
  {
    StreamState(FreshDecoder, false, stopped, "", [])
  }

  /** `on_finalized_text(token, stream_end)`: the fragment joins the accumulated text;
      if a stop word now occurs in it the streamer finishes and sets the stop flag
      without queueing the fragment; otherwise, unless already finished, the fragment
      is queued, and the end of the stream finishes the streamer. */
  function OnText(stopWords: seq<string>, g: StreamState, token: string, streamEnd: bool): (g': StreamState)
  {
    var total := g.total + token;
    var hit := ContainsAny(total, stopWords);
    if hit then g.(total := total, finished := true, stopped := true)
    else if g.finished then g.(total := total)
    else g.(total := total, enqueued := g.enqueued + [token], finished := streamEnd)
  }

  /** The calls the generation loop makes on a streamer. */
  datatype Event = PutTokens(batch: TokenBatch) | EndStream

  /** One call: `put` or `end` on the decoder, then `on_finalized_text` on what it
      hands on. A `put` that raises leaves the state as it was. */
  function Feed(decode: seq<int> -> string, skipPrompt: bool, stopWords: seq<string>, g: StreamState, e: Event)
    : StreamState
  {
    match e
    case PutTokens(value) =>
      var (d, out) := PutStep(decode, skipPrompt, g.decoder, value);
      (match out
       case Raised(_) => g
       case PromptSkipped => g.(decoder := d)
       case Finalized(text) => OnText(stopWords, g.(decoder := d), text, false))
    case EndStream =>
      var (d, text) := EndStep(decode, g.decoder);
      OnText(stopWords, g.(decoder := d), text, true)
  }

  /** A sequence of calls, in order. */
  function Run(decode: seq<int> -> string, skipPrompt: bool, stopWords: seq<string>, g: StreamState, events: seq<Event>)
    : StreamState
  {
    if events == [] then g
    else Feed(decode, skipPrompt, stopWords, Run(decode, skipPrompt, stopWords, g, events[..|events| - 1]), events[|events| - 1])
  }

  /** A run extended by one call is that call applied after the run. */
  lemma RunSnoc(decode: seq<int> -> string, skipPrompt: bool, stopWords: seq<string>, g: StreamState,
                events: seq<Event>, e: Event)
    ensures Run(decode, skipPrompt, stopWords, g, events + [e])
         == Feed(decode, skipPrompt, stopWords, Run(decode, skipPrompt, stopWords, g, events), e)
  {
    assert (events + [e])[..|events|] == events;
  }

  /** What the stop-word rule guarantees at every point: the queued text never holds
      a stop word (unless nothing was queued at all), and until the streamer
      finishes, every fragment handed on was queued. */
  predicate Withheld(stopWords: seq<string>, g: StreamState)
  {
    && (g.enqueued == [] || !ContainsAny(Concat(g.enqueued), stopWords))
    && (!g.finished ==> Concat(g.enqueued) == g.total)
  }

  /** The stop flag is set exactly when the accumulated text holds a stop word. */
  predicate StopFlagTracksText(stopWords: seq<string>, g: StreamState)
  {
    g.stopped == ContainsAny(g.total, stopWords)
  }

  lemma OnTextWithholds(stopWords: seq<string>, g: StreamState, token: string, streamEnd: bool)
    requires Withheld(stopWords, g)
    ensures Withheld(stopWords, OnText(stopWords, g, token, streamEnd))
  {
    var total := g.total + token;
    if !ContainsAny(total, stopWords) && !g.finished {
      ConcatAppend(g.enqueued, [token]);
      assert Concat([token]) == Concat([]) + token;
    }
  }

  lemma OnTextTracksStop(stopWords: seq<string>, g: StreamState, token: string, streamEnd: bool)
    requires StopFlagTracksText(stopWords, g)
    ensures StopFlagTracksText(stopWords, OnText(stopWords, g, token, streamEnd))
  {
    if g.stopped {
      var w :| w in stopWords && Contains(g.total, w);
      ContainsExtend(g.total, token, w);
    }
  }

  /** One call keeps the queue free of stop words, whatever the stop words are. */
  lemma FeedWithholds(
    decode: seq<int> -> string, skipPrompt: bool, stopWords: seq<string>, h: StreamState, e: Event)
    requires Withheld(stopWords, h)
    ensures Withheld(stopWords, Feed(decode, skipPrompt, stopWords, h, e))
  {
    match e
    case PutTokens(value) =>
      var (d, out) := PutStep(decode, skipPrompt, h.decoder, value);
      if out.Finalized? {
        OnTextWithholds(stopWords, h.(decoder := d), out.text, false);
      }
    case EndStream =>
      var (d, text) := EndStep(decode, h.decoder);
      OnTextWithholds(stopWords, h.(decoder := d), text, true);
  }

  /** One call keeps both invariants. */
  lemma FeedKeepsInvariants(
    decode: seq<int> -> string, skipPrompt: bool, stopWords: seq<string>, h: StreamState, e: Event)
    requires Withheld(stopWords, h) && StopFlagTracksText(stopWords, h)
    ensures var h' := Feed(decode, skipPrompt, stopWords, h, e);
      Withheld(stopWords, h') && StopFlagTracksText(stopWords, h')
  {
    FeedWithholds(decode, skipPrompt, stopWords, h, e);
    match e
    case PutTokens(value) =>
      var (d, out) := PutStep(decode, skipPrompt, h.decoder, value);
      if out.Finalized? {
        OnTextTracksStop(stopWords, h.(decoder := d), out.text, false);
      }
    case EndStream =>
      var (d, text) := EndStep(decode, h.decoder);
      OnTextTracksStop(stopWords, h.(decoder := d), text, true);
  }

  /** The queue stays free of stop words over any sequence of calls that starts
      with it free of them. */
  lemma {:induction false} RunWithholds(
    decode: seq<int> -> string, skipPrompt: bool, stopWords: seq<string>, g: StreamState, events: seq<Event>)
    requires Withheld(stopWords, g)
    ensures Withheld(stopWords, Run(decode, skipPrompt, stopWords, g, events))
  {
    if events != [] {
      var prev := events[..|events| - 1];
      RunWithholds(decode, skipPrompt, stopWords, g, prev);
      FeedWithholds(decode, skipPrompt, stopWords, Run(decode, skipPrompt, stopWords, g, prev), events[|events| - 1]);
    }
  }

  /** The two invariants hold after any sequence of calls that starts where they hold;
      in particular from a fresh streamer over a clear flag, as long as no stop word
      is the empty string (which every text contains). */
  lemma {:induction false} RunKeepsInvariants(
    decode: seq<int> -> string, skipPrompt: bool, stopWords: seq<string>, g: StreamState, events: seq<Event>)
    requires Withheld(stopWords, g) && StopFlagTracksText(stopWords, g)
    ensures var g' := Run(decode, skipPrompt, stopWords, g, events);
      Withheld(stopWords, g') && StopFlagTracksText(stopWords, g')
  {
    if events != [] {
      var prev := events[..|events| - 1];
      RunKeepsInvariants(decode, skipPrompt, stopWords, g, prev);
      FeedKeepsInvariants(decode, skipPrompt, stopWords, Run(decode, skipPrompt, stopWords, g, prev), events[|events| - 1]);
    }
  }

  /** From a fresh streamer over a clear flag: whatever was queued never contains a
      stop word; and unless a stop word is empty (which every text contains), the
      stop flag ends up set exactly when the generated text contains one. */
  lemma NoStopWordIsQueued(decode: seq<int> -> string, skipPrompt: bool, stopWords: seq<string>, events: seq<Event>)
    ensures var g := Run(decode, skipPrompt, stopWords, FreshStream(false), events);
      && (g.enqueued == [] || !ContainsAny(Concat(g.enqueued), stopWords))
      && ("" !in stopWords ==> (g.stopped <==> ContainsAny(g.total, stopWords)))
  {
    RunWithholds(decode, skipPrompt, stopWords, FreshStream(false), events);
    if "" !in stopWords {
      RunKeepsInvariants(decode, skipPrompt, stopWords, FreshStream(false), events);
    }
  }

  /** The stop-word check only appends to the queue, never unfinishes the
      streamer or clears its stop flag, and queues nothing once finished. */
  predicate Grows(g: StreamState, g': StreamState)
  {
    && g.enqueued <= g'.enqueued
    && (g.finished ==> g'.finished && g'.enqueued == g.enqueued)
    && (g.stopped ==> g'.stopped)
  }

  lemma OnTextGrows(stopWords: seq<string>, g: StreamState, token: string, streamEnd: bool)
    ensures Grows(g, OnText(stopWords, g, token, streamEnd))
  {
  }

  /** One call only appends to the queue, never unfinishes the streamer or clears
      its stop flag, and queues nothing once the streamer is finished. */
  lemma FeedIsMonotonic(decode: seq<int> -> string, skipPrompt: bool, stopWords: seq<string>, g: StreamState, e: Event)
    ensures Grows(g, Feed(decode, skipPrompt, stopWords, g, e))
  {
    match e
    case PutTokens(value) =>
      var (d, out) := PutStep(decode, skipPrompt, g.decoder, value);
      if out.Finalized? {
        OnTextGrows(stopWords, g.(decoder := d), out.text, false);
      }
    case EndStream =>
      var (d, text) := EndStep(decode, g.decoder);
      OnTextGrows(stopWords, g.(decoder := d), text, true);
  }

  /** Once finished, a streamer stays finished, queues nothing more, and a set stop
      flag stays set; the queue only ever grows at its end (first in, first out). */
  lemma {:induction false} RunIsMonotonic(
    decode: seq<int> -> string, skipPrompt: bool, stopWords: seq<string>, g: StreamState, events: seq<Event>)
    ensures Grows(g, Run(decode, skipPrompt, stopWords, g, events))
  {
    if events != [] {
      var prev := events[..|events| - 1];
      RunIsMonotonic(decode, skipPrompt, stopWords, g, prev);
      FeedIsMonotonic(decode, skipPrompt, stopWords, Run(decode, skipPrompt, stopWords, g, prev), events[|events| - 1]);
    }
  }

  /** The end of the stream always finishes the streamer. */
  lemma EndFinishes(decode: seq<int> -> string, skipPrompt: bool, stopWords: seq<string>, g: StreamState, events: seq<Event>)
    ensures Run(decode, skipPrompt, stopWords, g, events + [EndStream]).finished
  {
    assert (events + [EndStream])[..|events|] == events;
  }

  // ---------------------------------------------------------------------------
  // The classes

  /** `TextStreamer`: the incremental decoder. Its `put` and `end` return the text
      they hand to `on_finalized_text`, which each streamer below supplies. */
  class TextStreamer {
    const decode: seq<int> -> string
    const skipPrompt: bool
    var tokenCache: seq<int>
    var printLen: nat
    var nextTokensArePrompt: bool

    function State(): DecoderState
      reads this
    {
      DecoderState(tokenCache, printLen, nextTokensArePrompt)
    }

    constructor (decode: seq<int> -> string, skipPrompt: bool)
      ensures this.decode == decode && this.skipPrompt == skipPrompt
      ensures State() == FreshDecoder
    {
      this.decode := decode;
      this.skipPrompt := skipPrompt;
      tokenCache := [];
      printLen := 0;
      nextTokensArePrompt := true;
    }

    /** `put(value)` */
    method Put(value: TokenBatch) returns (out: PutOutcome)
      modifies this
      ensures (State(), out) == PutStep(decode, skipPrompt, old(State()), value)
    {
      var ids: seq<int>;
      match value {
        case Row(r) =>
          ids := r;
        case Rows(rows) =>
          if |rows| > 1 {
            return Raised(BatchTooLarge);
          }
          if |rows| == 0 {
            return Raised(NoRows);
          }
          ids := rows[0];
      }
      out := PutUnwrapped(ids);
    }

    /** The rest of `put` once the ids are unwrapped. */
    method PutUnwrapped(ids: seq<int>) returns (out: PutOutcome)
      modifies this
      ensures (State(), out) == PutIds(decode, skipPrompt, old(State()), ids)
    {
      if skipPrompt && nextTokensArePrompt {
        nextTokensArePrompt := false;
        return PromptSkipped;
      }
      tokenCache := tokenCache + ids;
      var text := decode(tokenCache);
      ghost var cut := CutPrintable(text, printLen);
      var printable: string;
      if EndsWith(text, "\n") {
        printable := Slice(text, printLen, |text|);
        tokenCache := [];
        printLen := 0;
      } else {
        printable := Slice(text, printLen, RFind(text, ' ') + 1);
        printLen := printLen + |printable|;
      }
      assert cut == Cut(printable, EndsWith(text, "\n"), printLen);
      out := Finalized(printable);
    }

    /** `end()` */
    method End() returns (text: string)
      modifies this
      ensures (State(), text) == EndStep(decode, old(State()))
    {
      if |tokenCache| > 0 {
        var decoded := decode(tokenCache);
        text := Slice(decoded, printLen, |decoded|);
        tokenCache := [];
        printLen := 0;
      } else {
        text := "";
      }
      nextTokensArePrompt := true;
    }
  }

  /** One turn of the consumer's loop in `__iter__`: take the oldest queued
      fragment; or stop, when the streamer is finished and the queue is empty; or
      wait (the source sleeps 0.1 s and polls again). */
  datatype IterStep = Yield(fragment: string) | Exhausted | Wait

  /** `GeneratorStreamer` of model_utils.py: a `TextStreamer` whose finalized text
      goes through the stop-word check onto a queue that a consumer drains. */
  class StopWordStreamer {
    const decoder: TextStreamer
    const stopCondition: ManualStopCondition
    const stopWords: seq<string>
    var finished: bool
    var queue: seq<string>
    var totalGeneratedText: string
    /** The fragments the consumer has already taken off the queue. */
    ghost var taken: seq<string>

    ghost function State(): StreamState
      reads this, decoder, stopCondition
    {
      StreamState(decoder.State(), finished, stopCondition.shouldStop, totalGeneratedText, taken + queue)
    }

    constructor (decode: seq<int> -> string, stopCondition: ManualStopCondition, skipPrompt: bool,
                 stopWords: Option<seq<string>>)
      ensures fresh(decoder) && decoder.decode == decode && decoder.skipPrompt == skipPrompt
      ensures this.stopCondition == stopCondition
      ensures this.stopWords == if stopWords.Some? then stopWords.value else []
      ensures State() == FreshStream(stopCondition.shouldStop)
      ensures queue == [] && taken == []
    {
      decoder := new TextStreamer(decode, skipPrompt);
      this.stopCondition := stopCondition;
      this.stopWords := if stopWords.Some? then stopWords.value else [];
      finished := false;
      queue := [];
      totalGeneratedText := "";
      taken := [];
    }

    /** `on_finalized_text(token, stream_end)` */
    method OnFinalizedText(token: string, streamEnd: bool)
      modifies this, stopCondition
      ensures State() == OnText(stopWords, old(State()), token, streamEnd)
      ensures taken == old(taken)
    {
      totalGeneratedText := totalGeneratedText + token;
      var i := 0;
      while i < |stopWords|
        invariant 0 <= i <= |stopWords|
        invariant forall j :: 0 <= j < i ==> !Contains(totalGeneratedText, stopWords[j])
        invariant finished == old(finished) && stopCondition.shouldStop == old(stopCondition.shouldStop)
      {
        if Contains(totalGeneratedText, stopWords[i]) {
          finished := true;
          stopCondition.Stop();
          break;
        }
        i := i + 1;
      }
      if !finished {
        queue := queue + [token];
        if streamEnd {
          finished := true;
        }
      }
    }

    /** `put(value)`: decode, then the stop-word check. */
    method Put(value: TokenBatch) returns (error: Option<StreamError>)
      modifies this, decoder, stopCondition
      ensures State() == Feed(decoder.decode, decoder.skipPrompt, stopWords, old(State()), PutTokens(value))
      ensures error.Some? <==> Unwrap(value).Err?
      ensures taken == old(taken)
    {
      var out := decoder.Put(value);
      match out {
        case Raised(e) =>
          error := Some(e);
        case PromptSkipped =>
          error := None;
        case Finalized(text) =>
          error := None;
          OnFinalizedText(text, false);
      }
    }

    /** `end()`: flush, then the stop-word check with the end-of-stream mark. */
    method End()
      modifies this, decoder, stopCondition
      ensures State() == Feed(decoder.decode, decoder.skipPrompt, stopWords, old(State()), EndStream)
      ensures taken == old(taken)
    {
      var text := decoder.End();
      OnFinalizedText(text, true);
    }

    /** One turn of `__iter__`. Taking a fragment moves it from the queue to the
        consumer and leaves the streamer's abstract state unchanged. */
    method Next() returns (step: IterStep)
      modifies this
      ensures old(queue) != [] ==>
        step == Yield(old(queue)[0]) && queue == old(queue)[1..] && taken == old(taken) + [old(queue)[0]]
      ensures old(queue) == [] ==>
        queue == [] && taken == old(taken) && step == if finished then Exhausted else Wait
      ensures finished == old(finished) && totalGeneratedText == old(totalGeneratedText)
      ensures State() == old(State())
    {
      if queue == [] {
        step := if finished then Exhausted else Wait;
      } else {
        step := Yield(queue[0]);
        taken := taken + [queue[0]];
        queue := queue[1..];
      }
    }

    /** `__iter__` run until it ends or would have to wait for the producer: it
        yields the queued fragments in the order they were queued, and it ends
        exactly when the streamer is finished and the queue is empty. */
    method Drain() returns (fragments: seq<string>, exhausted: bool)
      modifies this
      ensures fragments == old(queue) && queue == [] && taken == old(taken) + fragments
      ensures exhausted == finished
      ensures State() == old(State())
    {
      fragments := [];
      while true
        invariant old(queue) == fragments + queue
        invariant taken == old(taken) + fragments
        invariant finished == old(finished) && totalGeneratedText == old(totalGeneratedText)
        invariant State() == old(State())
        decreases |queue|
      {
        var step := Next();
        match step {
          case Yield(f) =>
            fragments := fragments + [f];
          case Exhausted =>
            return fragments, true;
          case Wait =>
            return fragments, false;
        }
      }
    }
  }
}
