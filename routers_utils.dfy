/** The request limiter that guards the query and chat endpoints, and the older
    streamer that queues every finalized fragment without looking for stop words.
    (The `TextStreamer` this file repeats is the one modelled in ModelUtils.) */
module RoutersUtils {
  import opened Wrappers
  import opened PyText
  import opened ModelUtils

  // ---------------------------------------------------------------------------
  // Request limiter

  datatype HttpException = HttpException(statusCode: int, detail: string)

  const ServerBusy: HttpException := HttpException(503, "The server is busy processing requests.")

  /** `threading.Semaphore` refuses a negative initial value. */
  datatype LimiterError = NegativeSemaphoreValue

  /** What the code inside a `with limiter.run():` block did. */
  datatype ScopeOutcome<T> = Returned(value: T) | Raised(exception: string)

  /** The outcome of a whole `with limiter.run():` block: rejected on entry, or the
      block's own outcome passed through. */
  datatype RunResult<T> = Rejected(error: HttpException) | Ran(outcome: ScopeOutcome<T>)

  /** `RequestLimiter`: a semaphore of `limit - 1` permits, taken without blocking. */
  class RequestLimiter {
    /** The semaphore's counter: permits currently free. */
    var permits: int
    /** The number of `run` scopes currently inside their block. */
    ghost var admitted: nat
    ghost const limit: int

    ghost predicate Valid()
      reads this
    {
      permits >= 0 && permits + admitted == limit - 1
    }

    constructor (limit: int)
      requires limit >= 1
      ensures Valid() && this.limit == limit && permits == limit - 1 && admitted == 0
    {
      this.limit := limit;
      permits := limit - 1;
      admitted := 0;
    }

    /** Entering `run`: `acquire(blocking=False)`, and the 503 error when no permit is free. */
    method Enter() returns (r: Result<(), HttpException>)
      requires Valid()
      modifies this
      ensures Valid()
      ensures r.Ok? <==> old(permits) > 0
      ensures r.Ok? ==> permits == old(permits) - 1 && admitted == old(admitted) + 1
      ensures r.Err? ==> r.error == ServerBusy && permits == old(permits) && admitted == old(admitted)
    {
      if permits > 0 {
        permits := permits - 1;
        admitted := admitted + 1;
        r := Ok(());
      } else {
        r := Err(ServerBusy);
      }
    }

    /** Leaving `run` after a successful entry, on every path: the `finally: release()`. */
    method Exit()
      requires Valid() && admitted > 0
      modifies this
      ensures Valid()
      ensures permits == old(permits) + 1 && admitted == old(admitted) - 1
    {
      permits := permits + 1;
      admitted := admitted - 1;
    }

    /** A whole `with limiter.run():` block around code whose outcome is `body`: it is
        rejected with 503 exactly when no permit is free; otherwise the block's
        result or exception passes through and the permit is given back, so the
        count is the same afterwards either way. */
    method Run<T>(body: ScopeOutcome<T>) returns (r: RunResult<T>)
      requires Valid()
      modifies this
      ensures Valid()
      ensures r.Rejected? <==> old(permits) == 0
      ensures r.Rejected? ==> r.error == ServerBusy
      ensures r.Ran? ==> r.outcome == body
      ensures permits == old(permits) && admitted == old(admitted)
    {
      var entered := Enter();
      if entered.Err? {
        return Rejected(entered.error);
      }
      r := Ran(body);
      Exit();
    }
  }

  /** `RequestLimiter(limit)`: the semaphore raises ValueError for `limit - 1 < 0`. */
  method NewRequestLimiter(limit: int) returns (r: Result<RequestLimiter, LimiterError>)
    ensures r.Ok? <==> limit >= 1
    ensures r.Ok? ==>
      && fresh(r.value) && r.value.Valid() && r.value.limit == limit
      && r.value.permits == limit - 1 && r.value.admitted == 0
  {
    if limit - 1 < 0 {
      return Err(NegativeSemaphoreValue);
    }
    var limiter := new RequestLimiter(limit);
    r := Ok(limiter);
  }

  /** Overlapping `run` scopes entered one after another on a limiter nobody is
      inside: exactly `limit - 1` are admitted, and the next is rejected at once. */
  method AdmitUntilBusy(limiter: RequestLimiter) returns (admittedCount: nat, rejection: HttpException)
    requires limiter.Valid() && limiter.admitted == 0
    modifies limiter
    ensures limiter.Valid()
    ensures admittedCount == limiter.limit - 1 == limiter.admitted
    ensures limiter.permits == 0 && rejection == ServerBusy
  {
    admittedCount := 0;
    while true
      invariant limiter.Valid()
      invariant limiter.admitted == admittedCount
      decreases limiter.permits
    {
      var r := limiter.Enter();
      if r.Err? {
        return admittedCount, r.error;
      }
      admittedCount := admittedCount + 1;
    }
  }

  // ---------------------------------------------------------------------------
  // The older streamer (`GeneratorStreamer` of routers/utils.py)

  /** Its state: the decoder, `finished`, and every fragment ever queued. */
  datatype QueueState = QueueState(decoder: DecoderState, finished: bool, enqueued: seq<string>)

  const FreshQueue: QueueState := QueueState(FreshDecoder, false, [])

  /** `on_finalized_text`: every fragment is queued; the end of the stream finishes. */
  function QueueText(q: QueueState, token: string, streamEnd: bool): QueueState
  {
    q.(enqueued := q.enqueued + [token], finished := q.finished || streamEnd)
  }

  function QueueFeed(decode: seq<int> -> string, skipPrompt: bool, q: QueueState, e: Event): QueueState
  {
    match e
    case PutTokens(value) =>
      var (d, out) := PutStep(decode, skipPrompt, q.decoder, value);
      (match out
       case Raised(_) => q
       case PromptSkipped => q.(decoder := d)
       case Finalized(text) => QueueText(q.(decoder := d), text, false))
    case EndStream =>
      var (d, text) := EndStep(decode, q.decoder);
      QueueText(q.(decoder := d), text, true)
  }

  function QueueRun(decode: seq<int> -> string, skipPrompt: bool, q: QueueState, events: seq<Event>): QueueState
  {
    if events == [] then q
    else QueueFeed(decode, skipPrompt, QueueRun(decode, skipPrompt, q, events[..|events| - 1]), events[|events| - 1])
  }

  /** One call finishes the older streamer exactly when it ends the stream, and
      only appends to the queue. */
  lemma QueueFeedStep(decode: seq<int> -> string, skipPrompt: bool, q: QueueState, e: Event)
    ensures var q' := QueueFeed(decode, skipPrompt, q, e);
      && (q'.finished <==> q.finished || e == EndStream)
      && q.enqueued <= q'.enqueued
  {
  }

  /** The older streamer finishes exactly when the stream has ended at least once,
      and its queue only grows at its end. */
  lemma {:induction false} QueueRunFinishesAtEnd(
    decode: seq<int> -> string, skipPrompt: bool, q: QueueState, events: seq<Event>)
    ensures var q' := QueueRun(decode, skipPrompt, q, events);
      && (q'.finished <==> q.finished || EndStream in events)
      && q.enqueued <= q'.enqueued
  {
    if events != [] {
      var prev := events[..|events| - 1];
      QueueRunFinishesAtEnd(decode, skipPrompt, q, prev);
      QueueFeedStep(decode, skipPrompt, QueueRun(decode, skipPrompt, q, prev), events[|events| - 1]);
      assert events == prev + [events[|events| - 1]];
    }
  }

  /** The stop-word streamer `g` has delivered a prefix of what the older streamer
      `q` delivered, all of it while `g` has not finished, over the same decoder. */
  predicate Truncates(g: StreamState, q: QueueState)
  {
    && g.decoder == q.decoder
    && g.enqueued <= q.enqueued
    && (!g.finished ==> g.enqueued == q.enqueued)
  }

  lemma FeedTruncates(
    decode: seq<int> -> string, skipPrompt: bool, stopWords: seq<string>, g: StreamState, q: QueueState, e: Event)
    requires Truncates(g, q)
    ensures Truncates(Feed(decode, skipPrompt, stopWords, g, e), QueueFeed(decode, skipPrompt, q, e))
  {
  }

  /** The stop-word streamer delivers a prefix of what the older streamer delivers for
      the same calls, and the very same fragments for as long as it has not finished:
      stop words only ever cut the stream short. */
  lemma {:induction false} StopWordsOnlyTruncate(
    decode: seq<int> -> string, skipPrompt: bool, stopWords: seq<string>, events: seq<Event>)
    ensures Truncates(Run(decode, skipPrompt, stopWords, FreshStream(false), events),
                      QueueRun(decode, skipPrompt, FreshQueue, events))
  {
    if events != [] {
      var prev := events[..|events| - 1];
      StopWordsOnlyTruncate(decode, skipPrompt, stopWords, prev);
      FeedTruncates(decode, skipPrompt, stopWords,
        Run(decode, skipPrompt, stopWords, FreshStream(false), prev),
        QueueRun(decode, skipPrompt, FreshQueue, prev), events[|events| - 1]);
    }
  }

  /** The older streamer as a class. */
  class QueueStreamer {
    const decoder: TextStreamer
    var finished: bool
    var queue: seq<string>
    /** The fragments the consumer has already taken off the queue. */
    ghost var taken: seq<string>

    ghost function State(): QueueState
      reads this, decoder
    {
      QueueState(decoder.State(), finished, taken + queue)
    }

    constructor (decode: seq<int> -> string, skipPrompt: bool)
      ensures fresh(decoder) && decoder.decode == decode && decoder.skipPrompt == skipPrompt
      ensures State() == FreshQueue && queue == [] && taken == []
    {
      decoder := new TextStreamer(decode, skipPrompt);
      finished := false;
      queue := [];
      taken := [];
    }

    /** `on_finalized_text(token, stream_end)` */
    method OnFinalizedText(token: string, streamEnd: bool)
      modifies this
      ensures State() == QueueText(old(State()), token, streamEnd)
      ensures taken == old(taken)
    {
      queue := queue + [token];
      if streamEnd {
        finished := true;
      }
    }

    method Put(value: TokenBatch) returns (error: Option<StreamError>)
      modifies this, decoder
      ensures State() == QueueFeed(decoder.decode, decoder.skipPrompt, old(State()), PutTokens(value))
      ensures error.Some? <==> Unwrap(value).Err?
      ensures taken == old(taken)
    {
      var out := decoder.Put(value);
      match out {
        case Raised(e) =>
          error := Some(e);
        case PromptSkipped =>
          error := None;
        case Finalized(text) =>
          error := None;
          OnFinalizedText(text, false);
      }
    }

    method End()
      modifies this, decoder
      ensures State() == QueueFeed(decoder.decode, decoder.skipPrompt, old(State()), EndStream)
      ensures taken == old(taken)
    {
      var text := decoder.End();
      OnFinalizedText(text, true);
    }

    /** One turn of `__iter__`. */
    method Next() returns (step: IterStep)
      modifies this
      ensures old(queue) != [] ==>
        step == Yield(old(queue)[0]) && queue == old(queue)[1..] && taken == old(taken) + [old(queue)[0]]
      ensures old(queue) == [] ==>
        queue == [] && taken == old(taken) && step == if finished then Exhausted else Wait
      ensures finished == old(finished)
      ensures State() == old(State())
    {
      if queue == [] {
        step := if finished then Exhausted else Wait;
      } else {
        step := Yield(queue[0]);
        taken := taken + [queue[0]];
        queue := queue[1..];
      }
    }

    /** `__iter__` until it ends or would wait: the queued fragments in FIFO order;
        it ends exactly when the streamer is finished and the queue is empty. */
    method Drain() returns (fragments: seq<string>, exhausted: bool)
      modifies this
      ensures fragments == old(queue) && queue == [] && taken == old(taken) + fragments
      ensures exhausted == finished
      ensures State() == old(State())
    {
      fragments := [];
      while true
        invariant old(queue) == fragments + queue
        invariant taken == old(taken) + fragments
        invariant finished == old(finished)
        invariant State() == old(State())
        decreases |queue|
      {
        var step := Next();
        match step {
          case Yield(f) =>
            fragments := fragments + [f];
          case Exhausted =>
            return fragments, true;
          case Wait =>
            return fragments, false;
        }
      }
    }
  }
}
