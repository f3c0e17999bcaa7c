/**
  The multimodal wrapper: a bounded retry loop around a remote call that
  never raises. Each attempt either succeeds, and its value is returned at
  once, or fails; a failure increments the attempt counter, and once the
  counter exceeds max_retries the loop returns an in-band sentinel string
  built from the last error; otherwise it sleeps for the configured delay
  (if any) and tries again.

  The remote service is an outcome sequence consumed one entry per attempt;
  the calls sent and the pauses slept are recorded in a ghost trace.
 */
module GeminiMultimodal {

  import opened Remote
  import Credentials

  /** What one attempt of the remote call produced: a value, or an exception rendered by str(). */
  datatype Outcome<+T> = Ok(value: T) | Err(message: string)

  /** How the loop ended: with the value of a successful attempt, or by giving up with the last error. */
  datatype Verdict<+T> = Returned(value: T) | GaveUp(lastError: string)

  /** What every attempt of a description sends: the uploaded image and the prompt. */
  datatype DescriptionRequest<+Img> = DescriptionRequest(image: Img, prompt: string)

  /** What every attempt of an embedding sends. */
  datatype EmbedContentRequest = EmbedContentRequest(model: string, content: string, taskType: string)

  /** get_embedding answers with a vector, or, once it gives up, with a sentinel string. */
  datatype EmbeddingReply = Vector(values: seq<real>) | Sentinel(text: string)

  const DefaultGenerationModel: string := "gemini-2.5-pro"
  const DefaultEmbeddingsModel: string := "gemini-embedding-001"
  const DefaultMaxRetries: int := 5
  const DefaultDescriptionDelay: Delay := 30.0
  const DefaultEmbeddingDelay: Delay := 10.0
  const DefaultTaskType: string := "RETRIEVAL_DOCUMENT"

  /** The built-in description prompt; its wording is configuration, not behaviour. */
  const BestGenerationPrompt: string

  const DescriptionSentinelPrefix: string := "<!!error!!>::<!!pending!!>:::\n\n"

  function DescriptionSentinel(error: string): string
  {
    DescriptionSentinelPrefix + error
  }

  function EmbeddingSentinelPrefix(text: string): string
  {
    "TEXT:::" + text + ":::fdl2025\n\n"
  }

  function EmbeddingSentinel(text: string, error: string): string
  {
    EmbeddingSentinelPrefix(text) + error
  }

  /** Recover the error from a description sentinel, the way a caller detects failure by prefix. */
  function ParseDescriptionSentinel(s: string): (error: Option<string>)
    ensures error.Some? <==> DescriptionSentinelPrefix <= s
    ensures error.Some? ==> s == DescriptionSentinel(error.value)
  {
    if DescriptionSentinelPrefix <= s then Some(s[|DescriptionSentinelPrefix|..]) else None
  }

  /** Recover the error from an embedding sentinel for a known input text. */
  function ParseEmbeddingSentinel(text: string, s: string): (error: Option<string>)
    ensures error.Some? <==> EmbeddingSentinelPrefix(text) <= s
    ensures error.Some? ==> s == EmbeddingSentinel(text, error.value)
  {
    var prefix := EmbeddingSentinelPrefix(text);
    if prefix <= s then Some(s[|prefix|..]) else None
  }

  lemma DescriptionSentinelRoundTrip(error: string)
    ensures ParseDescriptionSentinel(DescriptionSentinel(error)) == Some(error)
  {
    assert DescriptionSentinel(error)[|DescriptionSentinelPrefix|..] == error;
  }

  lemma EmbeddingSentinelRoundTrip(text: string, error: string)
    ensures ParseEmbeddingSentinel(text, EmbeddingSentinel(text, error)) == Some(error)
  {
    assert EmbeddingSentinel(text, error)[|EmbeddingSentinelPrefix(text)|..] == error;
  }

  /** The most attempts a loop with this max_retries makes: one, plus one per allowed retry. */
  function Budget(maxRetries: int): (n: nat)
    ensures n >= 1
    ensures maxRetries >= 0 ==> n == maxRetries + 1
  {
    if maxRetries < 0 then 1 else maxRetries + 1
  }

  /**
    How many failed attempts the loop retries after, from attempt `failed` on:
    they all fail, and the attempt after them succeeds or is the last the
    budget allows.
   */
  function RetriesTaken<T>(outcomes: seq<Outcome<T>>, maxRetries: int, failed: nat): (n: nat)
    requires failed < Budget(maxRetries) <= |outcomes|
    ensures failed + n < Budget(maxRetries)
    ensures forall k :: failed <= k < failed + n ==> outcomes[k].Err?
    ensures outcomes[failed + n].Ok? || failed + n + 1 == Budget(maxRetries)
    decreases Budget(maxRetries) - failed
  {
    if outcomes[failed].Ok? || failed + 1 > maxRetries then 0
    else 1 + RetriesTaken(outcomes, maxRetries, failed + 1)
  }

  /**
    The retry loop as a state machine, started with `failed` attempts already
    counted: attempt number `failed` consumes outcomes[failed]. The loop
    always ends on a call.
   */
  function Attempts<T, Q>(outcomes: seq<Outcome<T>>, q: Q, maxRetries: int, delay: Option<Delay>, failed: nat)
    : (r: Run<Verdict<T>, Q>)
    requires failed < Budget(maxRetries) <= |outcomes|
    ensures |r.trace| > 0 && r.trace[|r.trace| - 1] == Call(q)
    decreases Budget(maxRetries) - failed
  {
    match outcomes[failed]
    case Ok(v) => Run(Returned(v), [Call(q)])
    case Err(e) =>
      if failed + 1 > maxRetries then Run(GaveUp(e), [Call(q)])
      else
        var rest := Attempts(outcomes, q, maxRetries, delay, failed + 1);
        Run(rest.verdict, FailedRound(q, delay) + rest.trace)
  }

  function DescriptionText(v: Verdict<string>): string
  {
    match v
    case Returned(text) => text
    case GaveUp(error) => DescriptionSentinel(error)
  }

  function EmbeddingReplyOf(text: string, v: Verdict<seq<real>>): EmbeddingReply
  {
    match v
    case Returned(values) => Vector(values)
    case GaveUp(error) => Sentinel(EmbeddingSentinel(text, error))
  }

  /** Whatever the outcomes, the trace is that many failed rounds followed by one last call, within the budget. */
  lemma {:induction false} ShapeFrom<T, Q>(outcomes: seq<Outcome<T>>, q: Q, maxRetries: int,
                                          delay: Option<Delay>, failed: nat)
    requires failed < Budget(maxRetries) <= |outcomes|
    ensures var n := RetriesTaken(outcomes, maxRetries, failed);
      failed + n < Budget(maxRetries)
      && Attempts(outcomes, q, maxRetries, delay, failed).trace == Rounds(n, q, delay) + [Call(q)]
    decreases Budget(maxRetries) - failed
  {
    if outcomes[failed].Err? && failed + 1 <= maxRetries {
      ShapeFrom(outcomes, q, maxRetries, delay, failed + 1);
      var n := RetriesTaken(outcomes, maxRetries, failed + 1);
      ConcatAssoc(FailedRound(q, delay), Rounds(n, q, delay), [Call(q)]);
    }
  }

  /**
    The verdict is decided by the attempt after the retried ones: its value
    if it succeeds; otherwise its error, and it was the budget's last attempt.
   */
  lemma {:induction false} AttemptsVerdict<T, Q>(outcomes: seq<Outcome<T>>, q: Q, maxRetries: int,
                                                 delay: Option<Delay>, failed: nat)
    requires failed < Budget(maxRetries) <= |outcomes|
    ensures var v := Attempts(outcomes, q, maxRetries, delay, failed).verdict;
            var last := outcomes[failed + RetriesTaken(outcomes, maxRetries, failed)];
      && (v.Returned? <==> last.Ok?)
      && (v.Returned? ==> v.value == last.value)
      && (v.GaveUp? ==> v.lastError == last.message)
    decreases Budget(maxRetries) - failed
  {
    if outcomes[failed].Err? && failed + 1 <= maxRetries {
      AttemptsVerdict(outcomes, q, maxRetries, delay, failed + 1);
    }
  }

  /** n failures from attempt `failed` on, then a success within the budget: its value, after n failed rounds. */
  lemma SucceedsAfterFrom<T, Q>(outcomes: seq<Outcome<T>>, q: Q, maxRetries: int,
                                delay: Option<Delay>, failed: nat, n: nat)
    requires failed + n < Budget(maxRetries) <= |outcomes|
    requires forall i :: failed <= i < failed + n ==> outcomes[i].Err?
    requires outcomes[failed + n].Ok?
    ensures Attempts(outcomes, q, maxRetries, delay, failed)
         == Run(Returned(outcomes[failed + n].value), Rounds(n, q, delay) + [Call(q)])
  {
    var m := RetriesTaken(outcomes, maxRetries, failed);
    assert m == n;
    ShapeFrom(outcomes, q, maxRetries, delay, failed);
    AttemptsVerdict(outcomes, q, maxRetries, delay, failed);
  }

  /** Every attempt from `failed` to the end of the budget fails: the last error, after the remaining rounds. */
  lemma ExhaustsFrom<T, Q>(outcomes: seq<Outcome<T>>, q: Q, maxRetries: int,
                           delay: Option<Delay>, failed: nat)
    requires failed < Budget(maxRetries) <= |outcomes|
    requires forall i :: failed <= i < Budget(maxRetries) ==> outcomes[i].Err?
    ensures Attempts(outcomes, q, maxRetries, delay, failed)
         == Run(GaveUp(outcomes[Budget(maxRetries) - 1].message),
                Rounds(Budget(maxRetries) - 1 - failed, q, delay) + [Call(q)])
  {
    var m := RetriesTaken(outcomes, maxRetries, failed);
    assert outcomes[failed + m].Err?;
    ShapeFrom(outcomes, q, maxRetries, delay, failed);
    AttemptsVerdict(outcomes, q, maxRetries, delay, failed);
  }

  /** The loop returns a value exactly when some attempt within the budget succeeds. */
  lemma {:induction false} ReturnsIffSomeSuccess<T, Q>(outcomes: seq<Outcome<T>>, q: Q, maxRetries: int,
                                                      delay: Option<Delay>, failed: nat)
    requires failed < Budget(maxRetries) <= |outcomes|
    ensures Attempts(outcomes, q, maxRetries, delay, failed).verdict.Returned?
        <==> exists i :: failed <= i < Budget(maxRetries) && outcomes[i].Ok?
    decreases Budget(maxRetries) - failed
  {
    if outcomes[failed].Err? && failed + 1 <= maxRetries {
      ReturnsIffSomeSuccess(outcomes, q, maxRetries, delay, failed + 1);
    }
  }

  /**
    N failures and then a success, with N at most max_retries: the success
    value, after exactly N + 1 calls and N pauses (none without a delay),
    and nothing after the successful call.
   */
  lemma SuccessAfterFailures<T, Q>(outcomes: seq<Outcome<T>>, q: Q, maxRetries: int, delay: Option<Delay>, n: nat)
    requires n <= maxRetries && Budget(maxRetries) <= |outcomes|
    requires forall i :: 0 <= i < n ==> outcomes[i].Err?
    requires outcomes[n].Ok?
    ensures var run := Attempts(outcomes, q, maxRetries, delay, 0);
      && run.verdict == Returned(outcomes[n].value)
      && Calls(run.trace) == n + 1
      && Pauses(run.trace) == (if delay.Some? then n else 0)
      && run.trace[|run.trace| - 1] == Call(q)
  {
    SucceedsAfterFrom(outcomes, q, maxRetries, delay, 0, n);
    RoundsThenCallCounts(n, q, delay);
  }

  /**
    Every attempt fails: max_retries + 1 calls, max_retries pauses when a
    delay is configured, none after the final failure, and the last error
    is what the loop gives up with.
   */
  lemma AllAttemptsFail<T, Q>(outcomes: seq<Outcome<T>>, q: Q, maxRetries: int, delay: Option<Delay>)
    requires maxRetries >= 0 && maxRetries + 1 <= |outcomes|
    requires forall i :: 0 <= i <= maxRetries ==> outcomes[i].Err?
    ensures var run := Attempts(outcomes, q, maxRetries, delay, 0);
      && run.verdict == GaveUp(outcomes[maxRetries].message)
      && Calls(run.trace) == maxRetries + 1
      && Pauses(run.trace) == (if delay.Some? then maxRetries else 0)
      && run.trace[|run.trace| - 1] == Call(q)
  {
    ExhaustsFrom(outcomes, q, maxRetries, delay, 0);
    RoundsThenCallCounts(maxRetries, q, delay);
  }

  /**
    For every outcome sequence: between 1 and Budget calls, all sending the
    same request; the trace is Calls - 1 failed rounds (a call, then with a
    delay a pause of that length) and one last call; without a delay there is
    no pause at all.
   */
  lemma TraceShape<T, Q>(outcomes: seq<Outcome<T>>, q: Q, maxRetries: int, delay: Option<Delay>)
    requires Budget(maxRetries) <= |outcomes|
    ensures var t := Attempts(outcomes, q, maxRetries, delay, 0).trace;
      && 1 <= Calls(t) <= Budget(maxRetries)
      && Pauses(t) == (if delay.Some? then Calls(t) - 1 else 0)
      && t[|t| - 1] == Call(q)
      && t == Rounds(Calls(t) - 1, q, delay) + [Call(q)]
      && AllCallsSend(t, q)
      && (delay.Some? ==> AllPausesLast(t, delay.value))
  {
    ShapeFrom(outcomes, q, maxRetries, delay, 0);
    var n := RetriesTaken(outcomes, maxRetries, 0);
    RoundsThenCallCounts(n, q, delay);
    RoundsUniform(n, q, delay);
  }

  /** Every call of the loop sends the same request q. */
  lemma AttemptsSendOnly<T, Q>(outcomes: seq<Outcome<T>>, q: Q, maxRetries: int, delay: Option<Delay>)
    requires Budget(maxRetries) <= |outcomes|
    ensures AllCallsSend(Attempts(outcomes, q, maxRetries, delay, 0).trace, q)
  {
    TraceShape(outcomes, q, maxRetries, delay);
  }

  /** A genuine description that happens to look like a sentinel reads exactly like a failure. */
  lemma SentinelIsInBand(q: DescriptionRequest<int>, error: string, maxRetries: int, delay: Option<Delay>)
    requires maxRetries >= 0
    ensures var failing: seq<Outcome<string>> := seq(maxRetries + 1, i => Err(error));
            var lucky := [Ok(DescriptionSentinel(error))] + failing;
      DescriptionText(Attempts(failing, q, maxRetries, delay, 0).verdict)
        == DescriptionText(Attempts(lucky, q, maxRetries, delay, 0).verdict)
  {
    var failing: seq<Outcome<string>> := seq(maxRetries + 1, i => Err(error));
    AllAttemptsFail(failing, q, maxRetries, delay);
  }

  class GeminiMultimodalModel {
    var apiKey: string
    var generationModelName: string
    var embeddingsModelName: string
    var temperature: real
    var topP: real
    var maxOutputTokens: int
    var verbose: bool
    var generationPrompt: string

    /** The key is resolved through the credential convention; the prompt starts as the built-in one. */
    constructor (fs: Credentials.FileSystem, apiKey: string, generationModelName: string,
                 embeddingsModelName: string, temperature: real, topP: real,
                 maxOutputTokens: int, verbose: bool)
      ensures this.apiKey == Credentials.Resolve(fs, apiKey)
      ensures this.generationModelName == generationModelName
      ensures this.embeddingsModelName == embeddingsModelName
      ensures this.temperature == temperature && this.topP == topP
      ensures this.maxOutputTokens == maxOutputTokens && this.verbose == verbose
      ensures this.generationPrompt == BestGenerationPrompt
    {
      this.generationModelName := generationModelName;
      this.embeddingsModelName := embeddingsModelName;
      this.temperature := temperature;
      this.topP := topP;
      this.maxOutputTokens := maxOutputTokens;
      this.verbose := verbose;
      this.apiKey := apiKey;
      this.generationPrompt := BestGenerationPrompt;
      new;
      if this.apiKey in fs {
        this.apiKey := Credentials.Strip(fs[this.apiKey]);
      }
    }

    /** Later descriptions send this prompt; nothing else about the model changes. */
    method SetGenerationPrompt(prompt: string)
      modifies this`generationPrompt
      ensures generationPrompt == prompt
    {
      generationPrompt := prompt;
    }

    /** generate_description_for_image: the loop of Attempts, every call sending the image and the current prompt. */
    method GenerateDescriptionForImage<Img>(img: Img, maxRetries: int, delay: Option<Delay>,
                                            outcomes: seq<Outcome<string>>)
      returns (text: string, ghost trace: seq<Event<DescriptionRequest<Img>>>)
      requires Budget(maxRetries) <= |outcomes|
      ensures text == DescriptionText(Attempts(outcomes, DescriptionRequest(img, generationPrompt), maxRetries, delay, 0).verdict)
      ensures trace == Attempts(outcomes, DescriptionRequest(img, generationPrompt), maxRetries, delay, 0).trace
      ensures AllCallsSend(trace, DescriptionRequest(img, generationPrompt))
    {
      ghost var q := DescriptionRequest(img, generationPrompt);
      var attempts: nat := 0;
      trace := [];
      while true
        invariant attempts < Budget(maxRetries)
        invariant Attempts(outcomes, q, maxRetries, delay, 0).verdict
               == Attempts(outcomes, q, maxRetries, delay, attempts).verdict
        invariant Attempts(outcomes, q, maxRetries, delay, 0).trace
               == trace + Attempts(outcomes, q, maxRetries, delay, attempts).trace
        decreases Budget(maxRetries) - attempts
      {
        ghost var before := trace;
        ghost var here := Attempts(outcomes, q, maxRetries, delay, attempts);
        trace := trace + [Call(q)];
        match outcomes[attempts]
        case Ok(response) =>
          text := response;
          assert here.trace == [Call(q)];
          AttemptsSendOnly(outcomes, q, maxRetries, delay);
          return;
        case Err(e) =>
          attempts := attempts + 1;
          if attempts > maxRetries {
            text := DescriptionSentinel(e);
            assert here.trace == [Call(q)];
            AttemptsSendOnly(outcomes, q, maxRetries, delay);
            return;
          }
          ghost var rest := Attempts(outcomes, q, maxRetries, delay, attempts);
          assert here == Run(rest.verdict, FailedRound(q, delay) + rest.trace);
          AppendFailedRound(before, q, delay, rest.trace);
          if delay.Some? {
            trace := trace + [Pause(delay.value)];
          }
      }
    }

    /** get_embedding: the loop of Attempts, every call asking the embeddings model to embed `text`. */
    method GetEmbedding(text: string, maxRetries: int, delay: Option<Delay>, taskType: string,
                        outcomes: seq<Outcome<seq<real>>>)
      returns (reply: EmbeddingReply, ghost trace: seq<Event<EmbedContentRequest>>)
      requires Budget(maxRetries) <= |outcomes|
      ensures reply == EmbeddingReplyOf(text, Attempts(outcomes, EmbedContentRequest(embeddingsModelName, text, taskType), maxRetries, delay, 0).verdict)
      ensures trace == Attempts(outcomes, EmbedContentRequest(embeddingsModelName, text, taskType), maxRetries, delay, 0).trace
      ensures AllCallsSend(trace, EmbedContentRequest(embeddingsModelName, text, taskType))
    {
      ghost var q := EmbedContentRequest(embeddingsModelName, text, taskType);
      var attempts: nat := 0;
      trace := [];
      while true
        invariant attempts < Budget(maxRetries)
        invariant Attempts(outcomes, q, maxRetries, delay, 0).verdict
               == Attempts(outcomes, q, maxRetries, delay, attempts).verdict
        invariant Attempts(outcomes, q, maxRetries, delay, 0).trace
               == trace + Attempts(outcomes, q, maxRetries, delay, attempts).trace
        decreases Budget(maxRetries) - attempts
      {
        ghost var before := trace;
        ghost var here := Attempts(outcomes, q, maxRetries, delay, attempts);
        trace := trace + [Call(q)];
        match outcomes[attempts]
        case Ok(values) =>
          reply := Vector(values);
          assert here.trace == [Call(q)];
          AttemptsSendOnly(outcomes, q, maxRetries, delay);
          return;
        case Err(e) =>
          attempts := attempts + 1;
          if attempts > maxRetries {
            reply := Sentinel(EmbeddingSentinel(text, e));
            assert here.trace == [Call(q)];
            AttemptsSendOnly(outcomes, q, maxRetries, delay);
            return;
          }
          ghost var rest := Attempts(outcomes, q, maxRetries, delay, attempts);
          assert here == Run(rest.verdict, FailedRound(q, delay) + rest.trace);
          AppendFailedRound(before, q, delay, rest.trace);
          if delay.Some? {
            trace := trace + [Pause(delay.value)];
          }
      }
    }
  }
}
