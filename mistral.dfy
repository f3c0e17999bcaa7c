/**
  The text-embedding wrapper of the second provider: an unbounded retry loop
  that retries only on the provider's SDK error, sleeping two seconds each
  time; any other exception propagates at once, and a response is turned
  into a one-entry map under the key "api".

  The remote service is an outcome sequence consumed one entry per attempt;
  the loop terminates because the sequence holds an outcome that is not an
  SDK error (a response, or another exception).
 */
module MistralEmbeddings {

  import opened Remote
  import Credentials

  /** The exceptions the loop can meet: the SDK's own error, the IndexError of an empty response, any other. */
  datatype Exception = SdkError(message: string) | IndexError | OtherError(message: string)

  /** One attempt of embeddings.create: a response listing one embedding per input, or an exception. */
  datatype CallOutcome = Responded(data: seq<seq<real>>) | Threw(exception: Exception)

  datatype EmbeddingsRequest = EmbeddingsRequest(model: string, inputs: seq<string>)

  /** What generate_embeddings_for_text ends with: the map it returns, or the exception it lets through. */
  datatype Answer = Embeddings(byName: map<string, seq<real>>) | Raised(exception: Exception)

  const ModelName: string := "mistral-embed"
  const ApiName: string := "mistral-embed-api"
  const ResultKey: string := "api"
  const SdkRetryDelay: Delay := 2.0

  /** Only an SDK error is caught and retried. */
  predicate Retried(o: CallOutcome)
  {
    o.Threw? && o.exception.SdkError?
  }

  /** Some attempt from position i on ends the loop. */
  ghost predicate StopsFrom(outcomes: seq<CallOutcome>, i: nat)
  {
    exists k :: i <= k < |outcomes| && !Retried(outcomes[k])
  }

  lemma StopsLater(outcomes: seq<CallOutcome>, i: nat)
    requires StopsFrom(outcomes, i) && i < |outcomes| && Retried(outcomes[i])
    ensures StopsFrom(outcomes, i + 1)
  {
    var k :| i <= k < |outcomes| && !Retried(outcomes[k]);
    assert i + 1 <= k;
  }

  /**
    The attempt that ends the loop: a non-empty response gives the map from
    "api" to its first embedding; an empty one raises the IndexError of
    data[0]; any other exception is raised as it is.
   */
  function Finish(o: CallOutcome): (a: Answer)
    requires !Retried(o)
    ensures a.Embeddings? <==> o.Responded? && |o.data| > 0
    ensures a.Embeddings? ==> a.byName.Keys == {ResultKey} && a.byName[ResultKey] == o.data[0]
    ensures o.Responded? && |o.data| == 0 ==> a == Raised(IndexError)
    ensures o.Threw? ==> a == Raised(o.exception)
  {
    match o
    case Responded(data) => if |data| == 0 then Raised(IndexError) else Embeddings(map[ResultKey := data[0]])
    case Threw(e) => Raised(e)
  }

  /** The retry loop from the attempt that consumes outcomes[i]; it always ends on a call. */
  function EmbedFrom(outcomes: seq<CallOutcome>, q: EmbeddingsRequest, i: nat): (r: Run<Answer, EmbeddingsRequest>)
    requires StopsFrom(outcomes, i)
    ensures |r.trace| > 0 && r.trace[|r.trace| - 1] == Call(q)
    decreases |outcomes| - i
  {
    assert i < |outcomes|;
    if Retried(outcomes[i]) then
      StopsLater(outcomes, i);
      var rest := EmbedFrom(outcomes, q, i + 1);
      Run(rest.verdict, FailedRound(q, Some(SdkRetryDelay)) + rest.trace)
    else
      Run(Finish(outcomes[i]), [Call(q)])
  }

  /** How many SDK errors in a row the loop meets from position i on, before the outcome that ends it. */
  function SdkErrorsFrom(outcomes: seq<CallOutcome>, i: nat): (n: nat)
    requires StopsFrom(outcomes, i)
    ensures i + n < |outcomes| && !Retried(outcomes[i + n])
    ensures forall k :: i <= k < i + n ==> Retried(outcomes[k])
    decreases |outcomes| - i
  {
    assert i < |outcomes|;
    if Retried(outcomes[i]) then
      StopsLater(outcomes, i);
      1 + SdkErrorsFrom(outcomes, i + 1)
    else 0
  }

  /** The answer is what the first outcome that is not an SDK error ends the loop with. */
  lemma {:induction false} EmbedFromVerdict(outcomes: seq<CallOutcome>, q: EmbeddingsRequest, i: nat)
    requires StopsFrom(outcomes, i)
    ensures EmbedFrom(outcomes, q, i).verdict == Finish(outcomes[i + SdkErrorsFrom(outcomes, i)])
    decreases |outcomes| - i
  {
    assert i < |outcomes|;
    if Retried(outcomes[i]) {
      StopsLater(outcomes, i);
      EmbedFromVerdict(outcomes, q, i + 1);
    }
  }

  /** n SDK errors from position i on, then an outcome that ends the loop: n rounds of call and two-second pause. */
  lemma {:induction false} StopsAfterRetriesFrom(outcomes: seq<CallOutcome>, q: EmbeddingsRequest, i: nat, n: nat)
    requires i + n < |outcomes|
    requires forall k :: i <= k < i + n ==> Retried(outcomes[k])
    requires !Retried(outcomes[i + n])
    ensures StopsFrom(outcomes, i)
    ensures EmbedFrom(outcomes, q, i) == Run(Finish(outcomes[i + n]), Rounds(n, q, Some(SdkRetryDelay)) + [Call(q)])
    decreases n
  {
    assert !Retried(outcomes[i + n]);
    if n > 0 {
      StopsAfterRetriesFrom(outcomes, q, i + 1, n - 1);
      assert FailedRound(q, Some(SdkRetryDelay)) + (Rounds(n - 1, q, Some(SdkRetryDelay)) + [Call(q)])
          == Rounds(n, q, Some(SdkRetryDelay)) + [Call(q)];
    }
  }

  /**
    N SDK errors and then a response, for any N: the map {"api": first
    embedding}, after N + 1 calls and N pauses of two seconds each.
   */
  lemma SdkErrorsThenResponse(outcomes: seq<CallOutcome>, q: EmbeddingsRequest, n: nat)
    requires n < |outcomes| && forall k :: 0 <= k < n ==> Retried(outcomes[k])
    requires outcomes[n].Responded? && |outcomes[n].data| > 0
    ensures StopsFrom(outcomes, 0)
    ensures var run := EmbedFrom(outcomes, q, 0);
      && run.verdict == Embeddings(map[ResultKey := outcomes[n].data[0]])
      && run.verdict.byName.Keys == {ResultKey}
      && Calls(run.trace) == n + 1
      && Pauses(run.trace) == n
      && AllPausesLast(run.trace, 2.0)
  {
    StopsAfterRetriesFrom(outcomes, q, 0, n);
    RoundsThenCallCounts(n, q, Some(SdkRetryDelay));
    RoundsUniform(n, q, Some(SdkRetryDelay));
  }

  /**
    An exception other than the SDK error propagates unchanged from the
    attempt that meets it: no pause after it, no further call; when it is the
    first attempt, one call and no pause at all.
   */
  lemma OtherExceptionPropagates(outcomes: seq<CallOutcome>, q: EmbeddingsRequest, n: nat)
    requires n < |outcomes| && forall k :: 0 <= k < n ==> Retried(outcomes[k])
    requires outcomes[n].Threw? && !outcomes[n].exception.SdkError?
    ensures StopsFrom(outcomes, 0)
    ensures var run := EmbedFrom(outcomes, q, 0);
      && run.verdict == Raised(outcomes[n].exception)
      && Calls(run.trace) == n + 1
      && Pauses(run.trace) == n
      && run.trace[|run.trace| - 1] == Call(q)
      && (n == 0 ==> run.trace == [Call(q)])
  {
    StopsAfterRetriesFrom(outcomes, q, 0, n);
    RoundsThenCallCounts(n, q, Some(SdkRetryDelay));
  }

  /** A response without embeddings fails on data[0] with an IndexError, which is not retried. */
  lemma EmptyResponseRaises(outcomes: seq<CallOutcome>, q: EmbeddingsRequest, n: nat)
    requires n < |outcomes| && forall k :: 0 <= k < n ==> Retried(outcomes[k])
    requires outcomes[n] == Responded([])
    ensures StopsFrom(outcomes, 0)
    ensures EmbedFrom(outcomes, q, 0).verdict == Raised(IndexError)
  {
    StopsAfterRetriesFrom(outcomes, q, 0, n);
  }

  /** Whatever the outcomes, a returned map has exactly the key "api", and every call sends q. */
  lemma {:induction false} AnswerShape(outcomes: seq<CallOutcome>, q: EmbeddingsRequest, i: nat)
    requires StopsFrom(outcomes, i)
    ensures var run := EmbedFrom(outcomes, q, i);
      && (run.verdict.Embeddings? ==> run.verdict.byName.Keys == {ResultKey})
      && AllCallsSend(run.trace, q)
    decreases |outcomes| - i
  {
    var run := EmbedFrom(outcomes, q, i);
    if Retried(outcomes[i]) {
      StopsLater(outcomes, i);
      AnswerShape(outcomes, q, i + 1);
      var rest := EmbedFrom(outcomes, q, i + 1);
      var head := FailedRound(q, Some(SdkRetryDelay));
      assert run.trace == head + rest.trace;
      forall k | 0 <= k < |run.trace| && run.trace[k].Call?
        ensures run.trace[k].request == q
      {
        if k >= |head| {
          assert run.trace[k] == rest.trace[k - |head|];
        }
      }
    }
  }

  class MistralEmbeddingsAPIModel {
    var apiKey: string
    var model: string

    /** The key is resolved through the credential convention; the model is always "mistral-embed". */
    constructor (fs: Credentials.FileSystem, apiKey: string)
      ensures this.apiKey == Credentials.Resolve(fs, apiKey)
      ensures model == ModelName
    {
      this.apiKey := apiKey;
      model := ModelName;
      new;
      if this.apiKey in fs {
        this.apiKey := Credentials.Strip(fs[this.apiKey]);
      }
    }

    function GetName(): (name: string)
      ensures name == "mistral-embed-api"
    {
      ApiName
    }

    /** generate_embeddings_for_text: the loop of EmbedFrom, every call sending the model and the one-element [text]. */
    method GenerateEmbeddingsForText(text: string, outcomes: seq<CallOutcome>)
      returns (answer: Answer, ghost trace: seq<Event<EmbeddingsRequest>>)
      requires StopsFrom(outcomes, 0)
      ensures answer == EmbedFrom(outcomes, EmbeddingsRequest(model, [text]), 0).verdict
      ensures trace == EmbedFrom(outcomes, EmbeddingsRequest(model, [text]), 0).trace
    {
      ghost var q := EmbeddingsRequest(model, [text]);
      var i: nat := 0;
      trace := [];
      while true
        invariant StopsFrom(outcomes, i)
        invariant EmbedFrom(outcomes, q, 0).verdict == EmbedFrom(outcomes, q, i).verdict
        invariant EmbedFrom(outcomes, q, 0).trace == trace + EmbedFrom(outcomes, q, i).trace
        decreases |outcomes| - i
      {
        ghost var before := trace;
        ghost var here := EmbedFrom(outcomes, q, i);
        assert i < |outcomes|;
        trace := trace + [Call(q)];
        match outcomes[i]
        case Responded(data) =>
          answer := if |data| == 0 then Raised(IndexError) else Embeddings(map[ResultKey := data[0]]);
          return;
        case Threw(e) =>
          if !e.SdkError? {
            answer := Raised(e);
            return;
          }
          StopsLater(outcomes, i);
          i := i + 1;
          ghost var rest := EmbedFrom(outcomes, q, i);
          assert here == Run(rest.verdict, FailedRound(q, Some(SdkRetryDelay)) + rest.trace);
          AppendFailedRound(before, q, Some(SdkRetryDelay), rest.trace);
          trace := trace + [Pause(SdkRetryDelay)];
      }
    }
  }
}
