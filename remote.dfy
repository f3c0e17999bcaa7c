/**
  Shared vocabulary for the wrappers around remote services: the outcome of
  one remote call, the observable events of a retry loop (a call that was
  issued, a pause that was slept) and the counting facts about them.
 */
module Remote {

  datatype Option<+T> = None | Some(value: T)

  datatype Result<+R, +E> = Success(value: R) | Failure(error: E)

  /** What a retry loop does that a caller can observe: it sends a request or it sleeps. */
  datatype Event<+Q> = Call(request: Q) | Pause(seconds: real)

  /** The answer of a retry loop together with the events it produced. */
  datatype Run<+V, +Q> = Run(verdict: V, trace: seq<Event<Q>>)

  /** A delay in seconds, as accepted by a blocking sleep. */
  type Delay = d: real | d >= 0.0

  /** The events of one failed attempt: the call, then the pause if a delay is configured. */
  function FailedRound<Q>(q: Q, delay: Option<Delay>): seq<Event<Q>>
  {
    [Call(q)] + (if delay.Some? then [Pause(delay.value)] else [])
  }

  /** A call, then the pause if a delay is configured, appended to t: t followed by one failed round. */
  lemma AppendFailedRound<Q>(t: seq<Event<Q>>, q: Q, delay: Option<Delay>, rest: seq<Event<Q>>)
    ensures var u := t + [Call(q)];
      var v := if delay.Some? then u + [Pause(delay.value)] else u;
      v == t + FailedRound(q, delay) && t + (FailedRound(q, delay) + rest) == v + rest
  {
  }

  lemma ConcatAssoc<T>(a: seq<T>, b: seq<T>, c: seq<T>)
    ensures a + (b + c) == (a + b) + c
  {
  }

  /** The events of n failed attempts in a row. */
  function Rounds<Q>(n: nat, q: Q, delay: Option<Delay>): seq<Event<Q>>
  {
    if n == 0 then [] else FailedRound(q, delay) + Rounds(n - 1, q, delay)
  }

  function Calls<Q>(t: seq<Event<Q>>): nat
  {
    if t == [] then 0 else (if t[0].Call? then 1 else 0) + Calls(t[1..])
  }

  function Pauses<Q>(t: seq<Event<Q>>): nat
  {
    if t == [] then 0 else (if t[0].Pause? then 1 else 0) + Pauses(t[1..])
  }

  /** Every call in the trace sends request q. */
  ghost predicate AllCallsSend<Q>(t: seq<Event<Q>>, q: Q)
  {
    forall i :: 0 <= i < |t| && t[i].Call? ==> t[i].request == q
  }

  /** Every pause in the trace lasts exactly the given number of seconds. */
  ghost predicate AllPausesLast<Q>(t: seq<Event<Q>>, seconds: real)
  {
    forall i :: 0 <= i < |t| && t[i].Pause? ==> t[i].seconds == seconds
  }

  lemma {:induction false} CountsOfConcat<Q>(a: seq<Event<Q>>, b: seq<Event<Q>>)
    ensures Calls(a + b) == Calls(a) + Calls(b)
    ensures Pauses(a + b) == Pauses(a) + Pauses(b)
  {
    if a == [] {
      assert a + b == b;
    } else {
      assert (a + b)[1..] == a[1..] + b;
      CountsOfConcat(a[1..], b);
    }
  }

  /** n failed rounds hold n calls, and n pauses exactly when a delay is configured. */
  lemma {:induction false} RoundsCounts<Q>(n: nat, q: Q, delay: Option<Delay>)
    ensures Calls(Rounds(n, q, delay)) == n
    ensures Pauses(Rounds(n, q, delay)) == if delay.Some? then n else 0
  {
    if n > 0 {
      RoundsCounts(n - 1, q, delay);
      CountsOfConcat(FailedRound(q, delay), Rounds(n - 1, q, delay));
      if delay.Some? {
        assert FailedRound(q, delay)[1..] == [Pause(delay.value)];
      } else {
        assert FailedRound(q, delay)[1..] == [];
      }
    }
  }

  /** n failed rounds followed by one last call: n + 1 calls, and no pause after the last call. */
  lemma RoundsThenCallCounts<Q>(n: nat, q: Q, delay: Option<Delay>)
    ensures var t := Rounds(n, q, delay) + [Call(q)];
      && Calls(t) == n + 1
      && Pauses(t) == (if delay.Some? then n else 0)
      && t[|t| - 1] == Call(q)
  {
    RoundsCounts(n, q, delay);
    CountsOfConcat(Rounds(n, q, delay), [Call(q)]);
    assert [Call(q)][1..] == [];
  }

  /** The calls of failed rounds all send the same request; their pauses all last the configured delay. */
  lemma {:induction false} RoundsUniform<Q>(n: nat, q: Q, delay: Option<Delay>)
    ensures AllCallsSend(Rounds(n, q, delay) + [Call(q)], q)
    ensures delay.Some? ==> AllPausesLast(Rounds(n, q, delay) + [Call(q)], delay.value)
  {
    if n > 0 {
      RoundsUniform(n - 1, q, delay);
      var head: seq<Event<Q>> := FailedRound(q, delay);
      var tail: seq<Event<Q>> := Rounds(n - 1, q, delay) + [Call(q)];
      var t: seq<Event<Q>> := head + tail;
      assert Rounds(n, q, delay) + [Call(q)] == t;
      forall i | 0 <= i < |t|
        ensures t[i].Call? ==> t[i].request == q
        ensures delay.Some? && t[i].Pause? ==> t[i].seconds == delay.value
      {
        if i >= |head| {
          assert t[i] == tail[i - |head|];
        }
      }
    }
  }
}
