/** The runtime of the older compiler prototype (lib/runtime/core.js): its
    runDefers calls the deferred functions one after another without arguments,
    logging what they throw, and then the final callback. */
module LegacyRuntime {
  import opened Tokens
  import Runtime

  /** An element of the queue: a function that returns, a function that throws, or
      another value. */
  datatype LegacyDeferred = Returns | Raises(err: string) | NotAFunction

  /** What the drain does: call the function at a position of the queue, log the
      stack of what it threw, or call the final callback with `null`. */
  datatype LegacyEvent = Ran(index: nat) | Logged(err: string) | Finished

  /** The array of deferred functions, which runDefers empties from the front. */
  class LegacyQueue {
    var items: seq<LegacyDeferred>

    constructor (items0: seq<LegacyDeferred>)
      ensures items == items0
    {
      items := items0;
    }
  }

  /** What one function adds to the drain: its call, then the logged error if it threw. */
  function RunEvents(fn: LegacyDeferred, k: nat): (r: seq<LegacyEvent>)
    requires !fn.NotAFunction?
    ensures r != [] && r[0] == Ran(k) && Finished !in r
  {
    [Ran(k)] + (if fn.Raises? then [Logged(fn.err)] else [])
  }

  /** The drain from position `k`: every function is called, whether or not an
      earlier one threw, until the first element that is not a function (or the end
      of the queue) leads to the final callback. */
  function LegacyDrain(items: seq<LegacyDeferred>, k: nat): seq<LegacyEvent>
    decreases |items|
  {
    if items == [] || items[0].NotAFunction? then [Finished]
    else RunEvents(items[0], k) + LegacyDrain(items[1..], k + 1)
  }

  /** The position of the first element that is not a function; |items| when there
      is none. */
  function FirstNonFunction(items: seq<LegacyDeferred>): (p: nat)
    ensures p <= |items|
    ensures forall i :: 0 <= i < p ==> !items[i].NotAFunction?
    ensures p < |items| ==> items[p].NotAFunction?
    decreases |items|
  {
    if items == [] || items[0].NotAFunction? then 0 else 1 + FirstNonFunction(items[1..])
  }

  /** runDefers: `next` takes the front of the queue until it is not a function; a
      function is called, what it throws is logged, and `next` goes on. */
  method RunDefers(q: LegacyQueue) returns (trace: seq<LegacyEvent>)
    modifies q
    ensures trace == LegacyDrain(old(q.items), 0)
    ensures q.items == old(q.items)[if FirstNonFunction(old(q.items)) < |old(q.items)| then FirstNonFunction(old(q.items)) + 1 else |old(q.items)|..]
  {
    var k := 0;
    trace := [];
    ghost var start := q.items;
    while true
      invariant k <= |start| && q.items == start[k..] && k <= FirstNonFunction(start)
      invariant trace + LegacyDrain(q.items, k) == LegacyDrain(start, 0)
      decreases |q.items|
    {
      var items := q.items;
      if items == [] {
        assert trace + [Finished] == LegacyDrain(start, 0);
        trace := trace + [Finished];
        return;
      }
      var fn := items[0];
      q.items := items[1..];
      if fn.NotAFunction? {
        assert start[k..][1..] == start[k + 1..];
        trace := trace + [Finished];
        return;
      }
      SeqAssociative(trace, RunEvents(fn, k), LegacyDrain(items[1..], k + 1));
      ghost var before := trace;
      trace := trace + [Ran(k)];
      if fn.Raises? {
        trace := trace + [Logged(fn.err)];
      }
      assert trace == before + RunEvents(fn, k);
      assert start[k..][1..] == start[k + 1..];
      k := k + 1;
    }
  }

  /** The positions of the functions called in a trace, in order. */
  function Runs(trace: seq<LegacyEvent>): seq<nat>
    decreases |trace|
  {
    if trace == [] then []
    else (if trace[0].Ran? then [trace[0].index] else []) + Runs(trace[1..])
  }

  lemma {:induction false} RunsAppend(a: seq<LegacyEvent>, b: seq<LegacyEvent>)
    ensures Runs(a + b) == Runs(a) + Runs(b)
    decreases |a|
  {
    if a == [] {
      assert a + b == b;
    } else {
      var head := if a[0].Ran? then [a[0].index] else [];
      assert (a + b)[0] == a[0] && (a + b)[1..] == a[1..] + b;
      RunsAppend(a[1..], b);
      assert Runs(a + b) == head + Runs(a[1..] + b);
      SeqAssociative(head, Runs(a[1..]), Runs(b));
    }
  }

  /** Every function before the first non-function runs, front to back and once
      each, even when earlier ones throw. */
  lemma {:induction false} LegacyRunsAll(items: seq<LegacyDeferred>, k: nat)
    ensures Runs(LegacyDrain(items, k)) == Runtime.Range(k, FirstNonFunction(items))
    decreases |items|
  {
    if items == [] || items[0].NotAFunction? {
      assert Runs([Finished]) == [] + Runs([]);
    } else {
      RunsAppend(RunEvents(items[0], k), LegacyDrain(items[1..], k + 1));
      assert Runs(RunEvents(items[0], k)) == [k] by {
        if items[0].Raises? {
          assert Runs([Logged(items[0].err)]) == [] + Runs([]);
        }
      }
      LegacyRunsAll(items[1..], k + 1);
    }
  }

  /** The final callback is called exactly once, as the last event. */
  lemma {:induction false} LegacyFinishesOnce(items: seq<LegacyDeferred>, k: nat)
    ensures LegacyDrain(items, k) != [] && LegacyDrain(items, k)[|LegacyDrain(items, k)| - 1] == Finished
    ensures Finished !in LegacyDrain(items, k)[..|LegacyDrain(items, k)| - 1]
    decreases |items|
  {
    if !(items == [] || items[0].NotAFunction?) {
      LegacyFinishesOnce(items[1..], k + 1);
      Runtime.LastOfAppend(RunEvents(items[0], k), LegacyDrain(items[1..], k + 1));
    }
  }

  /** Unlike the later runtime, the drain never stops at a function: every error
      is logged, in the order the functions threw. */
  lemma {:induction false} LegacyLogsAll(items: seq<LegacyDeferred>, k: nat, i: nat)
    requires i < FirstNonFunction(items) && items[i].Raises?
    ensures Logged(items[i].err) in LegacyDrain(items, k)
    decreases |items|
  {
    if i > 0 {
      LegacyLogsAll(items[1..], k + 1, i - 1);
    }
  }
}
