/** The control primitives the compiled JavaScript calls as `$$_runtime` (the
    runtime of build/bright.js and build/tea.js).  Each primitive drives callbacks
    that compiled code hands it; a callback is modelled by the way it hands control
    back, and a run of a primitive by the trace of the calls it makes, in order. */
module Runtime {
  import opened Tokens
  import Lexer

  /** How a callback hands control back: through its continue callback, through its
      break callback, or not at all (it returned to its caller's callback, or it is
      still waiting on the host). */
  datatype Exit = Continue | Break | Stay

  // ---------------------------------------------------------------------------
  // runDefers

  /** How a deferred action ends once called: it calls `next` without an error or
      with one, it throws, or it never calls `next`. */
  datatype DeferStep = Done | DoneWith(err: string) | Throws(err: string) | Holds

  /** An element of the queue: a function, with the way it ends, or another value. */
  datatype Deferred = Action(step: DeferStep) | NotAFunction

  /** What a drain of deferred actions does: call the action at a position of the
      queue (with the argument it is given, if any), log an error's stack, or call
      the final callback with `null`. */
  datatype DeferEvent = Called(index: nat, error: Option<string>) | Logged(err: string) | Callback

  /** The array of deferred actions, which runDefers empties from the front. */
  class DeferQueue {
    var items: seq<Deferred>

    constructor (items0: seq<Deferred>)
      ensures items == items0
    {
      items := items0;
    }
  }

  /** `next` logs the error it is handed only when it is truthy: the empty string
      is not logged. */
  predicate LogsError(step: DeferStep) {
    (step.DoneWith? || step.Throws?) && step.err != ""
  }

  /** What one call of an action that goes on to `next` adds to the drain: the call
      with the original error, then the logged error if it reported or threw a
      truthy one. */
  function StepEvents(step: DeferStep, k: nat, error: Option<string>): (r: seq<DeferEvent>)
    ensures r != [] && r[0] == Called(k, error) && Callback !in r
    ensures |r| == 2 <==> LogsError(step)
    ensures |r| == 2 ==> r[1] == Logged(step.err)
    ensures |r| <= 2
  {
    [Called(k, error)] + (if LogsError(step) then [Logged(step.err)] else [])
  }

  /** The drain from position `k`: each function is called with the original
      error, an error it reports or throws is logged, and the first element that is
      not a function (or the end of the queue) leads to the final callback; an action
      that never calls `next` ends the drain. */
  function Drain(items: seq<Deferred>, error: string, k: nat): seq<DeferEvent>
    decreases |items|
  {
    if items == [] || items[0].NotAFunction? then [Callback]
    else if items[0].step.Holds? then [Called(k, Some(error))]
    else StepEvents(items[0].step, k, Some(error)) + Drain(items[1..], error, k + 1)
  }

  /** What is left of the queue once the drain stops. */
  function Leftover(items: seq<Deferred>): (r: seq<Deferred>)
    ensures |r| <= |items|
    decreases |items|
  {
    if items == [] then []
    else if items[0].NotAFunction? || items[0].step.Holds? then items[1..]
    else Leftover(items[1..])
  }

  /** One turn of runDefers' `next` on a function that goes on. */
  lemma DrainTurn(trace: seq<DeferEvent>, items: seq<Deferred>, error: string, k: nat)
    requires items != [] && items[0].Action? && !items[0].step.Holds?
    ensures trace + Drain(items, error, k)
         == (trace + StepEvents(items[0].step, k, Some(error))) + Drain(items[1..], error, k + 1)
    ensures Leftover(items) == Leftover(items[1..])
  {
    SeqAssociative(trace, StepEvents(items[0].step, k, Some(error)), Drain(items[1..], error, k + 1));
  }

  /** runDefers: `next` takes the front of the queue until it is not a function; a
      function gets the original error and `next`, and its error or the one it
      throws is logged before `next` goes on. */
  method RunDefers(q: DeferQueue, error: string) returns (trace: seq<DeferEvent>)
    modifies q
    ensures trace == Drain(old(q.items), error, 0)
    ensures q.items == Leftover(old(q.items))
  {
    var k := 0;
    trace := [];
    ghost var start := q.items;
    assert [] + Drain(start, error, 0) == Drain(start, error, 0);
    while true
      invariant trace + Drain(q.items, error, k) == Drain(start, error, 0)
      invariant Leftover(q.items) == Leftover(start)
      decreases |q.items|
    {
      var items := q.items;
      if items == [] {
        trace := trace + [Callback];
        return;
      }
      var fn := items[0];
      q.items := items[1..];
      if fn.NotAFunction? {
        trace := trace + [Callback];
        return;
      }
      if fn.step.Holds? {
        trace := trace + [Called(k, Some(error))];
        return;
      }
      DrainTurn(trace, items, error, k);
      ghost var before := trace;
      trace := trace + [Called(k, Some(error))];
      if (fn.step.DoneWith? || fn.step.Throws?) && fn.step.err != "" {
        trace := trace + [Logged(fn.step.err)];
      }
      assert trace == before + StepEvents(fn.step, k, Some(error));
      k := k + 1;
    }
  }

  /** A queue of functions that all call `next`. */
  predicate AllFinish(items: seq<Deferred>) {
    forall i :: 0 <= i < |items| ==> items[i].Action? && !items[i].step.Holds?
  }

  /** The positions of the actions called in a trace, in order. */
  function Calls(trace: seq<DeferEvent>): seq<nat>
    decreases |trace|
  {
    if trace == [] then []
    else (if trace[0].Called? then [trace[0].index] else []) + Calls(trace[1..])
  }

  /** Positions `k` up to `k + n`, in order. */
  function Range(k: nat, n: nat): (r: seq<nat>)
    ensures |r| == n
    decreases n
  {
    if n == 0 then [] else [k] + Range(k + 1, n - 1)
  }

  /** The `i`-th position of Range(k, n) is k + i. */
  lemma {:induction false} RangeAt(k: nat, n: nat, i: nat)
    requires i < n
    ensures Range(k, n)[i] == k + i
    decreases n
  {
    if i > 0 {
      RangeAt(k + 1, n - 1, i - 1);
    }
  }

  lemma RangeCons(k: nat, n: nat)
    requires n > 0
    ensures Range(k, n) == [k] + Range(k + 1, n - 1)
  {
  }

  lemma {:induction false} CallsAppend(a: seq<DeferEvent>, b: seq<DeferEvent>)
    ensures Calls(a + b) == Calls(a) + Calls(b)
    decreases |a|
  {
    if a == [] {
      assert a + b == b;
    } else {
      var head := if a[0].Called? then [a[0].index] else [];
      assert (a + b)[0] == a[0] && (a + b)[1..] == a[1..] + b;
      CallsAppend(a[1..], b);
      assert Calls(a + b) == head + Calls(a[1..] + b);
      SeqAssociative(head, Calls(a[1..]), Calls(b));
    }
  }

  /** When every action calls `next`, the actions run front to back, each exactly
      once, and the final callback comes last; nothing is left in the queue. */
  lemma DrainRunsAll(items: seq<Deferred>, error: string)
    requires AllFinish(items)
    ensures Calls(Drain(items, error, 0)) == Range(0, |items|)
    ensures Drain(items, error, 0)[|Drain(items, error, 0)| - 1] == Callback
    ensures Leftover(items) == []
  {
    DrainCalls(items, error, 0);
    DrainEnds(items, error, 0);
  }

  lemma {:induction false} DrainEnds(items: seq<Deferred>, error: string, k: nat)
    requires AllFinish(items)
    ensures Drain(items, error, k) != [] && Drain(items, error, k)[|Drain(items, error, k)| - 1] == Callback
    decreases |items|
  {
    if items != [] {
      assert AllFinish(items[1..]) by {
        forall i | 0 <= i < |items[1..]| ensures items[1..][i].Action? && !items[1..][i].step.Holds? {
          assert items[1..][i] == items[i + 1];
        }
      }
      DrainEnds(items[1..], error, k + 1);
      LastOfAppend(StepEvents(items[0].step, k, Some(error)), Drain(items[1..], error, k + 1));
    }
  }

  lemma LastOfAppend<T>(a: seq<T>, b: seq<T>)
    requires b != []
    ensures (a + b)[|a + b| - 1] == b[|b| - 1]
    ensures (a + b)[..|a + b| - 1] == a + b[..|b| - 1]
  {
  }

  lemma {:induction false} DrainCalls(items: seq<Deferred>, error: string, k: nat)
    requires AllFinish(items)
    ensures Calls(Drain(items, error, k)) == Range(k, |items|)
    ensures Leftover(items) == []
    decreases |items|
  {
    if items == [] {
      assert Calls([Callback]) == [] + Calls([]);
    } else {
      assert AllFinish(items[1..]) by {
        forall i | 0 <= i < |items[1..]| ensures items[1..][i].Action? && !items[1..][i].step.Holds? {
          assert items[1..][i] == items[i + 1];
        }
      }
      DrainCalls(items[1..], error, k + 1);
      CallsAppend(StepEvents(items[0].step, k, Some(error)), Drain(items[1..], error, k + 1));
      StepCalls(items[0].step, k, Some(error));
    }
  }

  /** The drain never logs an empty error. */
  lemma {:induction false} DrainSkipsEmpty(items: seq<Deferred>, error: string, k: nat)
    ensures Logged("") !in Drain(items, error, k)
    decreases |items|
  {
    if items != [] && items[0].Action? && !items[0].step.Holds? {
      DrainSkipsEmpty(items[1..], error, k + 1);
      var h := StepEvents(items[0].step, k, Some(error));
      assert Logged("") !in h;
    }
  }

  /** A non-empty error that an action reports or throws is logged, when every
      action up to it calls `next`. */
  lemma {:induction false} DrainLogsAt(items: seq<Deferred>, error: string, k: nat, i: nat)
    requires i < |items| && AllFinish(items[..i + 1]) && LogsError(items[i].step)
    ensures Logged(items[i].step.err) in Drain(items, error, k)
    decreases i
  {
    assert items[..i + 1][0] == items[0];
    var h := StepEvents(items[0].step, k, Some(error));
    if i == 0 {
      assert h[1] == Logged(items[0].step.err);
    } else {
      assert items[1..][..i] == items[..i + 1][1..];
      assert AllFinish(items[1..][..i]) by {
        forall j | 0 <= j < i ensures items[1..][..i][j].Action? && !items[1..][..i][j].step.Holds? {
          assert items[1..][..i][j] == items[..i + 1][j + 1];
        }
      }
      DrainLogsAt(items[1..], error, k + 1, i - 1);
    }
  }

  /** Every action the drain calls gets the original error. */
  lemma {:induction false} DrainPassesError(items: seq<Deferred>, error: string, k: nat)
    ensures forall e :: e in Drain(items, error, k) && e.Called? ==> e.error == Some(error)
    decreases |items|
  {
    if items != [] && items[0].Action? && !items[0].step.Holds? {
      DrainPassesError(items[1..], error, k + 1);
    }
  }

  lemma StepCalls(step: DeferStep, k: nat, error: Option<string>)
    ensures Calls(StepEvents(step, k, error)) == [k]
  {
    var h := StepEvents(step, k, error);
    assert h[1..] == [] || h[1..] == [Logged(step.err)];
    assert Calls(h[1..]) == [] by {
      if h[1..] != [] {
        assert h[1..][1..] == [];
      }
    }
  }

  /** The final callback is called at most once, and only as the last step; it is
      called exactly when no action before the first non-function (or the end of
      the queue) holds the drain. */
  lemma {:induction false} DrainCallbackOnce(items: seq<Deferred>, error: string, k: nat)
    ensures var t := Drain(items, error, k);
      t != [] && Callback !in t[..|t| - 1]
      && (Callback in t <==> exists i :: 0 <= i <= |items| && Finishes(items, i))
    decreases |items|
  {
    var t := Drain(items, error, k);
    if items == [] || items[0].NotAFunction? {
      assert Finishes(items, 0);
    } else {
      FinishesStep(items);
      if items[0].step.Holds? {
        assert t == [Called(k, Some(error))];
        assert !Finishes(items, 0);
      } else {
        DrainCallbackOnce(items[1..], error, k + 1);
        var rest := Drain(items[1..], error, k + 1);
        var head := StepEvents(items[0].step, k, Some(error));
        assert t[..|t| - 1] == head + rest[..|rest| - 1];
        assert Callback in t <==> Callback in rest;
      }
    }
  }

  /** The drain reaches position `i` without a holding action, and position `i` is the
      end of the queue or not a function. */
  predicate Finishes(items: seq<Deferred>, i: nat)
    requires i <= |items|
  {
    (forall j :: 0 <= j < i ==> items[j].Action? && !items[j].step.Holds?)
    && (i == |items| || items[i].NotAFunction?)
  }

  lemma FinishesStep(items: seq<Deferred>)
    requires items != [] && items[0].Action?
    ensures (exists i :: 0 <= i <= |items| && Finishes(items, i))
        <==> !items[0].step.Holds? && exists i :: 0 <= i <= |items[1..]| && Finishes(items[1..], i)
  {
    var tail := items[1..];
    if exists i :: 0 <= i <= |items| && Finishes(items, i) {
      var i :| 0 <= i <= |items| && Finishes(items, i);
      assert i > 0;
      assert Finishes(tail, i - 1) by {
        forall j | 0 <= j < i - 1 ensures tail[j].Action? && !tail[j].step.Holds? {
          assert tail[j] == items[j + 1];
        }
      }
    }
    if !items[0].step.Holds? && exists i :: 0 <= i <= |tail| && Finishes(tail, i) {
      var i :| 0 <= i <= |tail| && Finishes(tail, i);
      assert Finishes(items, i + 1) by {
        forall j | 0 <= j < i + 1 ensures items[j].Action? && !items[j].step.Holds? {
          if j > 0 {
            assert items[j] == tail[j - 1];
          }
        }
      }
    }
  }

  // ---------------------------------------------------------------------------
  // ifCondition

  /** An argument of ifCondition: a guard's value, or a function (a branch, the
      else branch or the done continuation) with whether it calls its callback. */
  datatype IfArg = Value(truthy: bool) | Function(continues: bool)

  /** JavaScript truthiness: every function is truthy. */
  predicate Truthy(a: IfArg) {
    a.Value? ==> a.truthy
  }

  /** The arguments taken two at a time; the last group may lack its second. */
  datatype Group = Group(first: IfArg, second: Option<IfArg>)

  function GroupAt(args: seq<IfArg>, j: nat): Group
    requires 2 * j < |args|
  {
    Group(args[2 * j], if 2 * j + 1 < |args| then Some(args[2 * j + 1]) else None)
  }

  /** The number of (guard, branch) pairs: the groups but the last. */
  function Pairs(args: seq<IfArg>): nat {
    if args == [] then 0 else (|args| - 1) / 2
  }

  /** The calling convention of compiled code: guards and branches alternate, then
      an optional else branch, then the done continuation. */
  predicate IfLayout(args: seq<IfArg>) {
    args != []
    && (forall j :: 0 <= j < Pairs(args) ==> args[2 * j].Value? && args[2 * j + 1].Function?)
    && args[2 * Pairs(args)].Function? && args[|args| - 1].Function?
  }

  /** There is an else branch: the arguments come in whole pairs. */
  predicate HasElse(args: seq<IfArg>) {
    |args| % 2 == 0
  }

  /** The first pair from `j` whose guard is truthy, or `m` when there is none. */
  function FirstTruthy(args: seq<IfArg>, j: nat, m: nat): (k: nat)
    requires j <= m && 2 * m <= |args|
    ensures j <= k <= m && (k < m ==> Truthy(args[2 * k]))
    ensures forall i :: j <= i < k ==> !Truthy(args[2 * i])
    decreases m - j
  {
    if j == m || Truthy(args[2 * j]) then j else FirstTruthy(args, j + 1, m)
  }

  /** The calls when no branch is taken: the else branch and then done, or done. */
  function ElseCalls(args: seq<IfArg>): seq<nat>
    requires IfLayout(args)
  {
    var m := Pairs(args);
    if HasElse(args) then [2 * m] + (if args[2 * m].continues then [2 * m + 1] else []) else [2 * m]
  }

  /** The calls of done() once the pairs are used up: as ElseCalls, except that done
      is called at once when the last guard tested was truthy and there is an else. */
  function DoneCalls(args: seq<IfArg>, last: bool): seq<nat>
    requires IfLayout(args)
  {
    if HasElse(args) && last then [2 * Pairs(args) + 1] else ElseCalls(args)
  }

  /** The Tea ifCondition from pair `j`: every pair is tested in turn, each truthy
      guard's branch runs, and done() follows the last pair. */
  function TeaCalls(args: seq<IfArg>, j: nat, last: bool): seq<nat>
    requires IfLayout(args) && j <= Pairs(args)
    decreases Pairs(args) - j
  {
    if j == Pairs(args) then DoneCalls(args, last)
    else if Truthy(args[2 * j]) then
      [2 * j + 1] + (if args[2 * j + 1].continues then TeaCalls(args, j + 1, true) else [])
    else TeaCalls(args, j + 1, false)
  }

  /** What ifCondition calls, by argument position.  Bright runs the branch of the
      first truthy guard, or else the else branch if there is one, and then done
      once (if the branch calls back); Tea as TeaCalls. */
  function IfCalls(d: Lexer.Dialect, args: seq<IfArg>): seq<nat>
    requires IfLayout(args)
  {
    if d == Lexer.Tea then TeaCalls(args, 0, false)
    else
      var k := FirstTruthy(args, 0, Pairs(args));
      if k < Pairs(args) then [2 * k + 1] + (if args[2 * k + 1].continues then [|args| - 1] else [])
      else ElseCalls(args)
  }

  /** Where the last group starts, and whether it has a second. */
  lemma PairsFacts(args: seq<IfArg>)
    requires args != []
    ensures (|args| + 1) / 2 == Pairs(args) + 1
    ensures HasElse(args) <==> 2 * Pairs(args) + 2 == |args|
    ensures !HasElse(args) <==> 2 * Pairs(args) + 1 == |args|
  {
  }

  /** The Bright loop ends at the first truthy guard or when the pairs run out;
      done() then completes IfCalls. */
  lemma BrightDone(args: seq<IfArg>, j: nat, last: bool, calls: seq<nat>)
    requires IfLayout(args) && j <= Pairs(args)
    requires !last ==> j == Pairs(args) && calls == [] && FirstTruthy(args, 0, Pairs(args)) == FirstTruthy(args, j, Pairs(args))
    requires last ==> 0 < j && FirstTruthy(args, 0, Pairs(args)) == j - 1 && calls == [2 * j - 1] && args[2 * j - 1].continues
    ensures calls + DoneCalls(args, last) == IfCalls(Lexer.Bright, args)
  {
    PairsFacts(args);
  }

  /** One turn of the Tea `next` on pair `j`. */
  lemma TeaTurn(args: seq<IfArg>, j: nat, last: bool, calls: seq<nat>)
    requires IfLayout(args) && j < Pairs(args) && calls + TeaCalls(args, j, last) == TeaCalls(args, 0, false)
    ensures Truthy(args[2 * j]) && !args[2 * j + 1].continues ==> calls + [2 * j + 1] == TeaCalls(args, 0, false)
    ensures Truthy(args[2 * j]) && args[2 * j + 1].continues ==>
      (calls + [2 * j + 1]) + TeaCalls(args, j + 1, true) == TeaCalls(args, 0, false)
    ensures !Truthy(args[2 * j]) ==> calls + TeaCalls(args, j + 1, false) == TeaCalls(args, 0, false)
  {
    if Truthy(args[2 * j]) {
      if args[2 * j + 1].continues {
        SeqAssociative(calls, [2 * j + 1], TeaCalls(args, j + 1, true));
      } else {
        assert TeaCalls(args, j, last) == [2 * j + 1] + [];
      }
    }
  }

  /** One turn of the Bright `next` on pair `j`, before any guard was truthy. */
  lemma BrightTurn(args: seq<IfArg>, j: nat)
    requires IfLayout(args) && j < Pairs(args) && FirstTruthy(args, 0, Pairs(args)) == FirstTruthy(args, j, Pairs(args))
    ensures Truthy(args[2 * j]) ==> FirstTruthy(args, 0, Pairs(args)) == j
    ensures Truthy(args[2 * j]) && !args[2 * j + 1].continues ==> IfCalls(Lexer.Bright, args) == [2 * j + 1]
    ensures !Truthy(args[2 * j]) ==> FirstTruthy(args, 0, Pairs(args)) == FirstTruthy(args, j + 1, Pairs(args))
  {
    if Truthy(args[2 * j]) && !args[2 * j + 1].continues {
      assert IfCalls(Lexer.Bright, args) == [2 * j + 1] + [];
    }
  }

  /** ifCondition's first loop: the arguments taken two at a time. */
  method GroupArgs(args: seq<IfArg>) returns (groups: seq<Group>)
    ensures |groups| == (|args| + 1) / 2
    ensures forall j :: 0 <= j < |groups| ==> 2 * j < |args| && groups[j] == GroupAt(args, j)
  {
    groups := [];
    var i := 0;
    while i < |args|
      invariant 0 <= i <= |args| + 1 && i % 2 == 0
      invariant |groups| == i / 2 && forall j :: 0 <= j < |groups| ==> 2 * j < |args| && groups[j] == GroupAt(args, j)
    {
      groups := groups + [Group(args[i], if i + 1 < |args| then Some(args[i + 1]) else None)];
      i := i + 2;
    }
  }

  /** ifCondition's done(): with a function as the last group's second, that
      function is done and the first is the else branch, which runs unless the last
      guard tested was truthy; otherwise the first is done. */
  method IfDone(ghost args: seq<IfArg>, end: Group, last: bool, m: nat) returns (r: Result<seq<nat>>)
    ensures IfLayout(args) && m == Pairs(args) && end == GroupAt(args, m) ==> r == Ok(DoneCalls(args, last))
  {
    if args != [] {
      PairsFacts(args);
    }
    if end.second.Some? && end.second.value.Function? {
      if last {
        return Ok([2 * m + 1]);
      }
      if !end.first.Function? {
        return Err(Crash);
      }
      if end.first.continues {
        assert [2 * m] + [2 * m + 1] == [2 * m, 2 * m + 1];
        return Ok([2 * m, 2 * m + 1]);
      }
      assert [2 * m] + [] == [2 * m];
      return Ok([2 * m]);
    }
    if !end.first.Function? {
      return Err(Crash);
    }
    return Ok([2 * m]);
  }

  /** ifCondition: the arguments are grouped in twos, the last group is done()'s,
      and `next` takes the other groups in turn, the Bright version only until a
      guard was truthy; a call of something that is not a function (the arguments
      do not follow the convention) is a TypeError. */
  method IfCondition(d: Lexer.Dialect, args: seq<IfArg>) returns (r: Result<seq<nat>>)
    ensures args == [] ==> r == Err(Crash)
    ensures IfLayout(args) ==> r == Ok(IfCalls(d, args))
  {
    var groups := GroupArgs(args);
    if groups == [] {
      return Err(Crash);
    }
    var end := groups[|groups| - 1];
    groups := groups[..|groups| - 1];
    var m := |groups|;
    PairsFacts(args);
    assert m == Pairs(args) && end == GroupAt(args, m);
    var last := false;
    var calls: seq<nat> := [];
    var j := 0;
    while j < m && !(d == Lexer.Bright && last)
      invariant 0 <= j <= m
      invariant IfLayout(args) && d == Lexer.Tea ==> calls + TeaCalls(args, j, last) == TeaCalls(args, 0, false)
      invariant IfLayout(args) && d == Lexer.Bright && !last ==> calls == [] && FirstTruthy(args, 0, m) == FirstTruthy(args, j, m)
      invariant IfLayout(args) && d == Lexer.Bright && last ==>
        0 < j && FirstTruthy(args, 0, m) == j - 1 && calls == [2 * j - 1] && args[2 * j - 1].continues
    {
      var g := groups[j];
      if IfLayout(args) {
        assert 2 * j + 1 < |args| && g == GroupAt(args, j);
        if d == Lexer.Tea {
          TeaTurn(args, j, last, calls);
        } else {
          BrightTurn(args, j);
        }
      }
      last := Truthy(g.first);
      if last {
        if !(g.second.Some? && g.second.value.Function?) {
          return Err(Crash);
        }
        calls := calls + [2 * j + 1];
        if !g.second.value.continues {
          assert IfLayout(args) ==> g.second.value == args[2 * j + 1];
          assert IfLayout(args) ==> !args[2 * j + 1].continues;
          assert IfLayout(args) && d == Lexer.Tea ==> calls == TeaCalls(args, 0, false);
          assert IfLayout(args) && d == Lexer.Bright ==> calls == IfCalls(d, args);
          return Ok(calls);
        }
      }
      j := j + 1;
    }
    var done := IfDone(args, end, last, m);
    if done.Err? {
      return done;
    }
    if IfLayout(args) && d == Lexer.Bright {
      BrightDone(args, j, last, calls);
    }
    return Ok(calls + done.value);
  }

  /** The one branch an if/elseif/else chain selects: the first truthy guard's, or
      else the else branch, or done when there is neither. */
  function Chosen(args: seq<IfArg>): (c: nat)
    requires IfLayout(args)
    ensures c < |args|
  {
    var k := FirstTruthy(args, 0, Pairs(args));
    if k < Pairs(args) then 2 * k + 1 else 2 * Pairs(args)
  }

  /** The Bright ifCondition runs one branch, the chosen one, and done at most once
      after it: done is the only other call. */
  lemma BrightRunsOneBranch(args: seq<IfArg>)
    requires IfLayout(args)
    ensures IfCalls(Lexer.Bright, args) != [] && IfCalls(Lexer.Bright, args)[0] == Chosen(args)
    ensures |IfCalls(Lexer.Bright, args)| <= 2
    ensures |IfCalls(Lexer.Bright, args)| == 2 ==> IfCalls(Lexer.Bright, args)[1] == |args| - 1
    ensures Chosen(args) == |args| - 1 ==> IfCalls(Lexer.Bright, args) == [|args| - 1]
  {
    PairsFacts(args);
  }

  /** With no truthy guard from pair `j`, Tea reaches done() with the flag it held. */
  lemma {:induction false} TeaFalsyRest(args: seq<IfArg>, j: nat, last: bool)
    requires IfLayout(args) && j <= Pairs(args)
    requires forall i :: j <= i < Pairs(args) ==> !Truthy(args[2 * i])
    ensures TeaCalls(args, j, last) == DoneCalls(args, if j == Pairs(args) then last else false)
    decreases Pairs(args) - j
  {
    if j < Pairs(args) {
      TeaFalsyRest(args, j + 1, false);
    }
  }

  /** When no guard is truthy both versions run the else branch (if any) and done. */
  lemma TeaAgreesWithoutTruthyGuard(args: seq<IfArg>)
    requires IfLayout(args)
    requires forall i :: 0 <= i < Pairs(args) ==> !Truthy(args[2 * i])
    ensures TeaCalls(args, 0, false) == IfCalls(Lexer.Bright, args)
    ensures IfCalls(Lexer.Tea, args) == ElseCalls(args)
  {
    TeaFalsyRest(args, 0, false);
  }

  /** Tea as written: `if a then B elseif c then D end` with both guards truthy runs
      both branches (calls 1 and 3) before done (4); Bright runs 1 and then 4. */
  lemma TeaRunsTwoBranches()
    ensures var args := [Value(true), Function(true), Value(true), Function(true), Function(true)];
      IfLayout(args) && IfCalls(Lexer.Tea, args) == [1, 3, 4] && IfCalls(Lexer.Bright, args) == [1, 4]
  {
    var args := [Value(true), Function(true), Value(true), Function(true), Function(true)];
    assert Pairs(args) == 2;
    assert TeaCalls(args, 2, true) == [4];
    assert TeaCalls(args, 1, true) == [3] + [4];
    assert TeaCalls(args, 0, false) == [1] + [3, 4];
    assert FirstTruthy(args, 0, 2) == 0;
  }

  /** Tea as written: a taken branch followed by a falsy elseif guard runs the else
      branch (4) as well, before done (5). */
  lemma TeaElseAfterBranch()
    ensures var args := [Value(true), Function(true), Value(false), Function(true), Function(true), Function(true)];
      IfLayout(args) && IfCalls(Lexer.Tea, args) == [1, 4, 5] && IfCalls(Lexer.Bright, args) == [1, 5]
  {
    var args := [Value(true), Function(true), Value(false), Function(true), Function(true), Function(true)];
    assert Pairs(args) == 2 && HasElse(args);
    assert TeaCalls(args, 2, false) == [4] + [5];
    assert TeaCalls(args, 1, true) == [4, 5];
    assert TeaCalls(args, 0, false) == [1] + [4, 5];
    assert FirstTruthy(args, 0, 2) == 0;
  }

  // ---------------------------------------------------------------------------
  // conditionLoop

  /** One round of a `for` loop on a condition: what test() returns, and how the
      loop body hands control back when it runs. */
  datatype Round = Round(test: bool, exit: Exit)

  /** What conditionLoop does: call test() in a round (with its answer), call the
      loop body of a round with `next` and `done`, or call done(). */
  datatype LoopEvent = Tested(round: nat, result: bool) | Ran(round: nat) | Finished

  /** The trace of conditionLoop from round `k`, as far as the rounds given reach:
      a false test calls done(); otherwise the body runs, and goes on to the next
      round through `next`, to done() through `done`, or stops the loop. */
  function LoopFrom(rounds: seq<Round>, k: nat): seq<LoopEvent>
    requires k <= |rounds|
    decreases |rounds| - k
  {
    if k == |rounds| then []
    else if !rounds[k].test then [Tested(k, false), Finished]
    else [Tested(k, true), Ran(k)] + Then(rounds[k].exit, LoopFrom(rounds, k + 1), Finished)
  }

  /** What follows a body that hands control back by `exit`: the rest of the loop,
      its done callback, or nothing. */
  function Then<E>(exit: Exit, more: seq<E>, done: E): (r: seq<E>)
    ensures exit == Continue ==> r == more
    ensures exit == Break ==> r == [done]
    ensures exit == Stay ==> r == []
  {
    match exit
    case Continue => more
    case Break => [done]
    case Stay => []
  }

  /** One round of conditionLoop's `next` whose test is true. */
  lemma LoopTurn(trace: seq<LoopEvent>, rounds: seq<Round>, k: nat)
    requires k < |rounds| && rounds[k].test
    ensures trace + LoopFrom(rounds, k)
         == (trace + [Tested(k, true), Ran(k)]) + Then(rounds[k].exit, LoopFrom(rounds, k + 1), Finished)
  {
    SeqAssociative(trace, [Tested(k, true), Ran(k)], Then(rounds[k].exit, LoopFrom(rounds, k + 1), Finished));
  }

  /** conditionLoop: `next` calls test(), and runs the body with `next` and `done`
      while it is true; done() follows a false test. */
  method ConditionLoop(rounds: seq<Round>) returns (trace: seq<LoopEvent>)
    ensures trace == LoopFrom(rounds, 0)
  {
    trace := [];
    var k := 0;
    while k < |rounds|
      invariant k <= |rounds|
      invariant trace + LoopFrom(rounds, k) == LoopFrom(rounds, 0)
    {
      var round := rounds[k];
      if !round.test {
        trace := trace + [Tested(k, false), Finished];
        return;
      }
      LoopTurn(trace, rounds, k);
      trace := trace + [Tested(k, true), Ran(k)];
      if round.exit == Break {
        trace := trace + [Finished];
        return;
      }
      if round.exit == Stay {
        return;
      }
      k := k + 1;
    }
    assert trace + [] == trace;
  }

  /** The first round from `k` that does not go on to the next one: its test is
      false or its body does not continue; |rounds| when there is none. */
  function FirstStop(rounds: seq<Round>, k: nat): (s: nat)
    requires k <= |rounds|
    ensures k <= s <= |rounds|
    ensures forall i :: k <= i < s ==> rounds[i].test && rounds[i].exit == Continue
    ensures s < |rounds| ==> !rounds[s].test || rounds[s].exit != Continue
    decreases |rounds| - k
  {
    if k == |rounds| || !rounds[k].test || rounds[k].exit != Continue then k
    else FirstStop(rounds, k + 1)
  }

  /** The rounds whose body ran, in a trace. */
  function Bodies(trace: seq<LoopEvent>): seq<nat>
    decreases |trace|
  {
    if trace == [] then []
    else (if trace[0].Ran? then [trace[0].round] else []) + Bodies(trace[1..])
  }

  lemma {:induction false} BodiesAppend(a: seq<LoopEvent>, b: seq<LoopEvent>)
    ensures Bodies(a + b) == Bodies(a) + Bodies(b)
    decreases |a|
  {
    if a == [] {
      assert a + b == b;
    } else {
      var head := if a[0].Ran? then [a[0].round] else [];
      assert (a + b)[0] == a[0] && (a + b)[1..] == a[1..] + b;
      BodiesAppend(a[1..], b);
      assert Bodies(a + b) == head + Bodies(a[1..] + b);
      SeqAssociative(head, Bodies(a[1..]), Bodies(b));
    }
  }

  /** The body runs in every round up to the first that stops, and in that one too
      when its test is true, in order and once each. */
  lemma {:induction false} LoopBodies(rounds: seq<Round>, k: nat)
    requires k <= |rounds|
    ensures var s := FirstStop(rounds, k);
      Bodies(LoopFrom(rounds, k)) == Range(k, s - k) + (if s < |rounds| && rounds[s].test then [s] else [])
    decreases |rounds| - k, 1
  {
    if k < |rounds| {
      var tail := Then(rounds[k].exit, LoopFrom(rounds, k + 1), Finished);
      assert Bodies([Finished]) == [] by {
        assert Bodies([Finished]) == [] + Bodies([]);
      }
      if !rounds[k].test {
        BodiesAppend([Tested(k, false)], [Finished]);
        assert Bodies([Tested(k, false)]) == [] + Bodies([]);
      } else {
        assert LoopFrom(rounds, k) == [Tested(k, true), Ran(k)] + tail;
        BodiesAppend([Tested(k, true), Ran(k)], tail);
        assert Bodies([Tested(k, true), Ran(k)]) == [k] by {
          assert Bodies([Tested(k, true), Ran(k)]) == [] + Bodies([Ran(k)]);
          assert Bodies([Ran(k)]) == [k] + Bodies([]);
        }
        if rounds[k].exit == Continue {
          LoopBodiesContinue(rounds, k, tail);
        } else {
          assert FirstStop(rounds, k) == k && Range(k, 0) == [];
          assert Bodies(tail) == [] by {
            if rounds[k].exit == Break {
              assert tail == [Finished];
            } else {
              assert tail == [];
            }
          }
        }
      }
    }
  }

  /** A round whose body goes on adds its own body in front of the rest. */
  lemma {:induction false} LoopBodiesContinue(rounds: seq<Round>, k: nat, tail: seq<LoopEvent>)
    requires k < |rounds| && rounds[k].test && rounds[k].exit == Continue
    requires tail == Then(rounds[k].exit, LoopFrom(rounds, k + 1), Finished)
    ensures var s := FirstStop(rounds, k);
      [k] + Bodies(tail) == Range(k, s - k) + (if s < |rounds| && rounds[s].test then [s] else [])
    decreases |rounds| - k, 0
  {
    var s := FirstStop(rounds, k);
    var last := if s < |rounds| && rounds[s].test then [s] else [];
    assert s == FirstStop(rounds, k + 1);
    assert tail == LoopFrom(rounds, k + 1);
    LoopBodies(rounds, k + 1);
    ConsRange(k, s, last, Bodies(tail));
  }

  lemma ConsRange(k: nat, s: nat, last: seq<nat>, b: seq<nat>)
    requires k < s && b == Range(k + 1, s - (k + 1)) + last
    ensures [k] + b == Range(k, s - k) + last
  {
    RangeCons(k, s - k);
    SeqAssociative([k], Range(k + 1, s - (k + 1)), last);
  }

  /** done() is called exactly when the first round that stops has a false test or
      a body that breaks, and then it is the last event and is not repeated. */
  lemma {:induction false} LoopFinishes(rounds: seq<Round>, k: nat)
    requires k <= |rounds|
    ensures var s := FirstStop(rounds, k);
      Finished in LoopFrom(rounds, k) <==> s < |rounds| && (!rounds[s].test || rounds[s].exit == Break)
    ensures Finished in LoopFrom(rounds, k) ==>
      LoopFrom(rounds, k)[|LoopFrom(rounds, k)| - 1] == Finished
      && Finished !in LoopFrom(rounds, k)[..|LoopFrom(rounds, k)| - 1]
    decreases |rounds| - k
  {
    if k < |rounds| {
      var tail := Then(rounds[k].exit, LoopFrom(rounds, k + 1), Finished);
      if !rounds[k].test {
        LastOfAppend([Tested(k, false)], [Finished]);
      } else {
        if rounds[k].exit == Continue {
          LoopFinishes(rounds, k + 1);
        }
        if Finished in tail {
          LastOfAppend([Tested(k, true), Ran(k)], tail);
        }
      }
    }
  }

  /** Every body runs right after a true test of its own round. */
  lemma {:induction false} LoopTestsFirst(rounds: seq<Round>, k: nat)
    requires k <= |rounds|
    ensures forall i :: 0 <= i < |LoopFrom(rounds, k)| && LoopFrom(rounds, k)[i].Ran? ==>
      0 < i && LoopFrom(rounds, k)[i - 1] == Tested(LoopFrom(rounds, k)[i].round, true)
    decreases |rounds| - k
  {
    if k < |rounds| && rounds[k].test && rounds[k].exit == Continue {
      var u := LoopFrom(rounds, k + 1);
      LoopTestsFirst(rounds, k + 1);
      var t := LoopFrom(rounds, k);
      assert t == [Tested(k, true), Ran(k)] + u;
      forall i | 0 <= i < |t| && t[i].Ran?
        ensures 0 < i && t[i - 1] == Tested(t[i].round, true)
      {
        if i >= 2 {
          assert t[i] == u[i - 2];
          if i >= 3 {
            assert t[i - 1] == u[i - 3];
          }
        }
      }
    }
  }

  // ---------------------------------------------------------------------------
  // forEachLoop

  /** A key of the object, in the order Object.keys gives it, with how the loop
      body hands control back when it runs on that key. */
  datatype Visit = Visit(key: string, exit: Exit)

  /** What forEachLoop does: run the loop body on a key, or call done(). */
  datatype EachEvent = Visited(key: string) | EachDone

  /** The trace of forEachLoop over the keys left: the body runs on the first key
      and goes on through `next`, to done() through `done`, or stops the loop;
      done() follows the last key. */
  function Each(keys: seq<Visit>): seq<EachEvent>
    decreases |keys|
  {
    if keys == [] then [EachDone]
    else [Visited(keys[0].key)] + Then(keys[0].exit, Each(keys[1..]), EachDone)
  }

  /** forEachLoop: the keys are taken once, and `next` shifts them one at a time
      into the body until none is left, when it calls done(). */
  method ForEachLoop(visits: seq<Visit>) returns (trace: seq<EachEvent>)
    ensures trace == Each(visits)
  {
    var keys := visits;
    trace := [];
    while keys != []
      invariant trace + Each(keys) == Each(visits)
      decreases |keys|
    {
      var k := keys[0];
      var rest := keys[1..];
      SeqAssociative(trace, [Visited(k.key)], Then(k.exit, Each(rest), EachDone));
      keys := rest;
      trace := trace + [Visited(k.key)];
      if k.exit == Break {
        trace := trace + [EachDone];
        return;
      }
      if k.exit == Stay {
        return;
      }
    }
    trace := trace + [EachDone];
  }

  /** The keys the body visits, in order. */
  function VisitedKeys(trace: seq<EachEvent>): seq<string>
    decreases |trace|
  {
    if trace == [] then []
    else (if trace[0].Visited? then [trace[0].key] else []) + VisitedKeys(trace[1..])
  }

  function KeysOf(keys: seq<Visit>): (r: seq<string>)
    ensures |r| == |keys| && forall i :: 0 <= i < |keys| ==> r[i] == keys[i].key
    decreases |keys|
  {
    if keys == [] then [] else [keys[0].key] + KeysOf(keys[1..])
  }

  /** The first key whose body does not continue; |keys| when there is none. */
  function FirstExit(keys: seq<Visit>): (s: nat)
    ensures s <= |keys|
    ensures forall i :: 0 <= i < s ==> keys[i].exit == Continue
    ensures s < |keys| ==> keys[s].exit != Continue
    decreases |keys|
  {
    if keys == [] || keys[0].exit != Continue then 0 else 1 + FirstExit(keys[1..])
  }

  lemma {:induction false} VisitedAppend(a: seq<EachEvent>, b: seq<EachEvent>)
    ensures VisitedKeys(a + b) == VisitedKeys(a) + VisitedKeys(b)
    decreases |a|
  {
    if a == [] {
      assert a + b == b;
    } else {
      var head := if a[0].Visited? then [a[0].key] else [];
      assert (a + b)[0] == a[0] && (a + b)[1..] == a[1..] + b;
      VisitedAppend(a[1..], b);
      assert VisitedKeys(a + b) == head + VisitedKeys(a[1..] + b);
      SeqAssociative(head, VisitedKeys(a[1..]), VisitedKeys(b));
    }
  }

  /** The body visits the keys in order, up to and including the first whose body
      does not continue, each once. */
  lemma {:induction false} EachVisits(keys: seq<Visit>)
    ensures var s := FirstExit(keys);
      VisitedKeys(Each(keys)) == KeysOf(keys[..if s < |keys| then s + 1 else s])
    decreases |keys|, 1
  {
    VisitedDone();
    if keys == [] {
      assert keys[..0] == [];
    } else {
      var s := FirstExit(keys);
      var n := if s < |keys| then s + 1 else s;
      var tail := Then(keys[0].exit, Each(keys[1..]), EachDone);
      assert Each(keys) == [Visited(keys[0].key)] + tail;
      VisitedFront(keys[0].key, tail);
      KeysOfFront(keys, n);
      EachVisitsTail(keys, s, n, tail);
    }
  }

  lemma VisitedDone()
    ensures VisitedKeys([EachDone]) == []
  {
    assert VisitedKeys([EachDone]) == [] + VisitedKeys([]);
  }

  lemma VisitedFront(k: string, tail: seq<EachEvent>)
    ensures VisitedKeys([Visited(k)] + tail) == [k] + VisitedKeys(tail)
  {
    VisitedAppend([Visited(k)], tail);
    assert VisitedKeys([Visited(k)]) == [k] + VisitedKeys([]);
  }

  lemma KeysOfFront(keys: seq<Visit>, n: nat)
    requires 0 < n <= |keys|
    ensures KeysOf(keys[..n]) == [keys[0].key] + KeysOf(keys[1..][..n - 1])
  {
    assert keys[..n][1..] == keys[1..][..n - 1];
  }

  /** What the keys after the first contribute, in both cases of its exit. */
  lemma {:induction false} EachVisitsTail(keys: seq<Visit>, s: nat, n: nat, tail: seq<EachEvent>)
    requires keys != [] && s == FirstExit(keys) && n == (if s < |keys| then s + 1 else s)
    requires tail == Then(keys[0].exit, Each(keys[1..]), EachDone)
    requires VisitedKeys([EachDone]) == []
    ensures VisitedKeys(tail) == KeysOf(keys[1..][..n - 1])
    decreases |keys|, 0
  {
    if keys[0].exit == Continue {
      EachVisits(keys[1..]);
      var s1 := FirstExit(keys[1..]);
      assert s == 1 + s1;
      assert n - 1 == if s1 < |keys[1..]| then s1 + 1 else s1;
      assert tail == Each(keys[1..]);
    } else {
      assert s == 0 && n == 1 && keys[1..][..0] == [];
      if keys[0].exit == Break {
        assert tail == [EachDone];
      } else {
        assert tail == [];
      }
    }
  }

  /** done() is called unless a body stops the loop, and then it is the last event
      and is not repeated. */
  lemma {:induction false} EachFinishes(keys: seq<Visit>)
    ensures var s := FirstExit(keys);
      EachDone in Each(keys) <==> s == |keys| || keys[s].exit == Break
    ensures EachDone in Each(keys) ==>
      Each(keys)[|Each(keys)| - 1] == EachDone && EachDone !in Each(keys)[..|Each(keys)| - 1]
    decreases |keys|
  {
    if keys != [] {
      var tail := Then(keys[0].exit, Each(keys[1..]), EachDone);
      if keys[0].exit == Continue {
        EachFinishes(keys[1..]);
      }
      if EachDone in tail {
        LastOfAppend([Visited(keys[0].key)], tail);
      }
    }
  }

  // ---------------------------------------------------------------------------
  // parseArguments

  /** parseArguments: the last argument a compiled function received is its
      callback (undefined when there is none), and the others are its arguments. */
  method ParseArguments<V>(args: seq<V>) returns (arguments: seq<V>, callback: Option<V>)
    ensures args != [] ==> callback == Some(args[|args| - 1]) && arguments + [callback.value] == args
    ensures args == [] ==> callback == None && arguments == []
  {
    callback := if args == [] then None else Some(args[|args| - 1]);
    arguments := [];
    var i := 0;
    var len := |args| - 1;
    while i < len
      invariant 0 <= i && (args != [] ==> i <= len) && (args == [] ==> i == 0)
      invariant arguments == args[..i]
    {
      arguments := arguments + [args[i]];
      i := i + 1;
    }
    if args != [] {
      assert args[..i] + [args[i]] == args[..i + 1];
    }
  }
}
