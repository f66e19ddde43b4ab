/** A fail-fast sequence of calls, as the bring-up code is written: each call
    is followed by what the driver does with its result (return it when it is
    negative, keep it unchecked, or ignore it). Execute is the reference
    semantics the imperative bring-up is proved against. */
module Pipeline {
  import opened Platform

  /** What the driver does with the integer a call returns. */
  datatype Check =
    | StopIfNegative            // ret = call(); if (ret < 0) return ret;
    | KeepResult                // ret = call(); and no test
    | Discard                   // the result is not assigned (a sleep)
    | StopIfNotReady(err: int)  // if (!ready()) return err;

  datatype Step = Step(event: Event, check: Check)

  /** The trace so far, the driver's `ret`, and whether it has returned. */
  datatype Run = Run(trace: seq<Event>, ret: int, stopped: bool)

  type Oracle = nat -> int

  /** The step makes the driver return early when its call answers v. */
  predicate Fails(s: Step, v: int) {
    v < 0 && (s.check.StopIfNegative? || s.check.StopIfNotReady?)
  }

  /** The value the driver returns when step s fails with answer v. */
  function FailureCode(s: Step, v: int): int {
    if s.check.StopIfNotReady? then s.check.err else v
  }

  /** Makes the call of s; its answer is the oracle's value at the call's
      position in the trace. */
  function Perform(r: Run, s: Step, oracle: Oracle): Run {
    var v := oracle(|r.trace|);
    var t := r.trace + [s.event];
    match s.check
    case StopIfNegative => Run(t, v, v < 0)
    case KeepResult => Run(t, v, false)
    case Discard => Run(t, r.ret, false)
    case StopIfNotReady(err) => if v < 0 then Run(t, err, true) else Run(t, r.ret, false)
  }

  /** Runs steps[i..] in order until one fails. */
  function ExecuteFrom(r: Run, steps: seq<Step>, i: nat, oracle: Oracle): Run
    requires i <= |steps|
    decreases |steps| - i
  {
    if r.stopped || i == |steps| then r
    else ExecuteFrom(Perform(r, steps[i], oracle), steps, i + 1, oracle)
  }

  function Execute(r: Run, steps: seq<Step>, oracle: Oracle): Run {
    ExecuteFrom(r, steps, 0, oracle)
  }

  /** The calls the steps make when none of them fails. */
  function Events(steps: seq<Step>): seq<Event> {
    seq(|steps|, j requires 0 <= j < |steps| => steps[j].event)
  }

  /** No step of steps[i..n] fails, step j answering at trace position
      base + j. */
  ghost predicate NoFailureIn(steps: seq<Step>, i: nat, n: nat, base: int, oracle: Oracle)
    requires i <= n <= |steps| && base + i >= 0
  {
    forall j :: i <= j < n ==> !Fails(steps[j], oracle(base + j))
  }

  lemma EventsAppend(a: seq<Step>, b: seq<Step>)
    ensures Events(a + b) == Events(a) + Events(b)
  {
  }

  /** One step of a plan, taken from position i: the run after it. */
  lemma Advance(r: Run, steps: seq<Step>, i: nat, oracle: Oracle) returns (r': Run)
    requires !r.stopped && i < |steps|
    ensures r' == Perform(r, steps[i], oracle)
    ensures ExecuteFrom(r, steps, i, oracle) == ExecuteFrom(r', steps, i + 1, oracle)
  {
    r' := Perform(r, steps[i], oracle);
  }

  /** A driver that has returned makes no further call. */
  lemma Halted(r: Run, steps: seq<Step>, i: nat, oracle: Oracle)
    requires r.stopped && i <= |steps|
    ensures ExecuteFrom(r, steps, i, oracle) == r
  {
  }

  /** Running b from position i is running prefix + b from |prefix| + i. */
  lemma {:induction false} ExecuteShift(r: Run, prefix: seq<Step>, b: seq<Step>, i: nat, oracle: Oracle)
    requires i <= |b|
    ensures ExecuteFrom(r, prefix + b, |prefix| + i, oracle) == ExecuteFrom(r, b, i, oracle)
    decreases |b| - i
  {
    if !r.stopped && i < |b| {
      assert (prefix + b)[|prefix| + i] == b[i];
      ExecuteShift(Perform(r, b[i], oracle), prefix, b, i + 1, oracle);
    }
  }

  /** Running a + b from i < |a| is running the rest of a, then b from
      where a left off. */
  lemma {:induction false} ExecuteAppendFrom(r: Run, a: seq<Step>, b: seq<Step>, i: nat, oracle: Oracle)
    requires i <= |a|
    ensures ExecuteFrom(r, a + b, i, oracle) == ExecuteFrom(ExecuteFrom(r, a, i, oracle), b, 0, oracle)
    decreases |a| - i
  {
    if r.stopped {
    } else if i == |a| {
      ExecuteShift(r, a, b, 0, oracle);
    } else {
      assert (a + b)[i] == a[i];
      ExecuteAppendFrom(Perform(r, a[i], oracle), a, b, i + 1, oracle);
    }
  }

  /** Running a + b is running a, then b from where a left off. */
  lemma ExecuteAppend(r: Run, a: seq<Step>, b: seq<Step>, oracle: Oracle)
    ensures Execute(r, a + b, oracle) == Execute(Execute(r, a, oracle), b, oracle)
  {
    ExecuteAppendFrom(r, a, b, 0, oracle);
  }

  /** Whatever the answers, the calls made are an initial part of the calls
      of steps[i..], appended to the earlier trace. */
  lemma {:induction false} ExecutePrefixFrom(r: Run, steps: seq<Step>, i: nat, oracle: Oracle)
    requires i <= |steps|
    ensures r.trace <= ExecuteFrom(r, steps, i, oracle).trace
    ensures ExecuteFrom(r, steps, i, oracle).trace[|r.trace|..] <= Events(steps)[i..]
    decreases |steps| - i
  {
    var r' := ExecuteFrom(r, steps, i, oracle);
    if r.stopped || i == |steps| {
      assert r'.trace[|r.trace|..] == [];
    } else {
      var p := Perform(r, steps[i], oracle);
      ExecutePrefixFrom(p, steps, i + 1, oracle);
      assert r'.trace[|r.trace|..] == [steps[i].event] + r'.trace[|p.trace|..];
      assert Events(steps)[i..] == [steps[i].event] + Events(steps)[i + 1..];
    }
  }

  /** Whatever the answers, the calls made are an initial part of the plan's
      calls, appended to the earlier trace. */
  lemma ExecutePrefix(r: Run, steps: seq<Step>, oracle: Oracle)
    ensures r.trace <= Execute(r, steps, oracle).trace
    ensures Execute(r, steps, oracle).trace[|r.trace|..] <= Events(steps)
  {
    ExecutePrefixFrom(r, steps, 0, oracle);
    assert Events(steps)[0..] == Events(steps);
  }

  /** A driver that returned early from steps[i..] did so at its k-th call,
      the first of those calls whose step fails, and returned that step's
      failure code. */
  lemma {:induction false} ExecuteStoppedFrom(r: Run, steps: seq<Step>, i: nat, oracle: Oracle)
    requires !r.stopped && i <= |steps|
    ensures var r' := ExecuteFrom(r, steps, i, oracle);
      var k := |r'.trace| - |r.trace|;
      r'.stopped ==>
        && 1 <= k && i + k <= |steps|
        && NoFailureIn(steps, i, i + k - 1, |r.trace| - i, oracle)
        && Fails(steps[i + k - 1], oracle(|r.trace| + k - 1))
        && r'.ret == FailureCode(steps[i + k - 1], oracle(|r.trace| + k - 1))
    decreases |steps| - i
  {
    if i < |steps| {
      var p := Perform(r, steps[i], oracle);
      if !p.stopped {
        ExecuteStoppedFrom(p, steps, i + 1, oracle);
        assert |p.trace| - (i + 1) == |r.trace| - i;
        assert !Fails(steps[i], oracle(|r.trace| - i + i));
      }
    }
  }

  /** A driver that did not return early from steps[i..] made all their calls,
      and none of them failed. */
  lemma {:induction false} ExecuteRanFrom(r: Run, steps: seq<Step>, i: nat, oracle: Oracle)
    requires !r.stopped && i <= |steps|
    ensures var r' := ExecuteFrom(r, steps, i, oracle);
      !r'.stopped ==>
        && |r'.trace| == |r.trace| + |steps| - i
        && NoFailureIn(steps, i, |steps|, |r.trace| - i, oracle)
    decreases |steps| - i
  {
    if i < |steps| {
      var p := Perform(r, steps[i], oracle);
      if !p.stopped {
        ExecuteRanFrom(p, steps, i + 1, oracle);
        assert |p.trace| - (i + 1) == |r.trace| - i;
        assert !Fails(steps[i], oracle(|r.trace| - i + i));
      }
    }
  }

  /** The outcome of any run of a plan (see ExecuteStoppedFrom and ExecuteRanFrom). */
  lemma ExecuteResult(r: Run, steps: seq<Step>, oracle: Oracle)
    requires !r.stopped
    ensures var r' := Execute(r, steps, oracle);
      var k := |r'.trace| - |r.trace|;
      && 0 <= k <= |steps|
      && r'.trace == r.trace + Events(steps)[..k]
      && (r'.stopped ==>
            && k >= 1
            && NoFailureIn(steps, 0, k - 1, |r.trace|, oracle)
            && Fails(steps[k - 1], oracle(|r.trace| + k - 1))
            && r'.ret == FailureCode(steps[k - 1], oracle(|r.trace| + k - 1)))
      && (!r'.stopped ==> k == |steps| && NoFailureIn(steps, 0, |steps|, |r.trace|, oracle))
  {
    ExecuteStoppedFrom(r, steps, 0, oracle);
    ExecuteRanFrom(r, steps, 0, oracle);
    ExecutePrefix(r, steps, oracle);
    var r' := Execute(r, steps, oracle);
    assert r'.trace == r.trace + r'.trace[|r.trace|..];
  }

  /** A run gets past every step that cannot fail: when none of the first k
      steps fails, their k calls are made, and the call of step k after them
      when there is one. */
  lemma ExecuteReaches(r: Run, steps: seq<Step>, k: nat, oracle: Oracle)
    requires !r.stopped && k <= |steps|
    requires forall j :: 0 <= j < k ==> !Fails(steps[j], oracle(|r.trace| + j))
    ensures |Execute(r, steps, oracle).trace| >= |r.trace| + k + (if k < |steps| then 1 else 0)
  {
    ExecuteResult(r, steps, oracle);
  }

  /** When no step fails, every call of the plan is made, in order, and the
      driver does not return early. */
  lemma ExecuteCompletes(r: Run, steps: seq<Step>, oracle: Oracle)
    requires !r.stopped
    requires NoFailureIn(steps, 0, |steps|, |r.trace|, oracle)
    ensures Execute(r, steps, oracle).trace == r.trace + Events(steps)
    ensures !Execute(r, steps, oracle).stopped
  {
    ExecuteResult(r, steps, oracle);
    var k := |Execute(r, steps, oracle).trace| - |r.trace|;
    if Execute(r, steps, oracle).stopped {
      assert false;
    }
    assert Events(steps)[..|steps|] == Events(steps);
  }

  /** When step n is the first to fail, the driver returns its failure code
      and makes no call after the n-th. */
  lemma ExecuteStopsAt(r: Run, steps: seq<Step>, n: nat, oracle: Oracle)
    requires !r.stopped && n < |steps|
    requires NoFailureIn(steps, 0, n, |r.trace|, oracle)
    requires Fails(steps[n], oracle(|r.trace| + n))
    ensures Execute(r, steps, oracle)
         == Run(r.trace + Events(steps)[..n + 1], FailureCode(steps[n], oracle(|r.trace| + n)), true)
  {
    ExecuteResult(r, steps, oracle);
    var r' := Execute(r, steps, oracle);
    var k := |r'.trace| - |r.trace|;
    if !r'.stopped {
      assert false;
    }
    if k - 1 < n {
      assert false;
    }
    if k - 1 > n {
      assert false;
    }
  }
}
