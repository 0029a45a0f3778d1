/**
 * A schedulable task (src/task.cc): a name, a function to run and an unsigned
 * 32-bit dependency counter. A task is ready once its counter is zero. When a
 * task is destroyed it decrements the counter of every task in its
 * `dependents` list; that is the only way dependencies are resolved.
 */
module Tasks {
  import opened Bytes
  import opened Wrappers

  /** The task's function object, by identity; None is nullptr. */
  type FunctionRef = Option<nat>

  /** Unsigned 32-bit `x - k`, wrapping around below zero. */
  function DecBy(x: uint32, k: nat): (r: uint32)
  {
    (x - k) % UINT32_MODULUS
  }

  /** Unsigned 32-bit `x -= 1`. */
  function Dec(x: uint32): (r: uint32)
  {
    if x == 0 then UINT32_MODULUS - 1 else x - 1
  }

  /** One more decrement after `k` of them is `k + 1` decrements. */
  lemma DecByStep(x: uint32, k: nat)
    ensures Dec(DecBy(x, k)) == DecBy(x, k + 1)
  {
    var m := UINT32_MODULUS;
    var q := (x - k) / m;
    assert x - k == q * m + DecBy(x, k);
    assert x - (k + 1) == q * m + DecBy(x, k) - 1;
    if DecBy(x, k) == 0 {
      assert x - (k + 1) == (q - 1) * m + (m - 1);
    }
  }

  /**
   * A counter decremented fewer times than its value stays positive; decremented
   * exactly its value times it reaches zero. Decrementing past zero wraps around.
   */
  lemma DecByWithinRange(x: uint32, k: nat)
    ensures k <= x ==> DecBy(x, k) == x - k
    ensures k <= x ==> (DecBy(x, k) == 0 <==> k == x)
    ensures x < k <= x + UINT32_MODULUS ==> DecBy(x, k) == x - k + UINT32_MODULUS
  {
  }

  class Task {
    var name: string
    var f: FunctionRef
    var dependencies: uint32
    var dependents: seq<Task>

    /** `Task(name, f, deps)`: stores exactly the given values; no dependents yet. */
    constructor (taskName: string, func: FunctionRef, taskDependencies: uint32)
      ensures name == taskName && f == func && dependencies == taskDependencies
      ensures dependents == []
    {
      name := taskName;
      f := func;
      dependencies := taskDependencies;
      dependents := [];
    }

    /** True iff the counter has not reached zero. */
    predicate HasDependenciesLeft()
      reads this
    {
      dependencies > 0
    }

    /**
     * The destructor `~Task`: every task listed in `dependents` loses one
     * dependency per occurrence in the list, in unsigned 32-bit arithmetic.
     * Only counters of listed tasks change (the modifies clause), and no
     * name, function or dependents list changes.
     */
    method Destroy()
      modifies set t | t in dependents
      ensures forall t | t in old(dependents) ::
        t.dependencies == DecBy(old(t.dependencies), multiset(old(dependents))[t])
      ensures forall t | t in old(dependents) ::
        t.name == old(t.name) && t.f == old(t.f) && t.dependents == old(t.dependents)
    {
      var deps := dependents;
      var i := 0;
      while i < |deps|
        invariant 0 <= i <= |deps|
        invariant forall t | t in deps :: t.dependencies == DecBy(old(t.dependencies), multiset(deps[..i])[t])
        invariant forall t | t in deps :: t.name == old(t.name) && t.f == old(t.f) && t.dependents == old(t.dependents)
      {
        var d := deps[i];
        ghost var done := multiset(deps[..i]);
        assert deps[..i + 1] == deps[..i] + [d];
        DecByStep(old(d.dependencies), done[d]);
        d.dependencies := Dec(d.dependencies);
        i := i + 1;
      }
      assert deps[..|deps|] == deps;
    }
  }

  /**
   * A task created with `x` dependencies and then decremented once for each
   * of `k <= x` destroyed dependencies has none left exactly when all `x`
   * have been destroyed: `HasDependenciesLeft` releases it at the last one.
   * The premise is what `Task.Destroy` ensures of each dependent: its counter
   * becomes `DecBy` of the old one by the number of times it is listed.
   */
  lemma ReleasedWhenAllDestroyed(t: Task, x: uint32, k: nat)
    requires k <= x && t.dependencies == DecBy(x, k)
    ensures !t.HasDependenciesLeft() <==> k == x
  {
    DecByWithinRange(x, k);
  }

  /** The dependency counters of `q`, position by position. */
  function Counters(q: seq<Task>): (r: seq<nat>)
    reads set t | t in q
    ensures |r| == |q|
    ensures forall i | 0 <= i < |q| :: r[i] == q[i].dependencies
  {
    if q == [] then [] else [q[0].dependencies as nat] + Counters(q[1..])
  }

  /**
   * The index of the first zero counter, or |deps| when there is none: the
   * task a front-to-back scan for "no dependencies left" stops at.
   */
  function FirstReady(deps: seq<nat>): (k: nat)
    ensures k <= |deps|
    ensures k < |deps| ==> deps[k] == 0
    ensures forall j | 0 <= j < k :: deps[j] > 0
  {
    if deps == [] then 0
    else if deps[0] == 0 then 0
    else 1 + FirstReady(deps[1..])
  }

  /** The first zero counter is the one a scan finds: every earlier counter is positive. */
  lemma {:induction false} FirstReadyAt(deps: seq<nat>, k: nat)
    requires k <= |deps|
    requires forall j | 0 <= j < k :: deps[j] > 0
    requires k < |deps| ==> deps[k] == 0
    ensures FirstReady(deps) == k
  {
    if k > 0 {
      FirstReadyAt(deps[1..], k - 1);
    }
  }

  /**
   * The sequence left after taking the task at FirstReady out: the tasks
   * before and after it, in their original order.
   */
  function RemoveAt<T>(q: seq<T>, k: nat): (r: seq<T>)
    requires k < |q|
    ensures |r| == |q| - 1
    ensures forall j | 0 <= j < k :: r[j] == q[j]
    ensures forall j | k <= j < |r| :: r[j] == q[j + 1]
  {
    q[..k] + q[k + 1..]
  }
}
