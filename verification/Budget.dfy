/**
 The admission ceiling (src/budget.rs): a shared counter that any number of
 threads raise in a weak compare-and-exchange loop and lower when their lease is
 dropped.

 Each atomic operation on the counter is one step, and a run is any sequence of
 steps of any threads. A thread holding several leases is several holders here.
 */
module Budget {
  import opened Basics

  datatype Holder =
    | Idle
    /** In the loop: about to compare and exchange, having last seen `observed`. */
    | Trying(amount: nat, observed: nat)
    /** The exchange succeeded; the lease is being made. */
    | Won(amount: nat)
    /** The lease lives: from `submit` until `execute` is done with the call. */
    | Holding(amount: nat)
    /** The lease is being dropped; the counter is not yet lowered. */
    | Dropping(amount: nat)
    /** The amount did not fit when the counter was `observed`. */
    | Refused(amount: nat, observed: nat)
  {
    /** What the counter holds on behalf of this holder. */
    function Lent(): nat {
      if Won? || Holding? || Dropping? then amount else 0
    }
  }

  datatype State = State(used: nat, capacity: nat, holders: seq<Holder>)

  datatype Step =
    /** `used.load`. */
    | Load(i: nat, amount: nat)
    /** One turn of the loop; a weak exchange may fail although the counter is as observed. */
    | Turn(i: nat, spurious: bool)
    | MakeLease(i: nat)
    | BeginDrop(i: nat)
    /** `fetch_sub`. */
    | Release(i: nat)

  function LentBy(holders: seq<Holder>): nat {
    if holders == [] then 0 else holders[0].Lent() + LentBy(holders[1..])
  }

  lemma {:induction false} LentUpdate(holders: seq<Holder>, i: nat, h: Holder)
    requires i < |holders|
    ensures LentBy(holders[i := h]) == LentBy(holders) - holders[i].Lent() + h.Lent()
  {
    if i > 0 {
      LentUpdate(holders[1..], i - 1, h);
      assert holders[i := h][1..] == holders[1..][i - 1 := h];
    } else {
      assert holders[i := h][1..] == holders[1..];
    }
  }

  lemma {:induction false} LentIncludes(holders: seq<Holder>, i: nat)
    requires i < |holders|
    ensures holders[i].Lent() <= LentBy(holders)
  {
    if i > 0 {
      LentIncludes(holders[1..], i - 1);
    }
  }

  function Act(s: State, i: nat, used: nat, h: Holder): State
    requires i < |s.holders|
  {
    s.(used := used, holders := s.holders[i := h])
  }

  function Subject(step: Step): nat {
    step.i
  }

  function Apply(s: State, step: Step): State {
    if Subject(step) >= |s.holders| then s
    else
      var i := Subject(step);
      var h := s.holders[i];
      match step
      case Load(_, amount) =>
        if h.Idle? || h.Refused? then Act(s, i, s.used, Trying(amount, s.used)) else s
      case Turn(_, spurious) =>
        if !h.Trying? then s
        else if h.amount > SaturatingSub(s.capacity, h.observed) then Act(s, i, s.used, Refused(h.amount, h.observed))
        else if spurious || s.used != h.observed then Act(s, i, s.used, Trying(h.amount, s.used))
        else Act(s, i, h.observed + h.amount, Won(h.amount))
      case MakeLease(_) => if h.Won? then Act(s, i, s.used, Holding(h.amount)) else s
      case BeginDrop(_) => if h.Holding? then Act(s, i, s.used, Dropping(h.amount)) else s
      case Release(_) =>
        if h.Dropping? then Act(s, i, SaturatingSub(s.used, h.amount), Idle) else s
  }

  function Init(capacity: nat, threads: nat): State {
    State(0, capacity, seq(threads, _ => Idle))
  }

  function Run(capacity: nat, threads: nat, steps: seq<Step>): State {
    if steps == [] then Init(capacity, threads) else Apply(Run(capacity, threads, Front(steps)), Last(steps))
  }

  /** The counter is what is lent, within the ceiling, and every refusal was seen not to fit. */
  predicate Inv(s: State) {
    && s.used == LentBy(s.holders) <= s.capacity
    && (forall i :: 0 <= i < |s.holders| && s.holders[i].Trying? ==> s.holders[i].observed <= s.capacity)
    && (forall i :: 0 <= i < |s.holders| && s.holders[i].Refused? ==>
          s.holders[i].observed <= s.capacity < s.holders[i].observed + s.holders[i].amount)
  }

  lemma StepKeepsInv(s: State, step: Step)
    requires Inv(s)
    ensures Inv(Apply(s, step))
  {
    var t, i := Apply(s, step), Subject(step);
    if i < |s.holders| && t != s {
      LentUpdate(s.holders, i, t.holders[i]);
      LentIncludes(s.holders, i);
    }
  }

  lemma {:induction false} NothingLent(threads: nat)
    ensures LentBy(seq(threads, _ => Idle)) == 0
  {
    if threads > 0 {
      NothingLent(threads - 1);
      assert seq(threads, _ => Idle)[1..] == seq(threads - 1, _ => Idle);
    }
  }

  /**
   Admission bound: whatever the threads do, the counter equals what the live
   leases and the takes and drops in progress hold, and never exceeds the
   ceiling.
   */
  lemma {:induction false} UsedIsWhatIsLent(capacity: nat, threads: nat, steps: seq<Step>)
    ensures var s := Run(capacity, threads, steps);
            Inv(s) && s.capacity == capacity && |s.holders| == threads
  {
    if steps == [] {
      NothingLent(threads);
    } else {
      UsedIsWhatIsLent(capacity, threads, Front(steps));
      StepKeepsInv(Run(capacity, threads, Front(steps)), Last(steps));
    }
  }

  /** Neither side of the counter wraps: an exchange stays within the ceiling, a release never goes below zero. */
  lemma CounterNeverWraps(capacity: nat, threads: nat, steps: seq<Step>, i: nat)
    requires i < threads
    ensures var s := Run(capacity, threads, steps);
            && |s.holders| == threads
            && (s.holders[i].Trying? && s.holders[i].amount <= SaturatingSub(capacity, s.holders[i].observed) ==>
                  s.holders[i].observed + s.holders[i].amount <= capacity)
            && (s.holders[i].Dropping? ==> s.used >= s.holders[i].amount)
  {
    UsedIsWhatIsLent(capacity, threads, steps);
    LentIncludes(Run(capacity, threads, steps).holders, i);
  }

  function LiveLeases(holders: seq<Holder>): nat {
    if holders == [] then 0 else (if holders[0].Holding? then 1 else 0) + LiveLeases(holders[1..])
  }

  lemma {:induction false} LeasesBoundedByLent(holders: seq<Holder>)
    requires forall i :: 0 <= i < |holders| && holders[i].Holding? ==> holders[i].amount >= 1
    ensures LiveLeases(holders) <= LentBy(holders)
  {
    if holders != [] {
      LeasesBoundedByLent(holders[1..]);
    }
  }

  predicate OnePermitEach(step: Step) {
    step.Load? ==> step.amount == 1
  }

  lemma {:induction false} PermitsAreOne(capacity: nat, threads: nat, steps: seq<Step>)
    requires forall k :: 0 <= k < |steps| ==> OnePermitEach(steps[k])
    ensures forall i :: 0 <= i < |Run(capacity, threads, steps).holders| ==>
              var h := Run(capacity, threads, steps).holders[i]; h.Idle? || h.amount == 1
  {
    if steps != [] {
      PermitsAreOne(capacity, threads, Front(steps));
      assert OnePermitEach(Last(steps));
    }
  }

  /** Calls accepted by `submit`, one permit each, and not yet finished by `execute` never exceed the limit. */
  lemma AdmittedCallsWithinLimit(limit: nat, threads: nat, steps: seq<Step>)
    requires forall k :: 0 <= k < |steps| ==> OnePermitEach(steps[k])
    ensures LiveLeases(Run(limit, threads, steps).holders) <= limit
  {
    UsedIsWhatIsLent(limit, threads, steps);
    PermitsAreOne(limit, threads, steps);
    LeasesBoundedByLent(Run(limit, threads, steps).holders);
  }

  lemma {:induction false} NobodyLent(holders: seq<Holder>)
    requires forall i :: 0 <= i < |holders| ==> holders[i].Lent() == 0
    ensures LentBy(holders) == 0
  {
    if holders != [] {
      NobodyLent(holders[1..]);
    }
  }

  /** All capacity returns once nobody holds any of it, so the next take that fits succeeds, refused before or not. */
  lemma CapacityReturns(capacity: nat, threads: nat, steps: seq<Step>, i: nat, amount: nat)
    requires i < threads && amount <= capacity
    requires forall j :: 0 <= j < |Run(capacity, threads, steps).holders| ==>
               Run(capacity, threads, steps).holders[j].Lent() == 0
    ensures var s := Run(capacity, threads, steps);
            var t := Run(capacity, threads, steps + [Load(i, amount), Turn(i, false)]);
            && s.used == 0
            && |s.holders| == |t.holders| == threads
            && (s.holders[i].Idle? || s.holders[i].Refused? ==> t.holders[i] == Won(amount))
  {
    var s := Run(capacity, threads, steps);
    UsedIsWhatIsLent(capacity, threads, steps);
    NobodyLent(s.holders);
    var one := steps + [Load(i, amount)];
    var two := one + [Turn(i, false)];
    assert Front(one) == steps;
    assert Front(two) == one;
    assert two == steps + [Load(i, amount), Turn(i, false)];
  }

  /** Every lease goes round: what was won is held, and what is dropped goes back to the counter. */
  lemma LeaseGoesRound(capacity: nat, threads: nat, steps: seq<Step>, i: nat)
    requires var s := Run(capacity, threads, steps); i < |s.holders| && s.holders[i].Won?
    ensures var s := Run(capacity, threads, steps);
            var t := Run(capacity, threads, steps + [MakeLease(i)]);
            var u := Run(capacity, threads, steps + [MakeLease(i)] + [BeginDrop(i)] + [Release(i)]);
            var amount := s.holders[i].amount;
            && t == s.(holders := s.holders[i := Holding(amount)])
            && u.used + amount == s.used && u.holders == s.holders[i := Idle]
  {
    UsedIsWhatIsLent(capacity, threads, steps);
    var s := Run(capacity, threads, steps);
    LentIncludes(s.holders, i);
    var one := steps + [MakeLease(i)];
    var two := one + [BeginDrop(i)];
    assert Front(one) == steps && Front(two) == one && Front(two + [Release(i)]) == two;
  }

  // ---------------------------------------------------------------- the loop

  /** What other threads leave in the counter before an exchange, and whether it fails for no reason. */
  datatype Rival = Rival(used: nat, spurious: bool)

  /** The counter as one thread sees it. */
  class Ceiling {
    var used: nat
    const capacity: nat

    constructor (capacity: nat)
      ensures used == 0 && this.capacity == capacity
    {
      used := 0;
      this.capacity := capacity;
    }

    /**
     `take`: before each exchange the next of `rivals` has its way with the
     counter; once they are done the thread is alone. A success adds the amount
     to what the counter held at that moment; a failure changes nothing and was
     observed not to fit.
     */
    method Take(amount: nat, rivals: seq<Rival>) returns (ok: bool, ghost seen: nat)
      requires used <= capacity
      requires forall k :: 0 <= k < |rivals| ==> rivals[k].used <= capacity
      modifies this`used
      ensures seen == old(used) || exists k :: 0 <= k < |rivals| && rivals[k].used == seen
      ensures ok ==> used == seen + amount <= capacity
      ensures !ok ==> seen + amount > capacity && used <= capacity
      ensures rivals == [] ==> ok == (old(used) + amount <= capacity) && (!ok ==> used == old(used))
    {
      var observed := used;
      seen := used;
      var turn := 0;
      while true
        invariant 0 <= turn <= |rivals| && observed == seen <= capacity && used <= capacity
        invariant seen == old(used) || exists k :: 0 <= k < |rivals| && rivals[k].used == seen
        invariant turn == 0 ==> used == observed == old(used)
        invariant used == observed || turn < |rivals|
        decreases |rivals| - turn
      {
        if amount > SaturatingSub(capacity, observed) {
          return false, seen;
        }
        var spurious := false;
        if turn < |rivals| {
          used, spurious := rivals[turn].used, rivals[turn].spurious;
          turn := turn + 1;
        }
        if !spurious && used == observed {
          used := observed + amount;
          return true, seen;
        }
        observed := used;
        seen := used;
      }
    }
  }
}
