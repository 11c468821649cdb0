/** What the governor's shed gate promises about remote events: the node charges each one and then
    asks whether to drop it (internal/node/node.go), so the gate bounds how many get through. */
module RateLimit {
  import opened Governor

  predicate IsGate(c: Call) { c.Asked? && c.gate }

  /** Some charge at tick `lo` or later has not been followed by a gate call yet. */
  ghost predicate ArmedSince(log: seq<Call>, lo: int) {
    if log == [] then false else
      var c := log[|log| - 1];
      if IsGate(c) then false
      else (c.Charged? && c.tick >= lo) || ArmedSince(log[..|log| - 1], lo)
  }

  /** The node asks the gate only after charging the event; other calls may come in between. */
  ghost predicate ChargedBeforeGate(log: seq<Call>) {
    forall i :: 0 <= i < |log| && IsGate(log[i]) ==> ArmedSince(log[..i], 0)
  }

  /** The charge and the gate call of an event read the same tick. */
  ghost predicate ChargedWithGate(log: seq<Call>) {
    forall i :: 0 <= i < |log| && IsGate(log[i]) ==> ArmedSince(log[..i], log[i].tick)
  }

  ghost function Gates(log: seq<Call>, lo: int): nat {
    if log == [] then 0 else
      Gates(log[..|log| - 1], lo) + if IsGate(log[|log| - 1]) && log[|log| - 1].tick >= lo then 1 else 0
  }

  /** The remote events that pass the gate at ticks lo..hi. */
  ghost function Passes(log: seq<Call>, budget: real, lo: int, hi: int): nat {
    if log == [] then 0 else
      var c := log[|log| - 1];
      Passes(log[..|log| - 1], budget, lo, hi)
      + if IsGate(c) && lo <= c.tick <= hi && !Shedding(log, budget) then 1 else 0
  }

  lemma {:induction false} PassesAreGates(log: seq<Call>, budget: real, lo: int, hi: int)
    ensures Passes(log, budget, lo, hi) <= Gates(log, lo)
  {
    hide Shedding;
    if log != [] { PassesAreGates(log[..|log| - 1], budget, lo, hi); }
  }

  lemma {:induction false} ArmedEarlier(log: seq<Call>, lo: int, hi: int)
    requires lo <= hi && ArmedSince(log, hi)
    ensures ArmedSince(log, lo)
  {
    if !(log[|log| - 1].Charged? && log[|log| - 1].tick >= hi) { ArmedEarlier(log[..|log| - 1], lo, hi); }
  }

  /** A charge that armed the gate before `lo` means no gate call happened since `lo`. */
  lemma {:induction false} ArmedOnlyBefore(log: seq<Call>, lo: int)
    requires InOrder(log) && ArmedSince(log, 0) && !ArmedSince(log, lo)
    ensures Gates(log, lo) == 0
  {
    var before, c := log[..|log| - 1], log[|log| - 1];
    if c.Charged? {
      NoGatesYet(log, lo);
    } else {
      ArmedOnlyBefore(before, lo);
    }
  }

  lemma {:induction false} NoGatesYet(log: seq<Call>, lo: int)
    requires forall i :: 0 <= i < |log| ==> log[i].tick < lo
    ensures Gates(log, lo) == 0
  {
    if log != [] { NoGatesYet(log[..|log| - 1], lo); }
  }

  /** Every gate call since `lo` has its own charge since `lo`, but for the first. */
  lemma {:induction false} GatesNeedCharges(log: seq<Call>, lo: int, hi: int)
    requires InOrder(log) && ChargedBeforeGate(log)
    requires forall i :: 0 <= i < |log| ==> log[i].tick <= hi
    ensures Gates(log, lo) + (if ArmedSince(log, lo) then 1 else 0) <= Charges(log, lo, hi) + 1
    ensures ChargedWithGate(log) ==> Gates(log, lo) + (if ArmedSince(log, lo) then 1 else 0) <= Charges(log, lo, hi)
  {
    if log != [] {
      var n := |log| - 1;
      var before, c := log[..n], log[n];
      assert forall i :: 0 <= i < n ==> before[i] == log[i] && before[..i] == log[..i];
      GatesNeedCharges(before, lo, hi);
      if IsGate(c) && c.tick >= lo {
        if !ArmedSince(before, lo) { ArmedOnlyBefore(before, lo); }
        if ArmedSince(before, c.tick) { ArmedEarlier(before, lo, c.tick); }
      }
    }
  }

  lemma {:induction false} WiderWindow(log: seq<Call>, lo: int, lo': int, hi: int)
    requires lo <= lo'
    ensures Charges(log, lo', hi) <= Charges(log, lo, hi)
  {
    if log != [] { WiderWindow(log[..|log| - 1], lo, lo', hi); }
  }

  /** An event that passes the gate met a rate below the budget. */
  lemma PassMeetsLowRate(log: seq<Call>, budget: real)
    requires budget > 0.0 && log != [] && log[|log| - 1].Asked? && !Shedding(log, budget)
    ensures RateAt(log[..|log| - 1], log[|log| - 1].tick) as real < budget
  {
    hide RateAt;
  }

  /** In any ten consecutive ticks fewer than budget + 1 remote events pass, whatever else is
      charged; fewer than budget if no event straddles a tick between its charge and its gate. */
  lemma {:induction false} RemoteRateLimit(log: seq<Call>, budget: real, lo: nat)
    requires budget > 0.0 && InOrder(log) && ChargedBeforeGate(log)
    ensures Passes(log, budget, lo, lo + BUCKETS - 1) as real < budget + 1.0
    ensures ChargedWithGate(log) ==> Passes(log, budget, lo, lo + BUCKETS - 1) as real < budget
  {
    if log != [] {
      var n := |log| - 1;
      var before, c := log[..n], log[n];
      assert forall i :: 0 <= i < n ==> before[i] == log[i] && before[..i] == log[..i];
      if IsGate(c) && lo <= c.tick <= lo + BUCKETS - 1 && !Shedding(log, budget) {
        PassMeetsLowRate(log, budget);
        PassesAreGates(log, budget, lo, lo + BUCKETS - 1);
        GatesNeedCharges(log, lo, c.tick);
        WiderWindow(before, c.tick - BUCKETS + 1, lo, c.tick);
      } else {
        RemoteRateLimit(before, budget, lo);
      }
    }
  }

  // ---------------------------------------------------------------- how late a gate call may be

  /** No gate call comes more than `d` ticks after a charge that armed it. */
  ghost predicate Lag(log: seq<Call>, d: nat) {
    forall i :: 0 <= i < |log| && IsGate(log[i]) ==> ArmedSince(log[..i], log[i].tick - d)
  }

  /** The remote events that pass in the ten ticks from `lo`. */
  ghost function TenTickPasses(log: seq<Call>, budget: real, lo: nat): nat { Passes(log, budget, lo, lo + BUCKETS - 1) }

  /** Fewer than the budget pass in every ten ticks of every log with that lag. */
  ghost predicate StrictLimit(budget: real, d: nat) {
    forall log, lo :: InOrder(log) && ChargedBeforeGate(log) && Lag(log, d) ==> TenTickPasses(log, budget, lo) as real < budget
  }

  lemma {:induction false} ArmedMeansCharged(log: seq<Call>, lo: int, hi: int)
    requires ArmedSince(log, lo) && forall i :: 0 <= i < |log| ==> log[i].tick <= hi
    ensures Charges(log, lo, hi) >= 1
  {
    var before, c := log[..|log| - 1], log[|log| - 1];
    if !(c.Charged? && c.tick >= lo) { ArmedMeansCharged(before, lo, hi); }
  }

  /** Under a budget of at most one event, an event whose charge is still in the window is always shed. */
  lemma {:induction false} TinyBudgetPassesNone(log: seq<Call>, budget: real, lo: int, hi: int)
    requires 0.0 < budget <= 1.0 && InOrder(log) && Lag(log, BUCKETS - 1)
    ensures Passes(log, budget, lo, hi) == 0
  {
    if log != [] {
      hide Charges, InOrder, ArmedSince;
      var n := |log| - 1;
      var before, c := log[..n], log[n];
      LagParts(log, BUCKETS - 1);
      TinyBudgetPassesNone(before, budget, lo, hi);
      if IsGate(c) { ArmedMeansCharged(before, c.tick - (BUCKETS - 1), c.tick); }
    }
  }

  lemma LagParts(log: seq<Call>, d: nat)
    requires log != [] && InOrder(log) && Lag(log, d)
    ensures var n := |log| - 1;
            && InOrder(log[..n]) && Lag(log[..n], d) && (IsGate(log[n]) ==> ArmedSince(log[..n], log[n].tick - d))
            && forall i :: 0 <= i < |log[..n]| ==> log[..n][i].tick <= log[n].tick
  {
    hide ArmedSince;
    var n := |log| - 1;
    assert forall i :: 0 <= i < n ==> log[..n][i] == log[i] && log[..n][..i] == log[..i];
  }

  /** One event charged at tick 0 and gated at tick `first`, then `n` more charged and gated at tick 10. */
  function Straddled(n: nat, first: nat): seq<Call> {
    if n == 0 then [Charged(0), Asked(first, true)] else Straddled(n - 1, first) + [Charged(10)] + [Asked(10, true)]
  }

  /** One more event, charged and gated at one tick, keeps the order of the log and its lag. */
  lemma OneMoreEvent(log: seq<Call>, tick: nat, d: nat)
    requires InOrder(log) && ChargedBeforeGate(log) && Lag(log, d) && forall i :: 0 <= i < |log| ==> log[i].tick <= tick
    ensures var longer := log + [Charged(tick)] + [Asked(tick, true)];
            && InOrder(longer) && ChargedBeforeGate(longer) && Lag(longer, d)
            && forall i :: 0 <= i < |longer| ==> longer[i].tick <= tick
  {
    var charged := log + [Charged(tick)];
    var longer := charged + [Asked(tick, true)];
    assert charged[..|log|] == log && longer[..|charged|] == charged;
    assert forall i :: 0 <= i < |log| ==> longer[i] == log[i] && longer[..i] == log[..i];
    assert ArmedSince(charged, 0) && ArmedSince(charged, tick - d);
    hide ArmedSince;
  }

  lemma Appended(log: seq<Call>, c: Call, budget: real, lo: int, hi: int)
    ensures var longer := log + [c];
            && Charges(longer, lo, hi) == Charges(log, lo, hi) + (if c.Charged? && lo <= c.tick <= hi then 1 else 0)
            && Passes(longer, budget, lo, hi)
               == Passes(log, budget, lo, hi) + (if IsGate(c) && lo <= c.tick <= hi && !Shedding(longer, budget) then 1 else 0)
            && (!c.Asked? ==> Shedding(longer, budget) == Shedding(log, budget))
            && (c.Asked? && !Shedding(log, budget) ==> Shedding(longer, budget) == (RateAt(log, c.tick) as real >= budget))
  {
    assert (log + [c])[..|log + [c]| - 1] == log;
  }

  ghost predicate Sound(log: seq<Call>, d: nat) {
    InOrder(log) && ChargedBeforeGate(log) && Lag(log, d) && forall i :: 0 <= i < |log| ==> log[i].tick <= 10
  }

  /** The first event passes unless its own charge reaches the budget. */
  lemma FirstPasses(first: nat, budget: real)
    requires 1 <= first <= 10 && 0.0 < budget && (first < 10 ==> budget > 1.0)
    ensures Sound(Straddled(0, first), first)
    ensures Charges(Straddled(0, first), 1, 10) == 0 && !Shedding(Straddled(0, first), budget)
    ensures Passes(Straddled(0, first), budget, first, first + BUCKETS - 1) == 1
  {
    var none: seq<Call>, one := [], [Charged(0)];
    assert none + [Charged(0)] == one && one + [Asked(first, true)] == Straddled(0, first);
    Appended(none, Charged(0), budget, 1, 10);
    Appended(none, Charged(0), budget, first, first + BUCKETS - 1);
    Appended(none, Charged(0), budget, first - BUCKETS + 1, first);
    Appended(one, Asked(first, true), budget, 1, 10);
    Appended(one, Asked(first, true), budget, first, first + BUCKETS - 1);
    assert Straddled(0, first)[..1] == one && one[..0] == none;
    assert ArmedSince(one, 0);
  }

  lemma StraddledStep(n: nat, first: nat)
    requires n > 0
    ensures Straddled(n, first) == Straddled(n - 1, first) + [Charged(10)] + [Asked(10, true)]
  {
  }

  lemma SoundStep(log: seq<Call>, d: nat)
    requires Sound(log, d)
    ensures Sound(log + [Charged(10)] + [Asked(10, true)], d)
  {
    OneMoreEvent(log, 10, d);
    hide InOrder, ChargedBeforeGate, Lag;
  }

  /** One more event in a window that ends at tick 10 or later, while the budget lasts. */
  lemma OneMorePass(log: seq<Call>, n: nat, lo: int, hi: int, budget: real)
    requires Charges(log, 1, 10) == n && !Shedding(log, budget) && n as real + 1.0 < budget && lo <= 10 <= hi
    ensures var longer := log + [Charged(10)] + [Asked(10, true)];
            && Charges(longer, 1, 10) == n + 1 && !Shedding(longer, budget)
            && Passes(longer, budget, lo, hi) == Passes(log, budget, lo, hi) + 1
  {
    Appended(log, Charged(10), budget, 1, 10);
    Appended(log, Charged(10), budget, lo, hi);
    Appended(log + [Charged(10)], Asked(10, true), budget, 1, 10);
    Appended(log + [Charged(10)], Asked(10, true), budget, lo, hi);
    hide Charges, Passes, Shedding;
  }

  /** Below the budget every one of them passes, the first one on top of the rest. */
  lemma {:induction false} StraddledPass(n: nat, first: nat, budget: real)
    requires 1 <= first <= 10 && n as real < budget && (first < 10 ==> budget > 1.0)
    ensures Sound(Straddled(n, first), first)
    ensures Charges(Straddled(n, first), 1, 10) == n && !Shedding(Straddled(n, first), budget)
    ensures Passes(Straddled(n, first), budget, first, first + 9) == n + 1
  {
    if n == 0 {
      FirstPasses(first, budget);
    } else {
      hide *;
      StraddledPass(n - 1, first, budget);
      StraddledStep(n, first);
      SoundStep(Straddled(n - 1, first), first);
      OneMorePass(Straddled(n - 1, first), n - 1, first, first + 9, budget);
    }
  }

  lemma {:induction false} ArmedWider(log: seq<Call>, d: nat, e: nat)
    requires Lag(log, d) && d <= e
    ensures Lag(log, e)
  {
    forall i | 0 <= i < |log| && IsGate(log[i])
      ensures ArmedSince(log[..i], log[i].tick - e)
    {
      ArmedEarlier(log[..i], log[i].tick - e, log[i].tick - d);
    }
  }

  /** An event gated `first` ticks after its charge lets as many pass in ten ticks as the budget, or more. */
  lemma StraddlingEventSlipsThrough(budget: real, first: nat) returns (log: seq<Call>)
    requires budget > 0.0 && 1 <= first <= 10 && (first < 10 ==> budget > 1.0)
    ensures InOrder(log) && ChargedBeforeGate(log) && Lag(log, first)
    ensures Passes(log, budget, first, first + BUCKETS - 1) as real >= budget
  {
    var n := if budget.Floor as real < budget then budget.Floor else budget.Floor - 1;
    log := Straddled(n, first);
    StraddledPass(n, first, budget);
    hide Passes, InOrder, ChargedBeforeGate, Lag;
  }

  /** Fewer than the budget pass in every ten ticks iff charge and gate always read one tick, or the
      budget is at most one event and the gate never comes ten ticks after the charge. */
  lemma StrictLimitIff(budget: real, d: nat)
    requires budget > 0.0
    ensures StrictLimit(budget, d) <==> d == 0 || (budget <= 1.0 && d < BUCKETS)
  {
    hide InOrder, ChargedBeforeGate, Lag, Passes;
    if d == 0 || (budget <= 1.0 && d < BUCKETS) {
      forall log, lo: nat | InOrder(log) && ChargedBeforeGate(log) && Lag(log, d)
        ensures TenTickPasses(log, budget, lo) as real < budget
      {
        if d == 0 {
          NoLag(log);
          RemoteRateLimit(log, budget, lo);
        } else {
          ArmedWider(log, d, BUCKETS - 1);
          TinyBudgetPassesNone(log, budget, lo, lo + BUCKETS - 1);
        }
      }
    } else {
      var first: nat := if budget > 1.0 then 1 else 10;
      var log := StraddlingEventSlipsThrough(budget, first);
      ArmedWider(log, first, d);
      assert TenTickPasses(log, budget, first) as real >= budget;
    }
  }

  lemma NoLag(log: seq<Call>)
    requires Lag(log, 0)
    ensures ChargedWithGate(log)
  {
    hide ArmedSince;
  }
}
