/** Counts over the shortest burst window in use are true, and evaluation over it is first-match
    evaluation over everything ever recorded. */
module BurstExact {
  import opened NetUtil
  import opened Reputation
  import opened Burst
  import opened Rules

  ghost predicate ShareWindow(rules: seq<Rule>, window: int) {
    forall i :: 0 <= i < |rules| && rules[i].minBurst > 0 ==> rules[i].burstWindow == window
  }

  /** The memo holds nothing but the true count of the shared window. */
  ghost predicate TrueMemo(memo: map<int, nat>, window: int, count: nat) {
    window in memo ==> memo[window] == count
  }

  lemma {:induction false} ScanIsFirstMatch(rules: seq<Rule>, k: BurstKey, rec: ScoreRecord, w: Windows, memo: map<int, nat>,
                                            now: nat, window: int, count: nat)
    requires ShareWindow(rules, window) && TrueMemo(memo, window, count)
    requires window !in memo ==> |DropBefore(At(w, k), now - window)| == count
    ensures Scan(rules, k, rec, w, memo, now).0 == FirstMatch(rules, k.reason, rec, count)
    ensures var after := Scan(rules, k, rec, w, memo, now).1;
            after == w || (window !in memo && after == Trimmed(w, k, now - window))
  {
    if rules != [] {
      hide Trimmed, DropBefore, StaticMatch;
      var r := rules[0];
      if !StaticMatch(r, k.reason, rec) {
        ScanIsFirstMatch(rules[1..], k, rec, w, memo, now, window, count);
      } else if r.minBurst > 0 {
        TrimmedAt(w, k, now - window, k);
        var w' := if window in memo then w else Trimmed(w, k, now - window);
        ScanIsFirstMatch(rules[1..], k, rec, w', memo[window := count], now, window, count);
      }
    }
  }

  // ---------------------------------------------------------------- whole runs

  datatype Step = Saw(k: BurstKey, now: nat) | Asked(rules: seq<Rule>, k: BurstKey, rec: ScoreRecord, now: nat)

  function After(w: Windows, s: Step): Windows {
    match s
    case Saw(k, now) => Recorded(w, k, now)
    case Asked(rules, k, rec, now) => Scan(rules, k, rec, w, map[], now).1
  }

  /** The store's windows after a run of records and evaluations. */
  function Windowed(run: seq<Step>): Windows {
    if run == [] then map[] else After(Windowed(run[..|run| - 1]), run[|run| - 1])
  }

  /** Everything the run recorded. */
  function Everything(run: seq<Step>): Windows {
    if run == [] then map[] else
      var before, s := Everything(run[..|run| - 1]), run[|run| - 1];
      if s.Saw? then Recorded(before, s.k, s.now) else before
  }

  function Clock(run: seq<Step>): nat { if run == [] then 0 else run[|run| - 1].now }

  /** No burst rule looks over less than `window`. */
  ghost predicate WindowsAtLeast(rules: seq<Rule>, window: int) {
    forall i :: 0 <= i < |rules| && rules[i].minBurst > 0 ==> rules[i].burstWindow >= window
  }

  ghost predicate InOrder(run: seq<Step>) { forall i, j :: 0 <= i < j < |run| ==> run[i].now <= run[j].now }

  ghost predicate RunAtLeast(run: seq<Step>, window: int) {
    InOrder(run) && forall i :: 0 <= i < |run| && run[i].Asked? ==> WindowsAtLeast(run[i].rules, window)
  }

  ghost predicate Exact(w: Windows, history: Windows, dropped: map<BurstKey, nat>, now: nat, window: int) {
    AllKept(w, history, dropped, now)
    && forall k :: EvictedBefore(At(history, k), Dropped(dropped, k), now - window)
  }

  lemma ExactLater(w: Windows, history: Windows, dropped: map<BurstKey, nat>, last: nat, now: nat, window: int)
    requires Exact(w, history, dropped, last, window) && last <= now
    ensures Exact(w, history, dropped, now, window)
  {
    forall k
      ensures Keeps(At(w, k), At(history, k), Dropped(dropped, k), now)
      ensures EvictedBefore(At(history, k), Dropped(dropped, k), now - window)
    {
      AllKeptAt(w, history, dropped, last, k);
      KeepsLater(At(w, k), At(history, k), Dropped(dropped, k), last, now);
      assert EvictedBefore(At(history, k), Dropped(dropped, k), last - window);
    }
  }

  lemma ExactSaw(w: Windows, history: Windows, dropped: map<BurstKey, nat>, now: nat, window: int, k: BurstKey)
    requires Exact(w, history, dropped, now, window)
    ensures Exact(Recorded(w, k, now), Recorded(history, k, now), dropped, now, window)
  {
    AllKeptRecord(w, history, dropped, now, k, now);
    var h := Recorded(history, k, now);
    forall j
      ensures EvictedBefore(At(h, j), Dropped(dropped, j), now - window)
    {
      AllKeptAt(w, history, dropped, now, j);
      assert EvictedBefore(At(history, j), Dropped(dropped, j), now - window);
    }
  }

  lemma ExactAt(w: Windows, history: Windows, dropped: map<BurstKey, nat>, now: nat, window: int, k: BurstKey)
    requires Exact(w, history, dropped, now, window)
    ensures Keeps(At(w, k), At(history, k), Dropped(dropped, k), now)
    ensures EvictedBefore(At(history, k), Dropped(dropped, k), now - window)
  {
    AllKeptAt(w, history, dropped, now, k);
  }

  lemma ExactCount(w: Windows, history: Windows, dropped: map<BurstKey, nat>, now: nat, window: int, k: BurstKey)
    requires Exact(w, history, dropped, now, window)
    ensures |DropBefore(At(w, k), now - window)| == CountFrom(At(history, k), now - window)
  {
    hide *;
    ExactAt(w, history, dropped, now, window, k);
    var _ := KeepsTrim(At(w, k), At(history, k), Dropped(dropped, k), now, now - window);
  }

  /** A trim over this window or a wider one evicts nothing that still lies in it. */
  lemma ExactTrim(w: Windows, history: Windows, dropped: map<BurstKey, nat>, now: nat, window: int, k: BurstKey, wider: int)
    returns (d: map<BurstKey, nat>)
    requires Exact(w, history, dropped, now, window) && wider >= window
    ensures Exact(Trimmed(w, k, now - wider), history, d, now, window)
  {
    hide EvictedBefore, AllKept, Keeps, DropBefore, CountFrom, Trimmed;
    ExactAt(w, history, dropped, now, window, k);
    var more := KeepsTrim(At(w, k), At(history, k), Dropped(dropped, k), now, now - wider);
    assert EvictedBefore(At(history, k), more, now - window);
    AllKeptTrim(w, history, dropped, now, k, now, now - wider, more);
    d := dropped[k := more];
    forall j
      ensures EvictedBefore(At(history, j), Dropped(d, j), now - window)
    {
      ExactAt(w, history, dropped, now, window, j);
    }
  }

  /** The windows after one memoised count. */
  function Counted(r: Rule, k: BurstKey, w: Windows, memo: map<int, nat>, now: nat): Windows {
    if r.burstWindow in memo then w else Trimmed(w, k, now - r.burstWindow)
  }

  /** The windows one rule leaves behind, and those of the rest of the evaluation. */
  lemma ScanStep(rules: seq<Rule>, k: BurstKey, rec: ScoreRecord, w: Windows, memo: map<int, nat>, now: nat) returns (m: map<int, nat>)
    requires rules != []
    ensures var w' := Counted(rules[0], k, w, memo, now);
            var after := Scan(rules, k, rec, w, memo, now).1;
            || after == w || after == w' || after == Scan(rules[1..], k, rec, w, memo, now).1
            || after == Scan(rules[1..], k, rec, w', m, now).1
    ensures rules[0].minBurst <= 0 ==>
              var after := Scan(rules, k, rec, w, memo, now).1;
              after == w || after == Scan(rules[1..], k, rec, w, memo, now).1
  {
    hide StaticMatch, Trimmed;
    var r := rules[0];
    var w' := Counted(r, k, w, memo, now);
    m := memo[r.burstWindow := if r.burstWindow in memo then memo[r.burstWindow] else |At(w', k)|];
  }

  lemma CountedIs(r: Rule, k: BurstKey, w: Windows, memo: map<int, nat>, now: nat)
    ensures Counted(r, k, w, memo, now) == if r.burstWindow in memo then w else Trimmed(w, k, now - r.burstWindow)
  {
    hide Trimmed;
  }

  lemma AtLeastRest(rules: seq<Rule>, window: int)
    requires WindowsAtLeast(rules, window) && rules != []
    ensures WindowsAtLeast(rules[1..], window) && (rules[0].minBurst > 0 ==> rules[0].burstWindow >= window)
  {
  }

  lemma ScanNone(k: BurstKey, rec: ScoreRecord, w: Windows, memo: map<int, nat>, now: nat)
    ensures Scan([], k, rec, w, memo, now).1 == w
  {
  }

  /** A whole evaluation over windows at least this wide keeps it exact. */
  lemma {:induction false} ExactScan(rules: seq<Rule>, k: BurstKey, rec: ScoreRecord, w: Windows, memo: map<int, nat>, history: Windows,
                                     dropped: map<BurstKey, nat>, now: nat, window: int) returns (d: map<BurstKey, nat>)
    requires Exact(w, history, dropped, now, window) && WindowsAtLeast(rules, window)
    ensures Exact(Scan(rules, k, rec, w, memo, now).1, history, d, now, window)
  {
    hide *;
    d := dropped;
    if rules == [] {
      ScanNone(k, rec, w, memo, now);
    } else {
      var r, after := rules[0], Scan(rules, k, rec, w, memo, now).1;
      AtLeastRest(rules, window);
      var m := ScanStep(rules, k, rec, w, memo, now);
      if after != w {
        if after == Scan(rules[1..], k, rec, w, memo, now).1 {
          d := ExactScan(rules[1..], k, rec, w, memo, history, dropped, now, window);
        } else {
          var w' := Counted(r, k, w, memo, now);
          CountedIs(r, k, w, memo, now);
          if r.burstWindow !in memo { d := ExactTrim(w, history, dropped, now, window, k, r.burstWindow); }
          if after != w' { d := ExactScan(rules[1..], k, rec, w', m, history, d, now, window); }
        }
      }
    }
  }

  /** In every run whose burst rules all look over at least `window`, nothing still in it is evicted. */
  lemma {:induction false} WiderRunsStayExact(run: seq<Step>, window: int) returns (dropped: map<BurstKey, nat>)
    requires RunAtLeast(run, window)
    ensures Exact(Windowed(run), Everything(run), dropped, Clock(run), window)
  {
    if run == [] {
      dropped := map[];
      assert forall k :: Keeps(At(map[], k), At(map[], k), Dropped(dropped, k), 0);
    } else {
      hide Exact, Scan;
      var before, s := run[..|run| - 1], run[|run| - 1];
      dropped := WiderRunsStayExact(before, window);
      assert Clock(before) <= s.now;
      ExactLater(Windowed(before), Everything(before), dropped, Clock(before), s.now, window);
      match s {
        case Saw(k, now) =>
          ExactSaw(Windowed(before), Everything(before), dropped, now, window, k);
        case Asked(rules, k, rec, now) =>
          dropped := ExactScan(rules, k, rec, Windowed(before), map[], Everything(before), dropped, now, window);
      }
    }
  }

  /** What a count over `window` at `now` answers after a run, and what it should. */
  ghost predicate CountsTruly(run: seq<Step>, k: BurstKey, now: nat, window: int) {
    |DropBefore(At(Windowed(run), k), now - window)| == CountFrom(At(Everything(run), k), now - window)
  }

  lemma LeastWindowCountsTruly(run: seq<Step>, k: BurstKey, now: nat, window: int)
    requires RunAtLeast(run, window) && Clock(run) <= now
    ensures CountsTruly(run, k, now, window)
  {
    hide Exact, Windowed, Everything, CountFrom, DropBefore;
    var dropped := WiderRunsStayExact(run, window);
    ExactLater(Windowed(run), Everything(run), dropped, Clock(run), now, window);
    ExactCount(Windowed(run), Everything(run), dropped, now, window, k);
  }

  ghost predicate Uses(run: seq<Step>, windows: set<int>) {
    forall i, j :: 0 <= i < |run| && run[i].Asked? && 0 <= j < |run[i].rules| && run[i].rules[j].minBurst > 0 ==>
                     run[i].rules[j].burstWindow in windows
  }

  function AnyRule(window: int): Rule { Rule("", "", 0.0, 0, false, 1, window, Watch) }

  /** An event as old as the longer window, and an evaluation over the shorter one. */
  lemma ShorterWindowUndercounts(k: BurstKey, rec: ScoreRecord, short: int, long: int)
    requires short < long && 0 < long
    ensures var run := [Saw(k, 0), Asked([AnyRule(short)], k, rec, long)];
            InOrder(run) && Clock(run) == long && Uses(run, {short}) && !CountsTruly(run, k, long, long)
  {
    var rules, saw := [AnyRule(short)], [Saw(k, 0)];
    var run := saw + [Asked(rules, k, rec, long)];
    assert run == [Saw(k, 0), Asked(rules, k, rec, long)];
    assert run[..1] == saw && saw[..0] == [];
    assert Windowed(saw) == Recorded(map[], k, 0) == Everything(saw);
    assert Everything(run) == Everything(saw);
    MixedWindowsUndercount(k, 0, long, short, long);
    var w := Windowed(saw);
    ScanOne(AnyRule(short), k, rec, w, long);
    assert Windowed(run) == Trimmed(w, k, long - short);
    hide DropBefore, Trimmed, CountFrom;
    TrimmedAt(Trimmed(w, k, long - short), k, long - long, k);
  }

  lemma ScanOne(r: Rule, k: BurstKey, rec: ScoreRecord, w: Windows, now: nat)
    requires r.minBurst > 0 && StaticMatch(r, k.reason, rec)
    ensures Scan([r], k, rec, w, map[], now).1 == Trimmed(w, k, now - r.burstWindow)
  {
    hide Trimmed, StaticMatch;
    var none: seq<Rule> := [];
    assert [r][1..] == none;
  }

  /** Among the windows in use, counts over `window` are true in every run iff none is shorter. */
  lemma CountsAreExactIff(windows: set<int>, window: int)
    requires window > 0
    ensures (forall run, k, now :: InOrder(run) && Uses(run, windows) && Clock(run) <= now ==> CountsTruly(run, k, now, window))
       <==> forall v :: v in windows ==> v >= window
  {
    hide CountsTruly, Clock;
    if forall v :: v in windows ==> v >= window {
      forall run, k, now | InOrder(run) && Uses(run, windows) && Clock(run) <= now
        ensures CountsTruly(run, k, now, window)
      {
        LeastWindowCountsTruly(run, k, now, window);
      }
    } else {
      var v :| v in windows && v < window;
      var k := BurstKey(Garbage(""), "");
      ShorterWindowUndercounts(k, EMPTY_RECORD, v, window);
      var run := [Saw(k, 0), Asked([AnyRule(v)], k, EMPTY_RECORD, window)];
      assert InOrder(run) && Uses(run, windows) && Clock(run) <= window;
    }
  }

  /** In every run each evaluation whose own burst rules share the shortest window so far is first-match
      over the true number of events recorded in it; so is every evaluation if all share one window. */
  lemma SharedWindowIsExact(run: seq<Step>, window: int, i: nat)
    requires RunAtLeast(run, window) && i < |run| && run[i].Asked? && ShareWindow(run[i].rules, window)
    ensures Scan(run[i].rules, run[i].k, run[i].rec, Windowed(run[..i]), map[], run[i].now).0
            == FirstMatch(run[i].rules, run[i].k.reason, run[i].rec,
                          CountFrom(At(Everything(run[..i]), run[i].k), run[i].now - window))
  {
    hide Scan, FirstMatch, Windowed, Everything, CountFrom;
    var before, s := run[..i], run[i];
    assert RunAtLeast(before, window) && Clock(before) <= s.now;
    LeastWindowCountsTruly(before, s.k, s.now, window);
    ScanIsFirstMatch(s.rules, s.k, s.rec, Windowed(before), map[], s.now, window,
                     CountFrom(At(Everything(before), s.k), s.now - window));
  }
}
