/** What a rule list decides, condition by condition, said without the evaluator's own tests. */
module RuleSpec {
  import opened NetUtil
  import opened Reputation
  import opened Burst
  import opened Rules
  import opened BurstExact

  // ---------------------------------------------------------------- reasons

  predicate Continues(reason: string, stem: string, rest: string) { reason == stem + rest }

  function Stem(pattern: string): string { if pattern == "" then "" else pattern[..|pattern| - 1] }

  /** No pattern accepts every reason; a trailing star accepts every continuation of what precedes it; any
      other pattern accepts itself. */
  ghost predicate Accepts(pattern: string, reason: string) {
    pattern == ""
    || (if pattern[|pattern| - 1] == '*' then exists rest :: Continues(reason, Stem(pattern), rest) else reason == pattern)
  }

  lemma AcceptsIff(pattern: string, reason: string)
    ensures Accepts(pattern, reason) <==> pattern == "" || MatchReason(pattern, reason)
  {
    if pattern != "" && pattern[|pattern| - 1] == '*' {
      var stem := Stem(pattern);
      if stem <= reason { assert Continues(reason, stem, reason[|stem|..]); }
    }
  }

  function OnReason(pattern: string, action: Action): Rule { Rule("", pattern, 0.0, 0, false, 0, 0, action) }

  lemma SoleRule(r: Rule, fallback: real, k: BurstKey, rec: ScoreRecord, w: Windows, now: nat)
    requires r.minScore <= 0.0 && r.minCorroboration <= 0 && !r.anchoredOnly && r.minBurst <= 0
    ensures Evaluated([r], fallback, k, rec, w, now).0
         == if r.reason == "" || MatchReason(r.reason, k.reason) then Verdict(r.action, r.name) else UNMATCHED
  {
    hide MatchReason, Trimmed;
    var rules, none: seq<Rule> := [r], [];
    assert rules[1..] == none && rules[0] == r;
    assert Scan(none, k, rec, w, map[], now).0 == UNMATCHED;
    assert StaticMatch(r, k.reason, rec) <==> r.reason == "" || MatchReason(r.reason, k.reason);
  }

  /** A rule on "stem*" alone acts on every reason that starts with the stem and on no other; a rule on a
      reason without a trailing star acts on exactly that reason; a rule on none acts on all. */
  lemma ReasonDecides(stem: string, action: Action, fallback: real, k: BurstKey, rec: ScoreRecord, w: Windows, now: nat)
    ensures var v := Evaluated([OnReason(stem + "*", action)], fallback, k, rec, w, now).0;
            if exists rest :: Continues(k.reason, stem, rest) then v == Verdict(action, "") else v == UNMATCHED
    ensures stem != "" && stem[|stem| - 1] != '*' ==>
              Evaluated([OnReason(stem, action)], fallback, k, rec, w, now).0 == if k.reason == stem then Verdict(action, "") else UNMATCHED
    ensures Evaluated([OnReason("", action)], fallback, k, rec, w, now).0 == Verdict(action, "")
  {
    var starred, plain, any := OnReason(stem + "*", action), OnReason(stem, action), OnReason("", action);
    SoleRule(starred, fallback, k, rec, w, now);
    SoleRule(plain, fallback, k, rec, w, now);
    SoleRule(any, fallback, k, rec, w, now);
    hide Evaluated;
    assert any.reason == "" && any.name == "" && any.action == action;
    AcceptsIff(stem + "*", k.reason);
    assert Stem(stem + "*") == stem;
    AcceptsIff(stem, k.reason);
  }

  // ---------------------------------------------------------------- every condition

  /** The rule's conditions hold of the event, the record and the burst count. */
  ghost predicate Meets(r: Rule, reason: string, rec: ScoreRecord, count: int) {
    && Accepts(r.reason, reason)
    && (r.minScore > 0.0 ==> rec.score >= r.minScore)
    && (r.minCorroboration > 0 ==> |rec.groups| >= r.minCorroboration)
    && (r.anchoredOnly ==> !rec.strangerSeen)
    && (r.minBurst > 0 ==> count >= r.minBurst)
  }

  lemma MeetsIff(r: Rule, reason: string, rec: ScoreRecord, count: int)
    requires rec.corroboration == |rec.groups|
    ensures Meets(r, reason, rec, count) <==> StaticMatch(r, reason, rec) && (r.minBurst > 0 ==> count >= r.minBurst)
  {
    AcceptsIff(r.reason, reason);
    hide MatchReason, Accepts;
  }

  /** The verdict is that of the first rule whose conditions hold under its own count, or none. */
  ghost predicate Decides(rules: seq<Rule>, reason: string, rec: ScoreRecord, counts: seq<nat>, v: Verdict) {
    && |counts| == |rules|
    && (|| (exists i ::
              && 0 <= i < |rules| && Meets(rules[i], reason, rec, counts[i]) && v == Verdict(rules[i].action, rules[i].name)
              && forall j :: 0 <= j < i ==> !Meets(rules[j], reason, rec, counts[j]))
        || (v == Verdict(NoAction, "") && forall j :: 0 <= j < |rules| ==> !Meets(rules[j], reason, rec, counts[j])))
  }

  lemma DecidesFirst(rules: seq<Rule>, reason: string, rec: ScoreRecord, counts: seq<nat>)
    requires rules != [] && |counts| == |rules| && Meets(rules[0], reason, rec, counts[0])
    ensures Decides(rules, reason, rec, counts, Verdict(rules[0].action, rules[0].name))
  {
    hide Meets;
  }

  lemma DecidesLater(rules: seq<Rule>, reason: string, rec: ScoreRecord, count: nat, counts: seq<nat>, v: Verdict)
    requires rules != [] && !Meets(rules[0], reason, rec, count) && Decides(rules[1..], reason, rec, counts, v)
    ensures Decides(rules, reason, rec, [count] + counts, v)
  {
    hide Meets;
    var all := [count] + counts;
    assert forall j :: 0 <= j < |rules[1..]| ==> rules[1..][j] == rules[j + 1] && counts[j] == all[j + 1];
    if i :| 0 <= i < |rules[1..]| && Meets(rules[1..][i], reason, rec, counts[i]) && v == Verdict(rules[1..][i].action, rules[1..][i].name)
            && forall j :: 0 <= j < i ==> !Meets(rules[1..][j], reason, rec, counts[j]) {
      assert Meets(rules[i + 1], reason, rec, all[i + 1]);
      forall j | 0 <= j < i + 1
        ensures !Meets(rules[j], reason, rec, all[j])
      {
        if j > 0 { assert !Meets(rules[1..][j - 1], reason, rec, counts[j - 1]); }
      }
    } else {
      forall j | 0 <= j < |rules|
        ensures !Meets(rules[j], reason, rec, all[j])
      {
        if j > 0 { assert !Meets(rules[1..][j - 1], reason, rec, counts[j - 1]); }
      }
    }
  }

  /** No count exceeds the number of timestamps on record in the rule's window. */
  ghost predicate Within(rules: seq<Rule>, counts: seq<nat>, ts: seq<nat>, now: nat) {
    |counts| == |rules| && forall i :: 0 <= i < |rules| ==> counts[i] <= CountFrom(ts, now - rules[i].burstWindow)
  }

  lemma WithinLater(rules: seq<Rule>, count: nat, counts: seq<nat>, ts: seq<nat>, now: nat)
    requires rules != [] && count <= CountFrom(ts, now - rules[0].burstWindow) && Within(rules[1..], counts, ts, now)
    ensures Within(rules, [count] + counts, ts, now)
  {
    hide CountFrom;
    assert forall j :: 0 <= j < |rules[1..]| ==> rules[1..][j] == rules[j + 1];
  }

  function NoCounts(n: nat): seq<nat> { if n == 0 then [] else [0] + NoCounts(n - 1) }

  lemma {:induction false} NoCountsWithin(rules: seq<Rule>, ts: seq<nat>, now: nat)
    ensures Within(rules, NoCounts(|rules|), ts, now)
  {
    if rules != [] {
      NoCountsWithin(rules[1..], ts, now);
      WithinLater(rules, 0, NoCounts(|rules[1..]|), ts, now);
    }
  }

  /** One burst count: a suffix of the list on record is left, and the count is within its true number. */
  lemma CountWithin(ts: seq<nat>, d: nat, cutoff: int) returns (more: nat)
    requires Sorted(ts) && d <= |ts|
    ensures more <= |ts| && DropBefore(ts[d..], cutoff) == ts[more..]
    ensures |DropBefore(ts[d..], cutoff)| <= CountFrom(ts, cutoff)
  {
    var n := DropIsSuffix(ts[d..], cutoff);
    more := d + n;
    TrimCounts(ts[d..], cutoff);
    CountFromSuffix(ts, d, cutoff);
  }

  /** For every rule list, whatever its windows: the verdict is that of the first rule whose conditions hold,
      each burst condition under a count that never exceeds the number of timestamps on record. */
  lemma {:induction false} ScanDecides(rules: seq<Rule>, k: BurstKey, rec: ScoreRecord, w: Windows, memo: map<int, nat>, now: nat,
                                       ts: seq<nat>, d: nat) returns (counts: seq<nat>)
    requires rec.corroboration == |rec.groups| && Sorted(ts) && d <= |ts| && At(w, k) == ts[d..]
    requires forall x :: x in memo ==> memo[x] <= CountFrom(ts, now - x)
    ensures Within(rules, counts, ts, now) && Decides(rules, k.reason, rec, counts, Scan(rules, k, rec, w, memo, now).0)
  {
    if rules == [] {
      counts := [];
    } else {
      hide StaticMatch, Trimmed, Meets, Sorted, CountFrom, DropBefore, Within, Decides, NoCounts;
      var r := rules[0];
      var cutoff := now - r.burstWindow;
      if !StaticMatch(r, k.reason, rec) {
        MeetsIff(r, k.reason, rec, 0);
        var rest := ScanDecides(rules[1..], k, rec, w, memo, now, ts, d);
        DecidesLater(rules, k.reason, rec, 0, rest, Scan(rules, k, rec, w, memo, now).0);
        WithinLater(rules, 0, rest, ts, now);
        counts := [0] + rest;
      } else {
        var more := CountWithin(ts, d, cutoff);
        TrimmedAt(w, k, cutoff, k);
        var seen := r.burstWindow in memo;
        var w' := if seen then w else Trimmed(w, k, cutoff);
        var count := if seen then memo[r.burstWindow] else |At(w', k)|;
        MeetsIff(r, k.reason, rec, count);
        if r.minBurst > 0 && count < r.minBurst {
          var rest := ScanDecides(rules[1..], k, rec, w', memo[r.burstWindow := count], now, ts, if seen then d else more);
          DecidesLater(rules, k.reason, rec, count, rest, Scan(rules, k, rec, w, memo, now).0);
          WithinLater(rules, count, rest, ts, now);
          counts := [count] + rest;
        } else {
          NoCountsWithin(rules[1..], ts, now);
          WithinLater(rules, count, NoCounts(|rules[1..]|), ts, now);
          counts := [count] + NoCounts(|rules[1..]|);
          assert |counts| == |rules| by { WithinSize(rules, counts, ts, now); }
          DecidesFirst(rules, k.reason, rec, counts);
        }
      }
    }
  }

  lemma WithinSize(rules: seq<Rule>, counts: seq<nat>, ts: seq<nat>, now: nat)
    requires Within(rules, counts, ts, now)
    ensures |counts| == |rules|
  {
  }

  lemma {:induction false} FirstMatchDecides(rules: seq<Rule>, reason: string, rec: ScoreRecord, count: nat)
    requires rec.corroboration == |rec.groups|
    ensures Decides(rules, reason, rec, seq(|rules|, _ => count), FirstMatch(rules, reason, rec, count))
  {
    hide StaticMatch, Meets;
    if rules != [] {
      hide Decides;
      MeetsIff(rules[0], reason, rec, count);
      var rest := seq(|rules[1..]|, _ => count);
      assert seq(|rules|, _ => count) == [count] + rest;
      if Meets(rules[0], reason, rec, count) {
        DecidesFirst(rules, reason, rec, [count] + rest);
      } else {
        FirstMatchDecides(rules[1..], reason, rec, count);
        DecidesLater(rules, reason, rec, count, rest, FirstMatch(rules[1..], reason, rec, count));
      }
    }
  }

  /** What Evaluate answers: without rules it blocks from the threshold on; with rules that share one window
      the first rule whose conditions hold decides, a burst condition counting the timestamps on record in
      that window. */
  lemma EvaluationDecides(rules: seq<Rule>, fallback: real, k: BurstKey, rec: ScoreRecord, w: Windows, now: nat, window: int)
    requires rec.corroboration == |rec.groups| && Sorted(At(w, k)) && ShareWindow(rules, window)
    ensures var v := Evaluated(rules, fallback, k, rec, w, now).0;
            if rules == [] then v == if rec.score >= fallback then Verdict(Block, "") else Verdict(NoAction, "")
            else Decides(rules, k.reason, rec, seq(|rules|, _ => CountFrom(At(w, k), now - window)), v)
  {
    if rules != [] {
      hide Sorted, CountFrom, DropBefore, Scan, FirstMatch, Decides;
      var count := CountFrom(At(w, k), now - window);
      TrimCounts(At(w, k), now - window);
      ScanIsFirstMatch(rules, k, rec, w, map[], now, window, count);
      FirstMatchDecides(rules, k.reason, rec, count);
    }
  }
}
