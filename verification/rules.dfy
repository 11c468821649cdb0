/** The rule engine of internal/rules: validation, the stranger-safety lint and first-match
    evaluation with memoised burst counts. */
module Rules {
  import opened NetUtil
  import opened Reputation
  import opened Burst

  datatype Action = Block | Watch | Ignore | NoAction | Unknown(name: string)

  datatype Rule = Rule(
    name: string,
    reason: string,
    minScore: real,
    minCorroboration: int,
    anchoredOnly: bool,
    minBurst: int,
    burstWindow: int,
    action: Action)

  predicate MatchReason(pattern: string, reason: string) {
    if |pattern| > 0 && pattern[|pattern| - 1] == '*' then pattern[..|pattern| - 1] <= reason
    else pattern == reason
  }

  // ---------------------------------------------------------------- loading

  predicate ValidRule(r: Rule) {
    !(r.minBurst > 0 && r.burstWindow == 0) && (r.action.Block? || r.action.Watch? || r.action.Ignore?)
  }

  function KeepValid(rules: seq<Rule>): seq<Rule> {
    if rules == [] then [] else
      KeepValid(rules[..|rules| - 1]) + if ValidRule(rules[|rules| - 1]) then [rules[|rules| - 1]] else []
  }

  /** Validation works rule by rule and keeps the order: a rule with a known action stays unless it asks
      for a burst without a window. */
  lemma KeepValidIs(rules: seq<Rule>, r: Rule)
    ensures KeepValid([]) == []
    ensures KeepValid(rules + [r])
         == KeepValid(rules)
            + if (r.action == Block || r.action == Watch || r.action == Ignore) && (r.minBurst <= 0 || r.burstWindow != 0) then [r] else []
  {
    assert (rules + [r])[..|rules + [r]| - 1] == rules;
  }

  method ValidateRules(rules: seq<Rule>) returns (valid: seq<Rule>)
    ensures valid == KeepValid(rules)
    ensures forall r :: r in valid <==> r in rules && ValidRule(r)
  {
    valid := [];
    for i := 0 to |rules|
      invariant valid == KeepValid(rules[..i])
      invariant forall r :: r in valid <==> r in rules[..i] && ValidRule(r)
    {
      var r := rules[i];
      assert rules[..i + 1][..i] == rules[..i];
      if r.minBurst > 0 && r.burstWindow == 0 {
        continue;
      }
      match r.action {
        case Block | Watch | Ignore =>
        case NoAction | Unknown(_) => continue;
      }
      valid := valid + [r];
    }
    assert rules[..|rules|] == rules;
  }

  /** A block rule that needs anchored evidence or a score strangers cannot reach. */
  predicate StrangerSafe(r: Rule, strangerCap: real) {
    r.minCorroboration >= 1 || r.anchoredOnly || r.minBurst >= 1 || r.minScore > strangerCap
  }

  ghost predicate LintSilent(rules: seq<Rule>, strangerCap: real) {
    forall i :: 0 <= i < |rules| && rules[i].action.Block? ==> StrangerSafe(rules[i], strangerCap)
  }

  /** One warning, naming the rule, per block rule that could fire on stranger input. */
  method LintBlockRules(rules: seq<Rule>, strangerCap: real) returns (warnings: seq<string>)
    ensures warnings == [] <==> LintSilent(rules, strangerCap)
    ensures forall w :: w in warnings <==>
              exists i :: 0 <= i < |rules| && rules[i].name == w && rules[i].action.Block? && !StrangerSafe(rules[i], strangerCap)
  {
    warnings := [];
    for i := 0 to |rules|
      invariant warnings == [] <==> LintSilent(rules[..i], strangerCap)
      invariant forall w :: w in warnings <==>
                  exists j :: 0 <= j < i && rules[j].name == w && rules[j].action.Block? && !StrangerSafe(rules[j], strangerCap)
    {
      var r := rules[i];
      if !r.action.Block? {
        continue;
      }
      var safe := r.minCorroboration >= 1 || r.anchoredOnly || r.minBurst >= 1 || r.minScore > strangerCap;
      if !safe {
        warnings := warnings + [r.name];
      }
    }
  }

  // ---------------------------------------------------------------- evaluation

  /** Every condition but the burst count. */
  predicate StaticMatch(r: Rule, reason: string, rec: ScoreRecord) {
    && (r.reason == "" || MatchReason(r.reason, reason))
    && (r.minScore > 0.0 ==> rec.score >= r.minScore)
    && (r.minCorroboration > 0 ==> rec.corroboration >= r.minCorroboration)
    && (r.anchoredOnly ==> !rec.strangerSeen)
  }

  datatype Verdict = Verdict(action: Action, name: string)

  const UNMATCHED := Verdict(NoAction, "")

  /** First match over a rule list in which every burst condition sees the same count. */
  function FirstMatch(rules: seq<Rule>, reason: string, rec: ScoreRecord, count: nat): Verdict {
    if rules == [] then UNMATCHED
    else if StaticMatch(rules[0], reason, rec) && (rules[0].minBurst > 0 ==> count >= rules[0].minBurst)
    then Verdict(rules[0].action, rules[0].name)
    else FirstMatch(rules[1..], reason, rec, count)
  }

  /** What one evaluation does: the verdict, and the burst windows its counts leave behind. */
  function Scan(rules: seq<Rule>, k: BurstKey, rec: ScoreRecord, w: Windows, memo: map<int, nat>, now: nat): (Verdict, Windows) {
    if rules == [] then (UNMATCHED, w)
    else
      var r := rules[0];
      if !StaticMatch(r, k.reason, rec) then Scan(rules[1..], k, rec, w, memo, now)
      else if r.minBurst <= 0 then (Verdict(r.action, r.name), w)
      else
        var w' := if r.burstWindow in memo then w else Trimmed(w, k, now - r.burstWindow);
        var count := if r.burstWindow in memo then memo[r.burstWindow] else |At(w', k)|;
        if count < r.minBurst then Scan(rules[1..], k, rec, w', memo[r.burstWindow := count], now)
        else (Verdict(r.action, r.name), w')
  }

  function Evaluated(rules: seq<Rule>, fallback: real, k: BurstKey, rec: ScoreRecord, w: Windows, now: nat): (Verdict, Windows) {
    if rules == [] then (if rec.score >= fallback then Verdict(Block, "") else UNMATCHED, w)
    else Scan(rules, k, rec, w, map[], now)
  }

  /** The warning at load time when, without rules, a bare score blocks below the stranger cap. */
  predicate LegacyWarns(rules: seq<Rule>, fallback: real, strangerCap: real) { rules == [] && fallback < strangerCap }

  class RuleSet {
    var rules: seq<Rule>
    const fallback: real
    const strangerCap: real

    constructor (fallback: real, strangerCap: real)
      ensures rules == [] && this.fallback == fallback && this.strangerCap == strangerCap
    {
      rules, this.fallback, this.strangerCap := [], fallback, strangerCap;
    }

    /** Reads the rule file once, if it can be read, and warns of a reachable legacy threshold. */
    method Load(file: Option<seq<Rule>>) returns (warnings: seq<string>, legacy: bool)
      modifies this
      ensures rules == if file.Some? then KeepValid(file.value) else old(rules)
      ensures file.Some? ==> (warnings == [] <==> LintSilent(rules, strangerCap))
      ensures legacy == LegacyWarns(rules, fallback, strangerCap)
    {
      warnings := [];
      if file.Some? {
        warnings := Reload(file.value);
      }
      legacy := |rules| == 0 && fallback < strangerCap;
    }

    /** A successful reload installs the valid rules of the file, in order. */
    method Reload(loaded: seq<Rule>) returns (warnings: seq<string>)
      modifies this
      ensures rules == KeepValid(loaded)
      ensures warnings == [] <==> LintSilent(rules, strangerCap)
    {
      var valid := ValidateRules(loaded);
      warnings := LintBlockRules(valid, strangerCap);
      rules := valid;
    }

    method Evaluate(k: BurstKey, rec: ScoreRecord, b: BurstStore, now: nat) returns (v: Verdict)
      requires b.Valid() && b.lastNow <= now
      modifies b
      ensures b.Valid() && b.history == old(b.history) && b.lastNow <= now
      ensures (v, b.entries) == Evaluated(rules, fallback, k, rec, old(b.entries), now)
    {
      if |rules| == 0 {
        return if rec.score >= fallback then Verdict(Block, "") else UNMATCHED;
      }
      hide AllKept, Trimmed, MatchReason, CountFrom, EvictedBefore;
      ghost var whole := Scan(rules, k, rec, b.entries, map[], now);
      var memo: map<int, nat> := map[];
      var i := 0;
      while i < |rules|
        invariant 0 <= i <= |rules|
        invariant b.Valid() && b.history == old(b.history) && b.lastNow <= now
        invariant whole == Scan(rules[i..], k, rec, b.entries, memo, now)
      {
        var r := rules[i];
        assert rules[i..][1..] == rules[i + 1..];
        i := i + 1;
        if r.reason != "" && !MatchReason(r.reason, k.reason) { continue; }
        if r.minScore > 0.0 && rec.score < r.minScore { continue; }
        if r.minCorroboration > 0 && rec.corroboration < r.minCorroboration { continue; }
        if r.anchoredOnly && rec.strangerSeen { continue; }
        if r.minBurst > 0 {
          var count := 0;
          if r.burstWindow in memo {
            count := memo[r.burstWindow];
          } else {
            count := b.Count(k, r.burstWindow, now);
          }
          memo := memo[r.burstWindow := count];
          if count < r.minBurst { continue; }
        }
        return Verdict(r.action, r.name);
      }
      return UNMATCHED;
    }
  }
}
