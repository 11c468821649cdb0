/** The stored records of internal/reputation/engine.go: each is the replay of the changes made to it. */
module ScoreStore {
  import opened NetUtil
  import opened Reputation

  function Get(store: map<Text, ScoreRecord>, k: Text): ScoreRecord {
    if k in store then store[k] else EMPTY_RECORD
  }

  ghost function HistoryOf(history: map<Text, seq<Change>>, k: Text): seq<Change> {
    if k in history then history[k] else []
  }

  /** The record of `k` is in range and is what its changes make of an empty record. */
  ghost predicate Faithful(store: map<Text, ScoreRecord>, history: map<Text, seq<Change>>, k: Text, p: Params) {
    && Get(store, k) == Replay(HistoryOf(history, k), p)
    && ValidHistory(HistoryOf(history, k)) && InRange(Get(store, k), p)
  }

  ghost predicate AllFaithful(store: map<Text, ScoreRecord>, history: map<Text, seq<Change>>, p: Params) {
    forall k :: Faithful(store, history, k, p)
  }

  lemma FaithfulStep(store: map<Text, ScoreRecord>, history: map<Text, seq<Change>>, k: Text, c: Change, p: Params)
    requires ValidParams(p) && ValidChange(c) && AllFaithful(store, history, p)
    ensures AllFaithful(store[k := Apply(Get(store, k), c, p)], history[k := HistoryOf(history, k) + [c]], p)
    ensures InRange(Apply(Get(store, k), c, p), p)
    ensures Apply(Get(store, k), c, p) == Replay(HistoryOf(history, k) + [c], p)
  {
    hide Apply, InRange, ValidChange, ValidParams;
    var h := HistoryOf(history, k);
    assert Faithful(store, history, k, p);
    ReplaySnoc(h, c, p);
    ApplyKeepsRange(Get(store, k), c, p);
    var s', h' := store[k := Apply(Get(store, k), c, p)], history[k := h + [c]];
    hide Replay;
    forall j
      ensures Faithful(s', h', j, p)
    {
      assert Faithful(store, history, j, p);
    }
  }

  /** Records and what changed them; `dbOk` is false when the database fails a read or a write. */
  class Engine {
    const params: Params
    var store: map<Text, ScoreRecord>
    ghost var history: map<Text, seq<Change>>

    ghost predicate Valid()
      reads this
    {
      ValidParams(params) && AllFaithful(store, history, params)
    }

    constructor (params: Params)
      requires ValidParams(params)
      ensures Valid() && store == map[] && history == map[] && this.params == params
    {
      this.params, store, history := params, map[], map[];
    }

    method Record(ip: Text, obs: Observation, now: Time, dbOk: bool) returns (score: real)
      requires Valid() && ValidObservation(obs) && now >= 1
      modifies this
      ensures Valid()
      ensures store == if dbOk then old(store)[ip := Accumulate(Get(old(store), ip), obs, now, params)] else old(store)
      ensures history == if dbOk then old(history)[ip := HistoryOf(old(history), ip) + [Report(obs, now)]] else old(history)
      ensures dbOk ==> score == store[ip].score && 0.0 <= score <= 100.0
    {
      if !dbOk {
        return 0.0;
      }
      FaithfulStep(store, history, ip, Report(obs, now), params);
      hide Accumulate, Replay, AllFaithful;
      var rec := Accumulate(Get(store, ip), obs, now, params);
      store := store[ip := rec];
      history := history[ip := HistoryOf(history, ip) + [Report(obs, now)]];
      score := rec.score;
    }

    /** Returns the distinct anchored subnets that ever disputed the record. */
    method RecordDispute(ip: Text, obs: Observation, now: Time, dbOk: bool) returns (subnets: seq<string>)
      requires Valid() && ValidObservation(obs) && now >= 1
      modifies this
      ensures Valid()
      ensures store == if dbOk then old(store)[ip := ApplyDispute(Get(old(store), ip), obs, now, params)] else old(store)
      ensures history == if dbOk then old(history)[ip := HistoryOf(old(history), ip) + [Dispute(obs, now)]] else old(history)
      ensures dbOk ==> subnets == store[ip].disputeSubnetsSeen && DuplicateFree(subnets)
      ensures dbOk ==> forall u :: u in subnets <==> AnchoredDisputingSubnet(history[ip], u)
    {
      if !dbOk {
        return [];
      }
      FaithfulStep(store, history, ip, Dispute(obs, now), params);
      ReplayLists(HistoryOf(history, ip) + [Dispute(obs, now)], params);
      hide ApplyDispute, Replay, AllFaithful, AnchoredDisputingSubnet;
      var rec := ApplyDispute(Get(store, ip), obs, now, params);
      store := store[ip := rec];
      history := history[ip := HistoryOf(history, ip) + [Dispute(obs, now)]];
      subnets := rec.disputeSubnetsSeen;
    }

    /** Stores and returns the decayed score; an unknown key scores 0. */
    method Decay(ip: Text, now: Time, dbOk: bool) returns (score: real)
      requires Valid() && now >= 1
      modifies this
      ensures Valid()
      ensures store == if dbOk && ip in old(store) then old(store)[ip := Sweep(old(store)[ip], now, params)] else old(store)
      ensures dbOk ==> score == if Get(store, ip).lastSeen == 0 then 0.0 else store[ip].score
    {
      if !dbOk {
        return 0.0;
      }
      var rec := Get(store, ip);
      if rec.lastSeen == 0 {
        assert ip in store ==> store[ip := rec] == store;
        return 0.0;
      }
      FaithfulStep(store, history, ip, Swept(now), params);
      hide DecayScore, Replay, AllFaithful;
      rec := rec.(score := DecayScore(rec.score, rec.lastSeen, now, params.halfLife));
      store := store[ip := rec];
      history := history[ip := HistoryOf(history, ip) + [Swept(now)]];
      score := rec.score;
    }
  }
}
