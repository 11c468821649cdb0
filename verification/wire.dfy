/** Wire events (pkg/proto) and the byte strings that are signed or remembered for them
    (internal/identity, internal/node/dedup.go). Times are carried in their printed form. */
module Wire {
  import opened NetUtil

  datatype PeerCert = PeerCert(peerID: string, personKey: string, validUntil: nat, sig: string)

  datatype Event = Event(
    ip: string,
    reason: string,
    ts: string,
    reporterID: string,
    signature: string,
    subnetID: string,
    originTrace: seq<string>,
    vouch: Option<PeerCert>,
    kind: string)

  predicate IsVote(e: Event) { e.kind == "vote" }

  function EventMessage(e: Event): string {
    "federloom-event-v2|" + e.ip + "|" + e.reason + "|" + e.ts + "|" + e.reporterID + "|" + e.subnetID
  }

  function VoteMessage(e: Event): string {
    "federloom-vote-v2|" + e.ip + "|" + e.ts + "|" + e.reporterID + "|" + e.subnetID
  }

  function SignedMessage(e: Event): string {
    if IsVote(e) then VoteMessage(e) else EventMessage(e)
  }

  function DedupKey(reporterID: string, ip: string, reason: string, ts: string): string {
    reporterID + "|" + ip + "|" + reason + "|" + ts
  }

  /** The fields a signature covers, in signing order. */
  function SignedFields(e: Event): seq<string> {
    if IsVote(e) then ["federloom-vote-v2", e.ip, e.ts, e.reporterID, e.subnetID]
    else ["federloom-event-v2", e.ip, e.reason, e.ts, e.reporterID, e.subnetID]
  }

  /** The signed bytes, field by field. */
  lemma SignedBytesAre(e: Event)
    ensures e.kind == "vote" ==>
              SignedMessage(e) == "federloom-vote-v2" + "|" + e.ip + "|" + e.ts + "|" + e.reporterID + "|" + e.subnetID
    ensures e.kind != "vote" ==>
              SignedMessage(e) == "federloom-event-v2" + "|" + e.ip + "|" + e.reason + "|" + e.ts + "|" + e.reporterID + "|" + e.subnetID
  {
    assert "federloom-vote-v2" + "|" == "federloom-vote-v2|" && "federloom-event-v2" + "|" == "federloom-event-v2|";
  }

  // ---------------------------------------------------------------- splitting at bars

  predicate BarFree(s: string) { '|' !in s }

  function Split(s: string): (parts: seq<string>)
    ensures |parts| >= 1
  {
    if s == "" then [""]
    else
      var rest := Split(s[1..]);
      if s[0] == '|' then [""] + rest else [[s[0]] + rest[0]] + rest[1..]
  }

  lemma {:induction false} SplitField(u: string, rest: string)
    requires BarFree(u)
    ensures Split(u + "|" + rest) == [u] + Split(rest)
  {
    var s := u + "|" + rest;
    if u == "" {
      assert s[1..] == rest;
    } else {
      SplitField(u[1..], rest);
      assert s[1..] == u[1..] + "|" + rest;
      assert [u[0]] + u[1..] == u;
    }
  }

  lemma {:induction false} SplitLast(u: string)
    requires BarFree(u)
    ensures Split(u) == [u]
  {
    if u != "" {
      SplitLast(u[1..]);
      assert [u[0]] + u[1..] == u;
    }
  }

  lemma SplitFive(a: string, b: string, c: string, d: string, e: string)
    requires BarFree(a) && BarFree(b) && BarFree(c) && BarFree(d) && BarFree(e)
    ensures Split(a + "|" + b + "|" + c + "|" + d + "|" + e) == [a, b, c, d, e]
  {
    var de := d + "|" + e;
    var cde := c + "|" + de;
    var bcde := b + "|" + cde;
    Regroup(a + "|" + b + "|" + c, d, e);
    Regroup(a + "|" + b, c, de);
    Regroup(a, b, cde);
    hide *;
    SplitField(a, bcde);
    SplitField(b, cde);
    SplitField(c, de);
    SplitField(d, e);
    SplitLast(e);
  }

  lemma Regroup(x: string, y: string, z: string)
    ensures x + "|" + y + "|" + z == x + "|" + (y + "|" + z)
  {
  }

  ghost predicate FieldsBarFree(e: Event) {
    BarFree(e.ip) && BarFree(e.reason) && BarFree(e.ts) && BarFree(e.reporterID) && BarFree(e.subnetID)
  }

  lemma VoteTag()
    ensures BarFree("federloom-vote-v2") && BarFree("federloom-event-v2")
    ensures "federloom-vote-v2|" == "federloom-vote-v2" + "|" && "federloom-event-v2|" == "federloom-event-v2" + "|"
    ensures "federloom-vote-v2" != "federloom-event-v2"
  {
    assert "federloom-vote-v2"[10] == 'v' && "federloom-event-v2"[10] == 'e';
  }

  /** Splitting the signed bytes recovers the kind and every signed field. */
  lemma SignedRoundTrip(e: Event)
    requires FieldsBarFree(e)
    ensures Split(SignedMessage(e)) == SignedFields(e)
  {
    VoteTag();
    if IsVote(e) {
      SplitFive("federloom-vote-v2", e.ip, e.ts, e.reporterID, e.subnetID);
    } else {
      var tail := e.ip + "|" + e.reason + "|" + e.ts + "|" + e.reporterID + "|" + e.subnetID;
      SplitField("federloom-event-v2", tail);
      SplitFive(e.ip, e.reason, e.ts, e.reporterID, e.subnetID);
      assert EventMessage(e) == "federloom-event-v2" + "|" + tail;
    }
  }

  /** Two events with the same signed bytes are of one kind and agree in every signed field. */
  lemma SignedBytesIdentify(a: Event, b: Event)
    requires FieldsBarFree(a) && FieldsBarFree(b) && SignedMessage(a) == SignedMessage(b)
    ensures IsVote(a) == IsVote(b) && SignedFields(a) == SignedFields(b)
    ensures a.ip == b.ip && a.ts == b.ts && a.reporterID == b.reporterID && a.subnetID == b.subnetID
    ensures !IsVote(a) ==> a.reason == b.reason
  {
    SignedRoundTrip(a);
    SignedRoundTrip(b);
    assert SignedFields(a)[0] == SignedFields(b)[0];
    VoteTag();
    assert SignedFields(a)[1] == SignedFields(b)[1] && SignedFields(a)[2] == SignedFields(b)[2];
    assert SignedFields(a)[3] == SignedFields(b)[3] && SignedFields(a)[4] == SignedFields(b)[4];
    if !IsVote(a) { assert SignedFields(a)[5] == SignedFields(b)[5]; }
  }

  // ---------------------------------------------------------------- one field with bars

  lemma BarAt(u: string, s: string)
    requires BarFree(u)
    ensures var x := u + "|" + s; x[|u|] == '|' && forall i :: 0 <= i < |u| ==> x[i] != '|'
    ensures var x := s + "|" + u; x[|s|] == '|' && forall i :: |s| < i < |x| ==> x[i] != '|'
  {
  }

  lemma FrontField(u: string, v: string, s: string, t: string)
    requires BarFree(u) && BarFree(v) && u + "|" + s == v + "|" + t
    ensures u == v && s == t
  {
    var x, y := u + "|" + s, v + "|" + t;
    BarAt(u, s);
    BarAt(v, t);
    assert |u| == |v|;
    assert x[..|u|] == u && y[..|v|] == v && x[|u| + 1..] == s && y[|v| + 1..] == t;
  }

  lemma BackField(s: string, t: string, u: string, v: string)
    requires BarFree(u) && BarFree(v) && s + "|" + u == t + "|" + v
    ensures s == t && u == v
  {
    var x, y := s + "|" + u, t + "|" + v;
    BarAt(u, s);
    BarAt(v, t);
    assert |s| == |t|;
    assert x[..|s|] == s && y[..|t|] == t && x[|s| + 1..] == u && y[|t| + 1..] == v;
  }

  /** A report never shares its signed bytes with a vote, whatever the fields contain. */
  lemma KindsNeverCollide(a: Event, b: Event)
    requires IsVote(a) && !IsVote(b)
    ensures SignedMessage(a) != SignedMessage(b)
  {
    VoteTag();
    assert SignedMessage(a)[10] == 'v';
    assert SignedMessage(b)[10] == 'e';
  }

  /** The dedup key identifies its four parts even when the reason contains bars. */
  lemma DedupKeyIdentifies(r: string, i: string, w: string, t: string, r': string, i': string, w': string, t': string)
    requires BarFree(r) && BarFree(i) && BarFree(t) && BarFree(r') && BarFree(i') && BarFree(t')
    requires DedupKey(r, i, w, t) == DedupKey(r', i', w', t')
    ensures r == r' && i == i' && w == w' && t == t'
  {
    BackField(r + "|" + i + "|" + w, r' + "|" + i' + "|" + w', t, t');
    assert r + "|" + i + "|" + w == r + "|" + (i + "|" + w);
    assert r' + "|" + i' + "|" + w' == r' + "|" + (i' + "|" + w');
    FrontField(r, r', i + "|" + w, i' + "|" + w');
    FrontField(i, i', w, w');
  }

  lemma DedupKeyNonEmpty(r: string, i: string, w: string, t: string)
    ensures DedupKey(r, i, w, t) != ""
  {
  }

  /** Reports stay distinguishable when only the reason may contain bars, as the node's own checks
      on address, time and reporter leave it. */
  lemma ReportBytesIdentify(a: Event, b: Event)
    requires !IsVote(a) && !IsVote(b) && SignedMessage(a) == SignedMessage(b)
    requires BarFree(a.ip) && BarFree(a.ts) && BarFree(a.reporterID) && BarFree(a.subnetID)
    requires BarFree(b.ip) && BarFree(b.ts) && BarFree(b.reporterID) && BarFree(b.subnetID)
    ensures SignedFields(a) == SignedFields(b)
  {
    var tag := "federloom-event-v2|";
    var x, y := tag + a.ip + "|" + a.reason, tag + b.ip + "|" + b.reason;
    BackField(x + "|" + a.ts + "|" + a.reporterID, y + "|" + b.ts + "|" + b.reporterID, a.subnetID, b.subnetID);
    BackField(x + "|" + a.ts, y + "|" + b.ts, a.reporterID, b.reporterID);
    BackField(x, y, a.ts, b.ts);
    assert x[|tag|..] == a.ip + "|" + a.reason && y[|tag|..] == b.ip + "|" + b.reason;
    FrontField(a.ip, b.ip, a.reason, b.reason);
  }

  /** They do so, too, when only the subnet may contain bars, in both. */
  lemma BarredSubnetIdentifies(a: Event, b: Event)
    requires !IsVote(a) && !IsVote(b) && SignedMessage(a) == SignedMessage(b)
    requires BarFree(a.ip) && BarFree(a.reason) && BarFree(a.ts) && BarFree(a.reporterID)
    requires BarFree(b.ip) && BarFree(b.reason) && BarFree(b.ts) && BarFree(b.reporterID)
    ensures SignedFields(a) == SignedFields(b)
  {
    EventNests(a);
    EventNests(b);
    hide *;
    var tag := "federloom-event-v2|";
    TagStrips(tag, Tail(a.ip, a.reason, a.ts, a.reporterID, a.subnetID), Tail(b.ip, b.reason, b.ts, b.reporterID, b.subnetID));
    TailIdentifies(a, b);
  }

  /** Five fields, bar by bar from the front. */
  function Tail(ip: string, reason: string, ts: string, reporterID: string, subnetID: string): string {
    ip + "|" + (reason + "|" + (ts + "|" + (reporterID + "|" + subnetID)))
  }

  lemma EventNests(e: Event)
    requires !IsVote(e)
    ensures SignedMessage(e) == "federloom-event-v2|" + Tail(e.ip, e.reason, e.ts, e.reporterID, e.subnetID)
    ensures SignedFields(e) == ["federloom-event-v2", e.ip, e.reason, e.ts, e.reporterID, e.subnetID]
  {
    var x := "federloom-event-v2|" + e.ip;
    var d := e.reporterID + "|" + e.subnetID;
    var c := e.ts + "|" + d;
    Regroup(x + "|" + e.reason + "|" + e.ts, e.reporterID, e.subnetID);
    Regroup(x + "|" + e.reason, e.ts, d);
    Regroup(x, e.reason, c);
    Prefixed("federloom-event-v2|", e.ip, "|" + (e.reason + "|" + c));
    Prefixed(x, "|", e.reason + "|" + c);
    Prefixed(e.ip, "|", e.reason + "|" + c);
  }

  lemma Prefixed(x: string, y: string, z: string)
    ensures x + y + z == x + (y + z)
  {
  }

  lemma TagStrips(tag: string, x: string, y: string)
    requires tag + x == tag + y
    ensures x == y
  {
    assert (tag + x)[|tag|..] == x && (tag + y)[|tag|..] == y;
  }

  lemma TailIdentifies(a: Event, b: Event)
    requires BarFree(a.ip) && BarFree(a.reason) && BarFree(a.ts) && BarFree(a.reporterID)
    requires BarFree(b.ip) && BarFree(b.reason) && BarFree(b.ts) && BarFree(b.reporterID)
    requires Tail(a.ip, a.reason, a.ts, a.reporterID, a.subnetID) == Tail(b.ip, b.reason, b.ts, b.reporterID, b.subnetID)
    ensures a.ip == b.ip && a.reason == b.reason && a.ts == b.ts && a.reporterID == b.reporterID && a.subnetID == b.subnetID
  {
    hide BarFree;
    var d, d' := a.reporterID + "|" + a.subnetID, b.reporterID + "|" + b.subnetID;
    var c, c' := a.ts + "|" + d, b.ts + "|" + d';
    FrontField(a.ip, b.ip, a.reason + "|" + c, b.reason + "|" + c');
    FrontField(a.reason, b.reason, c, c');
    FrontField(a.ts, b.ts, d, d');
    FrontField(a.reporterID, b.reporterID, a.subnetID, b.subnetID);
  }

  /** With bars in both reason and subnet the bytes no longer identify the report. */
  lemma BarsCollide(a: Event, b: Event)
    requires !IsVote(a) && !IsVote(b)
    requires a.ip == b.ip && a.ts == b.ts && a.reporterID == b.reporterID
    requires a.reason == "x" && a.subnetID == "y|" + a.ts + "|" + a.reporterID + "|z"
    requires b.reason == "x|" + a.ts + "|" + a.reporterID + "|y" && b.subnetID == "z"
    ensures SignedMessage(a) == SignedMessage(b) && a.reason != b.reason && a.subnetID != b.subnetID
  {
  }

  /** A report as the node's checks on address, time and reporter leave it, whose reason and subnet may
      hold bars only as said. */
  ghost predicate ReportWith(e: Event, barredReason: bool, barredSubnet: bool) {
    && !IsVote(e) && BarFree(e.ip) && BarFree(e.ts) && BarFree(e.reporterID)
    && (barredReason || BarFree(e.reason)) && (barredSubnet || BarFree(e.subnetID))
  }

  /** Reports are identified by their bytes iff bars are kept out of the reason of all of them, or out of
      the subnet of all of them. */
  lemma BytesIdentifyIff(barredReason: bool, barredSubnet: bool)
    ensures (forall a, b :: ReportWith(a, barredReason, barredSubnet) && ReportWith(b, barredReason, barredSubnet) ==>
                              (SignedMessage(a) == SignedMessage(b) ==> SignedFields(a) == SignedFields(b)))
       <==> !(barredReason && barredSubnet)
  {
    if barredReason && barredSubnet {
      var a := Event("", "x", "", "", "", "y|" + "" + "|" + "" + "|z", [], None, "");
      var b := Event("", "x|" + "" + "|" + "" + "|y", "", "", "", "z", [], None, "");
      BarsCollide(a, b);
      assert SignedFields(a)[2] != SignedFields(b)[2];
      assert ReportWith(a, barredReason, barredSubnet) && ReportWith(b, barredReason, barredSubnet);
    } else {
      forall a, b | ReportWith(a, barredReason, barredSubnet) && ReportWith(b, barredReason, barredSubnet)
                    && SignedMessage(a) == SignedMessage(b)
        ensures SignedFields(a) == SignedFields(b)
      {
        if barredReason { ReportBytesIdentify(a, b); } else { BarredSubnetIdentifies(a, b); }
      }
    }
  }
}
