/** Who is trusted how much (internal/trust/store.go): operator anchors, cached peer certificates and
    the blocked peers. Ed25519 is an abstract relation `sigOk` on certificates. */
module Trust {
  import opened NetUtil
  import opened Wire

  /** A trusted Person; `validUntil` 0 means no expiry. */
  datatype Anchor = Anchor(person: string, identityPubkey: string, weight: real, validUntil: nat)

  predicate AnchorExpired(a: Anchor, now: nat) { a.validUntil != 0 && now > a.validUntil }

  const PERSON_KEY_SIZE := 32

  predicate CertVerifies(c: PeerCert, now: nat, sigOk: PeerCert -> bool) {
    c.peerID != "" && |c.personKey| == PERSON_KEY_SIZE && BarFree(c.peerID) && now < c.validUntil && sigOk(c)
  }

  function EncodePub(personKey: string): string { "ed25519:" + personKey }

  datatype TrustState = TrustState(anchors: map<string, Anchor>, certs: map<string, PeerCert>, blocked: set<string>)

  const NO_TRUST := TrustState(map[], map[], {})

  datatype Resolution = Resolution(weight: real, group: string, anchored: bool)

  function Resolved(s: TrustState, peer: string, now: nat, strangerWeight: real): Resolution {
    if peer !in s.certs || now > s.certs[peer].validUntil then Resolution(strangerWeight, "", false)
    else
      var key := EncodePub(s.certs[peer].personKey);
      if key !in s.anchors || AnchorExpired(s.anchors[key], now) then Resolution(strangerWeight, "", false)
      else Resolution(s.anchors[key].weight, s.anchors[key].person, true)
  }

  function WithCert(s: TrustState, c: PeerCert, now: nat, sigOk: PeerCert -> bool): TrustState {
    if CertVerifies(c, now, sigOk) then s.(certs := s.certs[c.peerID := c]) else s
  }

  /** What one read of a watched file yields: nothing usable, or its contents. */
  datatype FileRead<T> = Kept | Loaded(items: seq<T>)

  function ClampAnchors(items: seq<Anchor>): map<string, Anchor> {
    if items == [] then map[] else
      var m, a := ClampAnchors(items[..|items| - 1]), items[|items| - 1];
      if a.weight <= 0.0 then m else m[a.identityPubkey := a.(weight := if a.weight > 1.0 then 1.0 else a.weight)]
  }

  function MergeCert(m: map<string, PeerCert>, c: PeerCert, now: nat, sigOk: PeerCert -> bool): map<string, PeerCert> {
    if CertVerifies(c, now, sigOk) && (c.peerID !in m || c.validUntil > m[c.peerID].validUntil) then m[c.peerID := c] else m
  }

  function MergeCerts(certs: map<string, PeerCert>, items: seq<PeerCert>, now: nat, sigOk: PeerCert -> bool): map<string, PeerCert> {
    if items == [] then certs else
      MergeCert(MergeCerts(certs, items[..|items| - 1], now, sigOk), items[|items| - 1], now, sigOk)
  }

  function Reloaded(s: TrustState, anchors: FileRead<Anchor>, certs: FileRead<PeerCert>, blocked: FileRead<string>,
                    now: nat, sigOk: PeerCert -> bool): TrustState {
    TrustState(
      if anchors.Loaded? then ClampAnchors(anchors.items) else s.anchors,
      if certs.Loaded? then MergeCerts(s.certs, certs.items, now, sigOk) else s.certs,
      if blocked.Loaded? then set p | p in blocked.items else s.blocked)
  }

  // ---------------------------------------------------------------- what the store keeps

  /** Every anchor weight is in (0,1] and every certificate, cached under its own peer, verified at
      some earlier time. */
  ghost predicate Sound(s: TrustState, now: nat, sigOk: PeerCert -> bool) {
    && (forall k :: k in s.anchors ==> 0.0 < s.anchors[k].weight <= 1.0)
    && (forall p :: p in s.certs ==> s.certs[p].peerID == p && Verified(s.certs[p], now, sigOk))
  }

  /** The Person's signature is good, and the certificate was within its life at some time so far. */
  ghost predicate Verified(c: PeerCert, now: nat, sigOk: PeerCert -> bool) {
    sigOk(c) && |c.personKey| == 32 && c.peerID != "" && '|' !in c.peerID && exists t: nat :: t <= now && LiveAt(c, t)
  }

  predicate LiveAt(c: PeerCert, t: nat) { t < c.validUntil }

  /** A certificate counts iff its signature is good, its fields are well-formed and it has not run out. */
  lemma CertVerifiesIff(c: PeerCert, now: nat, sigOk: PeerCert -> bool)
    ensures CertVerifies(c, now, sigOk) <==> sigOk(c) && |c.personKey| == 32 && c.peerID != "" && '|' !in c.peerID && now < c.validUntil
    ensures CertVerifies(c, now, sigOk) ==> Verified(c, now, sigOk)
  {
    if CertVerifies(c, now, sigOk) { assert LiveAt(c, now); }
  }

  lemma {:induction false} ClampedWeights(items: seq<Anchor>)
    ensures forall k :: k in ClampAnchors(items) ==> 0.0 < ClampAnchors(items)[k].weight <= 1.0
  {
    if items != [] { ClampedWeights(items[..|items| - 1]); }
  }

  /** For every peer, `m` holds the longest-lived of the cached certificate and the verified ones on file. */
  ghost predicate LongestLived(m: map<string, PeerCert>, certs: map<string, PeerCert>, items: seq<PeerCert>, now: nat, sigOk: PeerCert -> bool) {
    && (forall p :: p in certs ==> p in m && certs[p].validUntil <= m[p].validUntil)
    && (forall c :: c in items && CertVerifies(c, now, sigOk) ==> c.peerID in m && c.validUntil <= m[c.peerID].validUntil)
    && (forall p :: p in m ==>
          || (p in certs && m[p] == certs[p])
          || (m[p] in items && m[p].peerID == p && CertVerifies(m[p], now, sigOk)))
  }

  lemma LongestLivedStep(m: map<string, PeerCert>, certs: map<string, PeerCert>, early: seq<PeerCert>, c: PeerCert,
                         now: nat, sigOk: PeerCert -> bool)
    requires LongestLived(m, certs, early, now, sigOk)
    ensures LongestLived(MergeCert(m, c, now, sigOk), certs, early + [c], now, sigOk)
  {
    hide CertVerifies;
    assert forall x :: x in early + [c] <==> x in early || x == c;
  }

  /** A reload of certificates keeps the longest-lived one for every peer. */
  lemma {:induction false} LongestLivedWins(certs: map<string, PeerCert>, items: seq<PeerCert>, now: nat, sigOk: PeerCert -> bool)
    ensures LongestLived(MergeCerts(certs, items, now, sigOk), certs, items, now, sigOk)
  {
    if items != [] {
      var early, c := items[..|items| - 1], items[|items| - 1];
      LongestLivedWins(certs, early, now, sigOk);
      LongestLivedStep(MergeCerts(certs, early, now, sigOk), certs, early, c, now, sigOk);
      assert early + [c] == items;
    }
  }

  lemma ReloadKeepsSound(s: TrustState, anchors: FileRead<Anchor>, certs: FileRead<PeerCert>, blocked: FileRead<string>,
                         now: nat, sigOk: PeerCert -> bool)
    requires Sound(s, now, sigOk)
    ensures Sound(Reloaded(s, anchors, certs, blocked, now, sigOk), now, sigOk)
  {
    if anchors.Loaded? { ClampedWeights(anchors.items); }
    if certs.Loaded? {
      LongestLivedWins(s.certs, certs.items, now, sigOk);
      hide MergeCerts, CertVerifies, Verified;
      var m := MergeCerts(s.certs, certs.items, now, sigOk);
      forall p | p in m
        ensures m[p].peerID == p && Verified(m[p], now, sigOk)
      {
        CertVerifiesIff(m[p], now, sigOk);
      }
    }
  }

  lemma SoundLater(s: TrustState, now: nat, later: nat, sigOk: PeerCert -> bool)
    requires Sound(s, now, sigOk) && now <= later
    ensures Sound(s, later, sigOk)
  {
    forall p | p in s.certs
      ensures Verified(s.certs[p], later, sigOk)
    {
      var t: nat :| t <= now && LiveAt(s.certs[p], t);
    }
  }

  lemma WithCertKeepsSound(s: TrustState, c: PeerCert, now: nat, sigOk: PeerCert -> bool)
    requires Sound(s, now, sigOk)
    ensures Sound(WithCert(s, c, now, sigOk), now, sigOk)
  {
    CertVerifiesIff(c, now, sigOk);
    hide CertVerifies, Verified;
  }

  /** The anchor has no end, or its end is not past. */
  predicate StillTrusted(a: Anchor, now: nat) { a.validUntil == 0 || now <= a.validUntil }

  /** The peer holds a certificate that had verified and has not lapsed, from a live anchor. */
  ghost predicate Vouched(s: TrustState, peer: string, now: nat, sigOk: PeerCert -> bool) {
    exists c: PeerCert, a: Anchor {:trigger Verified(c, now, sigOk), StillTrusted(a, now)} ::
      && c.peerID == peer && Verified(c, now, sigOk) && now <= c.validUntil
      && "ed25519:" + c.personKey in s.anchors && s.anchors["ed25519:" + c.personKey] == a && StillTrusted(a, now)
  }

  /** A peer is anchored iff its cached certificate has not lapsed and names a Person whose anchor is live;
      it then has that anchor's weight and Person, and else the weight of a stranger and nobody's name. */
  lemma ResolutionIs(s: TrustState, peer: string, now: nat, strangerWeight: real)
    ensures var r := Resolved(s, peer, now, strangerWeight);
            && (r.anchored <==>
                  && peer in s.certs && now <= s.certs[peer].validUntil
                  && "ed25519:" + s.certs[peer].personKey in s.anchors
                  && StillTrusted(s.anchors["ed25519:" + s.certs[peer].personKey], now))
            && (r.anchored ==>
                  var a := s.anchors["ed25519:" + s.certs[peer].personKey]; r.weight == a.weight && r.group == a.person)
            && (!r.anchored ==> r.weight == strangerWeight && r.group == "")
  {
  }

  /** The item at `n` is the last of positive weight for its key. */
  ghost predicate LastFor(items: seq<Anchor>, n: int) {
    && 0 <= n < |items| && items[n].weight > 0.0
    && forall j :: n < j < |items| && items[j].weight > 0.0 ==> items[j].identityPubkey != items[n].identityPubkey
  }

  /** The last entry of positive weight wins for every key, its weight cut to at most one. */
  lemma {:induction false} LastAnchorWins(items: seq<Anchor>, n: int)
    requires LastFor(items, n)
    ensures var m, a := ClampAnchors(items), items[n];
            a.identityPubkey in m && m[a.identityPubkey] == a.(weight := if a.weight > 1.0 then 1.0 else a.weight)
  {
    if n < |items| - 1 {
      assert LastFor(items[..|items| - 1], n);
      LastAnchorWins(items[..|items| - 1], n);
    }
  }

  lemma {:induction false} AnchorsAreFromFile(items: seq<Anchor>, k: string)
    requires k in ClampAnchors(items)
    ensures exists n :: LastFor(items, n) && items[n].identityPubkey == k
  {
    var early, a := items[..|items| - 1], items[|items| - 1];
    if a.weight > 0.0 && a.identityPubkey == k {
      assert LastFor(items, |items| - 1);
    } else {
      AnchorsAreFromFile(early, k);
      var n :| LastFor(early, n) && early[n].identityPubkey == k;
      assert LastFor(items, n) && items[n].identityPubkey == k;
    }
  }

  /** A reload blocks exactly the listed peers; what cannot be read stays. */
  lemma ReloadIs(s: TrustState, anchors: FileRead<Anchor>, certs: FileRead<PeerCert>, blocked: FileRead<string>, now: nat, sigOk: PeerCert -> bool)
    ensures var t := Reloaded(s, anchors, certs, blocked, now, sigOk);
            && (forall p :: p in t.blocked <==> if blocked.Loaded? then p in blocked.items else p in s.blocked)
            && (anchors.Kept? ==> t.anchors == s.anchors) && (certs.Kept? ==> t.certs == s.certs)
            && (anchors.Loaded? ==> forall k :: k in t.anchors <==> exists n :: LastFor(anchors.items, n) && anchors.items[n].identityPubkey == k)
            && (certs.Loaded? ==> LongestLived(t.certs, s.certs, certs.items, now, sigOk))
  {
    if anchors.Loaded? {
      forall k
        ensures k in ClampAnchors(anchors.items) <==> exists n :: LastFor(anchors.items, n) && anchors.items[n].identityPubkey == k
      {
        if k in ClampAnchors(anchors.items) { AnchorsAreFromFile(anchors.items, k); }
        if n :| LastFor(anchors.items, n) && anchors.items[n].identityPubkey == k { LastAnchorWins(anchors.items, n); }
      }
    }
    if certs.Loaded? { LongestLivedWins(s.certs, certs.items, now, sigOk); }
    hide LongestLived, MergeCerts, ClampAnchors, LastFor;
  }

  /** A resolution is in range, and anchored only for a vouched peer. */
  lemma ResolutionSound(s: TrustState, peer: string, now: nat, strangerWeight: real, sigOk: PeerCert -> bool)
    requires Sound(s, now, sigOk) && 0.0 <= strangerWeight <= 1.0
    ensures var r := Resolved(s, peer, now, strangerWeight);
            && 0.0 <= r.weight <= 1.0
            && (r.anchored ==> Vouched(s, peer, now, sigOk))
            && (!r.anchored ==> r.weight == strangerWeight && r.group == "")
  {
    if Resolved(s, peer, now, strangerWeight).anchored {
      var c := s.certs[peer];
      ResolutionIs(s, peer, now, strangerWeight);
      var a := s.anchors["ed25519:" + c.personKey];
      assert c.peerID == peer && Verified(c, now, sigOk) && now <= c.validUntil && StillTrusted(a, now);
    }
  }

  /** A certificate from the wire replaces its peer's iff it counts, and nobody else's. */
  lemma WithCertIs(s: TrustState, c: PeerCert, now: nat, sigOk: PeerCert -> bool)
    ensures var t := WithCert(s, c, now, sigOk);
            && t.anchors == s.anchors && t.blocked == s.blocked
            && (forall p :: p in t.certs <==> p in s.certs || (p == c.peerID && CertVerifies(c, now, sigOk)))
            && (forall p :: p in t.certs ==> t.certs[p] == if p == c.peerID && CertVerifies(c, now, sigOk) then c else s.certs[p])
  {
    hide CertVerifies;
  }

  /** A certificate from the wire shortens what is cached for a peer iff it verifies and ends sooner
      than the one cached; the reload of the certificate file has a guard against that. */
  lemma AddCertShortensIff(s: TrustState, c: PeerCert, p: string, now: nat, sigOk: PeerCert -> bool)
    requires Sound(s, now, sigOk) && p in s.certs
    ensures var after := WithCert(s, c, now, sigOk);
            && p in after.certs
            && (after.certs[p].validUntil < s.certs[p].validUntil <==>
                  c.peerID == p && CertVerifies(c, now, sigOk) && c.validUntil < s.certs[p].validUntil)
    ensures var m := MergeCert(s.certs, c, now, sigOk); p in m && s.certs[p].validUntil <= m[p].validUntil
  {
    hide CertVerifies, Sound;
  }

  /** Two good certificates of one peer, the longer-lived first: once the second lapses the peer is a
      stranger, though the first would still have vouched for it. */
  lemma ShorterCertTakesOver(s: TrustState, long: PeerCert, short: PeerCert, now: nat, later: nat, strangerWeight: real, sigOk: PeerCert -> bool)
    requires CertVerifies(long, now, sigOk) && CertVerifies(short, now, sigOk) && long.peerID == short.peerID
    requires short.validUntil < later <= long.validUntil
    requires EncodePub(long.personKey) in s.anchors && !AnchorExpired(s.anchors[EncodePub(long.personKey)], later)
    ensures var one := WithCert(s, long, now, sigOk);
            && Resolved(one, long.peerID, later, strangerWeight).anchored
            && Resolved(WithCert(one, short, now, sigOk), long.peerID, later, strangerWeight) == Resolution(strangerWeight, "", false)
  {
  }

  class TrustStore {
    var state: TrustState
    const strangerWeight: real
    const sigOk: PeerCert -> bool
    ghost var lastNow: nat

    ghost predicate Valid()
      reads this
    {
      0.0 <= strangerWeight <= 1.0 && Sound(state, lastNow, sigOk)
    }

    constructor (strangerWeight: real, sigOk: PeerCert -> bool)
      requires 0.0 <= strangerWeight <= 1.0
      ensures Valid() && state == NO_TRUST && lastNow == 0 && this.strangerWeight == strangerWeight && this.sigOk == sigOk
    {
      this.strangerWeight, this.sigOk := strangerWeight, sigOk;
      state, lastNow := NO_TRUST, 0;
    }

    method AddCert(c: PeerCert, now: nat) returns (ok: bool)
      requires Valid() && lastNow <= now
      modifies this
      ensures Valid() && lastNow == now
      ensures ok == CertVerifies(c, now, sigOk) && state == WithCert(old(state), c, now, sigOk)
    {
      SoundLater(state, lastNow, now, sigOk);
      WithCertKeepsSound(state, c, now, sigOk);
      lastNow := now;
      ok := CertVerifies(c, now, sigOk);
      if ok {
        state := state.(certs := state.certs[c.peerID := c]);
      }
    }

    method Resolve(peer: string, now: nat) returns (r: Resolution)
      requires Valid() && lastNow <= now
      ensures r == Resolved(state, peer, now, strangerWeight)
      ensures 0.0 <= r.weight <= 1.0 && (r.anchored ==> Vouched(state, peer, now, sigOk))
    {
      SoundLater(state, lastNow, now, sigOk);
      ResolutionSound(state, peer, now, strangerWeight, sigOk);
      r := Resolved(state, peer, now, strangerWeight);
    }

    /** Re-reads the anchor, certificate and blocked-peer files; a file that cannot be read or has
        not changed keeps the last good state. */
    method Reload(anchors: FileRead<Anchor>, certs: FileRead<PeerCert>, blocked: FileRead<string>, now: nat)
      requires Valid() && lastNow <= now
      modifies this
      ensures Valid() && lastNow == now && state == Reloaded(old(state), anchors, certs, blocked, now, sigOk)
    {
      SoundLater(state, lastNow, now, sigOk);
      ReloadKeepsSound(state, anchors, certs, blocked, now, sigOk);
      lastNow := now;
      hide Sound, CertVerifies, ClampAnchors, MergeCerts;
      if anchors.Loaded? {
        var m := LoadAnchors(anchors.items);
        state := state.(anchors := m);
      }
      if certs.Loaded? {
        var m := LoadCerts(state.certs, certs.items, now, sigOk);
        state := state.(certs := m);
      }
      if blocked.Loaded? {
        state := state.(blocked := set p | p in blocked.items);
      }
    }
  }

  /** Clamps weights above 1 and drops anchors of non-positive weight. */
  method LoadAnchors(items: seq<Anchor>) returns (m: map<string, Anchor>)
    ensures m == ClampAnchors(items)
    ensures forall k :: k in m ==> 0.0 < m[k].weight <= 1.0
  {
    m := map[];
    for i := 0 to |items|
      invariant m == ClampAnchors(items[..i])
    {
      var a := items[i];
      assert items[..i + 1][..i] == items[..i];
      if a.weight <= 0.0 {
        continue;
      }
      if a.weight > 1.0 {
        a := a.(weight := 1.0);
      }
      m := m[a.identityPubkey := a];
    }
    assert items[..|items|] == items;
    ClampedWeights(items);
  }

  method LoadCerts(cached: map<string, PeerCert>, items: seq<PeerCert>, now: nat, sigOk: PeerCert -> bool)
    returns (m: map<string, PeerCert>)
    ensures m == MergeCerts(cached, items, now, sigOk)
    ensures forall p :: p in cached ==> p in m && cached[p].validUntil <= m[p].validUntil
  {
    hide CertVerifies;
    m := cached;
    for i := 0 to |items|
      invariant m == MergeCerts(cached, items[..i], now, sigOk)
      invariant forall p :: p in cached ==> p in m && cached[p].validUntil <= m[p].validUntil
    {
      var c := items[i];
      assert items[..i + 1][..i] == items[..i];
      if CertVerifies(c, now, sigOk) && (c.peerID !in m || c.validUntil > m[c.peerID].validUntil) {
        m := m[c.peerID := c];
      }
    }
    assert items[..|items|] == items;
  }
}
