/** Keys, prefixes and list entries in plain arithmetic: blocks of addresses between two numbers. */
module AddressSpec {
  import opened NetUtil
  import opened NeverBlock
  import opened Reputation
  import opened ScoreStore
  import opened NodeModel

  /** Block number `q` of the blocks with `host` host bits holds the numbers from its start to the next. */
  ghost predicate InBlock(n: nat, q: nat, host: nat) { Shl(q, host) <= n < Shl(q + 1, host) }

  lemma {:induction false} ShrIff(n: nat, q: nat, host: nat)
    ensures Shr(n, host) == q <==> InBlock(n, q, host)
    decreases host
  {
    if host > 0 {
      ShrIff(n / 2, q, host - 1);
      ShlLast(q, host - 1);
      ShlLast(q + 1, host - 1);
    }
  }

  lemma {:induction false} ShlSum(a: nat, b: nat, host: nat)
    ensures Shl(a + b, host) == Shl(a, host) + Shl(b, host)
    decreases host
  {
    if host > 0 { ShlSum(2 * a, 2 * b, host - 1); }
  }

  /** A masked number is the start of its block. */
  lemma MaskIsBlockStart(n: nat, host: nat)
    ensures Mask(n, host) <= n < Mask(n, host) + Shl(1, host) && exists q :: Mask(n, host) == Shl(q, host)
  {
    ShrIff(n, Shr(n, host), host);
    ShlSum(Shr(n, host), 1, host);
    assert Mask(n, host) == Shl(Shr(n, host), host);
  }

  lemma MappedRange(n: nat)
    ensures Mapped(n) <==> 0xFFFF_0000_0000 <= n <= 0xFFFF_FFFF_FFFF
  {
    ShrIff(n, 0xFFFF, 32);
    Doublings();
    ShlSum(0xFFFF, 1, 32);
    ShlTimes(0xFFFF);
  }

  lemma FourTimes(x: nat, k: nat)
    ensures Shl(x, k + 4) == Shl(16 * x, k)
  {
    ShlAdd(x, 4, k);
    assert Shl(x, 4) == Shl(2 * x, 3) == Shl(4 * x, 2) == Shl(8 * x, 1) == Shl(16 * x, 0) == 16 * x;
  }

  lemma Doublings()
    ensures Shl(1, 32) == 0x1_0000_0000
  {
    FourTimes(1, 28);
    FourTimes(0x10, 24);
    FourTimes(0x100, 20);
    FourTimes(0x1000, 16);
    FourTimes(0x1_0000, 12);
    FourTimes(0x10_0000, 8);
    FourTimes(0x100_0000, 4);
    FourTimes(0x1000_0000, 0);
    var top: nat := 0x1_0000_0000;
    assert Shl(top, 0) == top;
  }

  lemma {:induction false} ShlTimes(x: nat)
    ensures Shl(x, 32) == x * 0x1_0000_0000
  {
    Doublings();
    if x == 0 { ShlZero(32); } else {
      ShlTimes(x - 1);
      ShlSum(x - 1, 1, 32);
    }
  }

  /** An IPv4-mapped address is the IPv4 address in its low 32 bits; any other is itself. */
  lemma UnmapIs(a: Addr)
    ensures a.V6? && 0xFFFF_0000_0000 <= a.n <= 0xFFFF_FFFF_FFFF ==> Unmap(a) == V4(a.n - 0xFFFF_0000_0000)
    ensures a.V4? || a.n < 0xFFFF_0000_0000 || a.n > 0xFFFF_FFFF_FFFF ==> Unmap(a) == a
  {
    MappedRange(a.n);
  }

  /** The key is the block of `n` under a prefix of `p` bits. */
  ghost predicate BlockKey(key: Option<Text>, n: nat, p: nat, q: nat)
    requires p <= 128
  {
    key == Some(Cidr(V6(Shl(q, 128 - p), ""), p)) && InBlock(n, q, 128 - p)
  }

  /** What a text's key is: the bare address for IPv4, the start of its prefix's block for IPv6, without
      zone. */
  lemma KeyIs(t: Text, p: nat)
    requires p <= 128 && !t.Garbage?
    ensures Unmap(t.addr).V4? && t.Bare? ==> NormalizeIP(t, p) == Some(Bare(Unmap(t.addr)))
    ensures Unmap(t.addr).V6? ==> exists q: nat :: BlockKey(NormalizeIP(t, p), Unmap(t.addr).n, p, q)
    ensures KeyAddr(t) == Some(Unmap(t.addr))
  {
    if Unmap(t.addr).V6? {
      var n, host: nat := Unmap(t.addr).n, 128 - p;
      ShrIff(n, Shr(n, host), host);
      assert BlockKey(NormalizeIP(t, p), n, p, Shr(n, host));
    }
  }

  /** A prefix covers the zone-less addresses of its family in the block its own address lies in. */
  lemma CoversIff(p: Prefix, a: Addr)
    requires ValidPrefix(p)
    ensures var host := (if p.addr.V4? then 32 else 128) - p.bits;
            Covers(p, a) <==>
              && p.addr.V4? == a.V4? && (a.V6? ==> a.zone == "")
              && exists q: nat :: InBlock(p.addr.n, q, host) && InBlock(a.n, q, host)
  {
    var host: nat := (if p.addr.V4? then 32 else 128) - p.bits;
    hide InBlock, Shr;
    var own := Shr(p.addr.n, host);
    ShrIff(p.addr.n, own, host);
    ShrIff(a.n, own, host);
    forall q: nat | InBlock(p.addr.n, q, host) && InBlock(a.n, q, host)
      ensures q == own && Shr(a.n, host) == own
    {
      ShrIff(p.addr.n, q, host);
      ShrIff(a.n, q, host);
    }
  }

  /** A single host on the never-block list covers itself alone; a prefix on it covers its block. */
  lemma EntryIs(t: Text, a: Addr)
    requires Parsed(t)
    ensures t.Bare? && (Unmap(t.addr).V6? ==> Unmap(t.addr).zone == "") ==>
              EntryOf(t).Some? && (Covers(EntryOf(t).value, a) <==> a == Unmap(t.addr))
    ensures t.Bare? && Unmap(t.addr).V6? && Unmap(t.addr).zone != "" ==> EntryOf(t).None?
    ensures t.Cidr? ==> EntryOf(t).Some? && (Covers(EntryOf(t).value, a) <==> Covers(Prefix(t.addr, t.bits), a))
    ensures t.Garbage? ==> EntryOf(t).None?
  {
    if t.Cidr? { ShrMask(t.addr.n, Width(t.addr) - t.bits, Width(t.addr) - t.bits); }
  }

  /** A whitelist names the addresses of its single hosts, mapped or not, and the blocks of its prefixes. */
  lemma WhitelistIs(whitelist: seq<Text>, ip: Text)
    requires forall i :: 0 <= i < |whitelist| ==> Parsed(whitelist[i])
    ensures Whitelisted(whitelist, ip) <==>
              && !ip.Garbage?
              && exists i :: 0 <= i < |whitelist| &&
                   match whitelist[i]
                   case Bare(b) => Unmap(b) == Unmap(ip.addr)
                   case Cidr(b, bits) => Covers(Prefix(b, bits), Unmap(ip.addr))
                   case Garbage(_) => false
  {
    hide Unmap, Shr;
    forall i | 0 <= i < |whitelist| && whitelist[i].Cidr?
      ensures var w := whitelist[i]; forall a :: EntryAllows(w, a) <==> Covers(Prefix(w.addr, w.bits), a)
    {
      var w := whitelist[i];
      forall a
        ensures EntryAllows(w, a) <==> Covers(Prefix(w.addr, w.bits), a)
      {
        ShrMask(w.addr.n, Width(w.addr) - w.bits, Width(w.addr) - w.bits);
      }
    }
  }

  /** A key is protected iff a never-block entry covers its address or the whitelist names it. */
  lemma ProtectedIs(cfg: Config, ip: Text)
    requires ValidConfig(cfg)
    ensures Protected(cfg, ip) <==>
              && !ip.Garbage?
              && ((exists p :: p in cfg.neverBlock && Covers(p, Unmap(ip.addr))) || Whitelisted(cfg.whitelist, ip))
  {
    hide EntryAllows, Unmap;
  }
}
