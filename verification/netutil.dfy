/** Reputation keys (internal/netutil) over parsed addresses. Text that went through netip's parser
    is one of the three `Text` forms; printing and parsing it again gives the same form. */
module NetUtil {

  datatype Option<+T> = None | Some(value: T)

  /** An address is its number: 32 bits wide for IPv4, 128 for IPv6. */
  datatype Addr = V4(n: nat) | V6(n: nat, zone: string)

  datatype Text = Bare(addr: Addr) | Cidr(addr: Addr, bits: nat) | Garbage(raw: string)

  const V4_WIDTH := 32
  const V6_WIDTH := 128

  function Width(a: Addr): nat { if a.V4? then V4_WIDTH else V6_WIDTH }

  /** What netip.ParseAddr and netip.ParsePrefix can return: a prefix has no zone. */
  predicate Parsed(t: Text) {
    t.Cidr? ==> t.bits <= Width(t.addr) && (t.addr.V6? ==> t.addr.zone == "")
  }

  // ---------------------------------------------------------------- bits

  function Shr(n: nat, k: nat): nat
    decreases k
  {
    if k == 0 then n else Shr(n / 2, k - 1)
  }

  function Shl(n: nat, k: nat): nat
    decreases k
  {
    if k == 0 then n else Shl(2 * n, k - 1)
  }

  /** Clears the low `host` bits. */
  function Mask(n: nat, host: nat): nat { Shl(Shr(n, host), host) }

  lemma {:induction false} ShrAdd(n: nat, j: nat, k: nat)
    ensures Shr(n, j + k) == Shr(Shr(n, j), k)
  {
    if j > 0 { ShrAdd(n / 2, j - 1, k); }
  }

  lemma {:induction false} ShlLast(n: nat, k: nat)
    ensures Shl(n, k + 1) == 2 * Shl(n, k)
    decreases k
  {
    if k > 0 { ShlLast(2 * n, k - 1); }
  }

  lemma {:induction false} ShlAdd(n: nat, j: nat, k: nat)
    ensures Shl(n, j + k) == Shl(Shl(n, j), k)
    decreases j
  {
    if j > 0 { ShlAdd(2 * n, j - 1, k); }
  }

  lemma {:induction false} ShrShl(n: nat, k: nat)
    ensures Shr(Shl(n, k), k) == n
  {
    if k > 0 {
      ShlLast(n, k - 1);
      ShrShl(n, k - 1);
    }
  }

  /** Shifting a masked number keeps the bits above the mask. */
  lemma ShrMask(n: nat, host: nat, k: nat)
    ensures k >= host ==> Shr(Mask(n, host), k) == Shr(n, k)
    ensures k <= host ==> Shr(Mask(n, host), k) == Mask(Shr(n, k), host - k)
  {
    if k >= host {
      ShrAdd(Mask(n, host), host, k - host);
      ShrShl(Shr(n, host), host);
      ShrAdd(n, host, k - host);
    } else {
      var x := Shr(n, host);
      ShlAdd(x, host - k, k);
      ShrShl(Shl(x, host - k), k);
      ShrAdd(n, k, host - k);
    }
  }

  /** Masking twice is masking once with the coarser mask. */
  lemma MaskAbsorbs(n: nat, fine: nat, coarse: nat)
    requires fine <= coarse
    ensures Mask(Mask(n, fine), coarse) == Mask(n, coarse)
  {
    ShrMask(n, fine, coarse);
  }

  // ---------------------------------------------------------------- IPv4 inside IPv6

  /** ::ffff:a.b.c.d, section 2.5.5.2 of RFC 4291. */
  predicate Mapped(n: nat) { Shr(n, V4_WIDTH) == 0xFFFF }

  function Unmap(a: Addr): Addr {
    if a.V6? && Mapped(a.n) then V4(a.n % 0x1_0000_0000) else a
  }

  /** Masking an address that is not IPv4-mapped never makes it so. */
  lemma MaskNeverMaps(n: nat, host: nat)
    requires !Mapped(n)
    ensures !Mapped(Mask(n, host))
  {
    ShrMask(n, host, V4_WIDTH);
    if host > V4_WIDTH {
      ShlLast(Shr(Shr(n, V4_WIDTH), host - V4_WIDTH), host - V4_WIDTH - 1);
    }
  }

  // ---------------------------------------------------------------- keys

  function NormalizeIP(t: Text, ipv6Prefix: nat): Option<Text> {
    if t.Garbage? then None
    else
      var addr := Unmap(t.addr);
      if t.Cidr? && addr.V4? then None
      else if addr.V4? then Some(Bare(addr))
      else if ipv6Prefix > V6_WIDTH then None
      else Some(Cidr(V6(Mask(addr.n, V6_WIDTH - ipv6Prefix), ""), ipv6Prefix))
  }

  function KeyAddr(t: Text): Option<Addr> {
    if t.Garbage? then None else Some(Unmap(t.addr))
  }

  /** Normalising at a coarser or equal prefix what a peer normalised at `fine` is the same as
      normalising the raw address; at the equal prefix it changes nothing. */
  lemma Renormalise(t: Text, fine: nat, coarse: nat)
    requires coarse <= fine && NormalizeIP(t, fine).Some?
    ensures NormalizeIP(NormalizeIP(t, fine).value, coarse) == NormalizeIP(t, coarse)
  {
    var a := Unmap(t.addr);
    if a.V6? {
      MaskNeverMaps(a.n, V6_WIDTH - fine);
      MaskAbsorbs(a.n, V6_WIDTH - fine, V6_WIDTH - coarse);
    }
  }

  lemma NormalizeIdempotent(t: Text, p: nat)
    requires NormalizeIP(t, p).Some?
    ensures NormalizeIP(NormalizeIP(t, p).value, p) == NormalizeIP(t, p)
  {
    Renormalise(t, p, p);
  }

  /** Exactly two kinds of text have no key: what does not parse, and IPv4 in CIDR form. */
  lemma KeyExists(t: Text, p: nat)
    requires p <= V6_WIDTH
    ensures NormalizeIP(t, p).Some? <==> !t.Garbage? && !(t.Cidr? && Unmap(t.addr).V4?)
    ensures var k := NormalizeIP(t, p); k.Some? ==> Parsed(k.value) && !k.value.Garbage? && KeyAddr(k.value) == Some(k.value.addr)
  {
    if !t.Garbage? && Unmap(t.addr).V6? {
      MaskNeverMaps(Unmap(t.addr).n, V6_WIDTH - p);
    }
  }
}

/** The never-block list (internal/enforce) and the operator's whitelist (internal/store). */
module NeverBlock {
  import opened NetUtil

  datatype Prefix = Prefix(addr: Addr, bits: nat)

  predicate ValidPrefix(p: Prefix) { p.bits <= Width(p.addr) }

  /** A prefix covers a zone-less address of its own family that shares its leading bits. */
  predicate Covers(p: Prefix, a: Addr)
    requires ValidPrefix(p)
  {
    && p.addr.V4? == a.V4?
    && (a.V6? ==> a.zone == "")
    && Shr(a.n, Width(a) - p.bits) == Shr(p.addr.n, Width(a) - p.bits)
  }

  /** The list entry a text stands for: a prefix, or a single zone-less host. */
  function EntryOf(t: Text): (r: Option<Prefix>)
    requires Parsed(t)
    ensures r.Some? ==> ValidPrefix(r.value)
  {
    match t
    case Cidr(a, bits) => Some(Prefix(a.(n := Mask(a.n, Width(a) - bits)), bits))
    case Bare(a) =>
      var u := Unmap(a);
      if u.V6? && u.zone != "" then None else Some(Prefix(u, Width(u)))
    case Garbage(_) => None
  }

  ghost predicate ValidList(prefixes: seq<Prefix>) {
    forall i :: 0 <= i < |prefixes| ==> ValidPrefix(prefixes[i])
  }

  /** Builds the list; entries that denote no prefix are skipped. */
  method NewNeverBlockList(all: seq<Text>) returns (prefixes: seq<Prefix>)
    requires forall i :: 0 <= i < |all| ==> Parsed(all[i])
    ensures ValidList(prefixes)
    ensures forall a :: ListCovers(prefixes, a) <==> exists i :: 0 <= i < |all| && EntryOf(all[i]).Some? && Covers(EntryOf(all[i]).value, a)
  {
    prefixes := [];
    for i := 0 to |all|
      invariant ValidList(prefixes)
      invariant forall p :: p in prefixes <==> exists j :: 0 <= j < i && EntryOf(all[j]) == Some(p)
    {
      var entry := EntryOf(all[i]);
      if entry.Some? {
        prefixes := prefixes + [entry.value];
      }
    }
  }

  ghost predicate ListCovers(prefixes: seq<Prefix>, a: Addr)
    requires ValidList(prefixes)
  {
    exists p :: p in prefixes && Covers(p, a)
  }

  method Contains(prefixes: seq<Prefix>, ip: Text) returns (found: bool)
    requires ValidList(prefixes)
    ensures found == (KeyAddr(ip).Some? && ListCovers(prefixes, KeyAddr(ip).value))
  {
    var addr := KeyAddr(ip);
    if addr.None? {
      return false;
    }
    for i := 0 to |prefixes|
      invariant forall j :: 0 <= j < i ==> !Covers(prefixes[j], addr.value)
    {
      if Covers(prefixes[i], addr.value) {
        return true;
      }
    }
    return false;
  }

  // ---------------------------------------------------------------- does covering survive normalisation?

  /** An entry is aligned to /p when it starts at the first address of a /p block. */
  predicate Aligned(e: Prefix, p: nat)
    requires p <= Width(e.addr)
  {
    Mask(e.addr.n, Width(e.addr) - p) == e.addr.n
  }

  predicate Masked(e: Prefix)
    requires ValidPrefix(e)
  {
    Mask(e.addr.n, Width(e.addr) - e.bits) == e.addr.n
  }

  /** An entry no longer than the configured prefix covers an address's key iff it covers the address
      without its zone. An address with a zone is covered by no entry, though its key may be. */
  lemma CoarseEntriesProtectKeys(e: Prefix, t: Text, p: nat)
    requires ValidPrefix(e) && p <= V6_WIDTH && NormalizeIP(t, p).Some?
    requires e.addr.V6? ==> e.bits <= p
    ensures var a, key := Unmap(t.addr), KeyAddr(NormalizeIP(t, p).value).value;
            && (Covers(e, key) <==> Covers(e, if a.V6? then a.(zone := "") else a))
            && (Covers(e, a) <==> Covers(e, key) && (a.V6? ==> a.zone == ""))
  {
    KeyExists(t, p);
    var a := Unmap(t.addr);
    if a.V6? && e.addr.V6? {
      ShrMask(a.n, V6_WIDTH - p, V6_WIDTH - e.bits);
    }
  }

  /** An IPv6 entry protects the key of an address it covers exactly when it is no longer than the
      configured prefix or starts on a block boundary of that prefix. */
  lemma EntryProtectsKeyIff(e: Prefix, t: Text, p: nat)
    requires ValidPrefix(e) && e.addr.V6? && Masked(e) && p <= V6_WIDTH && NormalizeIP(t, p).Some?
    requires Covers(e, Unmap(t.addr))
    ensures Covers(e, KeyAddr(NormalizeIP(t, p).value).value) <==> e.bits <= p || Aligned(e, p)
  {
    var a := Unmap(t.addr);
    KeyExists(t, p);
    if e.bits <= p {
      CoarseEntriesProtectKeys(e, t, p);
    } else {
      var host, wide := V6_WIDTH - e.bits, V6_WIDTH - p;
      ShrMask(a.n, wide, host);
      ShrMask(e.addr.n, wide, host);
      MaskAbsorbs(e.addr.n, host, wide);
      AlignedIff(e.addr.n, host, wide);
    }
  }

  /** For a number with its low bits clear, being aligned further up shows in the remaining bits. */
  lemma AlignedIff(n: nat, host: nat, wide: nat)
    requires host <= wide && Mask(n, host) == n
    ensures Mask(n, wide) == n <==> Mask(Shr(n, host), wide - host) == Shr(n, host)
  {
    ShrMask(n, wide, host);
    var x := Shr(n, wide);
    ShrAdd(n, host, wide - host);
    ShlAdd(x, wide - host, host);
  }

  /** The default entry ::1/128 does not protect the loopback key under /64. */
  lemma LoopbackKeyUnprotected()
    ensures var loopback := Bare(V6(1, ""));
            var entry := EntryOf(Cidr(V6(1, ""), 128)).value;
            && Covers(entry, Unmap(loopback.addr))
            && NormalizeIP(loopback, 64).Some?
            && !Covers(entry, KeyAddr(NormalizeIP(loopback, 64).value).value)
  {
    var one := 1;
    ShrOne(32);
    ShrOne(64);
    assert Mask(one, 0) == one;
    EntryProtectsKeyIff(Prefix(V6(one, ""), 128), Bare(V6(one, "")), 64);
    ShlZero(64);
  }

  lemma {:induction false} ShrOne(k: nat)
    requires k > 0
    ensures Shr(1, k) == 0
  {
    if k > 1 { ShrZero(k - 1); }
  }

  lemma {:induction false} ShrZero(k: nat)
    ensures Shr(0, k) == 0
  {
    if k > 0 { ShrZero(k - 1); }
  }

  lemma {:induction false} ShlZero(k: nat)
    ensures Shl(0, k) == 0
  {
    if k > 0 { ShlZero(k - 1); }
  }
}
