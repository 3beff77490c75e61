/** Which sources are on-link (remoted/src/network.rs). Addresses are the
    numbers that their bytes write; text and JSON are parsed elsewhere. */
module Network {
  import opened Words

  datatype IpAddr = V4(bits: nat) | V6(bits: nat)

  function Width(address: IpAddr): nat {
    if address.V4? then 32 else 128
  }

  predicate IsAddress(address: IpAddr) {
    address.bits < Pow2(Width(address))
  }

  datatype Prefix = Prefix(network: IpAddr, length: nat)

  datatype View = View(listen: seq<IpAddr>, prefixes: seq<Prefix>)

  /** `u32::MAX.checked_shl(32 - length).unwrap_or(0)`, and likewise for 128. */
  function NetMask(width: nat, length: nat): nat
    requires length <= width
  {
    var shift := width - length;
    if shift >= width then 0 else Shl(Pow2(width) - 1, shift, width)
  }

  /** network.rs `mask`. */
  function Masked(address: IpAddr, length: nat): IpAddr
    requires length <= Width(address)
  {
    match address
    case V4(bits) => V4(And(bits, NetMask(32, length)))
    case V6(bits) => V6(And(bits, NetMask(128, length)))
  }

  function NewPrefix(address: IpAddr, length: nat): Prefix
    requires length <= Width(address)
  {
    Prefix(Masked(address, length), length)
  }

  predicate Contains(prefix: Prefix, address: IpAddr) {
    && address.V4? == prefix.network.V4?
    && prefix.length <= Width(address)
    && Masked(address, prefix.length) == prefix.network
  }

  lemma WordSize()
    ensures Pow2(32) == 0x1_0000_0000
  {
    assert Pow2(8) == 0x100;
    assert Pow2(16) == 0x1_0000;
    assert Pow2(24) == 0x100_0000;
  }

  /** IPv4-mapped IPv6 addresses are compared as IPv4 (section 2.5.5.2 of RFC
      4291: 80 zero bits, 16 one bits, then the IPv4 address). */
  function Canonical(address: IpAddr): (c: IpAddr)
    ensures IsAddress(address) ==> IsAddress(c)
  {
    WordSize();
    if address.V6? && address.bits / 0x1_0000_0000 == 0xFFFF then V4(address.bits % 0x1_0000_0000)
    else address
  }

  /** The address ::ffff:a.b.c.d that stands for the IPv4 address `x`. */
  function Mapped(x: nat): IpAddr {
    V6(0xFFFF_0000_0000 + x)
  }

  ghost predicate IsMapped(address: IpAddr) {
    exists x: nat :: x < 0x1_0000_0000 && address == Mapped(x)
  }

  /** Only the 2^32 mapped addresses are changed. */
  lemma CanonicalDecides(address: IpAddr)
    ensures forall x: nat :: x < 0x1_0000_0000 && address == Mapped(x) ==> Canonical(address) == V4(x)
    ensures !IsMapped(address) ==> Canonical(address) == address
  {
    if address.V6? && address.bits / 0x1_0000_0000 == 0xFFFF {
      assert address == Mapped(address.bits % 0x1_0000_0000);
    }
  }

  predicate OnLink(view: View, source: IpAddr) {
    exists i :: 0 <= i < |view.prefixes| && Contains(view.prefixes[i], Canonical(source))
  }

  // ----- The interval that a prefix stands for -----

  /** Section 3.1 of RFC 4632: a prefix of `length` bits is the block of
      2^(width-length) addresses that share them with `address`. */
  predicate InBlock(address: IpAddr, length: nat, source: IpAddr)
    requires length <= Width(address)
  {
    var size := Pow2(Width(address) - length);
    var start := address.bits - Low(address.bits, Width(address) - length);
    source.V4? == address.V4? && start <= source.bits < start + size
  }

  lemma MaskClears(bits: nat, width: nat, length: nat)
    requires 0 < length <= width && bits < Pow2(width)
    ensures Low(bits, width - length) <= bits
    ensures And(bits, NetMask(width, length)) == bits - Low(bits, width - length)
  {
    ShiftedOnes(width, width - length);
    AndHighMask(bits, width, width - length);
    Split(bits, width - length);
  }

  lemma MaskedAlike(x: nat, y: nat, width: nat, length: nat)
    requires 0 < length <= width && x < Pow2(width) && y < Pow2(width)
    ensures And(x, NetMask(width, length)) == And(y, NetMask(width, length)) <==>
            y - Low(y, width - length) <= x < y - Low(y, width - length) + Pow2(width - length)
  {
    MaskClears(x, width, length);
    MaskClears(y, width, length);
    SameBlock(x, y, width - length);
  }

  /** The shift-and-mask test is the interval test. */
  lemma ContainsIsInBlock(address: IpAddr, length: nat, source: IpAddr)
    requires IsAddress(address) && IsAddress(source) && 0 < length <= Width(address)
    ensures Contains(NewPrefix(address, length), source) <==> InBlock(address, length, source)
  {
    if source.V4? == address.V4? {
      MaskedAlike(source.bits, address.bits, Width(address), length);
    }
  }

  // ----- Session1's status -----

  /** One entry of `addresses` after `split_once('/')` and both parses. */
  datatype Entry = Malformed | Entry(address: IpAddr, length: nat)

  datatype Status = Status(schema: string, primary: Primary)
  datatype Primary = NoPrimary | Primary(addresses: seq<Entry>)

  datatype Parsed = Err | Ok(view: View)

  predicate Accepted(entry: Entry) {
    entry.Entry? && 0 < entry.length <= Width(entry.address)
  }

  predicate Listenable(address: IpAddr) {
    match address
    case V4(bits) =>
      // not 127.0.0.0/8, 0.0.0.0, 224.0.0.0/4 or 169.254.0.0/16
      && bits / 0x100_0000 != 127 && bits != 0
      && bits / 0x1000_0000 != 0xE && bits / 0x1_0000 != 0xA9FE
    case V6(bits) =>
      // not ::1, ::, ff00::/8 or fe80::/10
      && bits != 1 && bits != 0
      && Segment0(bits) / 0x100 != 0xFF && And(Segment0(bits), 0xFFC0) != 0xFE80
  }

  function Segment0(bits: nat): nat {
    bits / 0x1_0000_0000_0000_0000_0000_0000_0000
  }

  /** The intervals in which nothing listens. */
  predicate ListensOn(address: IpAddr) {
    match address
    case V4(bits) =>
      && bits != 0 && !(0x7F00_0000 <= bits <= 0x7FFF_FFFF)
      && !(0xA9FE_0000 <= bits <= 0xA9FE_FFFF) && !(0xE000_0000 <= bits <= 0xEFFF_FFFF)
    case V6(bits) =>
      && bits != 0 && bits != 1
      && !(0xFE80_0000_0000_0000_0000_0000_0000_0000 <= bits < 0xFEC0_0000_0000_0000_0000_0000_0000_0000)
      && bits < 0xFF00_0000_0000_0000_0000_0000_0000_0000
  }

  lemma LinkLocal(segment: nat)
    requires segment < 0x1_0000
    ensures And(segment, 0xFFC0) == 0xFE80 <==> 0xFE80 <= segment < 0xFEC0
  {
    assert Pow2(6) == 64;
    assert Pow2(16) == 0x1_0000 by { assert Pow2(8) == 0x100; }
    AndHighMask(segment, 16, 6);
    assert Low(0xFE80, 6) == 0;
    SameBlock(segment, 0xFE80, 6);
  }

  lemma LargestAddress(bits: nat)
    requires bits < Pow2(128)
    ensures bits < 0x1_0000_0000_0000_0000_0000_0000_0000_0000
  {
    WordSize();
    PowSum(32, 32);
    PowSum(64, 64);
  }

  lemma PowSum(a: nat, b: nat)
    ensures Pow2(a + b) == Pow2(a) * Pow2(b)
  {
    TimesPow2(a, b);
    TimesIsProduct(Pow2(a), b);
  }

  lemma ListenableDecides(address: IpAddr)
    requires IsAddress(address)
    ensures Listenable(address) <==> ListensOn(address)
  {
    if address.V6? {
      LargestAddress(address.bits);
      LinkLocal(Segment0(address.bits));
    }
  }

  /** network.rs `view_from_status`. */
  method ViewFromStatus(status: Status) returns (r: Parsed)
    ensures r.Err? <==>
            || status.schema != "0.4"
            || (status.primary.Primary? && exists i :: 0 <= i < |status.primary.addresses| && !Accepted(status.primary.addresses[i]))
    ensures r.Ok? && status.primary.NoPrimary? ==> r.view == View([], [])
    ensures r.Ok? && status.primary.Primary? ==> Lists(r.view, status.primary.addresses)
  {
    if status.schema != "0.4" {
      return Err;
    }
    if status.primary.NoPrimary? {
      return Ok(View([], []));
    }
    var entries := status.primary.addresses;
    assert entries[..|entries|] == entries;
    var view := View([], []);
    for i := 0 to |entries|
      invariant Lists(view, entries[..i])
    {
      var entry := entries[i];
      if entry.Malformed? || entry.length == 0 || entry.length > Width(entry.address) {
        assert !Accepted(entries[i]);
        return Err;
      }
      ListsMore(view, entries, i);
      var prefixes := view.prefixes + [NewPrefix(entry.address, entry.length)];
      var listen := view.listen;
      if Listenable(entry.address) && entry.address !in view.listen {
        listen := listen + [entry.address];
      }
      view := View(listen, prefixes);
    }
    return Ok(view);
  }

  /** The prefixes of all entries in order, and the listenable addresses, each
      once and in the order of their first occurrence. */
  ghost predicate Lists(view: View, entries: seq<Entry>) {
    && (forall i :: 0 <= i < |entries| ==> Accepted(entries[i]))
    && |view.prefixes| == |entries|
    && (forall i :: 0 <= i < |entries| ==> view.prefixes[i] == NewPrefix(entries[i].address, entries[i].length))
    && view.listen == FirstListenable(entries)
  }

  function FirstListenable(entries: seq<Entry>): seq<IpAddr> {
    if entries == [] then []
    else
      var earlier, last := FirstListenable(entries[..|entries| - 1]), entries[|entries| - 1];
      if last.Entry? && Listenable(last.address) && last.address !in earlier then earlier + [last.address] else earlier
  }

  function WithEntry(view: View, entry: Entry): View
    requires Accepted(entry)
  {
    View(if Listenable(entry.address) && entry.address !in view.listen
         then view.listen + [entry.address] else view.listen,
         view.prefixes + [NewPrefix(entry.address, entry.length)])
  }

  lemma ListsMore(view: View, entries: seq<Entry>, i: nat)
    requires i < |entries| && Lists(view, entries[..i]) && Accepted(entries[i])
    ensures Lists(WithEntry(view, entries[i]), entries[..i + 1])
  {
    hide NewPrefix, Listenable;
    assert entries[..i + 1][..i] == entries[..i];
  }

  /** Nothing is listened on twice, and exactly the listed addresses outside the
      intervals are listened on. */
  lemma {:induction false} ListenExactly(entries: seq<Entry>)
    requires forall i :: 0 <= i < |entries| && entries[i].Entry? ==> IsAddress(entries[i].address)
    ensures forall a :: a in FirstListenable(entries) <==>
                        ListensOn(a) && exists i :: 0 <= i < |entries| && entries[i].Entry? && entries[i].address == a
    ensures forall i, j :: 0 <= i < j < |FirstListenable(entries)| ==>
                           FirstListenable(entries)[i] != FirstListenable(entries)[j]
  {
    hide Listenable, ListensOn, IsAddress;
    if entries != [] {
      var n := |entries| - 1;
      ListenExactly(entries[..n]);
      if entries[n].Entry? {
        ListenableDecides(entries[n].address);
      }
    }
  }

  /** An entry covers the addresses of its block, and an IPv4 entry also the
      mapped forms of these; no IPv6 entry covers a mapped address. */
  ghost predicate Covers(entry: Entry, source: IpAddr)
    requires Accepted(entry)
  {
    if IsMapped(source) then
      exists x: nat :: x < 0x1_0000_0000 && source == Mapped(x) && entry.address.V4?
                       && InBlock(entry.address, entry.length, V4(x))
    else InBlock(entry.address, entry.length, source)
  }

  lemma CoversMeans(entry: Entry, source: IpAddr)
    requires Accepted(entry)
    ensures Covers(entry, source) <==> InBlock(entry.address, entry.length, Canonical(source))
  {
    hide Canonical;
    CanonicalDecides(source);
    if IsMapped(source) {
      var x: nat :| x < 0x1_0000_0000 && source == Mapped(x);
      assert Canonical(source) == V4(x);
    }
  }

  /** Main result: for a view that a status yields, a source is on-link exactly
      when some listed entry covers it. */
  lemma OnLinkIsInSomeBlock(view: View, entries: seq<Entry>, source: IpAddr)
    requires Lists(view, entries) && IsAddress(source)
    requires forall i :: 0 <= i < |entries| ==> IsAddress(entries[i].address)
    ensures OnLink(view, source) <==> exists i :: 0 <= i < |entries| && Covers(entries[i], source)
  {
    hide Covers, Canonical, InBlock, Contains;
    forall i | 0 <= i < |entries|
      ensures Contains(view.prefixes[i], Canonical(source)) <==> Covers(entries[i], source)
    {
      ContainsIsInBlock(entries[i].address, entries[i].length, Canonical(source));
      CoversMeans(entries[i], source);
    }
  }
}
