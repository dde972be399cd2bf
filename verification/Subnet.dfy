/** The Node's subnet, its VM addresses, and the host names and uids made of them.  Addresses are 32-bit words,
    with the wrap-around of the machine's own. */
module Subnet {
  import opened Common
  import opened Text

  type Address = bv32

  datatype Subnet = Subnet(network: Address, prefixLen: bv32)

  const U32_MAX: bv32 := 0xFFFF_FFFF

  /** What every parsed subnet is. */
  predicate Valid(s: Subnet) { 16 <= s.prefixLen <= 30 && s.network & (U32_MAX >> s.prefixLen) == 0 }

  function Of(address: Address, prefixLen: bv32): (s: Subnet)
    requires 16 <= prefixLen <= 30
    ensures Valid(s)
    ensures address - s.network <= U32_MAX >> prefixLen && s.network <= address
  {
    Subnet(address & (U32_MAX << (32 - prefixLen)), prefixLen)
  }

  function Broadcast(s: Subnet): Address
    requires Valid(s)
  {
    s.network | (U32_MAX >> s.prefixLen)
  }

  function NodeAddress(s: Subnet): Address { s.network + 1 }

  /** The addresses a VM may hold. */
  predicate IsVmAddress(s: Subnet, a: Address)
    requires Valid(s)
  {
    s.network + 2 <= a < Broadcast(s)
  }

  function WithLow16(s: Subnet, low: bv32): Option<Address>
    requires Valid(s) && low <= 0xFFFF
  {
    var a := (s.network & 0xFFFF_0000) | low;
    if IsVmAddress(s, a) then Some(a) else None
  }

  /** No address computed from a subnet wraps, and the Node's own and the broadcast one lie outside the VMs'. */
  lemma NothingOverflows(s: Subnet)
    requires Valid(s)
    ensures s.network < NodeAddress(s) < s.network + 2 < Broadcast(s)
  {
  }

  /** The broadcast address is the last of the subnet's. */
  lemma BroadcastIsLast(s: Subnet)
    requires Valid(s)
    ensures Broadcast(s) - s.network == U32_MAX >> s.prefixLen && s.network <= Broadcast(s)
  {
  }

  function Low16(a: Address): (low: bv32)
    ensures low <= 0xFFFF
  {
    a & 0xFFFF
  }

  lemma LowBits(s: Subnet, a: Address)
    requires Valid(s) && IsVmAddress(s, a)
    ensures (s.network & 0xFFFF_0000) | (a & 0xFFFF) == a
  {
  }

  /** The low 16 bits name one VM address of the subnet, and give no other address than a VM's. */
  lemma WithLow16Inverse(s: Subnet, a: Address)
    requires Valid(s)
    ensures WithLow16(s, Low16(a)) == Some(a) <==> IsVmAddress(s, a)
    ensures WithLow16(s, Low16(a)).Some? ==> IsVmAddress(s, WithLow16(s, Low16(a)).value)
  {
    if IsVmAddress(s, a) { LowBits(s, a); }
  }

  function HexDigit(x: bv32): char
    requires x < 16
  {
    if x == 0 then '0' else if x == 1 then '1' else if x == 2 then '2' else if x == 3 then '3'
    else if x == 4 then '4' else if x == 5 then '5' else if x == 6 then '6' else if x == 7 then '7'
    else if x == 8 then '8' else if x == 9 then '9' else if x == 10 then 'a' else if x == 11 then 'b'
    else if x == 12 then 'c' else if x == 13 then 'd' else if x == 14 then 'e' else 'f'
  }

  predicate IsHexDigit(c: char) { '0' <= c <= '9' || 'a' <= c <= 'f' || 'A' <= c <= 'F' }

  /** A hex digit's value, in either case. */
  function HexValue(c: char): (x: bv32)
    requires IsHexDigit(c)
    ensures x < 16
  {
    if c == '0' then 0 else if c == '1' then 1 else if c == '2' then 2 else if c == '3' then 3
    else if c == '4' then 4 else if c == '5' then 5 else if c == '6' then 6 else if c == '7' then 7
    else if c == '8' then 8 else if c == '9' then 9 else if c == 'a' || c == 'A' then 10
    else if c == 'b' || c == 'B' then 11 else if c == 'c' || c == 'C' then 12
    else if c == 'd' || c == 'D' then 13 else if c == 'e' || c == 'E' then 14 else 15
  }

  const PREFIX := "cirro-"

  function Hex2(octet: bv32): string
    requires octet <= 0xFF
  {
    [HexDigit(octet >> 4), HexDigit(octet & 0xF)]
  }

  /** The name of every host object of the VM at `a`: its last two octets in hex. */
  function HostId(a: Address): string { PREFIX + Hex2((a >> 8) & 0xFF) + Hex2(a & 0xFF) }

  predicate IsHex(s: string) { s != [] && forall i | 0 <= i < |s| :: IsHexDigit(s[i]) }

  function HexNumber(s: string): bv32
    requires IsHex(s)
  {
    if |s| == 1 then HexValue(s[0]) else (HexNumber(s[..|s| - 1]) << 4) + HexValue(s[|s| - 1])
  }

  /** Reads a name back, as the hex of a 16-bit word: upper case passes, and so does a `+` in first place. */
  function ParseHostId(name: string): Option<bv32> {
    if !(PREFIX <= name) || |name| != |PREFIX| + 4 then None
    else
      var hex := name[|PREFIX|..];
      var digits := if hex[0] == '+' then hex[1..] else hex;
      if IsHex(digits) then Some(HexNumber(digits)) else None
  }

  lemma HexDigitRead(x: bv32)
    requires x < 16
    ensures IsHexDigit(HexDigit(x)) && HexValue(HexDigit(x)) == x && HexDigit(x) != '+'
  {
  }

  lemma HexNumberGrows(s: string, c: char)
    requires IsHex(s) && IsHexDigit(c)
    ensures IsHex(s + [c]) && HexNumber(s + [c]) == (HexNumber(s) << 4) + HexValue(c)
  {
    assert (s + [c])[..|s|] == s;
  }

  lemma NibblesSum(a: bv32)
    ensures ((((((((a >> 12) & 0xF) << 4) + ((a >> 8) & 0xF)) << 4) + ((a >> 4) & 0xF)) << 4) + (a & 0xF)) == Low16(a)
  {
  }

  lemma Nibbles(a: bv32)
    ensures ((a >> 8) & 0xFF) >> 4 == (a >> 12) & 0xF
    ensures ((a >> 8) & 0xFF) & 0xF == (a >> 8) & 0xF
    ensures (a & 0xFF) >> 4 == (a >> 4) & 0xF
    ensures (a & 0xFF) & 0xF == a & 0xF
  {
  }

  function Digits4(w: bv32, x: bv32, y: bv32, z: bv32): string
    requires w < 16 && x < 16 && y < 16 && z < 16
  {
    [HexDigit(w), HexDigit(x), HexDigit(y), HexDigit(z)]
  }

  lemma HexNumberOf4(w: bv32, x: bv32, y: bv32, z: bv32)
    requires w < 16 && x < 16 && y < 16 && z < 16
    ensures IsHex(Digits4(w, x, y, z))
    ensures HexNumber(Digits4(w, x, y, z)) == (((((w << 4) + x) << 4) + y) << 4) + z
  {
    HexDigitRead(w);
    HexDigitRead(x);
    HexDigitRead(y);
    HexDigitRead(z);
    var s1: string := [HexDigit(w)];
    HexNumberGrows(s1, HexDigit(x));
    HexNumberGrows(s1 + [HexDigit(x)], HexDigit(y));
    HexNumberGrows(s1 + [HexDigit(x)] + [HexDigit(y)], HexDigit(z));
    assert s1 + [HexDigit(x)] + [HexDigit(y)] + [HexDigit(z)] == Digits4(w, x, y, z);
  }

  lemma HostIdDigits(a: Address)
    ensures HostId(a) == PREFIX + Digits4((a >> 12) & 0xF, (a >> 8) & 0xF, (a >> 4) & 0xF, a & 0xF)
  {
    Nibbles(a);
  }

  lemma ParseOfDigits(w: bv32, x: bv32, y: bv32, z: bv32)
    requires w < 16 && x < 16 && y < 16 && z < 16 && IsHex(Digits4(w, x, y, z))
    ensures ParseHostId(PREFIX + Digits4(w, x, y, z)) == Some(HexNumber(Digits4(w, x, y, z)))
  {
    HexDigitRead(w);
    assert (PREFIX + Digits4(w, x, y, z))[|PREFIX|..] == Digits4(w, x, y, z);
  }

  lemma ParseOfHostId(a: Address)
    ensures ParseHostId(HostId(a)) == Some(Low16(a))
  {
    var w, x, y, z := (a >> 12) & 0xF, (a >> 8) & 0xF, (a >> 4) & 0xF, a & 0xF;
    HostIdDigits(a);
    HexNumberOf4(w, x, y, z);
    ParseOfDigits(w, x, y, z);
    NibblesSum(a);
  }

  /** From the name of a host object the sweep gets back the VM address that made it, and from the name of
      anything else of that form no address but a VM's. */
  lemma HostIdRoundTrip(s: Subnet, a: Address)
    requires Valid(s)
    ensures ParseHostId(HostId(a)).Some? && ParseHostId(HostId(a)).value <= 0xFFFF
    ensures WithLow16(s, ParseHostId(HostId(a)).value) == Some(a) <==> IsVmAddress(s, a)
  {
    ParseOfHostId(a);
    WithLow16Inverse(s, a);
  }

  lemma HexNumberFits(s: string)
    requires |s| <= 4 && IsHex(s)
    ensures HexNumber(s) <= 0xFFFF
    ensures |s| <= 3 ==> HexNumber(s) <= 0xFFF
    ensures |s| <= 2 ==> HexNumber(s) <= 0xFF
    ensures |s| <= 1 ==> HexNumber(s) <= 0xF
  {
    if |s| > 1 { HexNumberFits(s[..|s| - 1]); }
  }

  /** Every name that passes stands for a 16-bit word: reading it never overflows. */
  lemma ParsedHostIdFits(name: string)
    ensures ParseHostId(name).Some? ==> ParseHostId(name).value <= 0xFFFF
  {
    if ParseHostId(name).Some? {
      var hex := name[|PREFIX|..];
      HexNumberFits(if hex[0] == '+' then hex[1..] else hex);
    }
  }

  const VM_UID_BASE: bv32 := 900_000

  function Uid(a: Address): bv32 { VM_UID_BASE + ((((a >> 8) & 0xFF) << 8) | (a & 0xFF)) }

  lemma UidIs(a: Address)
    ensures Uid(a) - VM_UID_BASE == Low16(a) && VM_UID_BASE <= Uid(a)
  {
  }

  /** Two VM addresses of a subnet share neither the name of a host object nor a uid. */
  lemma HostIdsAndUidsDistinct(s: Subnet, a: Address, b: Address)
    requires Valid(s) && IsVmAddress(s, a) && IsVmAddress(s, b)
    requires HostId(a) == HostId(b) || Uid(a) == Uid(b)
    ensures a == b
  {
    ParseOfHostId(a);
    ParseOfHostId(b);
    UidIs(a);
    UidIs(b);
    WithLow16Inverse(s, a);
    WithLow16Inverse(s, b);
  }

  // ------------------------------------------------------------------ text --

  /** The octet `shift` bits up. */
  function Octet(a: Address, shift: bv32): bv8
    requires shift <= 24
  {
    ((a >> shift) & 0xFF) as bv8
  }

  function PrintOctet(o: bv8): string { Print(o as nat) }

  function PrintAddress(a: Address): string {
    PrintOctet(Octet(a, 24)) + "." + (PrintOctet(Octet(a, 16)) + "." + (PrintOctet(Octet(a, 8)) + "." + PrintOctet(Octet(a, 0))))
  }

  /** An octet in decimal: one to three digits, no needless zero. */
  function ParseOctet(s: string): Option<bv8> {
    if s == [] || |s| > 3 || !AllDigits(s) || (s[0] == '0' && |s| > 1) || Value(s) > 255 then None
    else Some(Value(s) as bv8)
  }

  function Joined(a: bv8, b: bv8, c: bv8, d: bv8): Address {
    ((a as bv32) << 24) | ((b as bv32) << 16) | ((c as bv32) << 8) | (d as bv32)
  }

  function ParseAddress(s: string): Option<Address> {
    var p := SplitOnce(s, '.');
    if p.None? then None else
    var q := SplitOnce(p.value.1, '.');
    if q.None? then None else
    var r := SplitOnce(q.value.1, '.');
    if r.None? then None else
    var a, b, c, d := ParseOctet(p.value.0), ParseOctet(q.value.0), ParseOctet(r.value.0), ParseOctet(r.value.1);
    if a.Some? && b.Some? && c.Some? && d.Some? then Some(Joined(a.value, b.value, c.value, d.value)) else None
  }

  function PrintLength(p: bv32): string { Print(p as nat) }

  function PrintSubnet(s: Subnet): string { PrintAddress(s.network) + "/" + PrintLength(s.prefixLen) }

  /** A prefix length, in what `u8` holds, from 16 to 30. */
  function ParseLength(s: string): (p: Option<bv32>)
    ensures p.Some? ==> 16 <= p.value <= 30
  {
    var n := Parse(s, 255);
    if n.None? || !(16 <= n.value <= 30) then None else LengthFits(n.value); Some(n.value as bv32)
  }

  lemma LengthFits(n: nat)
    requires 16 <= n <= 30
    ensures 16 <= n as bv32 <= 30
  {
  }

  function ParseSubnet(s: string): (r: Option<Subnet>)
    ensures r.Some? ==> Valid(r.value)
  {
    var parts := SplitOnce(s, '/');
    if parts.None? then None else
    var address, prefixLen := ParseAddress(parts.value.0), ParseLength(parts.value.1);
    if address.None? || prefixLen.None? then None else Some(Of(address.value, prefixLen.value))
  }

  lemma OctetAsNat(o: bv8)
    ensures o as nat <= 255 && (o as nat) as bv8 == o
  {
  }

  lemma PrintedBelow100(n: nat)
    requires n < 100
    ensures |Print(n)| == (if n < 10 then 1 else 2) && (n > 0 ==> Print(n)[0] != '0')
  {
    if n >= 10 { assert Print(n / 10) == [Digit(n / 10)]; }
  }

  lemma PrintedOctet(n: nat)
    requires n <= 255
    ensures |Print(n)| <= 3 && (|Print(n)| > 1 ==> Print(n)[0] != '0')
  {
    if n >= 100 {
      PrintedBelow100(n / 10);
    } else {
      PrintedBelow100(n);
    }
  }

  lemma ParseOfPrintOctet(o: bv8)
    ensures ParseOctet(PrintOctet(o)) == Some(o)
  {
    OctetAsNat(o);
    ValueOfPrint(o as nat);
    PrintedOctet(o as nat);
  }

  lemma OctetsJoined(a: Address)
    ensures Joined(Octet(a, 24), Octet(a, 16), Octet(a, 8), Octet(a, 0)) == a
  {
  }

  lemma ParseOfPrintAddress(a: Address)
    ensures ParseAddress(PrintAddress(a)) == Some(a)
  {
    var a0, a1, a2, a3 := Octet(a, 24), Octet(a, 16), Octet(a, 8), Octet(a, 0);
    var o0, o1, o2, o3 := PrintOctet(a0), PrintOctet(a1), PrintOctet(a2), PrintOctet(a3);
    SplitOnceIs(o2, '.', o3);
    SplitOnceIs(o1, '.', o2 + "." + o3);
    SplitOnceIs(o0, '.', o1 + "." + (o2 + "." + o3));
    ParseOfPrintOctet(a0);
    ParseOfPrintOctet(a1);
    ParseOfPrintOctet(a2);
    ParseOfPrintOctet(a3);
    OctetsJoined(a);
  }

  lemma LengthAsNat(p: bv32)
    requires 16 <= p <= 30
    ensures 16 <= p as nat <= 30 && (p as nat) as bv32 == p
  {
  }

  lemma ParseOfPrintLength(p: bv32)
    requires 16 <= p <= 30
    ensures ParseLength(PrintLength(p)) == Some(p)
  {
    LengthAsNat(p);
    ParseOfPrint(p as nat, 255);
  }

  lemma NetworkMasked(s: Subnet)
    requires Valid(s)
    ensures Of(s.network, s.prefixLen) == s
  {
  }

  lemma NoSlash(a: Address)
    ensures '/' !in PrintAddress(a)
  {
  }

  /** Any address with a prefix length reads as the subnet it is in. */
  lemma ParseOfAnyAddress(a: Address, prefixLen: bv32)
    requires 16 <= prefixLen <= 30
    ensures ParseSubnet(PrintAddress(a) + "/" + PrintLength(prefixLen)) == Some(Of(a, prefixLen))
  {
    NoSlash(a);
    SplitOnceIs(PrintAddress(a), '/', PrintLength(prefixLen));
    ParseOfPrintAddress(a);
    ParseOfPrintLength(prefixLen);
  }

  /** A printed subnet parses back to itself. */
  lemma SubnetRoundTrip(s: Subnet)
    requires Valid(s)
    ensures ParseSubnet(PrintSubnet(s)) == Some(s)
  {
    ParseOfAnyAddress(s.network, s.prefixLen);
    NetworkMasked(s);
  }

  /** The state database takes an agent back exactly when its subnet is the one it was made for. */
  lemma StoreTakesItsOwnSubnet(stored: Subnet, given: Subnet)
    requires Valid(stored) && Valid(given)
    ensures PrintSubnet(stored) == PrintSubnet(given) <==> stored == given
  {
    SubnetRoundTrip(stored);
    SubnetRoundTrip(given);
  }
}
