/** Node ids: how a node prints 16 random bytes, and what the directory takes for a UUID. */
module Uuid {
  import opened Wire

  // ---- The directory's check -----------------------------------------------------------------

  predicate IsHexDigit(b: int) {
    ('0' as int <= b <= '9' as int) || ('a' as int <= b <= 'f' as int) || ('A' as int <= b <= 'F' as int)
  }

  predicate IsDashPlace(i: int) { i == 8 || i == 13 || i == 18 || i == 23 }

  /** Bytes of a character in UTF-8. */
  function Width(c: char): nat {
    if (c as int) < 0x80 then 1 else if (c as int) < 0x800 then 2 else if (c as int) < 0x1_0000 then 3 else 4
  }

  function ByteLength(s: string): nat { if s == "" then 0 else Width(s[0]) + ByteLength(s[1..]) }

  /** The loop over characters; `i` is a byte offset, and a character is cut down to its low byte. */
  predicate Scan(s: string, i: nat) {
    s == "" ||
    ((if IsDashPlace(i) then s[0] == '-' else IsHexDigit(s[0] as int % 256)) && Scan(s[1..], i + Width(s[0])))
  }

  predicate IsUUID(value: string) { ByteLength(value) == 36 && Scan(value, 0) }

  // ---- The form of a UUID (section 3 of RFC 4122) --------------------------------------------

  predicate CanonicalAt(c: char, i: int) { if IsDashPlace(i) then c == '-' else IsHexDigit(c as int) }

  predicate Canonical(s: string) {
    |s| == 36 && forall i :: 0 <= i < 36 ==> CanonicalAt(s[i], i)
  }

  /** The digits of both cases, and nothing else. */
  lemma HexDigitsAre(c: char)
    ensures IsHexDigit(c as int) <==> c in "0123456789abcdefABCDEF"
  {
    var all := "0123456789abcdefABCDEF";
    if '0' <= c <= '9' {
      assert all[c as int - '0' as int] == c;
    } else if 'a' <= c <= 'f' {
      assert all[c as int - 'a' as int + 10] == c;
    } else if 'A' <= c <= 'F' {
      assert all[c as int - 'A' as int + 16] == c;
    }
  }

  predicate IsAscii(s: string) { forall i :: 0 <= i < |s| ==> (s[i] as int) < 0x80 }

  lemma {:induction false} AsciiScan(s: string, i: nat)
    requires IsAscii(s)
    ensures ByteLength(s) == |s|
    ensures Scan(s, i) <==> forall k :: 0 <= k < |s| ==> CanonicalAt(s[k], i + k)
  {
    if s != "" {
      AsciiScan(s[1..], i + 1);
      assert forall k :: 1 <= k < |s| ==> s[k] == s[1..][k - 1];
    }
  }

  /** On ASCII strings the check accepts exactly the 8-4-4-4-12 hexadecimal form. */
  lemma AsciiUUIDs(s: string)
    ensures IsUUID(s) && IsAscii(s) <==> Canonical(s)
  {
    if Canonical(s) {
      forall i | 0 <= i < |s|
        ensures (s[i] as int) < 0x80
      {
        assert CanonicalAt(s[i], i);
      }
    }
    if IsAscii(s) {
      AsciiScan(s, 0);
    }
  }

  /** Off ASCII it accepts more: any UUID with its first two digits replaced by a capital I with a dot above. */
  lemma NonAsciiAccepted(c: string)
    requires Canonical(c)
    ensures var s := ['\U{0130}'] + c[2..];
            IsUUID(s) && !Canonical(s)
  {
    var s := ['\U{0130}'] + c[2..];
    assert s[1..] == c[2..];
    forall i | 0 <= i < |c|
      ensures (c[i] as int) < 0x80
    {
      assert CanonicalAt(c[i], i);
    }
    AsciiScan(c[2..], 2);
    assert forall k :: 0 <= k < |c[2..]| ==> CanonicalAt(c[2..][k], 2 + k);
  }

  // ---- The node's id -------------------------------------------------------------------------

  function HexChar(n: nat): (c: char)
    requires n < 16
    ensures IsHexDigit(c as int) && c != '-' && (c as int) < 0x80 && HexValue(c) == n && !('A' <= c <= 'F')
  {
    if n < 10 then (n as char) + '0' else ((n - 10) as char) + 'a'
  }

  function HexValue(c: char): nat {
    if '0' <= c <= '9' then c as int - '0' as int
    else if 'a' <= c <= 'f' then c as int - 'a' as int + 10
    else if 'A' <= c <= 'F' then c as int - 'A' as int + 10
    else 0
  }

  function Hex(b: seq<octet>): string {
    if b == [] then "" else [HexChar(b[0] as int / 16), HexChar(b[0] as int % 16)] + Hex(b[1..])
  }

  function Print(b: seq<octet>): string
    requires |b| == 16
  {
    Hex(b[0..4]) + "-" + Hex(b[4..6]) + "-" + Hex(b[6..8]) + "-" + Hex(b[8..10]) + "-" + Hex(b[10..])
  }

  /** Version 4 in the high half of byte 6, variant 10 in the top bits of byte 8 (section 4.4 of RFC 4122). */
  function Stamp(r: seq<octet>): (b: seq<octet>)
    requires |r| == 16
    ensures |b| == 16
  {
    r[6 := (r[6] as int % 16 + 0x40) as octet][8 := (r[8] as int % 64 + 0x80) as octet]
  }

  /** Overwrites the two bytes in the buffer, masking and setting bits, then prints the buffer. */
  method GenerateNodeID(random: seq<octet>) returns (id: string)
    requires |random| == 16
    ensures id == Print(Stamp(random)) && IsUUID(id)
  {
    var b := new octet[16](i requires 0 <= i < 16 => random[i]);
    b[6] := (b[6] as int % 16 + 0x40) as octet;
    b[8] := (b[8] as int % 64 + 0x80) as octet;
    assert b[..] == Stamp(random);
    id := Hex(b[0..4]) + "-" + Hex(b[4..6]) + "-" + Hex(b[6..8]) + "-" + Hex(b[8..10]) + "-" + Hex(b[10..]);
    assert b[0..4] == b[..][0..4] && b[4..6] == b[..][4..6] && b[6..8] == b[..][6..8];
    assert b[8..10] == b[..][8..10] && b[10..] == b[..][10..];
    PrintedIsCanonical(Stamp(random));
    AsciiUUIDs(id);
  }

  lemma {:induction false} HexAt(b: seq<octet>, k: nat)
    requires k < |b|
    ensures |Hex(b)| == 2 * |b|
    ensures Hex(b)[2 * k] == HexChar(b[k] as int / 16) && Hex(b)[2 * k + 1] == HexChar(b[k] as int % 16)
    decreases k
  {
    HexLength(b);
    if k > 0 {
      HexAt(b[1..], k - 1);
    }
  }

  lemma {:induction false} HexLength(b: seq<octet>)
    ensures |Hex(b)| == 2 * |b|
  {
    if b != [] {
      HexLength(b[1..]);
    }
  }

  lemma {:induction false} HexIsHex(b: seq<octet>)
    ensures |Hex(b)| == 2 * |b| && forall i :: 0 <= i < |Hex(b)| ==> IsHexDigit(Hex(b)[i] as int)
  {
    if b != [] {
      HexIsHex(b[1..]);
    }
  }

  /** The place in the printed form where the two digits of byte `k` start. */
  function Place(k: nat): nat {
    2 * k + if k < 4 then 0 else if k < 6 then 1 else if k < 8 then 2 else if k < 10 then 3 else 4
  }

  /** The two digits of byte `k` stand where they should, whatever the other bytes are. */
  lemma PrintAt(b: seq<octet>, k: nat)
    requires |b| == 16 && k < 16
    ensures |Print(b)| == 36
    ensures Print(b)[Place(k)] == HexChar(b[k] as int / 16) && Print(b)[Place(k) + 1] == HexChar(b[k] as int % 16)
  {
    PrintInGroups(b);
    if k < 4 { GroupAt(Print(b), b, 0, 4, 0, k); }
    else if k < 6 { GroupAt(Print(b), b, 4, 6, 9, k); }
    else if k < 8 { GroupAt(Print(b), b, 6, 8, 14, k); }
    else if k < 10 { GroupAt(Print(b), b, 8, 10, 19, k); }
    else { GroupAt(Print(b), b, 10, 16, 24, k); }
  }

  lemma PrintInGroups(b: seq<octet>)
    requires |b| == 16
    ensures |Print(b)| == 36
    ensures Print(b)[0..8] == Hex(b[0..4]) && Print(b)[9..13] == Hex(b[4..6]) && Print(b)[14..18] == Hex(b[6..8])
    ensures Print(b)[19..23] == Hex(b[8..10]) && Print(b)[24..36] == Hex(b[10..16])
  {
    HexLength(b[0..4]); HexLength(b[4..6]); HexLength(b[6..8]); HexLength(b[8..10]); HexLength(b[10..]);
    assert b[10..] == b[10..16];
    Joined(Hex(b[0..4]), Hex(b[4..6]), Hex(b[6..8]), Hex(b[8..10]), Hex(b[10..16]));
  }

  lemma Joined(a: string, b: string, c: string, d: string, e: string)
    requires |a| == 8 && |b| == |c| == |d| == 4 && |e| == 12
    ensures var s := a + "-" + b + "-" + c + "-" + d + "-" + e;
            && |s| == 36 && s[0..8] == a && s[9..13] == b && s[14..18] == c && s[19..23] == d && s[24..36] == e
  {
  }

  /** Within the group of bytes `lo` to `hi`, printed from `start` on. */
  lemma GroupAt(s: string, b: seq<octet>, lo: nat, hi: nat, start: nat, k: nat)
    requires lo <= k < hi <= |b| && start + 2 * (hi - lo) <= |s| && s[start..start + 2 * (hi - lo)] == Hex(b[lo..hi])
    ensures s[start + 2 * (k - lo)] == HexChar(b[k] as int / 16) && s[start + 2 * (k - lo) + 1] == HexChar(b[k] as int % 16)
  {
    HexAt(b[lo..hi], k - lo);
    var group := s[start..start + 2 * (hi - lo)];
    assert group[2 * (k - lo)] == s[start + 2 * (k - lo)] && group[2 * (k - lo) + 1] == s[start + 2 * (k - lo) + 1];
  }

  /** Sixteen bytes of any value print in the canonical form. */
  lemma PrintedIsCanonical(b: seq<octet>)
    requires |b| == 16
    ensures Canonical(Print(b))
  {
    HexIsHex(b[0..4]); HexIsHex(b[4..6]); HexIsHex(b[6..8]); HexIsHex(b[8..10]); HexIsHex(b[10..]);
  }

  /** Printing loses nothing. */
  lemma PrintIsInjective(a: seq<octet>, b: seq<octet>)
    requires |a| == |b| == 16 && Print(a) == Print(b)
    ensures a == b
  {
    forall k | 0 <= k < 16
      ensures a[k] == b[k]
    {
      PrintAt(a, k);
      PrintAt(b, k);
      assert HexValue(HexChar(a[k] as int / 16)) == HexValue(HexChar(b[k] as int / 16));
      assert HexValue(HexChar(a[k] as int % 16)) == HexValue(HexChar(b[k] as int % 16));
    }
  }

  /** The random bits that survive: all but four of byte 6 and two of byte 8. */
  predicate SameFreeBits(r: seq<octet>, q: seq<octet>)
    requires |r| == |q| == 16
  {
    && (forall k :: 0 <= k < 16 && k != 6 && k != 8 ==> r[k] == q[k])
    && r[6] as int % 16 == q[6] as int % 16 && r[8] as int % 64 == q[8] as int % 64
  }

  /**
   * Ids carry version 4 and variant 10, and two ids are the same exactly when the random bytes
   * agreed on the 122 free bits.
   */
  lemma NodeIDs(r: seq<octet>, q: seq<octet>)
    requires |r| == |q| == 16
    ensures IsUUID(Print(Stamp(r))) && |Print(Stamp(r))| == 36
    ensures Print(Stamp(r))[14] == '4' && Print(Stamp(r))[19] in {'8', '9', 'a', 'b'}
    ensures Print(Stamp(r)) == Print(Stamp(q)) <==> SameFreeBits(r, q)
  {
    NodeIDForm(r);
    SameNodeIDs(r, q);
  }

  lemma NodeIDForm(r: seq<octet>)
    requires |r| == 16
    ensures IsUUID(Print(Stamp(r))) && |Print(Stamp(r))| == 36
    ensures Print(Stamp(r))[14] == '4' && Print(Stamp(r))[19] in {'8', '9', 'a', 'b'}
  {
    PrintedIsCanonical(Stamp(r));
    AsciiUUIDs(Print(Stamp(r)));
    PrintAt(Stamp(r), 6);
    PrintAt(Stamp(r), 8);
  }

  lemma SameNodeIDs(r: seq<octet>, q: seq<octet>)
    requires |r| == |q| == 16
    ensures Print(Stamp(r)) == Print(Stamp(q)) <==> SameFreeBits(r, q)
  {
    if Print(Stamp(r)) == Print(Stamp(q)) {
      PrintIsInjective(Stamp(r), Stamp(q));
      forall k | 0 <= k < 16 && k != 6 && k != 8
        ensures r[k] == q[k]
      {
        assert Stamp(r)[k] == Stamp(q)[k];
      }
      assert Stamp(r)[6] == Stamp(q)[6] && Stamp(r)[8] == Stamp(q)[8];
    }
    if SameFreeBits(r, q) {
      assert Stamp(r) == Stamp(q);
    }
  }
}
