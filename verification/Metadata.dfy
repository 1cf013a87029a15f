/** The text form of connection metadata: two printers, one parser, and the gid codec. */
module Metadata {
  import opened Common
  import Sockets

  const TEMPLATE: string := "0000:00000000:00000000:00000000:00000000:0000:00000000:0000:00000000000000000000000000000000"

  /** The size of every message, with the terminator. */
  const TCP_MSG_LEN: nat := |TEMPLATE| + 1

  const NUL: char := '\0'

  // ---------- Hexadecimal numbers ----------

  predicate IsHex(c: char) { '0' <= c <= '9' || 'a' <= c <= 'f' || 'A' <= c <= 'F' }

  function DigitValue(c: char): (v: nat)
    requires IsHex(c)
    ensures v < 16
  {
    if c <= '9' then c as int - '0' as int
    else if c <= 'F' then c as int - 'A' as int + 10
    else c as int - 'a' as int + 10
  }

  /** The lower-case digit, as printed. */
  function Digit(n: nat): (c: char)
    requires n < 16
    ensures IsHex(c) && DigitValue(c) == n
  {
    if n < 10 then ('0' as int + n) as char else ('a' as int + n - 10) as char
  }

  predicate AllHex(s: string) { forall i :: 0 <= i < |s| ==> IsHex(s[i]) }

  function Value(s: string): nat
    requires AllHex(s)
  {
    if s == [] then 0 else 16 * Value(s[..|s| - 1]) + DigitValue(s[|s| - 1])
  }

  /** `%x`: as many digits as needed. */
  function Hex(n: nat): (s: string)
    ensures AllHex(s) && s != []
  {
    if n < 16 then [Digit(n)] else Hex(n / 16) + [Digit(n % 16)]
  }

  function Zeros(n: nat): (s: string)
    ensures |s| == n && AllHex(s)
  {
    seq(n, _ => '0')
  }

  /** `%0wx`: zeros in front up to width w. */
  function PaddedHex(n: nat, w: nat): (s: string)
    ensures AllHex(s) && s != []
  {
    if |Hex(n)| >= w then Hex(n) else Zeros(w - |Hex(n)|) + Hex(n)
  }

  function Pow16(w: nat): (r: nat)
    ensures r > 0
  {
    if w == 0 then 1 else 16 * Pow16(w - 1)
  }

  lemma {:induction false} ValueOfHex(n: nat)
    ensures Value(Hex(n)) == n
  {
    if n < 16 {
      assert Hex(n)[..0] == [];
    } else {
      ValueOfHex(n / 16);
      assert Hex(n)[..|Hex(n)| - 1] == Hex(n / 16);
    }
  }

  lemma {:induction false} ValueOfZeros(k: nat, s: string)
    requires AllHex(s)
    ensures Value(Zeros(k) + s) == Value(s)
  {
    var z := Zeros(k) + s;
    if s != [] {
      ValueOfZeros(k, s[..|s| - 1]);
      assert z[..|z| - 1] == Zeros(k) + s[..|s| - 1];
    } else if k > 0 {
      ValueOfZeros(k - 1, []);
      assert z[..|z| - 1] == Zeros(k - 1) + [];
    }
  }

  lemma ValueOfPadded(n: nat, w: nat)
    ensures Value(PaddedHex(n, w)) == n
  {
    ValueOfHex(n);
    if |Hex(n)| < w { ValueOfZeros(w - |Hex(n)|, Hex(n)); }
  }

  lemma {:induction false} HexLength(n: nat, w: nat)
    requires n < Pow16(w) && w > 0
    ensures |Hex(n)| <= w && |PaddedHex(n, w)| == w
  {
    if n >= 16 {
      assert n / 16 < Pow16(w - 1);
      HexLength(n / 16, w - 1);
    }
  }

  /** How many hexadecimal digits a text starts with. */
  function Leading(s: string): (k: nat)
    ensures k <= |s| && AllHex(s[..k])
  {
    if s == [] || !IsHex(s[0]) then 0
    else
      var k := 1 + Leading(s[1..]);
      assert forall i :: 0 < i < k ==> s[..k][i] == s[1..][..k - 1][i - 1];
      k
  }

  lemma {:induction false} LeadingExact(d: string, rest: string)
    requires AllHex(d) && (rest == [] || !IsHex(rest[0]))
    ensures Leading(d + rest) == |d|
  {
    if d == [] {
      assert d + rest == rest;
    } else {
      assert (d + rest)[1..] == d[1..] + rest;
      LeadingExact(d[1..], rest);
    }
  }

  // ---------- Fields ----------

  /** The widths of the eight numbers: 4 digits for a 16-bit field, 8 for a 32-bit one. */
  const WIDTHS: seq<nat> := [4, 8, 8, 8, 8, 4, 8, 4]

  function FieldText(n: nat, w: nat, padded: bool): (s: string)
    ensures AllHex(s) && s != []
  {
    if padded then PaddedHex(n, w) else Hex(n)
  }

  function PrintFields(vs: seq<nat>, ws: seq<nat>, padded: bool): string
    requires |vs| == |ws|
  {
    if vs == [] then [] else FieldText(vs[0], ws[0], padded) + [':'] + PrintFields(vs[1..], ws[1..], padded)
  }

  /** Scans numbers, each followed by a colon; a number too large for its field is truncated. */
  function ScanFields(s: string, ws: seq<nat>): Option<(seq<nat>, string)>
    decreases |ws|
  {
    if ws == [] then Some(([], s))
    else
      var k := Leading(s);
      if k == 0 || k == |s| || s[k] != ':' then None
      else
        match ScanFields(s[k + 1..], ws[1..])
        case None => None
        case Some((vs, rest)) => Some(([Value(s[..k]) % Pow16(ws[0])] + vs, rest))
  }

  ghost predicate InFields(vs: seq<nat>, ws: seq<nat>) {
    |vs| == |ws| && forall i :: 0 <= i < |vs| ==> ws[i] > 0 && vs[i] < Pow16(ws[i])
  }

  lemma ScanStep(d: string, tail: string, ws: seq<nat>)
    requires AllHex(d) && d != [] && ws != []
    ensures ScanFields(d + [':'] + tail, ws)
         == match ScanFields(tail, ws[1..])
            case None => None
            case Some((vs, rest)) => Some(([Value(d) % Pow16(ws[0])] + vs, rest))
  {
    var s := d + [':'] + tail;
    assert s == d + ([':'] + tail);
    LeadingExact(d, [':'] + tail);
    assert s[..|d|] == d && s[|d|] == ':' && s[|d| + 1..] == tail;
  }

  lemma FieldValue(n: nat, w: nat, padded: bool)
    requires n < Pow16(w)
    ensures Value(FieldText(n, w, padded)) % Pow16(w) == n
  {
    ValueOfHex(n);
    ValueOfPadded(n, w);
    SmallMod(n, Pow16(w));
  }

  lemma SmallMod(n: nat, m: nat)
    requires n < m
    ensures n % m == n
  {
  }

  lemma ScanCons(n: nat, ws: seq<nat>, padded: bool, vs: seq<nat>, tail: string, rest: string)
    requires ws != [] && n < Pow16(ws[0]) && ScanFields(tail, ws[1..]) == Some((vs, rest))
    ensures ScanFields(FieldText(n, ws[0], padded) + [':'] + tail, ws) == Some(([n] + vs, rest))
  {
    ScanStep(FieldText(n, ws[0], padded), tail, ws);
    FieldValue(n, ws[0], padded);
  }

  lemma PrintCons(vs: seq<nat>, ws: seq<nat>, padded: bool, rest: string)
    requires |vs| == |ws| && vs != []
    ensures PrintFields(vs, ws, padded) + rest
         == FieldText(vs[0], ws[0], padded) + [':'] + (PrintFields(vs[1..], ws[1..], padded) + rest)
  {
    Concat(FieldText(vs[0], ws[0], padded) + [':'], PrintFields(vs[1..], ws[1..], padded), rest);
  }

  /** The parser inverts both printers on every list of field values. */
  lemma {:induction false} ScanPrinted(vs: seq<nat>, ws: seq<nat>, padded: bool, rest: string)
    requires InFields(vs, ws)
    ensures ScanFields(PrintFields(vs, ws, padded) + rest, ws) == Some((vs, rest))
  {
    if vs == [] {
      assert PrintFields(vs, ws, padded) + rest == rest;
    } else {
      PrintCons(vs, ws, padded, rest);
      ScanPrinted(vs[1..], ws[1..], padded, rest);
      ScanCons(vs[0], ws, padded, vs[1..], PrintFields(vs[1..], ws[1..], padded) + rest, rest);
      assert [vs[0]] + vs[1..] == vs;
    }
  }

  ghost function TotalWidth(ws: seq<nat>): nat {
    if ws == [] then 0 else ws[0] + 1 + TotalWidth(ws[1..])
  }

  lemma {:induction false} FieldsLength(vs: seq<nat>, ws: seq<nat>, padded: bool)
    requires InFields(vs, ws)
    ensures |PrintFields(vs, ws, padded)| <= TotalWidth(ws)
    ensures padded ==> |PrintFields(vs, ws, padded)| == TotalWidth(ws)
  {
    if vs != [] {
      HexLength(vs[0], ws[0]);
      FieldsLength(vs[1..], ws[1..], padded);
    }
  }

  // ---------- The gid ----------

  type Byte = b: nat | b < 256

  /** Four bytes as the number that the host-to-network conversion yields. */
  function BigEndian(b: seq<Byte>): nat
    requires |b| == 4
  {
    ((b[0] as nat * 256 + b[1]) * 256 + b[2]) * 256 + b[3]
  }

  function BytesOf(n: nat): seq<Byte> {
    [n / 0x100_0000 % 256, n / 0x1_0000 % 256, n / 0x100 % 256, n % 256]
  }

  /** The eight digits of four bytes. */
  function Group(gid: seq<Byte>, i: nat): string
    requires 4 * i + 4 <= |gid|
  {
    PaddedHex(BigEndian(gid[4 * i..4 * i + 4]), 8)
  }

  /** The bytes of eight characters; of a group that is not all digits, what it starts with counts. */
  function GroupBytes(w: string, i: nat): (b: seq<Byte>)
    requires 8 * i + 8 <= |w|
    ensures |b| == 4
  {
    var tmp := w[8 * i..8 * i + 8];
    BytesOf(Value(tmp[..Leading(tmp)]))
  }

  function GidToWire(gid: seq<Byte>): string
    requires |gid| == 16
  {
    Group(gid, 0) + Group(gid, 1) + Group(gid, 2) + Group(gid, 3)
  }

  function WireToGid(w: string): seq<Byte>
    requires |w| == 32
  {
    GroupBytes(w, 0) + GroupBytes(w, 1) + GroupBytes(w, 2) + GroupBytes(w, 3)
  }

  lemma BytesRoundTrip(b: seq<Byte>)
    requires |b| == 4
    ensures BigEndian(b) < Pow16(8) && BytesOf(BigEndian(b)) == b
  {
    PowOf8();
    var n := BigEndian(b);
    assert n / 0x100 == (b[0] as nat * 256 + b[1]) * 256 + b[2];
    assert n / 0x1_0000 == b[0] as nat * 256 + b[1];
    assert n / 0x100_0000 == b[0];
  }

  lemma PowOf8()
    ensures Pow16(8) == 0x1_0000_0000 && Pow16(4) == 0x1_0000
  {
    assert Pow16(4) == 16 * Pow16(3) && Pow16(3) == 16 * Pow16(2) && Pow16(2) == 16 * Pow16(1);
    assert Pow16(8) == 16 * Pow16(7) && Pow16(7) == 16 * Pow16(6) && Pow16(6) == 16 * Pow16(5) && Pow16(5) == 16 * Pow16(4);
  }

  lemma GroupRoundTrip(gid: seq<Byte>, i: nat)
    requires 4 * i + 4 <= |gid|
    ensures |Group(gid, i)| == 8 && AllHex(Group(gid, i)) && GroupBytes(Group(gid, i), 0) == gid[4 * i..4 * i + 4]
  {
    var b := gid[4 * i..4 * i + 4];
    var head := Group(gid, i);
    BytesRoundTrip(b);
    HexLength(BigEndian(b), 8);
    ValueOfPadded(BigEndian(b), 8);
    assert head + [] == head && head[0..8] == head;
    LeadingExact(head, []);
    assert head[..8] == head;
  }

  /** Where the groups are in a gid's text. */
  lemma GroupInText(gid: seq<Byte>, i: nat)
    requires |gid| == 16 && i < 4
    ensures |GidToWire(gid)| == 32 && |Group(gid, i)| == 8
    ensures GidToWire(gid)[8 * i..8 * i + 8] == Group(gid, i)
    ensures GidToWire(gid)[..8 * i + 8] == GidToWire(gid)[..8 * i] + Group(gid, i)
  {
    GroupRoundTrip(gid, 0);
    GroupRoundTrip(gid, 1);
    GroupRoundTrip(gid, 2);
    GroupRoundTrip(gid, 3);
    FourPieces([Group(gid, 0), Group(gid, 1), Group(gid, 2), Group(gid, 3)], i);
  }

  lemma FourPieces(p: seq<string>, i: nat)
    requires |p| == 4 && (forall k :: 0 <= k < 4 ==> |p[k]| == 8) && i < 4
    ensures var w := p[0] + p[1] + p[2] + p[3];
            |w| == 32 && w[8 * i..8 * i + 8] == p[i] && w[..8 * i + 8] == w[..8 * i] + p[i]
  {
  }

  lemma GroupReadBack(gid: seq<Byte>, i: nat)
    requires |gid| == 16 && i < 4
    ensures |GidToWire(gid)| == 32 && GroupBytes(GidToWire(gid), i) == gid[4 * i..4 * i + 4]
  {
    GroupInText(gid, i);
    GroupRoundTrip(gid, i);
    assert Group(gid, i)[0..8] == Group(gid, i);
  }

  /** The gid codec returns every gid, and its text is two digits for each byte. */
  lemma GidRoundTrip(gid: seq<Byte>)
    requires |gid| == 16
    ensures |GidToWire(gid)| == 32 && AllHex(GidToWire(gid)) && WireToGid(GidToWire(gid)) == gid
  {
    GroupReadBack(gid, 0);
    GroupReadBack(gid, 1);
    GroupReadBack(gid, 2);
    GroupReadBack(gid, 3);
    FourParts(gid);
    GidTextIsHex(gid);
  }

  lemma FourParts(gid: seq<Byte>)
    requires |gid| == 16
    ensures gid[4 * 0..4 * 0 + 4] + gid[4 * 1..4 * 1 + 4] + gid[4 * 2..4 * 2 + 4] + gid[4 * 3..4 * 3 + 4] == gid
  {
  }

  lemma GidTextIsHex(gid: seq<Byte>)
    requires |gid| == 16
    ensures AllHex(GidToWire(gid))
  {
  }

  /** Writes the 32 digits, group by group, each with a terminator that the next one overwrites. */
  method GidToWireBuffer(gid: seq<Byte>, wgid: array<char>)
    requires |gid| == 16 && wgid.Length == 33
    modifies wgid
    ensures wgid[..32] == GidToWire(gid) && wgid[32] == NUL
  {
    ghost var whole := GidToWire(gid);
    GroupInText(gid, 0);
    var i := 0;
    while i < 4
      invariant 0 <= i <= 4 && wgid[..8 * i] == whole[..8 * i] && (i > 0 ==> wgid[8 * i] == NUL)
    {
      GroupInText(gid, i);
      WriteGroup(wgid, 8 * i, Group(gid, i), whole);
      i := i + 1;
    }
  }

  method WriteGroup(buf: array<char>, at: nat, group: string, ghost whole: string)
    requires at + |group| < buf.Length && at + |group| <= |whole|
    requires buf[..at] == whole[..at] && whole[..at + |group|] == whole[..at] + group
    modifies buf
    ensures buf[..at + |group|] == whole[..at + |group|] && buf[at + |group|] == NUL
  {
    WriteText(buf, at, group);
    assert buf[..at + |group|] == buf[..at] + buf[at..at + |group|];
  }

  ghost function FirstGroups(w: string, i: nat): seq<Byte>
    requires |w| == 32 && i <= 4
  {
    if i == 0 then [] else FirstGroups(w, i - 1) + GroupBytes(w, i - 1)
  }

  lemma FourGroups(w: string)
    requires |w| == 32
    ensures FirstGroups(w, 4) == WireToGid(w)
  {
    assert FirstGroups(w, 1) == GroupBytes(w, 0);
    assert FirstGroups(w, 3) == FirstGroups(w, 2) + GroupBytes(w, 2);
  }

  /** Reads the digits back, group by group. */
  method WireToGidLoop(wgid: string) returns (gid: seq<Byte>)
    requires |wgid| == 32
    ensures gid == WireToGid(wgid)
  {
    gid := [];
    var i := 0;
    while i < 4
      invariant 0 <= i <= 4 && gid == FirstGroups(wgid, i)
    {
      gid := gid + GroupBytes(wgid, i);
      i := i + 1;
    }
    FourGroups(wgid);
  }

  /** `sprintf` of a text at a position: the characters and a terminator. */
  method WriteText(buf: array<char>, at: nat, s: string)
    requires at + |s| < buf.Length
    modifies buf
    ensures buf[..at] == old(buf[..at]) && buf[at..at + |s|] == s && buf[at + |s|] == NUL
    ensures buf[at + |s| + 1..] == old(buf[at + |s| + 1..])
  {
    var i := 0;
    while i < |s|
      invariant i <= |s| && forall j :: 0 <= j < i ==> buf[at + j] == s[j]
      invariant forall j :: 0 <= j < buf.Length && !(at <= j < at + i) ==> buf[j] == old(buf[j])
    {
      buf[at + i] := s[i];
      i := i + 1;
    }
    buf[at + |s|] := NUL;
  }

  lemma {:induction false} PaddedDigit(n: nat, w: nat, j: nat)
    requires n < Pow16(w) && j < w
    ensures |PaddedHex(n, w)| == w && PaddedHex(n, w)[w - 1 - j] == Digit(n / Pow16(j) % 16)
    decreases w
  {
    HexLength(n, w);
    if j == 0 {
      assert PaddedHex(n, w)[w - 1] == Hex(n)[|Hex(n)| - 1];
    } else {
      PaddedDigit(n / 16, w - 1, j - 1);
      PaddedShift(n, w);
      assert Pow16(j) == 16 * Pow16(j - 1);
      DivDiv(n, Pow16(j - 1));
    }
  }

  lemma DivDiv(n: nat, p: nat)
    requires p > 0
    ensures n / (16 * p) == n / 16 / p
  {
    DivMod(n, 16);
    DivMod(n / 16, p);
    var q, r := n / 16 / p, n / 16 % p;
    assert n == 16 * p * q + (16 * r + n % 16);
    Quotient(16 * p, q, 16 * r + n % 16, n);
  }

  /** Without its last digit, a padded number is a sixteenth of it. */
  lemma PaddedShift(n: nat, w: nat)
    requires n < Pow16(w) && w > 1
    ensures |PaddedHex(n, w)| == w && PaddedHex(n, w)[..w - 1] == PaddedHex(n / 16, w - 1)
  {
    HexLength(n, w);
    HexLength(n / 16, w - 1);
    if n < 16 {
      assert Hex(0) == "0" && n / 16 == 0;
      assert PaddedHex(n, w) == Zeros(w - 1) + [Digit(n)];
      assert PaddedHex(0, w - 1) == Zeros(w - 1);
    } else {
      assert Hex(n)[..|Hex(n)| - 1] == Hex(n / 16);
    }
  }

  lemma GidDigit(gid: seq<Byte>, g: nat, k: nat)
    requires |gid| == 16 && g < 4 && k < 4
    ensures var w, x := GidToWire(gid), gid[4 * g + k];
            |w| == 32 && w[8 * g + 2 * k] == Digit(x / 16) && w[8 * g + (2 * k + 1)] == Digit(x % 16)
  {
    var w, piece := GidToWire(gid), Group(gid, g);
    GroupInText(gid, g);
    GroupDigits(gid[4 * g..4 * g + 4], k);
    assert |piece| == 8 && w[8 * g..8 * g + |piece|] == piece;
    InPiece(w, 8 * g, piece, 2 * k);
    InPiece(w, 8 * g, piece, 2 * k + 1);
  }

  /** The two digits of byte `i` of a gid are where they should be, whatever the byte order of the machine. */
  lemma GidDigits(gid: seq<Byte>, i: nat)
    requires |gid| == 16 && i < 16
    ensures |GidToWire(gid)| == 32
    ensures GidToWire(gid)[2 * i] == Digit(gid[i] / 16) && GidToWire(gid)[2 * i + 1] == Digit(gid[i] % 16)
  {
    var g, k := i / 4, i % 4;
    assert i == 4 * g + k && 2 * i == 8 * g + 2 * k;
    GidDigit(gid, g, k);
  }

  lemma InPiece(w: string, from: nat, piece: string, j: nat)
    requires from + |piece| <= |w| && w[from..from + |piece|] == piece && j < |piece|
    ensures w[from + j] == piece[j]
  {
  }

  lemma GroupDigits(b: seq<Byte>, k: nat)
    requires |b| == 4 && k < 4
    ensures var w := PaddedHex(BigEndian(b), 8);
            |w| == 8 && w[2 * k] == Digit(b[k] / 16) && w[2 * k + 1] == Digit(b[k] % 16)
  {
    BytesRoundTrip(b);
    PaddedDigit(BigEndian(b), 8, 7 - 2 * k);
    PaddedDigit(BigEndian(b), 8, 6 - 2 * k);
    ByteDigits(b, k);
  }

  lemma ByteDigits(b: seq<Byte>, k: nat)
    requires |b| == 4 && k < 4
    ensures BigEndian(b) / Pow16(7 - 2 * k) % 16 == b[k] / 16 && BigEndian(b) / Pow16(6 - 2 * k) % 16 == b[k] % 16
  {
    BytesRoundTrip(b);
    var n := BigEndian(b);
    var p := Pow16(6 - 2 * k);
    assert Pow16(7 - 2 * k) == 16 * p;
    assert BytesOf(n)[k] == b[k];
    assert n / p % 256 == b[k] by { PowsOf16(); }
    DivDiv2(n, p);
  }

  lemma PowsOf16()
    ensures Pow16(0) == 1 && Pow16(2) == 0x100 && Pow16(4) == 0x1_0000 && Pow16(6) == 0x100_0000
  {
    PowOf8();
    assert Pow16(2) == 16 * Pow16(1) && Pow16(6) == 16 * Pow16(5) && Pow16(5) == 16 * Pow16(4);
  }

  lemma DivDiv2(n: nat, p: nat)
    requires p > 0
    ensures n / (16 * p) % 16 == n / p % 256 / 16 && n / p % 16 == n / p % 256 % 16
  {
    DivTimes(n, p);
    Nibbles(n / p);
  }

  lemma Nibbles(x: nat)
    ensures x / 16 % 16 == x % 256 / 16 && x % 16 == x % 256 % 16
  {
    var h, m, l := x / 256, x % 256 / 16, x % 256 % 16;
    assert x == 256 * h + 16 * m + l && m < 16 && l < 16;
    Quotient(16, 16 * h + m, l, x);
    Quotient(16, h, m, 16 * h + m);
  }

  lemma DivTimes(n: nat, p: nat)
    requires p > 0
    ensures n / (16 * p) == n / p / 16
  {
    var x := n / p;
    var y, r := x / 16, x % 16;
    DivMod(n, p);
    DistributeSum(p, 16 * y, r);
    SixteenTimes(p, y);
    MulLe(p, r, 15);
    Quotient(16 * p, y, p * r + n % p, n);
  }

  lemma SixteenTimes(p: nat, y: nat)
    ensures p * (16 * y) == 16 * p * y
  {
  }

  // ---------- Messages ----------

  /** The fields on the wire; addresses and ports name the members of a multicast group. */
  datatype Wire = Wire(
    lid: nat, localQpn: nat, psn: nat, peerQpn: nat, ip1: nat, port1: nat, ip2: nat, port2: nat, gid: seq<Byte>)

  function FieldsOf(m: Wire): seq<nat> { [m.lid, m.localQpn, m.psn, m.peerQpn, m.ip1, m.port1, m.ip2, m.port2] }

  /** Every field within its width. */
  ghost predicate WellFormed(m: Wire) {
    && m.lid < 0x1_0000 && m.port1 < 0x1_0000 && m.port2 < 0x1_0000
    && m.localQpn < 0x1_0000_0000 && m.psn < 0x1_0000_0000 && m.peerQpn < 0x1_0000_0000
    && m.ip1 < 0x1_0000_0000 && m.ip2 < 0x1_0000_0000 && |m.gid| == 16
  }

  function Print(m: Wire, padded: bool): string
    requires |m.gid| == 16
  {
    PrintFields(FieldsOf(m), WIDTHS, padded) + GidToWire(m.gid)
  }

  /** The text up to the terminator, as the C library sees a buffer. */
  function Text(buf: string): string {
    if buf == [] || buf[0] == NUL then [] else [buf[0]] + Text(buf[1..])
  }

  datatype Received = Disconnected | BadLength | Garbled | Message(m: Wire)

  /** What a read of some bytes from the socket means. */
  function Receive(buf: string): Received {
    if buf == [] then Disconnected
    else if |buf| != TCP_MSG_LEN then BadLength
    else
      match ScanFields(Text(buf), WIDTHS)
      case None => Garbled
      case Some((vs, gid)) =>
        if |vs| != 8 || |gid| != 32 then Garbled
        else Message(Wire(vs[0], vs[1], vs[2], vs[3], vs[4], vs[5], vs[6], vs[7], WireToGid(gid)))
  }

  /** Nothing read is a disconnection, and any other number of bytes than that of a message is refused. */
  lemma ReceiveRefuses(buf: string)
    ensures Receive(buf) == Disconnected <==> |buf| == 0
    ensures Receive(buf) == BadLength <==> |buf| != 0 && |buf| != 93
  {
    WidthsAddUp();
  }

  lemma WireInFields(m: Wire)
    requires WellFormed(m)
    ensures InFields(FieldsOf(m), WIDTHS)
  {
    PowOf8();
  }

  lemma WidthsAddUp()
    ensures TotalWidth(WIDTHS) == 60 && TCP_MSG_LEN == 93
  {
    assert WIDTHS[1..] == [8, 8, 8, 8, 4, 8, 4];
    assert TotalWidth([8, 8, 8, 8, 4, 8, 4]) == 9 + TotalWidth([8, 8, 8, 4, 8, 4]) by {
      assert [8, 8, 8, 8, 4, 8, 4][1..] == [8, 8, 8, 4, 8, 4];
    }
    assert [8, 8, 8, 4, 8, 4][1..] == [8, 8, 4, 8, 4] && [8, 8, 4, 8, 4][1..] == [8, 4, 8, 4];
    assert [8, 4, 8, 4][1..] == [4, 8, 4] && [4, 8, 4][1..] == [8, 4] && [8, 4][1..] == [4] && [4][1..] == [];
  }

  /** Every message, with its terminator, fits the buffer, and a padded one fills it exactly. */
  lemma MessageFits(m: Wire, padded: bool)
    requires WellFormed(m)
    ensures |Print(m, padded)| + 1 <= TCP_MSG_LEN
    ensures padded ==> |Print(m, padded)| + 1 == TCP_MSG_LEN
  {
    WireInFields(m);
    FieldsLength(FieldsOf(m), WIDTHS, padded);
    GidRoundTrip(m.gid);
    WidthsAddUp();
  }

  lemma OneField(v: nat, vs: seq<nat>, w: nat, ws: seq<nat>, padded: bool)
    requires |vs| == |ws|
    ensures PrintFields([v] + vs, [w] + ws, padded) == FieldText(v, w, padded) + ":" + PrintFields(vs, ws, padded)
  {
    assert ([v] + vs)[1..] == vs && ([w] + ws)[1..] == ws;
  }

  /** A colon after the text before it. */
  function Then(field: string, rest: string): string { field + ":" + rest }

  /** Which field stands where, in which width, and how they are separated. */
  lemma MessageText(m: Wire, padded: bool)
    requires |m.gid| == 16
    ensures var F := (n: nat, w: nat) => if padded then PaddedHex(n, w) else Hex(n);
            Print(m, padded)
            == Then(F(m.lid, 4), Then(F(m.localQpn, 8), Then(F(m.psn, 8), Then(F(m.peerQpn, 8),
               Then(F(m.ip1, 8), Then(F(m.port1, 4), Then(F(m.ip2, 8), Then(F(m.port2, 4), "")))))))) + GidToWire(m.gid)
  {
    FirstFields(m, padded);
    LastFields(m, padded);
  }

  lemma FirstFields(m: Wire, padded: bool)
    ensures PrintFields(FieldsOf(m), WIDTHS, padded)
         == Then(FieldText(m.lid, 4, padded), Then(FieldText(m.localQpn, 8, padded), Then(FieldText(m.psn, 8, padded),
            Then(FieldText(m.peerQpn, 8, padded), PrintFields([m.ip1, m.port1, m.ip2, m.port2], [8, 4, 8, 4], padded)))))
  {
    var rest, ws := [m.ip1, m.port1, m.ip2, m.port2], [8, 4, 8, 4];
    TwoFields(m.psn, m.peerQpn, rest, 8, 8, ws, padded);
    TwoFields(m.lid, m.localQpn, [m.psn, m.peerQpn] + rest, 4, 8, [8, 8] + ws, padded);
    assert FieldsOf(m) == [m.lid, m.localQpn] + ([m.psn, m.peerQpn] + rest) && WIDTHS == [4, 8] + ([8, 8] + ws);
  }

  lemma TwoFields(v: nat, v': nat, vs: seq<nat>, w: nat, w': nat, ws: seq<nat>, padded: bool)
    requires |vs| == |ws|
    ensures PrintFields([v, v'] + vs, [w, w'] + ws, padded)
         == Then(FieldText(v, w, padded), Then(FieldText(v', w', padded), PrintFields(vs, ws, padded)))
  {
    OneField(v', vs, w', ws, padded);
    OneField(v, [v'] + vs, w, [w'] + ws, padded);
    assert [v, v'] + vs == [v] + ([v'] + vs) && [w, w'] + ws == [w] + ([w'] + ws);
  }

  lemma LastFields(m: Wire, padded: bool)
    ensures PrintFields([m.ip1, m.port1, m.ip2, m.port2], [8, 4, 8, 4], padded)
         == Then(FieldText(m.ip1, 8, padded), Then(FieldText(m.port1, 4, padded),
            Then(FieldText(m.ip2, 8, padded), Then(FieldText(m.port2, 4, padded), ""))))
  {
    OneField(m.port2, [], 4, [], padded);
    OneField(m.ip2, [m.port2] + [], 8, [4] + [], padded);
    OneField(m.port1, [m.ip2] + ([m.port2] + []), 4, [8] + ([4] + []), padded);
    OneField(m.ip1, [m.port1] + ([m.ip2] + ([m.port2] + [])), 8, [4] + ([8] + ([4] + [])), padded);
    assert [m.ip1, m.port1, m.ip2, m.port2] == [m.ip1] + ([m.port1] + ([m.ip2] + ([m.port2] + [])));
    assert [8, 4, 8, 4] == [8] + ([4] + ([8] + ([4] + [])));
  }

  predicate NoNul(s: string) { forall i :: 0 <= i < |s| ==> s[i] != NUL }

  lemma {:induction false} TextBefore(s: string, garbage: string)
    requires NoNul(s)
    ensures Text(s + [NUL] + garbage) == s
  {
    var buf := s + [NUL] + garbage;
    if s != [] {
      assert buf[1..] == s[1..] + [NUL] + garbage;
      TextBefore(s[1..], garbage);
      assert buf[0] == s[0];
    }
  }

  lemma {:induction false} FieldsNoNul(vs: seq<nat>, ws: seq<nat>, padded: bool)
    requires |vs| == |ws|
    ensures NoNul(PrintFields(vs, ws, padded))
  {
    if vs != [] {
      FieldsNoNul(vs[1..], ws[1..], padded);
      assert forall c :: IsHex(c) ==> c != NUL;
    }
  }

  /** Whatever was in the rest of the buffer, a message printed either way and sent whole is
      received as it was. */
  lemma MessageRoundTrip(m: Wire, padded: bool, garbage: string)
    requires WellFormed(m) && |Print(m, padded)| + 1 + |garbage| == TCP_MSG_LEN
    ensures Receive(Print(m, padded) + [NUL] + garbage) == Message(m)
  {
    var s := Print(m, padded);
    var buf := s + [NUL] + garbage;
    WireInFields(m);
    FieldsNoNul(FieldsOf(m), WIDTHS, padded);
    GidRoundTrip(m.gid);
    assert forall c :: IsHex(c) ==> c != NUL;
    TextBefore(s, garbage);
    ScanPrinted(FieldsOf(m), WIDTHS, padded, GidToWire(m.gid));
    assert |buf| == TCP_MSG_LEN;
  }

  /** The metadata that the handshake sees. */
  function MetaOf(m: Wire): Sockets.CmMeta { Sockets.CmMeta(m.lid, m.localQpn, m.psn, m.peerQpn, m.gid) }

  /** Two messages with the same text, however printed, are the same. */
  lemma PrintInjective(m: Wire, m': Wire, padded: bool, padded': bool)
    requires WellFormed(m) && WellFormed(m')
    ensures Print(m, padded) == Print(m', padded') ==> m == m' && MetaOf(m) == MetaOf(m')
  {
    if Print(m, padded) == Print(m', padded') {
      MessageFits(m, padded);
      var garbage := seq(TCP_MSG_LEN - |Print(m, padded)| - 1, _ => ' ');
      MessageRoundTrip(m, padded, garbage);
      MessageRoundTrip(m', padded', garbage);
    }
  }
}
