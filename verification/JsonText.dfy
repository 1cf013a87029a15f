/** JSON texts: escaping, rendering of a tree in compact and pretty form, and a parser after
    RFC 8259 (whole numbers only) that reads both back. */
module JsonText {
  import opened Common
  import opened Metadata

  datatype Tree = Str(s: string) | Num(n: int) | Bool(b: bool) | Section(isArray: bool, items: Items)

  /** The members of an object or array, in order; members of an array have an empty name. */
  datatype Items = Nil | Snoc(init: Items, name: string, tree: Tree)

  const QUOTE: char := '\"'
  const BACKSLASH: char := '\\'
  const NEWLINE: char := '\n'
  const TAB: char := '\t'

  // ---------- Escaping ----------

  predicate Control(c: char) { c as int < 0x20 || c as int == 0x7f }

  function EscapeChar(c: char): (s: string)
    ensures |s| > 0
  {
    if c == QUOTE then [BACKSLASH, QUOTE]
    else if c == BACKSLASH then [BACKSLASH, BACKSLASH]
    else if c == TAB then [BACKSLASH, 't']
    else if c == NEWLINE then [BACKSLASH, 'n']
    else if Control(c) then [BACKSLASH, 'u', '0', '0', Digit(c as int / 16), Digit(c as int % 16)]
    else [c]
  }

  function Escape(s: string): string {
    if s == [] then [] else EscapeChar(s[0]) + Escape(s[1..])
  }

  /** The size of the buffer that `EscapeInto` needs, with the terminator. */
  method EscapedLength(s: string) returns (len: nat)
    ensures len == |Escape(s)| + 1
  {
    len := 0;
    var i := 0;
    assert s[0..] == s;
    while i < |s|
      invariant i <= |s| && len + |Escape(s[i..])| == |Escape(s)|
    {
      assert s[i..][1..] == s[i + 1..];
      var c := s[i];
      if c == QUOTE || c == BACKSLASH || c == TAB || c == NEWLINE {
        len := len + 2;
      } else if Control(c) {
        len := len + 6;
      } else {
        len := len + 1;
      }
      i := i + 1;
    }
    len := len + 1;
  }

  lemma EscapeStep(s: string, i: nat)
    requires i < |s|
    ensures Escape(s[i..]) == EscapeChar(s[i]) + Escape(s[i + 1..])
  {
    assert s[i..][1..] == s[i + 1..];
  }

  lemma EscapeGoesOn(before: string, s: string, i: nat)
    requires i < |s| && before + Escape(s[i..]) == Escape(s)
    ensures before + EscapeChar(s[i]) + Escape(s[i + 1..]) == Escape(s)
    ensures |before| + |EscapeChar(s[i])| <= |Escape(s)|
  {
    EscapeStep(s, i);
    Concat(before, EscapeChar(s[i]), Escape(s[i + 1..]));
  }

  /** Writes the escaped text and a terminator; both stay within the length computed before. */
  method EscapeInto(s: string, out: array<char>)
    requires out.Length >= |Escape(s)| + 1
    modifies out
    ensures out[..|Escape(s)|] == Escape(s) && out[|Escape(s)|] == NUL
  {
    var i, o := 0, 0;
    ghost var written := [];
    assert s[0..] == s && [] + Escape(s) == Escape(s);
    while i < |s|
      invariant i <= |s| && o == |written| < out.Length && out[..o] == written && written + Escape(s[i..]) == Escape(s)
    {
      var e := EscapeChar(s[i]);
      EscapeGoesOn(written, s, i);
      Copy(out, o, e);
      written := written + e;
      o := o + |e|;
      i := i + 1;
    }
    assert s[i..] == [] && written + [] == written;
    out[o] := NUL;
  }

  method Copy(out: array<char>, at: nat, s: string)
    requires at + |s| <= out.Length
    modifies out
    ensures out[..at + |s|] == old(out[..at]) + s
  {
    var i := 0;
    while i < |s|
      invariant i <= |s| && out[..at + i] == old(out[..at]) + s[..i]
    {
      out[at + i] := s[i];
      i := i + 1;
    }
  }

  /** What a parser makes of one character or escape sequence inside a string. */
  function ParseChar(s: string): (r: Option<(char, string)>)
    ensures r.Some? ==> |r.value.1| < |s|
  {
    if s == [] || s[0] as int < 0x20 || s[0] == QUOTE then None
    else if s[0] != BACKSLASH then Some((s[0], s[1..]))
    else if |s| < 2 then None
    else
      match s[1]
      case '\"' => Some((QUOTE, s[2..]))
      case '\\' => Some((BACKSLASH, s[2..]))
      case '/' => Some(('/', s[2..]))
      case 'b' => Some((8 as char, s[2..]))
      case 'f' => Some((12 as char, s[2..]))
      case 'n' => Some((NEWLINE, s[2..]))
      case 'r' => Some((13 as char, s[2..]))
      case 't' => Some((TAB, s[2..]))
      case 'u' =>
        if |s| < 6 || !AllHex(s[2..6]) then None
        else
          var v := ((DigitValue(s[2]) * 16 + DigitValue(s[3])) * 16 + DigitValue(s[4])) * 16 + DigitValue(s[5]);
          if v >= 0xd800 then None else Some((v as char, s[6..]))
      case _ => None
  }

  /** The rest of a string literal, from behind its opening quote. */
  function ParseString(s: string): (r: Option<(string, string)>)
    ensures r.Some? ==> |r.value.1| < |s|
  {
    if s != [] && s[0] == QUOTE then Some(([], s[1..]))
    else
      match ParseChar(s)
      case None => None
      case Some((c, rest)) =>
        match ParseString(rest)
        case None => None
        case Some((cs, rest')) => Some(([c] + cs, rest'))
  }

  lemma ParseUnicode(hi: nat, lo: nat, rest: string)
    requires hi < 16 && lo < 16
    ensures ParseChar([BACKSLASH, 'u', '0', '0', Digit(hi), Digit(lo)] + rest) == Some(((hi * 16 + lo) as char, rest))
  {
    var s := [BACKSLASH, 'u', '0', '0', Digit(hi), Digit(lo)] + rest;
    assert s[0] == BACKSLASH && s[1] == 'u' && s[2] == '0' && s[3] == '0' && s[4] == Digit(hi) && s[5] == Digit(lo);
    assert s[2..6] == ['0', '0', Digit(hi), Digit(lo)];
    assert s[6..] == rest;
    assert DigitValue(s[2]) == 0 && DigitValue(s[3]) == 0;
  }

  lemma ParseEscapedChar(c: char, rest: string)
    ensures ParseChar(EscapeChar(c) + rest) == Some((c, rest)) && EscapeChar(c)[0] != QUOTE
  {
    var s := EscapeChar(c) + rest;
    if |EscapeChar(c)| == 6 {
      ParseUnicode(c as int / 16, c as int % 16, rest);
      assert c as int / 16 * 16 + c as int % 16 == c as int;
    } else if |EscapeChar(c)| == 2 {
      assert s[2..] == rest;
    } else {
      assert s[1..] == rest;
    }
  }

  /** Unescaping an escaped text returns it, whatever follows the closing quote. */
  lemma {:induction false} EscapeRoundTrip(x: string, rest: string)
    ensures ParseString(Escape(x) + [QUOTE] + rest) == Some((x, rest))
  {
    var s := Escape(x) + [QUOTE] + rest;
    if x == [] {
      assert s == [QUOTE] + rest && s[1..] == rest;
    } else {
      var tail := Escape(x[1..]) + [QUOTE] + rest;
      Concat(EscapeChar(x[0]), Escape(x[1..]), [QUOTE]);
      Concat(EscapeChar(x[0]), Escape(x[1..]) + [QUOTE], rest);
      ParseEscapedChar(x[0], tail);
      EscapeRoundTrip(x[1..], rest);
      assert x == [x[0]] + x[1..];
    }
  }

  /** Names are printed as they are: they need no escaping if they have no quote, backslash or control character. */
  predicate Plain(name: string) {
    forall i :: 0 <= i < |name| ==> name[i] as int >= 0x20 && name[i] != QUOTE && name[i] != BACKSLASH
  }

  lemma {:induction false} PlainRoundTrip(x: string, rest: string)
    requires Plain(x)
    ensures ParseString(x + [QUOTE] + rest) == Some((x, rest))
  {
    var s := x + [QUOTE] + rest;
    if x == [] {
      assert s == [QUOTE] + rest && s[1..] == rest;
    } else {
      assert s[1..] == x[1..] + [QUOTE] + rest;
      PlainRoundTrip(x[1..], rest);
      assert x == [x[0]] + x[1..];
    }
  }

  // ---------- Numbers ----------

  predicate IsDigit(c: char) { '0' <= c <= '9' }

  function Decimal(n: nat): (s: string)
    ensures |s| > 0 && (forall i :: 0 <= i < |s| ==> IsDigit(s[i])) && (s[0] == '0' ==> n == 0)
    ensures n == 0 ==> |s| == 1
  {
    if n < 10 then [('0' as int + n) as char] else Decimal(n / 10) + [('0' as int + n % 10) as char]
  }

  function NumText(n: int): (s: string)
    ensures |s| > 0 && (s[0] == '-' || IsDigit(s[0]))
  {
    if n < 0 then ['-'] + Decimal(-n) else Decimal(n)
  }

  function Digits(s: string): (k: nat)
    ensures k <= |s| && forall i :: 0 <= i < k ==> IsDigit(s[i])
  {
    if s == [] || !IsDigit(s[0]) then 0 else 1 + Digits(s[1..])
  }

  function DecimalValue(s: string): nat
    requires forall i :: 0 <= i < |s| ==> IsDigit(s[i])
  {
    if s == [] then 0
    else
      assert IsDigit(s[|s| - 1]);
      10 * DecimalValue(s[..|s| - 1]) + (s[|s| - 1] as int - '0' as int)
  }

  /** A number must be followed by none of these. */
  predicate Ends(s: string) { s == [] || !(IsDigit(s[0]) || s[0] == '.' || s[0] == 'e' || s[0] == 'E') }

  /** An unsigned whole number without leading zeros. */
  function ParseDecimal(s: string): (r: Option<(nat, string)>)
    ensures r.Some? ==> |r.value.1| < |s|
  {
    var k := Digits(s);
    if k == 0 || (k > 1 && s[0] == '0') || !Ends(s[k..]) then None else Some((DecimalValue(s[..k]), s[k..]))
  }

  lemma {:induction false} DecimalRoundTrip(n: nat)
    ensures DecimalValue(Decimal(n)) == n
  {
    if n < 10 {
      assert Decimal(n)[..0] == [];
    } else {
      DecimalRoundTrip(n / 10);
      assert Decimal(n)[..|Decimal(n)| - 1] == Decimal(n / 10);
    }
  }

  lemma {:induction false} DigitsExact(d: string, rest: string)
    requires (forall i :: 0 <= i < |d| ==> IsDigit(d[i])) && (rest == [] || !IsDigit(rest[0]))
    ensures Digits(d + rest) == |d|
  {
    if d == [] {
      assert d + rest == rest;
    } else {
      assert (d + rest)[1..] == d[1..] + rest;
      DigitsExact(d[1..], rest);
    }
  }

  lemma ParsePrintedDecimal(n: nat, rest: string)
    requires Ends(rest)
    ensures ParseDecimal(Decimal(n) + rest) == Some((n, rest))
  {
    DecimalRoundTrip(n);
    DigitsExact(Decimal(n), rest);
    var s := Decimal(n) + rest;
    assert s[..|Decimal(n)|] == Decimal(n) && s[|Decimal(n)|..] == rest;
  }

  // ---------- The parser ----------

  predicate IsSpace(c: char) { c == ' ' || c == NEWLINE || c == TAB || c == 13 as char }

  function Skip(s: string): (r: string)
    ensures |r| <= |s| && (r != [] ==> !IsSpace(r[0]))
  {
    if s != [] && IsSpace(s[0]) then Skip(s[1..]) else s
  }

  predicate StartsWith(s: string, p: string) { |p| <= |s| && s[..|p|] == p }

  function Closer(isArray: bool): char { if isArray then ']' else '}' }

  /** One value, from its first character on. */
  function ParseValue(s: string): (r: Option<(Tree, string)>)
    ensures r.Some? ==> |r.value.1| < |s|
    decreases |s|, 0
  {
    if s == [] then None
    else if s[0] == '[' then ParseItems(true, Nil, s[1..])
    else if s[0] == '{' then ParseItems(false, Nil, s[1..])
    else if s[0] == QUOTE then
      match ParseString(s[1..])
      case None => None
      case Some((x, rest)) => Some((Str(x), rest))
    else if StartsWith(s, "true") then Some((Bool(true), s[4..]))
    else if StartsWith(s, "false") then Some((Bool(false), s[5..]))
    else if s[0] == '-' then
      match ParseDecimal(s[1..])
      case None => None
      case Some((n, rest)) => Some((Num(-(n as int)), rest))
    else
      match ParseDecimal(s)
      case None => None
      case Some((n, rest)) => Some((Num(n), rest))
  }

  /** The rest of a section whose members so far are `acc`. */
  function ParseItems(isArray: bool, acc: Items, s: string): (r: Option<(Tree, string)>)
    ensures r.Some? ==> |r.value.1| < |s|
    decreases |s|, 1
  {
    var s1 := Skip(s);
    if s1 == [] then None
    else if s1[0] == Closer(isArray) then Some((Section(isArray, acc), s1[1..]))
    else if acc.Snoc? && s1[0] != ',' then None
    else
      match ParseName(isArray, Skip(if acc.Snoc? then s1[1..] else s1))
      case None => None
      case Some((name, s2)) =>
        match ParseValue(s2)
        case None => None
        case Some((t, s3)) => ParseItems(isArray, Snoc(acc, name, t), s3)
  }

  /** A member's name and colon, in an object. */
  function ParseName(isArray: bool, s: string): (r: Option<(string, string)>)
    ensures r.Some? ==> |r.value.1| <= |s|
  {
    if isArray then Some(([], s))
    else if s == [] || s[0] != QUOTE then None
    else
      match ParseString(s[1..])
      case None => None
      case Some((name, rest)) =>
        var r1 := Skip(rest);
        if r1 == [] || r1[0] != ':' then None else Some((name, Skip(r1[1..])))
  }

  /** A whole text: one value with space around it. */
  function Parse(s: string): Option<Tree> {
    match ParseValue(Skip(s))
    case None => None
    case Some((t, rest)) => if Skip(rest) == [] then Some(t) else None
  }

  // ---------- Rendering ----------

  function Indent(n: nat): (s: string)
    ensures forall i :: 0 <= i < |s| ==> IsSpace(s[i])
  {
    if n == 0 then [] else "    " + Indent(n - 1)
  }

  /** The white space that pretty printing puts in front of a member. */
  function Gap(pretty: bool, isArray: bool, depth: nat): string
    requires depth > 0
  {
    if pretty then [NEWLINE] + Indent(depth - 1) + (if isArray then "    " else []) else []
  }

  /** What separates a member from the one before, or from the opening bracket. */
  function Comma(pretty: bool, first: bool, isArray: bool, depth: nat): string
    requires depth > 0
  {
    (if first then [] else [',']) + Gap(pretty, isArray, depth)
  }

  function Label(pretty: bool, isArray: bool, name: string): string {
    if isArray then []
    else (if pretty then "    " else []) + [QUOTE] + name + [QUOTE] + (if pretty then ": " else ":")
  }

  function Opener(isArray: bool): char { if isArray then '[' else '{' }

  function Quoted(x: string): string { [QUOTE] + Escape(x) + [QUOTE] }

  function BoolText(b: bool): string { if b then "true" else "false" }

  /** A value inside `depth` open sections. */
  function Render(t: Tree, pretty: bool, depth: nat): string {
    match t
    case Str(x) => Quoted(x)
    case Num(n) => NumText(n)
    case Bool(b) => BoolText(b)
    case Section(isArray, items) =>
      [Opener(isArray)] + RenderItems(items, isArray, pretty, depth + 1) + Ending(pretty, items.Nil?, isArray, depth)
  }

  function Ending(pretty: bool, empty: bool, isArray: bool, depth: nat): string {
    (if pretty && !empty then [NEWLINE] + Indent(depth) else []) + [Closer(isArray)]
  }

  function RenderItems(items: Items, isArray: bool, pretty: bool, depth: nat): string
    requires depth > 0
  {
    match items
    case Nil => []
    case Snoc(init, name, t) =>
      RenderItems(init, isArray, pretty, depth)
      + Comma(pretty, init.Nil?, isArray, depth) + Label(pretty, isArray, name) + Render(t, pretty, depth)
  }

  /** Names of object members need no escaping, and array members have none. */
  ghost predicate PlainTree(t: Tree)
    decreases t
  {
    t.Section? ==> PlainItems(t.isArray, t.items)
  }

  ghost predicate PlainItems(isArray: bool, items: Items)
    decreases items
  {
    items.Snoc? ==>
      && (if isArray then items.name == [] else Plain(items.name))
      && PlainItems(isArray, items.init) && PlainTree(items.tree)
  }

  // ---------- Reading back ----------

  lemma {:induction false} SkipSpaces(a: string, b: string)
    requires forall i :: 0 <= i < |a| ==> IsSpace(a[i])
    ensures Skip(a + b) == Skip(b)
  {
    if a == [] {
      assert a + b == b;
    } else {
      assert (a + b)[1..] == a[1..] + b;
      SkipSpaces(a[1..], b);
    }
  }

  /** Where a value starts: not with a space, a comma, or the end of a section. */
  predicate ValueStart(s: string) { s != [] && !IsSpace(s[0]) && s[0] !in {',', ']', '}'} }

  lemma RenderStarts(t: Tree, pretty: bool, depth: nat, rest: string)
    ensures ValueStart(Render(t, pretty, depth) + rest)
  {
  }

  lemma GapIsSpace(pretty: bool, isArray: bool, depth: nat)
    requires depth > 0
    ensures forall i :: 0 <= i < |Gap(pretty, isArray, depth)| ==> IsSpace(Gap(pretty, isArray, depth)[i])
  {
  }

  lemma ReadName(name: string, colon: string, v: string)
    requires Plain(name) && colon in {": ", ":"} && ValueStart(v)
    ensures ParseName(false, [QUOTE] + name + [QUOTE] + colon + v) == Some((name, v))
  {
    var s := [QUOTE] + name + [QUOTE] + colon + v;
    assert s[1..] == name + [QUOTE] + (colon + v);
    PlainRoundTrip(name, colon + v);
    assert Skip(colon + v) == colon + v;
    assert (colon + v)[1..] == colon[1..] + v;
    SkipSpaces(colon[1..], v);
  }

  /** The name that was printed is the name that is read. */
  lemma ReadLabel(pretty: bool, isArray: bool, name: string, v: string)
    requires (if isArray then name == [] else Plain(name)) && ValueStart(v)
    ensures ParseName(isArray, Skip(Label(pretty, isArray, name) + v)) == Some((name, v))
  {
    if isArray {
      assert Label(pretty, isArray, name) + v == v;
    } else {
      var colon := if pretty then ": " else ":";
      var quoted := [QUOTE] + name + [QUOTE] + colon + v;
      assert Label(pretty, isArray, name) + v == (if pretty then "    " else []) + quoted;
      SkipSpaces(if pretty then "    " else [], quoted);
      ReadName(name, colon, v);
    }
  }

  lemma LabelStarts(pretty: bool, isArray: bool, name: string, v: string)
    requires ValueStart(v)
    ensures ValueStart(Skip(Label(pretty, isArray, name) + v))
  {
    if isArray {
      assert Label(pretty, isArray, name) + v == v;
    } else {
      var colon := if pretty then ": " else ":";
      var quoted := [QUOTE] + name + [QUOTE] + colon + v;
      assert Label(pretty, isArray, name) + v == (if pretty then "    " else []) + quoted;
      SkipSpaces(if pretty then "    " else [], quoted);
    }
  }

  /** How the parser takes a first and a further member. */
  lemma FirstMember(isArray: bool, s: string, name: string, v: string, t: Tree, rest: string)
    requires ValueStart(Skip(s)) && ParseName(isArray, Skip(s)) == Some((name, v)) && ParseValue(v) == Some((t, rest))
    ensures ParseItems(isArray, Nil, s) == ParseItems(isArray, Snoc(Nil, name, t), rest)
  {
    SkipTwice(s);
  }

  lemma NextMember(isArray: bool, acc: Items, s: string, name: string, v: string, t: Tree, rest: string)
    requires acc.Snoc? && ParseName(isArray, Skip(s)) == Some((name, v)) && ParseValue(v) == Some((t, rest))
    ensures ParseItems(isArray, acc, [','] + s) == ParseItems(isArray, Snoc(acc, name, t), rest)
  {
    assert Skip([','] + s) == [','] + s && ([','] + s)[1..] == s;
  }

  /** One more member: from its separator to its end. */
  lemma ReadMember(acc: Items, isArray: bool, pretty: bool, depth: nat, name: string, v: string, t: Tree, rest: string)
    requires depth > 0 && (if isArray then name == [] else Plain(name)) && ValueStart(v) && ParseValue(v) == Some((t, rest))
    ensures ParseItems(isArray, acc, Comma(pretty, acc.Nil?, isArray, depth) + Label(pretty, isArray, name) + v)
         == ParseItems(isArray, Snoc(acc, name, t), rest)
  {
    var gap, tail := Gap(pretty, isArray, depth), Label(pretty, isArray, name) + v;
    GapIsSpace(pretty, isArray, depth);
    SkipSpaces(gap, tail);
    ReadLabel(pretty, isArray, name, v);
    LabelStarts(pretty, isArray, name, v);
    MemberText(acc.Nil?, isArray, pretty, depth, name, v);
    if acc.Nil? {
      assert [] + (gap + tail) == gap + tail;
      FirstMember(isArray, gap + tail, name, v, t, rest);
    } else {
      NextMember(isArray, acc, gap + tail, name, v, t, rest);
    }
  }

  lemma MemberText(first: bool, isArray: bool, pretty: bool, depth: nat, name: string, v: string)
    requires depth > 0
    ensures Comma(pretty, first, isArray, depth) + Label(pretty, isArray, name) + v
         == (if first then [] else [',']) + (Gap(pretty, isArray, depth) + (Label(pretty, isArray, name) + v))
  {
    var g, l := Gap(pretty, isArray, depth), Label(pretty, isArray, name);
    assert Comma(pretty, first, isArray, depth) == (if first then [] else [',']) + g;
    assert (if first then [] else [',']) + g + l + v == (if first then [] else [',']) + (g + (l + v));
  }

  lemma {:induction false} SkipTwice(s: string)
    ensures Skip(Skip(s)) == Skip(s)
  {
    if s != [] && IsSpace(s[0]) { SkipTwice(s[1..]); }
  }

  /** A member's text, from its separator to its end and beyond. */
  ghost function MemberAnd(items: Items, isArray: bool, pretty: bool, depth: nat, rest: string): string
    requires depth > 0 && items.Snoc?
  {
    Comma(pretty, items.init.Nil?, isArray, depth) + Label(pretty, isArray, items.name) + (Render(items.tree, pretty, depth) + rest)
  }

  lemma LastMember(items: Items, isArray: bool, pretty: bool, depth: nat, rest: string)
    requires depth > 0 && items.Snoc?
    ensures RenderItems(items, isArray, pretty, depth) + rest
         == RenderItems(items.init, isArray, pretty, depth) + MemberAnd(items, isArray, pretty, depth, rest)
    ensures items.init.Nil? || Ends(MemberAnd(items, isArray, pretty, depth, rest))
  {
    var a, b, c, d := RenderItems(items.init, isArray, pretty, depth), Comma(pretty, items.init.Nil?, isArray, depth),
      Label(pretty, isArray, items.name), Render(items.tree, pretty, depth);
    ConcatFive(a, b, c, d, rest);
    if items.init.Snoc? { CommaEnds(b, c + (d + rest), isArray, pretty, depth); Concat(b, c, d + rest); }
  }

  lemma CommaEnds(comma: string, rest: string, isArray: bool, pretty: bool, depth: nat)
    requires depth > 0 && comma == Comma(pretty, false, isArray, depth)
    ensures Ends(comma + rest)
  {
  }

  lemma {:induction false} ReadItems(items: Items, isArray: bool, pretty: bool, depth: nat, rest: string)
    requires depth > 0 && PlainItems(isArray, items) && (items.Nil? || Ends(rest))
    ensures ParseItems(isArray, Nil, RenderItems(items, isArray, pretty, depth) + rest) == ParseItems(isArray, items, rest)
    decreases items
  {
    if items.Nil? {
      assert RenderItems(items, isArray, pretty, depth) + rest == rest;
    } else {
      LastMember(items, isArray, pretty, depth, rest);
      ReadItems(items.init, isArray, pretty, depth, MemberAnd(items, isArray, pretty, depth, rest));
      ReadValue(items.tree, pretty, depth, rest);
      ReadLast(items, isArray, pretty, depth, rest);
    }
  }

  lemma ReadLast(items: Items, isArray: bool, pretty: bool, depth: nat, rest: string)
    requires depth > 0 && items.Snoc? && (if isArray then items.name == [] else Plain(items.name))
    requires ParseValue(Render(items.tree, pretty, depth) + rest) == Some((items.tree, rest))
    ensures ParseItems(isArray, items.init, MemberAnd(items, isArray, pretty, depth, rest)) == ParseItems(isArray, items, rest)
  {
    var v := Render(items.tree, pretty, depth) + rest;
    RenderStarts(items.tree, pretty, depth, rest);
    ReadMember(items.init, isArray, pretty, depth, items.name, v, items.tree, rest);
  }

  /** A rendered value is read back, whatever follows it that cannot continue a number. */
  lemma {:induction false} ReadValue(t: Tree, pretty: bool, depth: nat, rest: string)
    requires PlainTree(t) && Ends(rest)
    ensures ParseValue(Render(t, pretty, depth) + rest) == Some((t, rest))
    decreases t
  {
    match t
    case Str(x) => ReadStr(x, rest);
    case Num(n) => ReadNumber(n, rest);
    case Bool(b) => ReadBool(b, rest);
    case Section(isArray, items) =>
      ReadEnding(items, isArray, pretty, depth, rest);
      ReadItems(items, isArray, pretty, depth + 1, Ending(pretty, items.Nil?, isArray, depth) + rest);
      ReadSection(items, isArray, pretty, depth, rest);
  }

  lemma ReadSection(items: Items, isArray: bool, pretty: bool, depth: nat, rest: string)
    ensures var ending := Ending(pretty, items.Nil?, isArray, depth) + rest;
            ParseValue(Render(Section(isArray, items), pretty, depth) + rest)
            == ParseItems(isArray, Nil, RenderItems(items, isArray, pretty, depth + 1) + ending)
  {
    var body, ending := RenderItems(items, isArray, pretty, depth + 1), Ending(pretty, items.Nil?, isArray, depth);
    ConcatFour([Opener(isArray)], body, ending, rest);
    OpenedSection(isArray, body + (ending + rest));
  }

  lemma OpenedSection(isArray: bool, s: string)
    ensures ParseValue([Opener(isArray)] + s) == ParseItems(isArray, Nil, s)
  {
    assert ([Opener(isArray)] + s)[1..] == s;
  }

  lemma ReadStr(x: string, rest: string)
    ensures ParseValue(Quoted(x) + rest) == Some((Str(x), rest))
  {
    EscapeRoundTrip(x, rest);
    assert (Quoted(x) + rest)[1..] == Escape(x) + [QUOTE] + rest;
  }

  lemma ReadBool(b: bool, rest: string)
    ensures ParseValue(BoolText(b) + rest) == Some((Bool(b), rest))
  {
    var s := BoolText(b) + rest;
    assert s[..|BoolText(b)|] == BoolText(b) && s[|BoolText(b)|..] == rest;
    assert b ==> s[..4] == "true";
    assert !b ==> s[..5] == "false" && s[0] == 'f';
  }

  lemma ReadEnding(items: Items, isArray: bool, pretty: bool, depth: nat, rest: string)
    ensures ParseItems(isArray, items, Ending(pretty, items.Nil?, isArray, depth) + rest) == Some((Section(isArray, items), rest))
    ensures Ends(Ending(pretty, items.Nil?, isArray, depth) + rest)
  {
    var gap := if pretty && !items.Nil? then [NEWLINE] + Indent(depth) else [];
    var closed := [Closer(isArray)] + rest;
    assert Ending(pretty, items.Nil?, isArray, depth) + rest == gap + closed;
    SkipSpaces(gap, closed);
    assert closed[1..] == rest;
  }

  lemma NumberBranch(s: string)
    requires s != [] && IsDigit(s[0])
    ensures ParseValue(s) == match ParseDecimal(s) case None => None case Some((n, rest)) => Some((Num(n), rest))
  {
    assert "true"[0] == 't' && "false"[0] == 'f';
    if |s| >= 4 { assert s[..4][0] == s[0]; }
    if |s| >= 5 { assert s[..5][0] == s[0]; }
  }

  lemma MinusBranch(s: string)
    ensures ParseValue(['-'] + s)
         == match ParseDecimal(s) case None => None case Some((n, rest)) => Some((Num(-(n as int)), rest))
  {
    var m := ['-'] + s;
    assert m[1..] == s;
    assert "true"[0] == 't' && "false"[0] == 'f';
    if |m| >= 4 { assert m[..4][0] == '-'; }
    if |m| >= 5 { assert m[..5][0] == '-'; }
  }

  lemma ReadNegative(n: nat, rest: string)
    requires Ends(rest)
    ensures ParseValue(['-'] + (Decimal(n) + rest)) == Some((Num(-(n as int)), rest))
  {
    ParsePrintedDecimal(n, rest);
    MinusBranch(Decimal(n) + rest);
  }

  lemma ReadNatural(n: nat, rest: string)
    requires Ends(rest)
    ensures ParseValue(Decimal(n) + rest) == Some((Num(n), rest))
  {
    ParsePrintedDecimal(n, rest);
    assert (Decimal(n) + rest)[0] == Decimal(n)[0];
    NumberBranch(Decimal(n) + rest);
  }

  lemma ReadNumber(n: int, rest: string)
    requires Ends(rest)
    ensures ParseValue(NumText(n) + rest) == Some((Num(n), rest))
  {
    if n < 0 {
      Concat(['-'], Decimal(-n), rest);
      ReadNegative(-n, rest);
    } else {
      ReadNatural(n, rest);
    }
  }

  /** Compact and pretty text of the same tree parse to that tree. */
  lemma RenderRoundTrip(t: Tree, pretty: bool, trailer: string)
    requires PlainTree(t) && (forall i :: 0 <= i < |trailer| ==> IsSpace(trailer[i]))
    ensures Parse(Render(t, pretty, 0) + trailer) == Some(t)
  {
    var s := Render(t, pretty, 0) + trailer;
    RenderStarts(t, pretty, 0, trailer);
    ReadValue(t, pretty, 0, trailer);
    assert trailer + [] == trailer;
    SkipSpaces(trailer, []);
  }

  // ---------- Names that would need escaping ----------

  /** What a string literal can be, seen from the first quote in its text, at `j`: either it already
      contains a quote, and further to the front, or it ends there, has no control character, and
      every escape sequence has made it shorter. */
  lemma {:induction false} FirstQuote(s: string, j: nat)
    requires j < |s| && s[j] == QUOTE && (forall i :: 0 <= i < j ==> s[i] != QUOTE) && ParseString(s).Some?
    ensures var y := ParseString(s).value.0;
            || (exists i :: 0 <= i < |y| && i < j && y[i] == QUOTE)
            || (|y| <= j && (forall i :: 0 <= i < j ==> s[i] as int >= 0x20)
                && ((exists i :: 0 <= i < j && s[i] == BACKSLASH) ==> |y| < j))
    decreases |s|
  {
    if j > 0 {
      var (c, rest) := ParseChar(s).value;
      var m := |s| - |rest|;
      CharTaken(s);
      var y, y' := ParseString(s).value.0, ParseString(rest).value.0;
      assert y == [c] + y';
      if c == QUOTE {
        assert y[0] == QUOTE;
      } else {
        assert forall i :: 0 <= i < |rest| ==> rest[i] == s[m + i];
        FirstQuote(rest, j - m);
        if i :| 0 <= i < |y'| && i < j - m && y'[i] == QUOTE { assert y[i + 1] == QUOTE; }
        if |y'| <= j - m && (forall i :: 0 <= i < j - m ==> rest[i] as int >= 0x20) {
          forall i | 0 <= i < j
            ensures s[i] as int >= 0x20
          {
            if i >= m { assert s[i] == rest[i - m]; }
          }
          if i :| 0 <= i < j && s[i] == BACKSLASH && s[0] != BACKSLASH { assert rest[i - m] == BACKSLASH; }
        }
      }
    }
  }

  /** How much of the text one character takes up: no quote, unless it stands for one, and no control character. */
  lemma CharTaken(s: string)
    requires ParseChar(s).Some?
    ensures var (c, rest) := ParseChar(s).value;
            var m := |s| - |rest|;
            && 1 <= m <= |s| && rest == s[m..] && (m == 1 <==> s[0] != BACKSLASH)
            && (forall i :: 0 <= i < m ==> s[i] as int >= 0x20)
            && (c != QUOTE ==> forall i :: 0 <= i < m ==> s[i] != QUOTE)
  {
    if s[0] == BACKSLASH && s[1] == 'u' {
      assert forall i :: 2 <= i < 6 ==> s[i] == s[2..6][i - 2];
    }
  }

  /** A raw name that is not plain is never read as itself. */
  lemma RawNameMisread(x: string, r: string)
    requires !Plain(x) && ParseString(x + [QUOTE] + r).Some?
    ensures ParseString(x + [QUOTE] + r).value.0 != x
  {
    var s := x + [QUOTE] + r;
    var j := FindQuote(x);
    assert forall i :: 0 <= i < |x| ==> s[i] == x[i];
    assert s[j] == QUOTE;
    FirstQuote(s, j);
  }

  /** The place of the first quote, or the end. */
  function FindQuote(x: string): (j: nat)
    ensures j <= |x| && (forall i :: 0 <= i < j ==> x[i] != QUOTE) && (j < |x| ==> x[j] == QUOTE)
  {
    if x == [] || x[0] == QUOTE then 0 else 1 + FindQuote(x[1..])
  }

  lemma QuotedMisread(name: string, colon: string, v: string)
    requires !Plain(name) && colon in {": ", ":"}
    ensures var r := ParseName(false, [QUOTE] + name + [QUOTE] + colon + v); r.Some? ==> r.value.0 != name
  {
    var s := name + [QUOTE] + (colon + v);
    assert ([QUOTE] + name + [QUOTE] + colon + v)[1..] == s;
    if ParseString(s).Some? { RawNameMisread(name, colon + v); }
  }

  lemma LabelMisread(pretty: bool, name: string, v: string)
    requires !Plain(name)
    ensures var r := ParseName(false, Skip(Label(pretty, false, name) + v)); r.Some? ==> r.value.0 != name
  {
    var colon := if pretty then ": " else ":";
    var quoted := [QUOTE] + name + [QUOTE] + colon + v;
    assert Label(pretty, false, name) + v == (if pretty then "    " else []) + quoted;
    SkipSpaces(if pretty then "    " else [], quoted);
    QuotedMisread(name, colon, v);
  }

  /** The name of an object member is read back exactly if it needs no escaping. */
  lemma NameReadIffPlain(pretty: bool, name: string, v: string)
    requires ValueStart(v)
    ensures ParseName(false, Skip(Label(pretty, false, name) + v)) == Some((name, v)) <==> Plain(name)
  {
    if Plain(name) {
      ReadLabel(pretty, false, name, v);
    } else {
      LabelMisread(pretty, name, v);
    }
  }

  // ---------- Whole texts with such names ----------

  function SizeOf(items: Items): nat { match items case Nil => 0 case Snoc(init, _, _) => SizeOf(init) + 1 }

  /** The members `a` come first in `z`. */
  ghost predicate Begins(a: Items, z: Items) { a == z || (z.Snoc? && Begins(a, z.init)) }

  lemma {:induction false} BeginsShorter(a: Items, z: Items)
    requires Begins(a, z)
    ensures SizeOf(a) <= SizeOf(z) && (SizeOf(a) == SizeOf(z) ==> a == z)
  {
    if a != z { BeginsShorter(a, z.init); }
  }

  /** As many members from the beginning are the same members. */
  lemma {:induction false} BeginsSame(a: Items, b: Items, z: Items)
    requires Begins(a, z) && Begins(b, z) && SizeOf(a) == SizeOf(b)
    ensures a == b
    decreases z
  {
    BeginsShorter(a, z);
    BeginsShorter(b, z);
    if a != z && b != z { BeginsSame(a, b, z.init); }
  }

  lemma {:induction false} BeginsInit(a: Items, z: Items)
    requires a.Snoc? && Begins(a, z)
    ensures Begins(a.init, z)
  {
    if a != z { BeginsInit(a, z.init); } else { assert Begins(a.init, a.init); }
  }

  /** A section begins with the members already read. */
  lemma {:induction false} ItemsKept(isArray: bool, acc: Items, s: string)
    requires ParseItems(isArray, acc, s).Some?
    ensures var t := ParseItems(isArray, acc, s).value.0; t.Section? && t.isArray == isArray && Begins(acc, t.items)
    decreases |s|
  {
    var s1 := Skip(s);
    if s1[0] != Closer(isArray) {
      var (name, s2) := ParseName(isArray, Skip(if acc.Snoc? then s1[1..] else s1)).value;
      var (t, s3) := ParseValue(s2).value;
      ItemsKept(isArray, Snoc(acc, name, t), s3);
      BeginsInit(Snoc(acc, name, t), ParseItems(isArray, acc, s).value.0.items);
    }
  }

  /** `r` is not a reading of the section with members `full`. */
  ghost predicate Misread(r: Option<(Tree, string)>, isArray: bool, full: Items) {
    r.Some? ==> r.value.0 != Section(isArray, full)
  }

  /** Once a wrong name or value has been read, the section is not the one that was written. */
  lemma WrongMember(isArray: bool, init: Items, name: string, t: Tree, name': string, t': Tree, s: string, full: Items)
    requires Begins(Snoc(init, name, t), full) && (name' != name || t' != t)
    ensures Misread(ParseItems(isArray, Snoc(init, name', t'), s), isArray, full)
  {
    var r := ParseItems(isArray, Snoc(init, name', t'), s);
    if r.Some? && r.value.0 == Section(isArray, full) {
      ItemsKept(isArray, Snoc(init, name', t'), s);
      BeginsSame(Snoc(init, name, t), Snoc(init, name', t'), full);
    }
  }

  /** How the parser goes on when it has come to a member. */
  ghost function AfterName(isArray: bool, acc: Items, n: Option<(string, string)>): Option<(Tree, string)> {
    match n
    case None => None
    case Some((name, s2)) =>
      match ParseValue(s2)
      case None => None
      case Some((t, s3)) => ParseItems(isArray, Snoc(acc, name, t), s3)
  }

  lemma FirstGoesOn(isArray: bool, s: string)
    requires ValueStart(Skip(s))
    ensures ParseItems(isArray, Nil, s) == AfterName(isArray, Nil, ParseName(isArray, Skip(s)))
  {
    SkipTwice(s);
  }

  lemma NextGoesOn(isArray: bool, acc: Items, s: string)
    requires acc.Snoc?
    ensures ParseItems(isArray, acc, [','] + s) == AfterName(isArray, acc, ParseName(isArray, Skip(s)))
  {
    assert Skip([','] + s) == [','] + s && ([','] + s)[1..] == s;
  }

  /** The same for a rendered member, whatever its name. */
  lemma MemberGoesOn(items: Items, isArray: bool, pretty: bool, depth: nat, rest: string)
    requires depth > 0 && items.Snoc?
    ensures var v := Render(items.tree, pretty, depth) + rest;
            ParseItems(isArray, items.init, MemberAnd(items, isArray, pretty, depth, rest))
            == AfterName(isArray, items.init, ParseName(isArray, Skip(Label(pretty, isArray, items.name) + v)))
  {
    var v := Render(items.tree, pretty, depth) + rest;
    var gap, tail := Gap(pretty, isArray, depth), Label(pretty, isArray, items.name) + v;
    GapIsSpace(pretty, isArray, depth);
    SkipSpaces(gap, tail);
    RenderStarts(items.tree, pretty, depth, rest);
    LabelStarts(pretty, isArray, items.name, v);
    MemberText(items.init.Nil?, isArray, pretty, depth, items.name, v);
    if items.init.Nil? {
      assert [] + (gap + tail) == gap + tail;
      FirstGoesOn(isArray, gap + tail);
    } else {
      NextGoesOn(isArray, items.init, gap + tail);
    }
  }

  /** Members of arrays have no name, as in every tree that calls build. */
  ghost predicate WellNamed(t: Tree)
    decreases t
  {
    t.Section? ==> WellNamedItems(t.isArray, t.items)
  }

  ghost predicate WellNamedItems(isArray: bool, items: Items)
    decreases items
  {
    items.Snoc? ==> (isArray ==> items.name == []) && WellNamedItems(isArray, items.init) && WellNamed(items.tree)
  }

  /** The last member is the first that is wrong. */
  lemma LastMisread(items: Items, isArray: bool, pretty: bool, depth: nat, rest: string, full: Items)
    requires depth > 0 && items.Snoc? && (isArray ==> items.name == []) && Begins(items, full)
    requires (!isArray && !Plain(items.name))
             || (ParseValue(Render(items.tree, pretty, depth) + rest).Some?
                 ==> ParseValue(Render(items.tree, pretty, depth) + rest).value.0 != items.tree)
    ensures Misread(ParseItems(isArray, items.init, MemberAnd(items, isArray, pretty, depth, rest)), isArray, full)
  {
    var v := Render(items.tree, pretty, depth) + rest;
    var n := ParseName(isArray, Skip(Label(pretty, isArray, items.name) + v));
    MemberGoesOn(items, isArray, pretty, depth, rest);
    RenderStarts(items.tree, pretty, depth, rest);
    if !isArray && !Plain(items.name) {
      LabelMisread(pretty, items.name, v);
    } else {
      ReadLabel(pretty, isArray, items.name, v);
    }
    if n.Some? && ParseValue(n.value.1).Some? {
      var (t', s3) := ParseValue(n.value.1).value;
      WrongMember(isArray, items.init, items.name, items.tree, n.value.0, t', s3, full);
    }
  }

  lemma {:induction false} ItemsMisread(items: Items, isArray: bool, pretty: bool, depth: nat, rest: string, full: Items)
    requires depth > 0 && WellNamedItems(isArray, items) && !PlainItems(isArray, items) && Begins(items, full)
    ensures Misread(ParseItems(isArray, Nil, RenderItems(items, isArray, pretty, depth) + rest), isArray, full)
    decreases items
  {
    LastMember(items, isArray, pretty, depth, rest);
    var member := MemberAnd(items, isArray, pretty, depth, rest);
    if !PlainItems(isArray, items.init) {
      BeginsInit(items, full);
      ItemsMisread(items.init, isArray, pretty, depth, member, full);
    } else {
      ReadItems(items.init, isArray, pretty, depth, member);
      if !PlainTree(items.tree) { ValueMisread(items.tree, pretty, depth, rest); }
      LastMisread(items, isArray, pretty, depth, rest, full);
    }
  }

  /** A tree with a name that needs escaping is never read back from its text. */
  lemma {:induction false} ValueMisread(t: Tree, pretty: bool, depth: nat, rest: string)
    requires WellNamed(t) && !PlainTree(t)
    ensures var r := ParseValue(Render(t, pretty, depth) + rest); r.Some? ==> r.value.0 != t
    decreases t
  {
    var ending := Ending(pretty, t.items.Nil?, t.isArray, depth) + rest;
    ReadSection(t.items, t.isArray, pretty, depth, rest);
    ItemsMisread(t.items, t.isArray, pretty, depth + 1, ending, t.items);
  }

  /** A text, compact or pretty, parses to its tree exactly if all object names need no escaping. */
  lemma RenderReadIffPlain(t: Tree, pretty: bool, trailer: string)
    requires WellNamed(t) && (forall i :: 0 <= i < |trailer| ==> IsSpace(trailer[i]))
    ensures Parse(Render(t, pretty, 0) + trailer) == Some(t) <==> PlainTree(t)
  {
    if PlainTree(t) {
      RenderRoundTrip(t, pretty, trailer);
    } else {
      RenderStarts(t, pretty, 0, trailer);
      ValueMisread(t, pretty, 0, trailer);
    }
  }

  // ---------- What the texts look like ----------

  /** Two characters for quote, backslash, tab and newline, six for every other control character and for DEL,
      one for all others; with `EscapeRoundTrip` this leaves no choice for the last two kinds. */
  lemma EscapeShape(c: char)
    ensures |Escape([c])| == if c in "\"\\\t\n" then 2 else if c as int < 32 || c as int == 127 then 6 else 1
    ensures c in "\"\\" ==> Escape([c]) == ['\\', c]
    ensures |Escape([c])| == 1 ==> Escape([c]) == [c]
  {
    assert [c][1..] == [];
    assert Escape([c]) == EscapeChar(c) + [];
  }

  function Spaces(n: nat): string { seq(n, _ => ' ') }

  lemma {:induction false} IndentIs(n: nat)
    ensures Indent(n) == Spaces(4 * n) && Spaces(4) == "    "
  {
    if n > 0 {
      IndentIs(n - 1);
      assert "    " + Spaces(4 * (n - 1)) == Spaces(4 * n);
    }
  }

  /** One more member: its comma, its own line four spaces further in, its name and colon, its value. */
  lemma OneMoreMember(init: Items, name: string, t: Tree, isArray: bool, pretty: bool, depth: nat)
    requires depth > 0
    ensures RenderItems(Snoc(init, name, t), isArray, pretty, depth)
         == RenderItems(init, isArray, pretty, depth) + (if init.Nil? then "" else ",")
            + (if pretty then "\n" + Spaces(4 * depth) else "")
            + (if isArray then "" else "\"" + name + (if pretty then "\": " else "\":")) + Render(t, pretty, depth)
  {
    var comma, gap := if init.Nil? then "" else ",", if pretty then "\n" + Spaces(4 * depth) else "";
    var called := if isArray then "" else "\"" + name + (if pretty then "\": " else "\":");
    var before, value := RenderItems(init, isArray, pretty, depth), Render(t, pretty, depth);
    SeparatorIs(init.Nil?, name, isArray, pretty, depth);
    var c, l := Comma(pretty, init.Nil?, isArray, depth), Label(pretty, isArray, name);
    assert RenderItems(Snoc(init, name, t), isArray, pretty, depth) == before + c + l + value;
    Concat(before, c, l);
    Concat(before, comma + gap, called);
    Concat(before, comma, gap);
  }

  lemma SeparatorIs(first: bool, name: string, isArray: bool, pretty: bool, depth: nat)
    requires depth > 0
    ensures Comma(pretty, first, isArray, depth) + Label(pretty, isArray, name)
         == (if first then "" else ",") + (if pretty then "\n" + Spaces(4 * depth) else "")
            + (if isArray then "" else "\"" + name + (if pretty then "\": " else "\":"))
  {
    if pretty {
      IndentIs(depth - 1);
      assert Spaces(4 * (depth - 1)) + "    " == Spaces(4 * depth);
      var c := if first then "" else ",";
      if isArray { ArraySeparator(c, Indent(depth - 1)); } else { ObjectSeparator(c, Indent(depth - 1), name); }
    }
  }

  lemma ArraySeparator(c: string, indent: string)
    ensures c + ([NEWLINE] + indent + "    ") + [] == c + ("\n" + (indent + "    ")) + ""
  {
    Concat([NEWLINE], indent, "    ");
  }

  lemma ObjectSeparator(c: string, indent: string, name: string)
    ensures c + ([NEWLINE] + indent + []) + ("    " + [QUOTE] + name + [QUOTE] + ": ")
         == c + ("\n" + (indent + "    ")) + ("\"" + name + "\": ")
  {
    var l := "\"" + name + "\": ";
    assert "    " + [QUOTE] + name + [QUOTE] + ": " == "    " + l;
    assert [NEWLINE] + indent + [] == "\n" + indent;
    Concat(c + ("\n" + indent), "    ", l);
    Concat(c, "\n" + indent, "    ");
    Concat("\n", indent, "    ");
  }

  /** A section: its brackets, and the closing one of a section with members on a line of its own. */
  lemma SectionText(isArray: bool, items: Items, pretty: bool, depth: nat)
    ensures Render(Section(isArray, items), pretty, depth)
         == (if isArray then "[" else "{") + RenderItems(items, isArray, pretty, depth + 1)
            + ((if pretty && items.Snoc? then "\n" + Spaces(4 * depth) else "") + (if isArray then "]" else "}"))
  {
    IndentIs(depth);
  }
}
