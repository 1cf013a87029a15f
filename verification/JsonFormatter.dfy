/** The streaming JSON formatter: a text under construction, a stack of open sections and a
    deferred string, against a builder that makes the tree of the same calls. */
module JsonFormatter {
  import opened Common
  import opened JsonText
  import opened Metadata

  datatype Call =
    | OpenSection(name: string, isArray: bool)
    | CloseSection
    | DumpString(name: string, s: string)
    | DumpInt(name: string, n: int)
    | DumpBool(name: string, b: bool)
    | DumpFormat(name: string, text: string)
    | DumpStream(name: string)
    | WriteStream(text: string)

  const LARGE_SIZE: nat := 1024

  /** What is left of a formatted text in the buffer it is printed to, read as a C string. */
  function Cut(text: string): string {
    var t := Text(text);
    if |t| < LARGE_SIZE then t else t[..LARGE_SIZE - 1]
  }

  /** A formatted text that holds no terminator is kept whole below 1024 characters, and its first 1023
      otherwise. */
  lemma FormatKept(text: string)
    requires '\0' !in text
    ensures Cut(text) == if |text| < 1024 then text else text[..1023]
  {
    TextWhole(text);
  }

  lemma {:induction false} TextWhole(text: string)
    requires '\0' !in text
    ensures Text(text) == text
  {
    if text != [] { TextWhole(text[1..]); }
  }

  // ---------- The formatter ----------

  datatype Entry = Entry(size: nat, isArray: bool)

  datatype Fmt = Fmt(pretty: bool, ss: string, stack: seq<Entry>, isPending: bool, pendingName: string, pendingString: string)

  function NewFmt(pretty: bool): Fmt { Fmt(pretty, [], [], false, [], []) }

  /** The comma and the name, with no regard to a deferred string. */
  function NameOnly(f: Fmt, name: string): (r: Fmt)
    ensures r.pretty == f.pretty && |r.stack| == |f.stack|
  {
    if f.stack == [] then f
    else
      var k := |f.stack| - 1;
      var e := f.stack[k];
      f.(ss := f.ss + Comma(f.pretty, e.size == 0, e.isArray, k + 1) + Label(f.pretty, e.isArray, name),
         stack := f.stack[k := e.(size := e.size + 1)])
  }

  function Emit(f: Fmt, text: string): Fmt { f.(ss := f.ss + text) }

  function FinishPending(f: Fmt): (r: Fmt)
    ensures r.pretty == f.pretty && |r.stack| == |f.stack|
  {
    if !f.isPending then f
    else Emit(NameOnly(f.(isPending := false), f.pendingName), Quoted(f.pendingString)).(pendingString := [])
  }

  function AddValue(f: Fmt, name: string, text: string): Fmt {
    Emit(NameOnly(FinishPending(f), name), text)
  }

  function Open(f: Fmt, name: string, isArray: bool): Fmt {
    var f1 := AddValue(f, name, [Opener(isArray)]);
    f1.(stack := f1.stack + [Entry(0, isArray)])
  }

  /** `None` is the failed assertion that a section is open. */
  function Close(f0: Fmt): Option<Fmt> {
    if f0.stack == [] then None
    else
      var f := FinishPending(f0);
      if f.stack == [] then None
      else
        var k := |f.stack| - 1;
        var text := Ending(f.pretty, f.stack[k].size == 0, f.stack[k].isArray, k);
        Some(Emit(f, text + if f.pretty && k == 0 then [NEWLINE] else []).(stack := f.stack[..k]))
  }

  function Do(f: Fmt, c: Call): Option<Fmt> {
    match c
    case OpenSection(name, isArray) => Some(Open(f, name, isArray))
    case CloseSection => Close(f)
    case DumpString(name, s) => Some(AddValue(f, name, Quoted(s)))
    case DumpInt(name, n) => Some(AddValue(f, name, NumText(n)))
    case DumpBool(name, b) => Some(AddValue(f, name, BoolText(b)))
    case DumpFormat(name, text) => Some(AddValue(f, name, Quoted(Cut(text))))
    case DumpStream(name) => Some(FinishPending(f).(pendingName := name, isPending := true))
    case WriteStream(text) => Some(f.(pendingString := f.pendingString + text))
  }

  function RunCalls(f: Fmt, calls: seq<Call>): Option<Fmt>
    decreases |calls|
  {
    if calls == [] then Some(f)
    else match Do(f, calls[0]) case None => None case Some(f1) => RunCalls(f1, calls[1..])
  }

  /** What `flush` writes. */
  function Output(f: Fmt, lineBreak: bool): string { FinishPending(f).ss + if lineBreak then [NEWLINE] else [] }

  // ---------- The tree of a sequence of calls ----------

  datatype Frame = Frame(isArray: bool, name: string, items: Items)

  /** Open sections, outermost first; the finished root; a string being streamed. */
  datatype Builder = Builder(frames: seq<Frame>, root: Option<Tree>, pending: Option<(string, string)>)

  const NewBuilder := Builder([], None, None)

  function WithItem(fr: Frame, name: string, t: Tree): Frame {
    fr.(items := Snoc(fr.items, if fr.isArray then [] else name, t))
  }

  /** A value at the current place; at the top there is room for one. */
  function Put(b: Builder, name: string, t: Tree): Option<Builder> {
    if b.frames == [] then if b.root == None then Some(b.(root := Some(t))) else None
    else
      var k := |b.frames| - 1;
      Some(b.(frames := b.frames[k := WithItem(b.frames[k], name, t)]))
  }

  function Settle(b: Builder): Option<Builder> {
    match b.pending case None => Some(b) case Some((name, x)) => Put(b.(pending := None), name, Str(x))
  }

  function PutSettled(b: Builder, name: string, t: Tree): Option<Builder> {
    match Settle(b) case None => None case Some(b1) => Put(b1, name, t)
  }

  /** `None` if the call does not fit: nothing to close, a second root, text for no stream. */
  function Build(b: Builder, c: Call): Option<Builder> {
    match c
    case OpenSection(name, isArray) =>
      (match Settle(b)
       case None => None
       case Some(b1) =>
         if b1.frames == [] && b1.root != None then None else Some(b1.(frames := b1.frames + [Frame(isArray, name, Nil)])))
    case CloseSection =>
      (match Settle(b)
       case None => None
       case Some(b1) =>
         if b1.frames == [] then None
         else
           var k := |b1.frames| - 1;
           var fr := b1.frames[k];
           Put(b1.(frames := b1.frames[..k]), fr.name, Section(fr.isArray, fr.items)))
    case DumpString(name, s) => PutSettled(b, name, Str(s))
    case DumpInt(name, n) => PutSettled(b, name, Num(n))
    case DumpBool(name, v) => PutSettled(b, name, Bool(v))
    case DumpFormat(name, text) => PutSettled(b, name, Str(Cut(text)))
    case DumpStream(name) =>
      (match Settle(b) case None => None case Some(b1) => Some(b1.(pending := Some((name, [])))))
    case WriteStream(text) =>
      (match b.pending case None => None case Some((name, x)) => Some(b.(pending := Some((name, x + text)))))
  }

  function BuildAll(b: Builder, calls: seq<Call>): Option<Builder>
    decreases |calls|
  {
    if calls == [] then Some(b)
    else match Build(b, calls[0]) case None => None case Some(b1) => BuildAll(b1, calls[1..])
  }

  /** The tree of a balanced sequence of calls: all sections closed, one root. */
  function TreeOf(calls: seq<Call>): Option<Tree> {
    match BuildAll(NewBuilder, calls)
    case None => None
    case Some(b) =>
      match Settle(b)
      case None => None
      case Some(b1) => if b1.frames == [] then b1.root else None
  }

  // ---------- The text of a builder ----------

  /** The text of the open sections and of what is finished inside them. */
  function FramesText(frames: seq<Frame>, pretty: bool): string
    decreases |frames|, 0
  {
    if frames == [] then []
    else
      var k := |frames| - 1;
      Before(frames[..k], frames[k].name, pretty)
      + [Opener(frames[k].isArray)] + RenderItems(frames[k].items, frames[k].isArray, pretty, k + 1)
  }

  /** The text up to the beginning of one more value. */
  function Before(frames: seq<Frame>, name: string, pretty: bool): string
    decreases |frames|, 1
  {
    if frames == [] then []
    else
      var fr := frames[|frames| - 1];
      FramesText(frames, pretty) + Comma(pretty, fr.items.Nil?, fr.isArray, |frames|) + Label(pretty, fr.isArray, if fr.isArray then [] else name)
  }

  function RootText(t: Tree, pretty: bool): string {
    Render(t, pretty, 0) + if t.Section? && pretty then [NEWLINE] else []
  }

  function BuilderText(b: Builder, pretty: bool): string {
    if b.frames == [] then match b.root case None => [] case Some(t) => RootText(t, pretty)
    else FramesText(b.frames, pretty)
  }

  ghost predicate EntryMatches(e: Entry, fr: Frame, last: bool) {
    e.isArray == fr.isArray && e.size == SizeOf(fr.items) + if last then 0 else 1
  }

  ghost predicate StackMatches(stack: seq<Entry>, frames: seq<Frame>) {
    |stack| == |frames| && forall i :: 0 <= i < |stack| ==> EntryMatches(stack[i], frames[i], i == |stack| - 1)
  }

  /** The formatter has written what the builder has built. */
  ghost predicate Agrees(f: Fmt, b: Builder) {
    && StackMatches(f.stack, b.frames) && f.ss == BuilderText(b, f.pretty)
    && (b.frames != [] ==> b.root == None)
    && f.isPending == b.pending.Some?
    && (match b.pending case None => f.pendingString == [] case Some((name, x)) => f.pendingName == name && f.pendingString == x)
  }

  lemma SizeZero(items: Items)
    ensures SizeOf(items) == 0 <==> items.Nil?
  {
  }

  lemma LabelIgnores(pretty: bool, isArray: bool, name: string)
    ensures Label(pretty, isArray, name) == Label(pretty, isArray, if isArray then [] else name)
  {
  }

  lemma BeforeIs(frames: seq<Frame>, name: string, pretty: bool, e: Entry)
    requires frames != [] && EntryMatches(e, frames[|frames| - 1], true)
    ensures Before(frames, name, pretty)
         == FramesText(frames, pretty) + Comma(pretty, e.size == 0, e.isArray, |frames|) + Label(pretty, e.isArray, name)
  {
    SizeZero(frames[|frames| - 1].items);
    LabelIgnores(pretty, e.isArray, name);
  }

  /** The separator and the name bring the text to where the value begins. */
  lemma NameWrites(f: Fmt, frames: seq<Frame>, name: string)
    requires frames != [] && StackMatches(f.stack, frames) && f.ss == FramesText(frames, f.pretty)
    ensures var k := |frames| - 1;
            NameOnly(f, name) == f.(ss := Before(frames, name, f.pretty), stack := f.stack[k := Entry(f.stack[k].size + 1, f.stack[k].isArray)])
  {
    var k := |frames| - 1;
    assert EntryMatches(f.stack[k], frames[k], true);
    BeforeIs(frames, name, f.pretty, f.stack[k]);
  }

  lemma StackPut(stack: seq<Entry>, frames: seq<Frame>, name: string, t: Tree)
    requires frames != [] && StackMatches(stack, frames)
    ensures var k := |frames| - 1;
            StackMatches(stack[k := Entry(stack[k].size + 1, stack[k].isArray)], frames[k := WithItem(frames[k], name, t)])
  {
    var k := |frames| - 1;
    var stack', frames' := stack[k := Entry(stack[k].size + 1, stack[k].isArray)], frames[k := WithItem(frames[k], name, t)];
    forall i | 0 <= i < |stack'|
      ensures EntryMatches(stack'[i], frames'[i], i == k)
    {
      assert EntryMatches(stack[i], frames[i], i == k);
    }
  }

  lemma StackOpen(stack: seq<Entry>, frames: seq<Frame>, fr: Frame)
    requires StackMatches(stack, frames) && fr.items == Nil
    ensures StackMatches(stack + [Entry(0, fr.isArray)], frames + [fr]) <== frames == []
    ensures frames != [] ==>
              var k := |frames| - 1;
              StackMatches(stack[k := Entry(stack[k].size + 1, stack[k].isArray)] + [Entry(0, fr.isArray)], frames + [fr])
  {
    if frames != [] {
      var k := |frames| - 1;
      var stack', frames' := stack[k := Entry(stack[k].size + 1, stack[k].isArray)] + [Entry(0, fr.isArray)], frames + [fr];
      forall i | 0 <= i < |stack'|
        ensures EntryMatches(stack'[i], frames'[i], i == k + 1)
      {
        if i <= k { assert EntryMatches(stack[i], frames[i], i == k); }
      }
    }
  }

  lemma StackClose(stack: seq<Entry>, outer: seq<Frame>, fr: Frame, name: string, t: Tree)
    requires outer != [] && StackMatches(stack, outer + [fr])
    ensures var k := |outer|;
            StackMatches(stack[..k], outer[k - 1 := WithItem(outer[k - 1], name, t)])
  {
    var k, frames := |outer|, outer + [fr];
    var frames' := outer[k - 1 := WithItem(outer[k - 1], name, t)];
    forall i | 0 <= i < k
      ensures EntryMatches(stack[..k][i], frames'[i], i == k - 1)
    {
      assert EntryMatches(stack[i], frames[i], i == k);
    }
  }

  lemma PutInside(f: Fmt, b: Builder, name: string, t: Tree)
    requires Agrees(f, b) && b.pending == None && b.frames != []
    ensures var k := |b.frames| - 1;
            Agrees(f.(ss := Before(b.frames, name, f.pretty) + Render(t, f.pretty, k + 1),
                      stack := f.stack[k := Entry(f.stack[k].size + 1, f.stack[k].isArray)]),
                   b.(frames := b.frames[k := WithItem(b.frames[k], name, t)]))
  {
    StackPut(f.stack, b.frames, name, t);
    LastItem(b.frames, name, t, f.pretty);
  }

  lemma PutRoot(f: Fmt, b: Builder, t: Tree)
    requires Agrees(f, b) && b.pending == None && b.frames == [] && b.root == None && !t.Section?
    ensures Agrees(f.(ss := Render(t, f.pretty, 0)), b.(root := Some(t)))
  {
    assert RootText(t, f.pretty) == Render(t, f.pretty, 0);
  }

  /** A finished value: the name, then the value's text. */
  lemma PutAgrees(f: Fmt, b: Builder, name: string, t: Tree)
    requires Agrees(f, b) && b.pending == None && Put(b, name, t).Some? && !t.Section?
    ensures Agrees(Emit(NameOnly(f, name), Render(t, f.pretty, |f.stack|)), Put(b, name, t).value)
  {
    if b.frames != [] {
      NameWrites(f, b.frames, name);
      PutInside(f, b, name, t);
    } else {
      PutRoot(f, b, t);
      assert [] + Render(t, f.pretty, 0) == Render(t, f.pretty, 0);
    }
  }

  /** Adding a value to the innermost section adds its text at the end. */
  lemma LastItem(frames: seq<Frame>, name: string, t: Tree, pretty: bool)
    requires frames != []
    ensures var k := |frames| - 1;
            FramesText(frames[k := WithItem(frames[k], name, t)], pretty) == Before(frames, name, pretty) + Render(t, pretty, k + 1)
  {
    var k := |frames| - 1;
    var fr, fr' := frames[k], WithItem(frames[k], name, t);
    var frames' := frames[k := fr'];
    assert frames'[..k] == frames[..k] && frames'[k] == fr';
    var head := Before(frames[..k], fr.name, pretty) + [Opener(fr.isArray)];
    var items := RenderItems(fr.items, fr.isArray, pretty, k + 1);
    var comma, tag := Comma(pretty, fr.items.Nil?, fr.isArray, k + 1), Label(pretty, fr.isArray, if fr.isArray then [] else name);
    ConcatFive(head, items, comma, tag, Render(t, pretty, k + 1));
    Concat(items + comma, tag, Render(t, pretty, k + 1));
  }

  lemma FinishAgrees(f: Fmt, b: Builder)
    requires Agrees(f, b) && Settle(b).Some?
    ensures Agrees(FinishPending(f), Settle(b).value) && Settle(b).value.pending == None
  {
    match b.pending {
      case None =>
      case Some((name, x)) =>
        var f1, b1 := f.(isPending := false, pendingString := []), b.(pending := None);
        PutAgrees(f1, b1, name, Str(x));
        assert FinishPending(f) == Emit(NameOnly(f1, name), Render(Str(x), f.pretty, |f.stack|));
    }
  }

  lemma ValueAgrees(f: Fmt, b: Builder, name: string, t: Tree)
    requires Agrees(f, b) && PutSettled(b, name, t).Some? && !t.Section?
    ensures Agrees(AddValue(f, name, Render(t, f.pretty, 0)), PutSettled(b, name, t).value)
  {
    FinishAgrees(f, b);
    PutAgrees(FinishPending(f), Settle(b).value, name, t);
    assert Render(t, f.pretty, |FinishPending(f).stack|) == Render(t, f.pretty, 0);
  }

  lemma OpenAgrees(f: Fmt, b: Builder, name: string, isArray: bool)
    requires Agrees(f, b) && b.pending == None && (b.frames == [] ==> b.root == None)
    ensures var f1 := Emit(NameOnly(f, name), [Opener(isArray)]);
            Agrees(f1.(stack := f1.stack + [Entry(0, isArray)]), b.(frames := b.frames + [Frame(isArray, name, Nil)]))
  {
    var fr := Frame(isArray, name, Nil);
    StackOpen(f.stack, b.frames, fr);
    OpenText(b.frames, fr, f.pretty);
    if b.frames != [] { NameWrites(f, b.frames, name); }
  }

  lemma OpenText(frames: seq<Frame>, fr: Frame, pretty: bool)
    requires fr.items == Nil
    ensures FramesText(frames + [fr], pretty) == Before(frames, fr.name, pretty) + [Opener(fr.isArray)]
  {
    assert (frames + [fr])[..|frames|] == frames && (frames + [fr])[|frames|] == fr;
  }

  /** What closing the innermost section `fr` writes. */
  lemma CloseWrites(f: Fmt, outer: seq<Frame>, fr: Frame)
    requires !f.isPending && |f.stack| == |outer| + 1 && EntryMatches(f.stack[|outer|], fr, true)
    requires f.ss == FramesText(outer + [fr], f.pretty)
    ensures var k := |outer|;
            Close(f) == Some(f.(stack := f.stack[..k],
                                ss := Before(outer, fr.name, f.pretty) + Render(Section(fr.isArray, fr.items), f.pretty, k)
                                      + if f.pretty && k == 0 then [NEWLINE] else []))
  {
    SizeZero(fr.items);
    ClosedText(outer, fr, f.pretty);
    Concat(f.ss, Ending(f.pretty, fr.items.Nil?, fr.isArray, |outer|), if f.pretty && |outer| == 0 then [NEWLINE] else []);
  }

  /** Closing an inner section hands its tree to the one around it. */
  lemma CloseInside(f: Fmt, b: Builder, outer: seq<Frame>, fr: Frame)
    requires Agrees(f, b) && b.pending == None && b.frames == outer + [fr] && outer != []
    ensures Close(f).Some?
    ensures var t := Section(fr.isArray, fr.items);
            Agrees(Close(f).value, b.(frames := outer[|outer| - 1 := WithItem(outer[|outer| - 1], fr.name, t)]))
  {
    var t := Section(fr.isArray, fr.items);
    LastEntry(f.stack, outer, fr);
    CloseWrites(f, outer, fr);
    StackClose(f.stack, outer, fr, fr.name, t);
    LastItem(outer, fr.name, t, f.pretty);
    NothingAfter(Before(outer, fr.name, f.pretty) + Render(t, f.pretty, |outer|));
  }

  lemma LastEntry(stack: seq<Entry>, outer: seq<Frame>, fr: Frame)
    requires StackMatches(stack, outer + [fr])
    ensures |stack| == |outer| + 1 && EntryMatches(stack[|outer|], fr, true)
  {
    assert (outer + [fr])[|outer|] == fr;
  }

  lemma NothingAfter(s: string)
    ensures s + [] == s
  {
  }

  /** Closing the outermost section completes the root. */
  lemma CloseOutermost(f: Fmt, b: Builder, fr: Frame)
    requires Agrees(f, b) && b.pending == None && b.frames == [fr]
    ensures Close(f).Some? && Agrees(Close(f).value, b.(frames := [], root := Some(Section(fr.isArray, fr.items))))
  {
    assert [] + [fr] == [fr];
    LastEntry(f.stack, [], fr);
    CloseWrites(f, [], fr);
    CloseRoot([], fr.name, Section(fr.isArray, fr.items), f.pretty);
  }

  /** Closing a section completes the text of its tree. */
  lemma CloseAgrees(f: Fmt, b: Builder)
    requires Agrees(f, b) && b.pending == None && b.frames != []
    ensures var k := |b.frames| - 1;
            var b' := Put(b.(frames := b.frames[..k]), b.frames[k].name, Section(b.frames[k].isArray, b.frames[k].items));
            Close(f).Some? && b'.Some? && Agrees(Close(f).value, b'.value)
  {
    var k := |b.frames| - 1;
    assert b.frames == b.frames[..k] + [b.frames[k]];
    if k > 0 {
      CloseInside(f, b, b.frames[..k], b.frames[k]);
    } else {
      CloseOutermost(f, b, b.frames[0]);
    }
  }

  lemma CloseRoot(none: seq<Frame>, name: string, t: Tree, pretty: bool)
    requires none == [] && t.Section?
    ensures Before(none, name, pretty) + Render(t, pretty, 0) + (if pretty then [NEWLINE] else []) == RootText(t, pretty)
  {
    assert [] + Render(t, pretty, 0) == Render(t, pretty, 0);
  }

  lemma ClosedText(outer: seq<Frame>, fr: Frame, pretty: bool)
    ensures FramesText(outer + [fr], pretty) + Ending(pretty, fr.items.Nil?, fr.isArray, |outer|)
         == Before(outer, fr.name, pretty) + Render(Section(fr.isArray, fr.items), pretty, |outer|)
  {
    var frames := outer + [fr];
    assert frames[..|outer|] == outer && frames[|outer|] == fr;
    var a, b, c, d := Before(outer, fr.name, pretty), [Opener(fr.isArray)], RenderItems(fr.items, fr.isArray, pretty, |outer| + 1),
      Ending(pretty, fr.items.Nil?, fr.isArray, |outer|);
    ConcatFour(a, b, c, d);
    Concat(b, c, d);
  }

  lemma OpenCall(f: Fmt, b: Builder, name: string, isArray: bool)
    requires Agrees(f, b) && Build(b, OpenSection(name, isArray)).Some?
    ensures Agrees(Open(f, name, isArray), Build(b, OpenSection(name, isArray)).value)
  {
    FinishAgrees(f, b);
    OpenAgrees(FinishPending(f), Settle(b).value, name, isArray);
  }

  lemma CloseCall(f: Fmt, b: Builder)
    requires Agrees(f, b) && Build(b, CloseSection).Some?
    ensures Close(f).Some? && Agrees(Close(f).value, Build(b, CloseSection).value)
  {
    FinishAgrees(f, b);
    CloseAgrees(FinishPending(f), Settle(b).value);
    assert FinishPending(FinishPending(f)) == FinishPending(f);
  }

  lemma DumpCall(f: Fmt, b: Builder, c: Call)
    requires Agrees(f, b) && Build(b, c).Some? && (c.DumpString? || c.DumpInt? || c.DumpBool? || c.DumpFormat?)
    ensures Do(f, c).Some? && Agrees(Do(f, c).value, Build(b, c).value)
  {
    match c {
      case DumpString(name, s) => ValueAgrees(f, b, name, Str(s));
      case DumpInt(name, n) => ValueAgrees(f, b, name, Num(n));
      case DumpBool(name, v) => ValueAgrees(f, b, name, Bool(v));
      case DumpFormat(name, text) => ValueAgrees(f, b, name, Str(Cut(text)));
    }
  }

  lemma StreamCall(f: Fmt, b: Builder, c: Call)
    requires Agrees(f, b) && Build(b, c).Some? && (c.DumpStream? || c.WriteStream?)
    ensures Do(f, c).Some? && Agrees(Do(f, c).value, Build(b, c).value)
  {
    if c.DumpStream? { FinishAgrees(f, b); }
  }

  /** Every call keeps formatter and builder in agreement. */
  lemma CallAgrees(f: Fmt, b: Builder, c: Call)
    requires Agrees(f, b) && Build(b, c).Some?
    ensures Do(f, c).Some? && Agrees(Do(f, c).value, Build(b, c).value)
  {
    match c {
      case OpenSection(name, isArray) => OpenCall(f, b, name, isArray);
      case CloseSection => CloseCall(f, b);
      case DumpStream(_) => StreamCall(f, b, c);
      case WriteStream(_) => StreamCall(f, b, c);
      case _ => DumpCall(f, b, c);
    }
  }

  lemma {:induction false} CallsAgree(f: Fmt, b: Builder, calls: seq<Call>)
    requires Agrees(f, b) && BuildAll(b, calls).Some?
    ensures RunCalls(f, calls).Some? && Agrees(RunCalls(f, calls).value, BuildAll(b, calls).value)
    decreases |calls|
  {
    if calls != [] {
      CallAgrees(f, b, calls[0]);
      CallsAgree(Do(f, calls[0]).value, Build(b, calls[0]).value, calls[1..]);
    }
  }

  lemma DoKeepsPretty(f: Fmt, c: Call)
    requires Do(f, c).Some?
    ensures Do(f, c).value.pretty == f.pretty
  {
  }

  lemma {:induction false} PrettyKept(f: Fmt, calls: seq<Call>)
    requires RunCalls(f, calls).Some?
    ensures RunCalls(f, calls).value.pretty == f.pretty
    decreases |calls|
  {
    if calls != [] {
      DoKeepsPretty(f, calls[0]);
      PrettyKept(Do(f, calls[0]).value, calls[1..]);
    }
  }

  // ---------- Names that need escaping ----------

  ghost predicate FramesNamed(frames: seq<Frame>) {
    forall i :: 0 <= i < |frames| ==> WellNamedItems(frames[i].isArray, frames[i].items)
  }

  /** Array members never get a name. */
  ghost predicate BuilderNamed(b: Builder) {
    FramesNamed(b.frames) && (b.root.Some? ==> WellNamed(b.root.value))
  }

  lemma PutNamed(b: Builder, name: string, t: Tree)
    requires BuilderNamed(b) && WellNamed(t) && Put(b, name, t).Some?
    ensures BuilderNamed(Put(b, name, t).value) && Put(b, name, t).value.pending == b.pending
  {
  }

  lemma SettleNamed(b: Builder)
    requires BuilderNamed(b) && Settle(b).Some?
    ensures BuilderNamed(Settle(b).value)
  {
    match b.pending {
      case None =>
      case Some((name, x)) => PutNamed(b.(pending := None), name, Str(x));
    }
  }

  lemma BuildNamed(b: Builder, c: Call)
    requires BuilderNamed(b) && Build(b, c).Some?
    ensures BuilderNamed(Build(b, c).value)
  {
    if !c.WriteStream? {
      SettleNamed(b);
      var b1 := Settle(b).value;
      match c {
        case CloseSection =>
          var k := |b1.frames| - 1;
          PutNamed(b1.(frames := b1.frames[..k]), b1.frames[k].name, Section(b1.frames[k].isArray, b1.frames[k].items));
        case DumpString(name, s) => PutNamed(b1, name, Str(s));
        case DumpInt(name, n) => PutNamed(b1, name, Num(n));
        case DumpBool(name, v) => PutNamed(b1, name, Bool(v));
        case DumpFormat(name, text) => PutNamed(b1, name, Str(Cut(text)));
        case _ =>
      }
    }
  }

  lemma {:induction false} BuildAllNamed(b: Builder, calls: seq<Call>)
    requires BuilderNamed(b) && BuildAll(b, calls).Some?
    ensures BuilderNamed(BuildAll(b, calls).value)
    decreases |calls|
  {
    if calls != [] {
      BuildNamed(b, calls[0]);
      BuildAllNamed(Build(b, calls[0]).value, calls[1..]);
    }
  }

  lemma TreeNamed(calls: seq<Call>)
    requires TreeOf(calls).Some?
    ensures WellNamed(TreeOf(calls).value)
  {
    BuildAllNamed(NewBuilder, calls);
    SettleNamed(BuildAll(NewBuilder, calls).value);
  }

  /** What is written out for a balanced sequence of calls. */
  lemma OutputIs(calls: seq<Call>, pretty: bool, lineBreak: bool)
    requires TreeOf(calls).Some?
    ensures var r, t := RunCalls(NewFmt(pretty), calls), TreeOf(calls).value;
            r.Some? && Output(r.value, lineBreak) == Render(t, pretty, 0) + Trailer(t, pretty, lineBreak)
  {
    CallsAgree(NewFmt(pretty), NewBuilder, calls);
    PrettyKept(NewFmt(pretty), calls);
    var f, b := RunCalls(NewFmt(pretty), calls).value, BuildAll(NewBuilder, calls).value;
    FinishAgrees(f, b);
    var t := TreeOf(calls).value;
    Concat(Render(t, pretty, 0), if t.Section? && pretty then [NEWLINE] else [], if lineBreak then [NEWLINE] else []);
  }

  function Trailer(t: Tree, pretty: bool, lineBreak: bool): (s: string)
    ensures forall i :: 0 <= i < |s| ==> IsSpace(s[i])
  {
    (if t.Section? && pretty then [NEWLINE] else []) + if lineBreak then [NEWLINE] else []
  }

  /** Main result. For every balanced sequence of calls, with strings dumped at once or streamed,
      no assertion fails, and the output, compact or pretty, parses to exactly the tree that was
      dumped if and only if all object names in it need no escaping. */
  lemma OutputReadIffPlain(calls: seq<Call>, pretty: bool, lineBreak: bool)
    requires TreeOf(calls).Some?
    ensures var r := RunCalls(NewFmt(pretty), calls);
            r.Some? && (Parse(Output(r.value, lineBreak)) == TreeOf(calls) <==> PlainTree(TreeOf(calls).value))
  {
    OutputIs(calls, pretty, lineBreak);
    TreeNamed(calls);
    RenderReadIffPlain(TreeOf(calls).value, pretty, Trailer(TreeOf(calls).value, pretty, lineBreak));
  }

  // ---------- The object ----------

  class Formatter {
    const pretty: bool
    var ss: string
    var stack: seq<Entry>
    var isPending: bool
    var pendingName: string
    var pendingString: string

    function View(): Fmt
      reads this
    {
      Fmt(pretty, ss, stack, isPending, pendingName, pendingString)
    }

    constructor (pretty: bool)
      ensures View() == NewFmt(pretty)
    {
      this.pretty := pretty;
      ss, stack, isPending, pendingName, pendingString := [], [], false, [], [];
    }

    /** Four spaces for every open section but the outermost. */
    method Indentation() returns (s: string)
      requires stack != []
      ensures s == Indent(|stack| - 1)
    {
      s := [];
      var i := 1;
      while i < |stack|
        invariant 1 <= i <= |stack| && s == Indent(i - 1)
      {
        s := "    " + s;
        i := i + 1;
      }
    }

    method PrintComma(e: Entry)
      requires stack != []
      modifies this`ss
      ensures ss == old(ss) + Comma(pretty, e.size == 0, e.isArray, |stack|)
    {
      var text := [];
      if e.size > 0 { text := [',']; }
      if pretty {
        var indent := Indentation();
        text := text + [NEWLINE] + indent;
        if e.isArray { text := text + "    "; }
      }
      assert text == Comma(pretty, e.size == 0, e.isArray, |stack|);
      ss := ss + text;
    }

    /** `print_name` once no string is pending. */
    method PrintNameOnly(name: string)
      modifies this`ss, this`stack
      ensures View() == NameOnly(old(View()), name)
    {
      if stack == [] { return; }
      var k := |stack| - 1;
      var e := stack[k];
      PrintComma(e);
      if !e.isArray {
        ss := ss + ((if pretty then "    " else []) + [QUOTE] + name + [QUOTE] + (if pretty then ": " else ":"));
      } else {
        assert ss + [] == ss;
      }
      stack := stack[k := e.(size := e.size + 1)];
    }

    method FinishPendingString()
      modifies this
      ensures View() == FinishPending(old(View()))
    {
      if isPending {
        isPending := false;
        PrintNameOnly(pendingName);
        ss := ss + Quoted(pendingString);
        pendingString := [];
      }
    }

    method AddText(name: string, text: string)
      modifies this
      ensures View() == AddValue(old(View()), name, text)
    {
      FinishPendingString();
      PrintNameOnly(name);
      ss := ss + text;
    }

    method OpenNew(name: string, isArray: bool)
      modifies this
      ensures View() == Open(old(View()), name, isArray)
    {
      AddText(name, [Opener(isArray)]);
      stack := stack + [Entry(0, isArray)];
    }

    method CloseLast() returns (ok: bool)
      modifies this
      ensures ok == Close(old(View())).Some?
      ensures ok ==> View() == Close(old(View())).value
    {
      if stack == [] { return false; }
      FinishPendingString();
      var k := |stack| - 1;
      var e := stack[k];
      var text := [];
      if pretty && e.size > 0 {
        var indent := Indentation();
        text := [NEWLINE] + indent;
      }
      text := text + [Closer(e.isArray)];
      assert text == Ending(pretty, e.size == 0, e.isArray, k);
      stack := stack[..k];
      text := text + if pretty && stack == [] then [NEWLINE] else [];
      ss := ss + text;
      ok := true;
    }

    /** Any of the calls; `ok` is false when there is no section to close. */
    method Perform(c: Call) returns (ok: bool)
      modifies this
      ensures ok == Do(old(View()), c).Some?
      ensures ok ==> View() == Do(old(View()), c).value
    {
      ok := true;
      match c {
        case OpenSection(name, isArray) => OpenNew(name, isArray);
        case CloseSection => ok := CloseLast();
        case DumpString(name, s) => AddText(name, Quoted(s));
        case DumpInt(name, n) => AddText(name, NumText(n));
        case DumpBool(name, b) => AddText(name, BoolText(b));
        case DumpFormat(name, text) => AddText(name, Quoted(Cut(text)));
        case DumpStream(name) =>
          FinishPendingString();
          pendingName, isPending := name, true;
        case WriteStream(text) => pendingString := pendingString + text;
      }
    }

    method Flush(lineBreak: bool) returns (os: string)
      modifies this
      ensures os == Output(old(View()), lineBreak)
      ensures View() == FinishPending(old(View())).(ss := [])
    {
      FinishPendingString();
      os := ss + if lineBreak then [NEWLINE] else [];
      ss := [];
    }
  }
}
