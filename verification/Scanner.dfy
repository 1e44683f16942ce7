/**
  The feed scanner, after parseFeedStructure of shared/market-event-scout.ts: one pass over the tags of
  an XML document with a stack of open elements. Tags are tokens with their positions in the source text;
  what makes a piece of text a tag, and its attributes well formed, is not part of this model.

  The scanner is proved to accept exactly the documents whose tokens spell one balanced tree (sections 2.1
  and 3 of XML 1.0: a single root element, and the name in every end-tag matching the element type in its
  start-tag) within its limits, and to return the feed entries of that tree.
 */
module Scanner {
  import opened Common

  type Name = nat

  /** `local(name)` is the part after the last colon, in lower case. */
  type Locals = Name -> Name

  datatype Span = Span(start: int, end: int)

  datatype Token =
    | Open(name: Name, at: Span)
    | SelfClosing(name: Name, at: Span)
    | Close(name: Name, at: Span)
    | Text(blank: bool, at: Span)
    | Aside(at: Span)       // a comment or a processing instruction
    | CData(at: Span)
    | Doctype(at: Span)

  datatype Element = Element(name: Name, start: int)

  datatype Machine = Machine(stack: seq<Element>, blocks: seq<Span>, root: Option<Name>)

  datatype Feed = Feed(root: Name, blocks: seq<Span>)

  const MAX_ITEMS := 200
  const MAX_DEPTH := 64

  const Fresh := Machine([], [], None)

  // ---------------------------------------------------------------- the scanner

  predicate EntryOpen(stack: seq<Element>, local: Locals, wanted: Name) {
    exists i :: 0 <= i < |stack| && local(stack[i].name) == wanted
  }

  function Push(m: Machine, block: Span): Option<Machine> {
    if |m.blocks| + 1 > MAX_ITEMS then None else Some(m.(blocks := m.blocks + [block]))
  }

  /** One token; None when the source throws. */
  function Step(m: Machine, t: Token, local: Locals, wanted: Name): Option<Machine> {
    match t
    case Text(blank, at) => if m.stack == [] && !blank then None else Some(m)
    case Aside(_) => Some(m)
    case CData(_) => if m.stack == [] then None else Some(m)
    case Doctype(_) => if m.stack != [] || m.root.Some? then None else Some(m)
    case Close(name, at) =>
      if m.stack == [] || m.stack[|m.stack| - 1].name != name then None
      else
        var top := m.stack[|m.stack| - 1];
        var m1 := m.(stack := m.stack[..|m.stack| - 1]);
        if local(top.name) == wanted then Push(m1, Span(top.start, at.end)) else Some(m1)
    case Open(name, at) =>
      if m.stack == [] && m.root.Some? then None
      else if local(name) == wanted && EntryOpen(m.stack, local, wanted) then None
      else if |m.stack| + 1 > MAX_DEPTH then None
      else Some(m.(stack := m.stack + [Element(name, at.start)], root := if m.stack == [] then Some(name) else m.root))
    case SelfClosing(name, at) =>
      if m.stack == [] && m.root.Some? then None
      else if local(name) == wanted && EntryOpen(m.stack, local, wanted) then None
      else
        var m1 := m.(root := if m.stack == [] then Some(name) else m.root);
        if local(name) == wanted then Push(m1, at) else Some(m1)
  }

  function RunFrom(m: Machine, tokens: seq<Token>, local: Locals, wanted: Name): Option<Machine>
    decreases |tokens|
  {
    if tokens == [] then Some(m)
    else match Step(m, tokens[0], local, wanted)
         case Some(m1) => RunFrom(m1, tokens[1..], local, wanted)
         case None => None
  }

  function Scan(tokens: seq<Token>, local: Locals, wanted: Name): Option<Feed> {
    match RunFrom(Fresh, tokens, local, wanted)
    case Some(m) => if m.stack != [] || m.root.None? then None else Some(Feed(m.root.value, m.blocks))
    case None => None
  }

  // ---------------------------------------------------------------- trees

  datatype Tree =
    | Node(name: Name, open: Span, kids: Forest, close: Span)
    | Leaf(name: Name, at: Span)
    | Content(token: Token)

  datatype Forest = Nil | Snoc(init: Forest, last: Tree)

  /** What may stand between tags inside the root element. */
  predicate IsContent(t: Token) {
    t.Text? || t.Aside? || t.CData?
  }

  function Spelled(t: Tree): seq<Token> {
    match t
    case Node(name, open, kids, close) => [Open(name, open)] + SpelledAll(kids) + [Close(name, close)]
    case Leaf(name, at) => [SelfClosing(name, at)]
    case Content(token) => [token]
  }

  function SpelledAll(f: Forest): seq<Token> {
    match f
    case Nil => []
    case Snoc(init, last) => SpelledAll(init) + Spelled(last)
  }

  /** How deeply start-tags with separate end-tags are nested. */
  function Depth(t: Tree): nat {
    match t
    case Node(_, _, kids, _) => 1 + DepthAll(kids)
    case _ => 0
  }

  function DepthAll(f: Forest): nat {
    match f
    case Nil => 0
    case Snoc(init, last) => if Depth(last) > DepthAll(init) then Depth(last) else DepthAll(init)
  }

  /** The source slices of the feed entries, in document order. */
  function Entries(t: Tree, local: Locals, wanted: Name): seq<Span> {
    match t
    case Node(name, open, kids, close) =>
      (if local(name) == wanted then [Span(open.start, close.end)] else []) + EntriesAll(kids, local, wanted)
    case Leaf(name, at) => if local(name) == wanted then [at] else []
    case Content(_) => []
  }

  function EntriesAll(f: Forest, local: Locals, wanted: Name): seq<Span> {
    match f
    case Nil => []
    case Snoc(init, last) => EntriesAll(init, local, wanted) + Entries(last, local, wanted)
  }

  /** Only content between tags, and no entry inside an entry. */
  ghost predicate Proper(t: Tree, local: Locals, wanted: Name) {
    match t
    case Node(name, _, kids, _) => ProperAll(kids, local, wanted) && (local(name) == wanted ==> EntriesAll(kids, local, wanted) == [])
    case Leaf(_, _) => true
    case Content(token) => IsContent(token)
  }

  ghost predicate ProperAll(f: Forest, local: Locals, wanted: Name) {
    match f
    case Nil => true
    case Snoc(init, last) => ProperAll(init, local, wanted) && Proper(last, local, wanted)
  }

  /** Blank text, comments and instructions, and before the root also document type declarations. */
  ghost predicate Outside(tokens: seq<Token>, before: bool) {
    forall i :: 0 <= i < |tokens| ==>
      tokens[i].Aside? || (tokens[i].Text? && tokens[i].blank) || (before && tokens[i].Doctype?)
  }

  ghost predicate RootOk(root: Tree, local: Locals, wanted: Name) {
    && !root.Content? && Proper(root, local, wanted)
    && Depth(root) <= MAX_DEPTH && |Entries(root, local, wanted)| <= MAX_ITEMS
  }

  /** The document's tokens spell one balanced tree within the limits, with nothing of substance around it. */
  ghost predicate Spells(tokens: seq<Token>, before: seq<Token>, root: Tree, after: seq<Token>, local: Locals, wanted: Name) {
    && tokens == before + Spelled(root) + after
    && Outside(before, true) && Outside(after, false) && RootOk(root, local, wanted)
  }

  // ---------------------------------------------------------------- every such document is accepted

  lemma {:induction false} RunConcat(m: Machine, a: seq<Token>, b: seq<Token>, local: Locals, wanted: Name)
    ensures RunFrom(m, a + b, local, wanted) ==
              match RunFrom(m, a, local, wanted) case Some(m1) => RunFrom(m1, b, local, wanted) case None => None
    decreases |a|
  {
    if a == [] {
      assert a + b == b;
    } else {
      assert (a + b)[1..] == a[1..] + b;
      match Step(m, a[0], local, wanted)
      case Some(m1) => RunConcat(m1, a[1..], b, local, wanted);
      case None =>
    }
  }

  lemma RunOne(m: Machine, t: Token, local: Locals, wanted: Name)
    ensures RunFrom(m, [t], local, wanted) == Step(m, t, local, wanted)
  {
    match Step(m, t, local, wanted)
    case Some(m1) => assert RunFrom(m1, [t][1..], local, wanted) == Some(m1);
    case None =>
  }

  /** What a machine needs before it can take a tree in. */
  ghost predicate Roomy(m: Machine, depth: nat, entries: seq<Span>, local: Locals, wanted: Name) {
    && |m.stack| + depth <= MAX_DEPTH && |m.blocks| + |entries| <= MAX_ITEMS
    && (EntryOpen(m.stack, local, wanted) ==> entries == [])
  }

  lemma NewlyOpen(stack: seq<Element>, e: Element, local: Locals, wanted: Name)
    ensures EntryOpen(stack + [e], local, wanted) <==> EntryOpen(stack, local, wanted) || local(e.name) == wanted
  {
    assert forall i :: 0 <= i < |stack| ==> (stack + [e])[i] == stack[i];
    assert (stack + [e])[|stack|] == e;
  }

  lemma {:induction false} TreeRuns(m: Machine, t: Tree, local: Locals, wanted: Name)
    requires Proper(t, local, wanted) && Roomy(m, Depth(t), Entries(t, local, wanted), local, wanted)
    requires m.stack != [] || (m.root.None? && !t.Content?)
    ensures RunFrom(m, Spelled(t), local, wanted) ==
              Some(m.(blocks := m.blocks + Entries(t, local, wanted),
                      root := if m.stack == [] then Some(t.name) else m.root))
    decreases t
  {
    match t
    case Content(token) =>
      RunOne(m, token, local, wanted);
      assert m.blocks + [] == m.blocks;
    case Leaf(name, at) =>
      RunOne(m, SelfClosing(name, at), local, wanted);
      assert m.blocks + [] == m.blocks;
    case Node(name, open, kids, close) =>
      var m1 := m.(stack := m.stack + [Element(name, open.start)], root := if m.stack == [] then Some(name) else m.root);
      NewlyOpen(m.stack, Element(name, open.start), local, wanted);
      ForestRuns(m1, kids, local, wanted);
      NodeRuns(m, name, open, kids, close, local, wanted);
  }

  /** An element runs through if its contents do. */
  lemma NodeRuns(m: Machine, name: Name, open: Span, kids: Forest, close: Span, local: Locals, wanted: Name)
    requires var t := Node(name, open, kids, close);
             Proper(t, local, wanted) && Roomy(m, Depth(t), Entries(t, local, wanted), local, wanted)
    requires m.stack != [] || m.root.None?
    requires var m1 := m.(stack := m.stack + [Element(name, open.start)], root := if m.stack == [] then Some(name) else m.root);
             RunFrom(m1, SpelledAll(kids), local, wanted) == Some(m1.(blocks := m1.blocks + EntriesAll(kids, local, wanted)))
    ensures var t := Node(name, open, kids, close);
            RunFrom(m, Spelled(t), local, wanted) ==
              Some(m.(blocks := m.blocks + Entries(t, local, wanted), root := if m.stack == [] then Some(name) else m.root))
  {
    var t, inner := Node(name, open, kids, close), EntriesAll(kids, local, wanted);
    var m1 := m.(stack := m.stack + [Element(name, open.start)], root := if m.stack == [] then Some(name) else m.root);
    var m2 := m1.(blocks := m1.blocks + inner);
    var m3 := m.(blocks := m.blocks + Entries(t, local, wanted), root := m1.root);
    assert Step(m, Open(name, open), local, wanted) == Some(m1);
    CloseStep(m, name, open, inner, close, m2, m3, local, wanted);
    RunOne(m, Open(name, open), local, wanted);
    RunOne(m2, Close(name, close), local, wanted);
    hide Step, Entries, Roomy, Proper;
    RunConcat(m, [Open(name, open)] + SpelledAll(kids), [Close(name, close)], local, wanted);
    RunConcat(m, [Open(name, open)], SpelledAll(kids), local, wanted);
  }

  lemma CloseStep(m: Machine, name: Name, open: Span, inner: seq<Span>, close: Span, m2: Machine, m3: Machine, local: Locals, wanted: Name)
    requires m2.stack == m.stack + [Element(name, open.start)] && m2.blocks == m.blocks + inner && m3.stack == m.stack && m3.root == m2.root
    requires m3.blocks == m.blocks + ((if local(name) == wanted then [Span(open.start, close.end)] else []) + inner)
    requires |m3.blocks| <= MAX_ITEMS && (local(name) == wanted ==> inner == [])
    ensures Step(m2, Close(name, close), local, wanted) == Some(m3)
  {
    assert m2.stack[..|m2.stack| - 1] == m.stack;
    assert m2.stack[|m2.stack| - 1] == Element(name, open.start);
    if local(name) == wanted {
      assert m2.blocks + [Span(open.start, close.end)] == m3.blocks;
    } else {
      assert m3.blocks == m2.blocks;
    }
  }

  lemma {:induction false} ForestRuns(m: Machine, f: Forest, local: Locals, wanted: Name)
    requires ProperAll(f, local, wanted) && Roomy(m, DepthAll(f), EntriesAll(f, local, wanted), local, wanted)
    requires m.stack != []
    ensures RunFrom(m, SpelledAll(f), local, wanted) == Some(m.(blocks := m.blocks + EntriesAll(f, local, wanted)))
    decreases f
  {
    match f
    case Nil => assert m.blocks + [] == m.blocks;
    case Snoc(init, last) =>
      ForestRuns(m, init, local, wanted);
      var m1 := m.(blocks := m.blocks + EntriesAll(init, local, wanted));
      TreeRuns(m1, last, local, wanted);
      RunConcat(m, SpelledAll(init), Spelled(last), local, wanted);
      assert m1.blocks + Entries(last, local, wanted) == m.blocks + EntriesAll(f, local, wanted);
  }

  lemma {:induction false} OutsideRuns(m: Machine, tokens: seq<Token>, before: bool, local: Locals, wanted: Name)
    requires Outside(tokens, before) && m.stack == [] && (before ==> m.root.None?)
    ensures RunFrom(m, tokens, local, wanted) == Some(m)
    decreases |tokens|
  {
    if tokens != [] {
      assert Outside(tokens[1..], before);
      OutsideRuns(m, tokens[1..], before, local, wanted);
    }
  }

  lemma SpelledIsAccepted(tokens: seq<Token>, before: seq<Token>, root: Tree, after: seq<Token>, local: Locals, wanted: Name)
    requires Spells(tokens, before, root, after, local, wanted)
    ensures Scan(tokens, local, wanted) == Some(Feed(root.name, Entries(root, local, wanted)))
  {
    OutsideRuns(Fresh, before, true, local, wanted);
    TreeRuns(Fresh, root, local, wanted);
    var m := Fresh.(blocks := [] + Entries(root, local, wanted), root := Some(root.name));
    assert m.blocks == Entries(root, local, wanted);
    OutsideRuns(m, after, false, local, wanted);
    RunConcat(Fresh, before, Spelled(root), local, wanted);
    RunConcat(Fresh, before + Spelled(root), after, local, wanted);
  }

  // ---------------------------------------------------------------- every accepted document is such a tree

  /** An element that has been opened, with what it contains so far. */
  datatype Frame = Frame(name: Name, open: Span, kids: Forest)

  /** The part of a document that has been read. */
  datatype Builder = Builder(before: seq<Token>, frames: seq<Frame>, root: Option<Tree>, after: seq<Token>)

  function FrameTokens(frames: seq<Frame>): seq<Token> {
    if frames == [] then []
    else
      var f := frames[|frames| - 1];
      FrameTokens(frames[..|frames| - 1]) + [Open(f.name, f.open)] + SpelledAll(f.kids)
  }

  function FrameEntries(frames: seq<Frame>, local: Locals, wanted: Name): seq<Span> {
    if frames == [] then []
    else FrameEntries(frames[..|frames| - 1], local, wanted) + EntriesAll(frames[|frames| - 1].kids, local, wanted)
  }

  function Read(b: Builder): seq<Token> {
    b.before + FrameTokens(b.frames) + (if b.root.Some? then Spelled(b.root.value) else []) + b.after
  }

  /** Add a finished tree to the innermost open element. */
  function AddKid(frames: seq<Frame>, t: Tree): seq<Frame>
    requires frames != []
  {
    var f := frames[|frames| - 1];
    frames[..|frames| - 1] + [f.(kids := Snoc(f.kids, t))]
  }

  function Finish(b: Builder, t: Tree): Builder {
    if b.frames == [] then b.(root := Some(t)) else b.(frames := AddKid(b.frames, t))
  }

  function Grow(b: Builder, t: Token): Builder {
    match t
    case Open(name, at) => b.(frames := b.frames + [Frame(name, at, Nil)])
    case SelfClosing(name, at) => Finish(b, Leaf(name, at))
    case Close(name, at) =>
      if b.frames == [] then b
      else
        var f := b.frames[|b.frames| - 1];
        Finish(b.(frames := b.frames[..|b.frames| - 1]), Node(f.name, f.open, f.kids, at))
    case _ =>
      if b.frames != [] then b.(frames := AddKid(b.frames, Content(t)))
      else if b.root.None? then b.(before := b.before + [t])
      else b.(after := b.after + [t])
  }

  ghost predicate FramesOk(frames: seq<Frame>, local: Locals, wanted: Name) {
    forall i :: 0 <= i < |frames| ==>
      && ProperAll(frames[i].kids, local, wanted) && i + 1 + DepthAll(frames[i].kids) <= MAX_DEPTH
      && (local(frames[i].name) == wanted ==> EntriesAll(frames[i].kids, local, wanted) == [])
      && (forall j :: 0 <= j < i ==> local(frames[j].name) == wanted ==>
            local(frames[i].name) != wanted && EntriesAll(frames[i].kids, local, wanted) == [])
  }

  /** The machine and the builder have read the same tokens. */
  ghost predicate Mirrors(m: Machine, b: Builder, local: Locals, wanted: Name) {
    && |m.stack| == |b.frames|
    && (forall i :: 0 <= i < |m.stack| ==> m.stack[i] == Element(b.frames[i].name, b.frames[i].open.start))
    && FramesOk(b.frames, local, wanted)
    && (b.root.Some? ==> b.frames == [] && RootOk(b.root.value, local, wanted) && m.root == Some(b.root.value.name)
                         && m.blocks == Entries(b.root.value, local, wanted))
    && (b.root.None? ==> b.after == [] && m.blocks == FrameEntries(b.frames, local, wanted)
                         && m.root == if b.frames == [] then None else Some(b.frames[0].name))
    && Outside(b.before, true) && Outside(b.after, false) && |m.blocks| <= MAX_ITEMS
  }

  lemma AddKidReads(frames: seq<Frame>, t: Tree, local: Locals, wanted: Name)
    requires frames != []
    ensures FrameTokens(AddKid(frames, t)) == FrameTokens(frames) + Spelled(t)
    ensures FrameEntries(AddKid(frames, t), local, wanted) == FrameEntries(frames, local, wanted) + Entries(t, local, wanted)
  {
    var f := frames[|frames| - 1];
    var frames' := AddKid(frames, t);
    assert frames'[..|frames'| - 1] == frames[..|frames| - 1];
    assert frames'[|frames'| - 1].kids == Snoc(f.kids, t);
  }

  lemma AddKidFrames(frames: seq<Frame>, t: Tree, local: Locals, wanted: Name)
    requires FramesOk(frames, local, wanted) && frames != []
    requires Proper(t, local, wanted) && |frames| + Depth(t) <= MAX_DEPTH
    requires forall i :: 0 <= i < |frames| && local(frames[i].name) == wanted ==> Entries(t, local, wanted) == []
    ensures FramesOk(AddKid(frames, t), local, wanted)
  {
    var frames' := AddKid(frames, t);
    var n := |frames| - 1;
    assert forall i :: 0 <= i < n ==> frames'[i] == frames[i];
    assert frames'[n] == frames[n].(kids := Snoc(frames[n].kids, t));
    assert ProperAll(frames'[n].kids, local, wanted);
    assert EntriesAll(frames'[n].kids, local, wanted) == EntriesAll(frames[n].kids, local, wanted) + Entries(t, local, wanted);
    hide Proper, ProperAll, Entries, EntriesAll;
  }

  /** The stack shows which frames are entries. */
  lemma StackShows(m: Machine, b: Builder, t: Tree, local: Locals, wanted: Name)
    requires Mirrors(m, b, local, wanted) && (EntryOpen(m.stack, local, wanted) ==> Entries(t, local, wanted) == [])
    ensures forall i :: 0 <= i < |b.frames| && local(b.frames[i].name) == wanted ==> Entries(t, local, wanted) == []
  {
    forall i | 0 <= i < |b.frames| && local(b.frames[i].name) == wanted ensures Entries(t, local, wanted) == [] {
      assert local(m.stack[i].name) == wanted;
    }
  }

  /** A finished tree fits into the innermost open element. */
  lemma AddKidMirrors(m: Machine, m': Machine, b: Builder, t: Tree, local: Locals, wanted: Name)
    requires Mirrors(m, b, local, wanted) && b.frames != []
    requires Proper(t, local, wanted) && |b.frames| + Depth(t) <= MAX_DEPTH
    requires EntryOpen(m.stack, local, wanted) ==> Entries(t, local, wanted) == []
    requires m' == m.(blocks := m.blocks + Entries(t, local, wanted)) && |m'.blocks| <= MAX_ITEMS
    ensures Mirrors(m', b.(frames := AddKid(b.frames, t)), local, wanted)
    ensures Read(b.(frames := AddKid(b.frames, t))) == Read(b) + Spelled(t)
  {
    hide FramesOk, Proper, Depth, Entries, Spelled, FrameTokens, FrameEntries, EntryOpen, Outside, RootOk;
    AddKidReads(b.frames, t, local, wanted);
    StackShows(m, b, t, local, wanted);
    AddKidFrames(b.frames, t, local, wanted);
    assert b.root.None? && b.after == [];
  }

  /** The innermost element ends; `m0` has forgotten it together with its contents. */
  lemma PopMirrors(m: Machine, b: Builder, local: Locals, wanted: Name)
    requires Mirrors(m, b, local, wanted) && b.frames != []
    ensures var n := |b.frames| - 1;
            var b0 := b.(frames := b.frames[..n]);
            var m0 := Machine(m.stack[..n], FrameEntries(b.frames[..n], local, wanted), if n == 0 then None else m.root);
            && Mirrors(m0, b0, local, wanted)
            && |m.stack| == n + 1 && m.stack[n] == Element(b.frames[n].name, b.frames[n].open.start) && |m.blocks| <= MAX_ITEMS
            && m.blocks == m0.blocks + EntriesAll(b.frames[n].kids, local, wanted)
            && Read(b) == Read(b0) + [Open(b.frames[n].name, b.frames[n].open)] + SpelledAll(b.frames[n].kids)
  {
    assert b.root.None? && b.after == [];
  }

  /** The element that ends is a proper tree for the place where it stands. */
  lemma ClosedTree(m: Machine, b: Builder, at: Span, local: Locals, wanted: Name)
    requires Mirrors(m, b, local, wanted) && b.frames != []
    ensures var n := |b.frames| - 1;
            var t := Node(b.frames[n].name, b.frames[n].open, b.frames[n].kids, at);
            && Proper(t, local, wanted) && n + Depth(t) <= MAX_DEPTH
            && (EntryOpen(m.stack[..n], local, wanted) ==> Entries(t, local, wanted) == [])
            && Entries(t, local, wanted) ==
                 (if local(t.name) == wanted then [Span(t.open.start, at.end)] else EntriesAll(t.kids, local, wanted))
  {
    var n := |b.frames| - 1;
    var f := b.frames[n];
    if EntryOpen(m.stack[..n], local, wanted) {
      var j :| 0 <= j < n && local(m.stack[..n][j].name) == wanted;
      assert m.stack[..n][j] == m.stack[j] && local(b.frames[j].name) == wanted;
    }
  }

  lemma CloseShape(m: Machine, name: Name, at: Span, m': Machine, local: Locals, wanted: Name)
    requires Step(m, Close(name, at), local, wanted) == Some(m') && |m.blocks| <= MAX_ITEMS
    ensures m.stack != [] && m.stack[|m.stack| - 1].name == name
    ensures m'.stack == m.stack[..|m.stack| - 1] && m'.root == m.root && |m'.blocks| <= MAX_ITEMS
    ensures m'.blocks == m.blocks + (if local(name) == wanted then [Span(m.stack[|m.stack| - 1].start, at.end)] else [])
  {
  }

  lemma ClosedReads(before: seq<Token>, t: Tree)
    requires t.Node?
    ensures before + [Open(t.name, t.open)] + SpelledAll(t.kids) + [Close(t.name, t.close)] == before + Spelled(t)
  {
  }

  lemma ClosingFrame(m: Machine, b: Builder, name: Name, at: Span, m': Machine, local: Locals, wanted: Name)
    requires Mirrors(m, b, local, wanted) && Step(m, Close(name, at), local, wanted) == Some(m')
    ensures b.frames != [] && |m.stack| == |b.frames| && |m.blocks| <= MAX_ITEMS
  {
  }

  /** The machine before the innermost element was opened, apart from its root, and with its earlier blocks. */
  function Below(m: Machine, b: Builder, local: Locals, wanted: Name): Machine
    requires b.frames != [] && |m.stack| == |b.frames|
  {
    var n := |b.frames| - 1;
    Machine(m.stack[..n], FrameEntries(b.frames[..n], local, wanted), if n == 0 then None else m.root)
  }

  function Completed(b: Builder, at: Span): Tree
    requires b.frames != []
  {
    var f := b.frames[|b.frames| - 1];
    Node(f.name, f.open, f.kids, at)
  }

  lemma CloseBlocks(m: Machine, b: Builder, name: Name, at: Span, m': Machine, local: Locals, wanted: Name)
    requires Mirrors(m, b, local, wanted) && Step(m, Close(name, at), local, wanted) == Some(m') && b.frames != []
    ensures |m.stack| == |b.frames| && name == b.frames[|b.frames| - 1].name
    ensures m'.stack == Below(m, b, local, wanted).stack && m'.root == m.root && |m'.blocks| <= MAX_ITEMS
    ensures m'.blocks == Below(m, b, local, wanted).blocks + Entries(Completed(b, at), local, wanted)
  {
    PopMirrors(m, b, local, wanted);
    ClosedTree(m, b, at, local, wanted);
    hide Mirrors, FrameTokens, FrameEntries, Read, Proper, Depth, Step, EntryOpen, Entries;
    CloseShape(m, name, at, m', local, wanted);
  }

  lemma CloseMirrors(m: Machine, b: Builder, name: Name, at: Span, m': Machine, local: Locals, wanted: Name)
    requires Mirrors(m, b, local, wanted) && Step(m, Close(name, at), local, wanted) == Some(m')
    ensures Mirrors(m', Grow(b, Close(name, at)), local, wanted)
    ensures Read(Grow(b, Close(name, at))) == Read(b) + [Close(name, at)]
  {
    hide Mirrors, FrameTokens, FrameEntries, Read, Proper, Depth, Step, EntryOpen, Entries, Spelled;
    ClosingFrame(m, b, name, at, m', local, wanted);
    CloseBlocks(m, b, name, at, m', local, wanted);
    PopMirrors(m, b, local, wanted);
    ClosedTree(m, b, at, local, wanted);
    var t, m0, b0 := Completed(b, at), Below(m, b, local, wanted), b.(frames := b.frames[..|b.frames| - 1]);
    ClosedReads(Read(b0), t);
    if |b.frames| > 1 {
      AddKidMirrors(m0, m', b0, t, local, wanted);
    } else {
      NoFrames(local, wanted);
      RootMirrors(m, b, t, m', local, wanted);
    }
  }

  lemma NoFrames(local: Locals, wanted: Name)
    ensures FrameEntries([], local, wanted) == [] && FrameTokens([]) == []
  {
  }

  /** The root element is complete. */
  lemma RootMirrors(m: Machine, b: Builder, t: Tree, m': Machine, local: Locals, wanted: Name)
    requires Mirrors(m, b, local, wanted) && |b.frames| == 1 && t.Node? && t.name == b.frames[0].name
    requires Proper(t, local, wanted) && Depth(t) <= MAX_DEPTH
    requires m' == Machine([], Entries(t, local, wanted), m.root) && |m'.blocks| <= MAX_ITEMS
    ensures var b' := b.(frames := [], root := Some(t)); Mirrors(m', b', local, wanted) && Read(b') == Read(b.(frames := [])) + Spelled(t)
  {
    hide Entries, Proper, Depth, Spelled;
    assert b.root.None? && b.after == [];
  }

  lemma OpenMirrors(m: Machine, b: Builder, name: Name, at: Span, m': Machine, local: Locals, wanted: Name)
    requires Mirrors(m, b, local, wanted) && Step(m, Open(name, at), local, wanted) == Some(m')
    ensures Mirrors(m', Grow(b, Open(name, at)), local, wanted)
    ensures Read(Grow(b, Open(name, at))) == Read(b) + [Open(name, at)]
  {
    var frames' := b.frames + [Frame(name, at, Nil)];
    assert frames'[..|b.frames|] == b.frames;
    forall j | 0 <= j < |b.frames| && local(b.frames[j].name) == wanted ensures local(name) != wanted {
      assert local(m.stack[j].name) == wanted;
    }
    assert FramesOk(frames', local, wanted);
  }

  lemma ContentMirrors(m: Machine, b: Builder, t: Token, m': Machine, local: Locals, wanted: Name)
    requires Mirrors(m, b, local, wanted) && Step(m, t, local, wanted) == Some(m')
    requires !t.Open? && !t.Close? && !t.SelfClosing?
    ensures Mirrors(m', Grow(b, t), local, wanted) && Read(Grow(b, t)) == Read(b) + [t]
  {
    assert m' == m;
    if b.frames != [] {
      assert m.blocks + [] == m.blocks;
      AddKidMirrors(m, m.(blocks := m.blocks + []), b, Content(t), local, wanted);
    }
  }

  lemma SelfClosingMirrors(m: Machine, b: Builder, name: Name, at: Span, m': Machine, local: Locals, wanted: Name)
    requires Mirrors(m, b, local, wanted) && Step(m, SelfClosing(name, at), local, wanted) == Some(m')
    ensures Mirrors(m', Grow(b, SelfClosing(name, at)), local, wanted)
    ensures Read(Grow(b, SelfClosing(name, at))) == Read(b) + [SelfClosing(name, at)]
  {
    var t := Leaf(name, at);
    assert m.blocks + [] == m.blocks;
    assert m'.blocks == m.blocks + Entries(t, local, wanted);
    if b.frames != [] {
      AddKidMirrors(m, m', b, t, local, wanted);
    }
  }

  lemma StepMirrors(m: Machine, b: Builder, t: Token, m': Machine, local: Locals, wanted: Name)
    requires Mirrors(m, b, local, wanted) && Step(m, t, local, wanted) == Some(m')
    ensures Mirrors(m', Grow(b, t), local, wanted) && Read(Grow(b, t)) == Read(b) + [t]
  {
    hide Mirrors, Step, Grow, Read;
    match t
    case Open(name, at) => OpenMirrors(m, b, name, at, m', local, wanted);
    case Close(name, at) => CloseMirrors(m, b, name, at, m', local, wanted);
    case SelfClosing(name, at) => SelfClosingMirrors(m, b, name, at, m', local, wanted);
    case _ => ContentMirrors(m, b, t, m', local, wanted);
  }

  function GrowAll(b: Builder, tokens: seq<Token>): Builder
    decreases |tokens|
  {
    if tokens == [] then b else GrowAll(Grow(b, tokens[0]), tokens[1..])
  }

  lemma {:induction false} RunMirrors(m: Machine, b: Builder, tokens: seq<Token>, m': Machine, local: Locals, wanted: Name)
    requires Mirrors(m, b, local, wanted) && RunFrom(m, tokens, local, wanted) == Some(m')
    ensures Mirrors(m', GrowAll(b, tokens), local, wanted) && Read(GrowAll(b, tokens)) == Read(b) + tokens
    decreases |tokens|
  {
    hide Mirrors, Step, Grow, Read;
    if tokens != [] {
      var m1 := Step(m, tokens[0], local, wanted).value;
      StepMirrors(m, b, tokens[0], m1, local, wanted);
      RunMirrors(m1, Grow(b, tokens[0]), tokens[1..], m', local, wanted);
      assert Read(b) + [tokens[0]] + tokens[1..] == Read(b) + tokens;
    }
  }

  lemma AcceptedIsSpelled(tokens: seq<Token>, local: Locals, wanted: Name)
    requires Scan(tokens, local, wanted).Some?
    ensures var b := GrowAll(Builder([], [], None, []), tokens);
            && b.root.Some? && Spells(tokens, b.before, b.root.value, b.after, local, wanted)
            && Scan(tokens, local, wanted) == Some(Feed(b.root.value.name, Entries(b.root.value, local, wanted)))
  {
    var b0 := Builder([], [], None, []);
    var m' := RunFrom(Fresh, tokens, local, wanted).value;
    EmptyMirrors(b0, local, wanted);
    RunMirrors(Fresh, b0, tokens, m', local, wanted);
    hide GrowAll, RunFrom, Mirrors, Read;
    assert [] + tokens == tokens;
    FinishedMirrors(m', GrowAll(b0, tokens), local, wanted);
  }

  lemma EmptyMirrors(b0: Builder, local: Locals, wanted: Name)
    requires b0 == Builder([], [], None, [])
    ensures Mirrors(Fresh, b0, local, wanted) && Read(b0) == []
  {
  }

  /** When no element is open and a root has been seen, what has been read is a whole document. */
  lemma FinishedMirrors(m: Machine, b: Builder, local: Locals, wanted: Name)
    requires Mirrors(m, b, local, wanted) && m.stack == [] && m.root.Some?
    ensures b.root.Some? && Spells(Read(b), b.before, b.root.value, b.after, local, wanted)
    ensures m.root == Some(b.root.value.name) && m.blocks == Entries(b.root.value, local, wanted)
  {
    NoFrames(local, wanted);
    hide Entries, Spelled, RootOk, Outside, FrameTokens, FrameEntries;
  }

  /**
    The scanner accepts a document exactly when its tokens spell one balanced tree within the limits, and
    then it returns the root element's name and the source slices of all feed entries in document order.
   */
  lemma AcceptsExactlyTheTrees(tokens: seq<Token>, local: Locals, wanted: Name, feed: Feed)
    ensures Scan(tokens, local, wanted) == Some(feed) <==>
              exists before, root, after ::
                Spells(tokens, before, root, after, local, wanted)
                && feed == Feed(root.name, Entries(root, local, wanted))
  {
    if Scan(tokens, local, wanted) == Some(feed) {
      AcceptedIsSpelled(tokens, local, wanted);
      var b := GrowAll(Builder([], [], None, []), tokens);
      assert Spells(tokens, b.before, b.root.value, b.after, local, wanted);
    }
    if before, root, after :| Spells(tokens, before, root, after, local, wanted) && feed == Feed(root.name, Entries(root, local, wanted)) {
      SpelledIsAccepted(tokens, before, root, after, local, wanted);
    }
  }

  // ---------------------------------------------------------------- the slices

  /** Tokens follow one another in the source text. */
  ghost predicate Laid(tokens: seq<Token>, from: int) {
    && (forall i :: 0 <= i < |tokens| ==> from <= tokens[i].at.start < tokens[i].at.end)
    && (forall i, j :: 0 <= i < j < |tokens| ==> tokens[i].at.end <= tokens[j].at.start)
  }

  ghost predicate Separate(blocks: seq<Span>) {
    && (forall i :: 0 <= i < |blocks| ==> blocks[i].start < blocks[i].end)
    && (forall i, j :: 0 <= i < j < |blocks| ==> blocks[i].end <= blocks[j].start)
  }

  /** Everything read so far ends before `from`, and nothing was returned from inside an open entry. */
  ghost predicate Behind(m: Machine, from: int, local: Locals, wanted: Name) {
    && Separate(m.blocks)
    && (forall i :: 0 <= i < |m.blocks| ==> m.blocks[i].end <= from)
    && (forall i :: 0 <= i < |m.stack| ==> m.stack[i].start < from)
    && (forall k, i :: 0 <= k < |m.stack| && 0 <= i < |m.blocks| && local(m.stack[k].name) == wanted ==>
          m.blocks[i].end <= m.stack[k].start)
    && (forall k, l :: 0 <= k < l < |m.stack| && local(m.stack[k].name) == wanted ==> local(m.stack[l].name) != wanted)
  }

  lemma LaterBehind(m: Machine, from: int, to: int, local: Locals, wanted: Name)
    requires Behind(m, from, local, wanted) && from <= to
    ensures Behind(m, to, local, wanted)
  {
  }

  /** Outside of any open entry, a further block may be returned. */
  lemma BlockBehind(m: Machine, block: Span, from: int, to: int, local: Locals, wanted: Name)
    requires Behind(m, from, local, wanted) && !EntryOpen(m.stack, local, wanted) && block.start < block.end <= to && from <= to
    requires forall i :: 0 <= i < |m.blocks| ==> m.blocks[i].end <= block.start
    ensures Behind(m.(blocks := m.blocks + [block]), to, local, wanted)
  {
  }

  lemma PopBehind(m: Machine, from: int, local: Locals, wanted: Name)
    requires Behind(m, from, local, wanted) && m.stack != []
    ensures var top, rest := m.stack[|m.stack| - 1], m.stack[..|m.stack| - 1];
            && Behind(m.(stack := rest), from, local, wanted) && top.start < from
            && (local(top.name) == wanted ==>
                  !EntryOpen(rest, local, wanted) && forall i :: 0 <= i < |m.blocks| ==> m.blocks[i].end <= top.start)
  {
  }

  lemma PushBehind(m: Machine, e: Element, root: Option<Name>, from: int, to: int, local: Locals, wanted: Name)
    requires Behind(m, from, local, wanted) && from <= e.start < to
    requires local(e.name) == wanted ==> !EntryOpen(m.stack, local, wanted)
    ensures Behind(m.(stack := m.stack + [e], root := root), to, local, wanted)
  {
    hide Separate;
  }

  lemma CloseBehind(m: Machine, name: Name, at: Span, m': Machine, from: int, local: Locals, wanted: Name)
    requires Behind(m, from, local, wanted) && Step(m, Close(name, at), local, wanted) == Some(m') && from <= at.start < at.end
    ensures Behind(m', at.end, local, wanted)
  {
    hide Behind, EntryOpen;
    PopBehind(m, from, local, wanted);
    var m1 := m.(stack := m.stack[..|m.stack| - 1]);
    LaterBehind(m1, from, at.end, local, wanted);
    if local(name) == wanted {
      BlockBehind(m1, Span(m.stack[|m.stack| - 1].start, at.end), from, at.end, local, wanted);
    }
  }

  lemma BlocksEnd(m: Machine, from: int, local: Locals, wanted: Name)
    requires Behind(m, from, local, wanted)
    ensures forall i :: 0 <= i < |m.blocks| ==> m.blocks[i].end <= from
  {
  }

  lemma StepBehind(m: Machine, t: Token, m': Machine, from: int, local: Locals, wanted: Name)
    requires Behind(m, from, local, wanted) && Step(m, t, local, wanted) == Some(m') && from <= t.at.start < t.at.end
    ensures Behind(m', t.at.end, local, wanted)
  {
    hide Behind, EntryOpen;
    match t
    case Close(name, at) => CloseBehind(m, name, at, m', from, local, wanted);
    case SelfClosing(name, at) =>
      LaterBehind(m, from, at.end, local, wanted);
      BlocksEnd(m, from, local, wanted);
      if local(name) == wanted {
        BlockBehind(m, at, from, at.end, local, wanted);
      }
      RootIsFree(m', m'.root, at.end, local, wanted);
      RootIsFree(m'.(root := m.root), m'.root, at.end, local, wanted);
    case Open(name, at) => PushBehind(m, Element(name, at.start), m'.root, from, at.end, local, wanted);
    case _ => LaterBehind(m, from, t.at.end, local, wanted);
  }

  lemma RootIsFree(m: Machine, root: Option<Name>, from: int, local: Locals, wanted: Name)
    ensures Behind(m, from, local, wanted) ==> Behind(m.(root := root), from, local, wanted)
  {
  }

  lemma {:induction false} RunBehind(m: Machine, tokens: seq<Token>, m': Machine, from: int, local: Locals, wanted: Name)
    requires Behind(m, from, local, wanted) && RunFrom(m, tokens, local, wanted) == Some(m') && Laid(tokens, from)
    ensures Separate(m'.blocks)
    decreases |tokens|
  {
    hide Step;
    if tokens != [] {
      var m1 := Step(m, tokens[0], local, wanted).value;
      StepBehind(m, tokens[0], m1, from, local, wanted);
      hide Behind;
      assert Laid(tokens[1..], tokens[0].at.end);
      RunBehind(m1, tokens[1..], m', tokens[0].at.end, local, wanted);
    }
  }

  /** The returned slices are nonempty, disjoint and in document order. */
  lemma SlicesAreDisjointAndOrdered(tokens: seq<Token>, local: Locals, wanted: Name)
    requires Laid(tokens, 0) && Scan(tokens, local, wanted).Some?
    ensures Separate(Scan(tokens, local, wanted).value.blocks)
  {
    assert Behind(Fresh, 0, local, wanted);
    RunBehind(Fresh, tokens, RunFrom(Fresh, tokens, local, wanted).value, 0, local, wanted);
  }

  // ---------------------------------------------------------------- the scanner as it runs

  method EntryIsOpen(stack: seq<Element>, local: Locals, wanted: Name) returns (open: bool)
    ensures open == EntryOpen(stack, local, wanted)
  {
    for i := 0 to |stack|
      invariant forall k :: 0 <= k < i ==> local(stack[k].name) != wanted
    {
      if local(stack[i].name) == wanted {
        return true;
      }
    }
    return false;
  }

  /** One pass with a stack; every early return is one of the source's thrown errors. */
  method ParseFeedStructure(tokens: seq<Token>, local: Locals, wanted: Name) returns (feed: Option<Feed>)
    ensures feed == Scan(tokens, local, wanted)
  {
    var stack: seq<Element> := [];
    var blocks: seq<Span> := [];
    var root: Option<Name> := None;
    assert tokens[0..] == tokens;
    for cursor := 0 to |tokens|
      invariant RunFrom(Machine(stack, blocks, root), tokens[cursor..], local, wanted) == RunFrom(Fresh, tokens, local, wanted)
    {
      var t := tokens[cursor];
      assert tokens[cursor..][0] == t && tokens[cursor..][1..] == tokens[cursor + 1..];
      var entryOpen := EntryIsOpen(stack, local, wanted);
      match t
      case Text(blank, _) =>
        if stack == [] && !blank {
          return None;
        }
      case Aside(_) =>
      case CData(_) =>
        if stack == [] {
          return None;
        }
      case Doctype(_) =>
        if stack != [] || root.Some? {
          return None;
        }
      case Close(name, at) =>
        if stack == [] || stack[|stack| - 1].name != name {
          return None;
        }
        var top := stack[|stack| - 1];
        stack := stack[..|stack| - 1];
        if local(top.name) == wanted {
          blocks := blocks + [Span(top.start, at.end)];
          if |blocks| > MAX_ITEMS {
            return None;
          }
        }
      case SelfClosing(name, at) =>
        if stack == [] {
          if root.Some? {
            return None;
          }
          root := Some(name);
        }
        if local(name) == wanted {
          if entryOpen {
            return None;
          }
          blocks := blocks + [at];
          if |blocks| > MAX_ITEMS {
            return None;
          }
        }
      case Open(name, at) =>
        if stack == [] {
          if root.Some? {
            return None;
          }
          root := Some(name);
        }
        if local(name) == wanted && entryOpen {
          return None;
        }
        stack := stack + [Element(name, at.start)];
        if |stack| > MAX_DEPTH {
          return None;
        }
    }
    if stack != [] || root.None? {
      return None;
    }
    return Some(Feed(root.value, blocks));
  }
}
