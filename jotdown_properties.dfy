/** What the Jotdown parser promises about its output: blank lines only
    separate, headings stand alone, list blocks group exactly their own
    items, ordered lists split where the numbering breaks, and a buffer with
    no content gives no element. */
module JotProperties {
  import opened JotText
  import opened JotLines
  import opened JotBlocks

  predicate AllBlank(ks: seq<LineKind>) {
    forall i :: 0 <= i < |ks| ==> ks[i].Blank?
  }

  // ---------------------------------------------------------------------
  // Separators

  /** A blank line or a heading closes whatever block is open: the lines
      before it and the lines after it are assembled independently, and
      the lines after it start from `Idle`. */
  lemma {:induction false} AssembleBreak(a: seq<LineKind>, k: LineKind, b: seq<LineKind>, st: State)
    requires k.Blank? || k.Heading?
    ensures Assemble(a + [k] + b, st) == Assemble(a, st) + Open(k).0 + Assemble(b, Idle)
  {
    assert Open(k).1 == Idle;
    if |a| == 0 {
      assert a + [k] + b == [k] + b;
      StepBreak(k, b, st);
    } else {
      var x := a[0];
      var tl := a[1..] + [k] + b;
      assert a + [k] + b == [x] + tl by {
        GapSplit([], a, [k] + b);
        Assoc(a, [k], b);
        Assoc(a[1..], [k], b);
      }
      var st' := if Continues(st, x) then Extend(st, x) else Open(x).1;
      var out := if Continues(st, x) then [] else Close(st) + Open(x).0;
      StepAny(x, tl, st);
      StepAny(x, a[1..], st);
      Uncons(a);
      AssembleBreak(a[1..], k, b, st');
      Assoc(out, Assemble(a[1..], st'), Open(k).0);
      Assoc(out, Assemble(a[1..], st') + Open(k).0, Assemble(b, Idle));
    }
  }

  /** Blank lines read from `Idle` change nothing. */
  lemma {:induction false} AssembleLeadingBlanks(g: seq<LineKind>, b: seq<LineKind>)
    requires AllBlank(g)
    ensures Assemble(g + b, Idle) == Assemble(b, Idle)
  {
    if |g| > 0 {
      assert (g + b)[0] == g[0];
      assert (g + b)[1..] == g[1..] + b;
      AssembleLeadingBlanks(g[1..], b);
    } else {
      assert g + b == b;
    }
  }

  /** A run of one or more blank lines is a pure separator: what comes
      before and what comes after assemble independently, however long the
      run is. */
  lemma BlankGap(a: seq<LineKind>, g: seq<LineKind>, b: seq<LineKind>, st: State)
    requires |g| >= 1 && AllBlank(g)
    ensures Assemble(a + g + b, st) == Assemble(a, st) + Assemble(b, Idle)
  {
    var tl := g[1..] + b;
    GapSplit(a, g, b);
    assert g[0].Blank?;
    AssembleBreak(a, g[0], tl, st);
    assert AllBlank(g[1..]) by {
      forall i | 0 <= i < |g| - 1 ensures g[1..][i].Blank? {
        assert g[1..][i] == g[i + 1];
      }
    }
    AssembleLeadingBlanks(g[1..], b);
    assert Open(g[0]).0 == [];
    assert Assemble(a, st) + [] == Assemble(a, st);
  }

  lemma GapSplit<T>(a: seq<T>, g: seq<T>, b: seq<T>)
    requires |g| >= 1
    ensures a + g + b == a + [g[0]] + (g[1..] + b)
  {
    Uncons(g);
    Assoc(a, [g[0]], g[1..]);
    Assoc(a + [g[0]], g[1..], b);
  }

  /** Blank lines at the end change nothing. */
  lemma AssembleTrailingBlanks(a: seq<LineKind>, g: seq<LineKind>, st: State)
    requires |g| >= 1 && AllBlank(g)
    ensures Assemble(a + g, st) == Assemble(a, st)
  {
    BlankGap(a, g, [], st);
    assert a + g + [] == a + g;
  }

  /** Nothing is emitted exactly when no block was open and every line is
      blank. */
  lemma {:induction false} AssembleEmpty(ks: seq<LineKind>, st: State)
    ensures Assemble(ks, st) == [] <==> st.Idle? && AllBlank(ks)
  {
    if |ks| > 0 {
      if Continues(st, ks[0]) {
        AssembleEmpty(ks[1..], Extend(st, ks[0]));
      } else {
        AssembleEmpty(ks[1..], Open(ks[0]).1);
        assert Assemble(ks, st) == Close(st) + Open(ks[0]).0 + Assemble(ks[1..], Open(ks[0]).1);
        assert AllBlank(ks) <==> ks[0].Blank? && AllBlank(ks[1..]);
      }
    }
  }

  // ---------------------------------------------------------------------
  // Grouping

  /** Unordered items, in order. */
  function BulletLines(items: seq<string>): seq<LineKind> {
    if |items| == 0 then [] else [Bullet(items[0])] + BulletLines(items[1..])
  }

  /** Checklist items, in order. */
  function CheckLines(es: seq<(string, bool)>): seq<LineKind> {
    if |es| == 0 then [] else [CheckItem(es[0].0, es[0].1)] + CheckLines(es[1..])
  }

  /** Ordered items numbered `m`, `m + 1`, ... */
  function NumberedLines(m: nat, items: seq<string>): seq<LineKind>
    decreases |items|
  {
    if |items| == 0 then [] else [Numbered(m, items[0])] + NumberedLines(m + 1, items[1..])
  }

  /** Lines of paragraph text, in order. */
  function PlainLines(ts: seq<string>): seq<LineKind> {
    if |ts| == 0 then [] else [Plain(ts[0])] + PlainLines(ts[1..])
  }

  /** The first line of `rest` (if any) does not continue the open block,
      so it closes it and is read from `Idle`. */
  lemma CloseAndReopen(rest: seq<LineKind>, st: State)
    requires rest == [] || !Continues(st, rest[0])
    ensures Assemble(rest, st) == Close(st) + Assemble(rest, Idle)
  {
    if rest == [] {
      assert Close(st) + [] == Close(st);
    } else {
      var k, ks := rest[0], rest[1..];
      Uncons(rest);
      StepBreak(k, ks, st);
      StepIdle(k, ks);
      Assoc(Close(st), Open(k).0, Assemble(ks, Open(k).1));
    }
  }

  lemma {:induction false} UnorderedRun(prev: seq<string>, items: seq<string>, rest: seq<LineKind>)
    requires rest == [] || !rest[0].Bullet?
    ensures Assemble(BulletLines(items) + rest, InUnordered(prev))
         == [UnorderedList(prev + items)] + Assemble(rest, Idle)
    decreases |items|
  {
    if |items| == 0 {
      assert BulletLines(items) + rest == rest;
      assert prev + items == prev;
      CloseAndReopen(rest, InUnordered(prev));
    } else {
      var k := Bullet(items[0]);
      var tl := BulletLines(items[1..]) + rest;
      BulletSplit(items, rest);
      StepContinue(k, tl, InUnordered(prev));
      UnorderedRun(prev + [items[0]], items[1..], rest);
      Snoc(prev, items);
    }
  }

  /** Consecutive `- ` items form one unordered list holding their texts in
      source order; the first line that is not a plain dash item (a
      checklist item included) closes it, with no blank line needed. */
  lemma UnorderedBlock(items: seq<string>, rest: seq<LineKind>)
    requires |items| >= 1
    requires rest == [] || !rest[0].Bullet?
    ensures Assemble(BulletLines(items) + rest, Idle) == [UnorderedList(items)] + Assemble(rest, Idle)
  {
    var k := Bullet(items[0]);
    var tl := BulletLines(items[1..]) + rest;
    BulletSplit(items, rest);
    assert Open(k) == ([], InUnordered([items[0]]));
    StepIdle(k, tl);
    UnorderedRun([items[0]], items[1..], rest);
    Uncons(items);
  }

  lemma BulletSplit(items: seq<string>, rest: seq<LineKind>)
    requires |items| >= 1
    ensures BulletLines(items) + rest == [Bullet(items[0])] + (BulletLines(items[1..]) + rest)
  {
    Assoc([Bullet(items[0])], BulletLines(items[1..]), rest);
  }

  lemma {:induction false} ChecklistRun(prev: seq<(string, bool)>, es: seq<(string, bool)>, rest: seq<LineKind>)
    requires rest == [] || !rest[0].CheckItem?
    ensures Assemble(CheckLines(es) + rest, InChecklist(prev))
         == [Checklist(prev + es)] + Assemble(rest, Idle)
    decreases |es|
  {
    if |es| == 0 {
      assert CheckLines(es) + rest == rest;
      assert prev + es == prev;
      CloseAndReopen(rest, InChecklist(prev));
    } else {
      var k := CheckItem(es[0].0, es[0].1);
      var tl := CheckLines(es[1..]) + rest;
      CheckSplit(es, rest);
      StepContinue(k, tl, InChecklist(prev));
      ChecklistRun(prev + [es[0]], es[1..], rest);
      Snoc(prev, es);
    }
  }

  /** Consecutive checkbox items form one checklist of (text, checked)
      pairs in source order; the first line that is not a checkbox item (a
      plain `- ` item included) closes it, with no blank line needed. */
  lemma ChecklistBlock(es: seq<(string, bool)>, rest: seq<LineKind>)
    requires |es| >= 1
    requires rest == [] || !rest[0].CheckItem?
    ensures Assemble(CheckLines(es) + rest, Idle) == [Checklist(es)] + Assemble(rest, Idle)
  {
    var k := CheckItem(es[0].0, es[0].1);
    var tl := CheckLines(es[1..]) + rest;
    CheckSplit(es, rest);
    assert Open(k) == ([], InChecklist([es[0]]));
    StepIdle(k, tl);
    ChecklistRun([es[0]], es[1..], rest);
    Uncons(es);
  }

  lemma CheckSplit(es: seq<(string, bool)>, rest: seq<LineKind>)
    requires |es| >= 1
    ensures CheckLines(es) + rest == [CheckItem(es[0].0, es[0].1)] + (CheckLines(es[1..]) + rest)
  {
    Assoc([CheckItem(es[0].0, es[0].1)], CheckLines(es[1..]), rest);
  }

  lemma {:induction false} OrderedRun(prev: seq<string>, e: nat, items: seq<string>, rest: seq<LineKind>)
    requires rest == [] || !(rest[0].Numbered? && rest[0].marker == e + |items|)
    ensures Assemble(NumberedLines(e, items) + rest, InOrdered(prev, e))
         == [OrderedList(prev + items)] + Assemble(rest, Idle)
    decreases |items|
  {
    if |items| == 0 {
      assert NumberedLines(e, items) + rest == rest;
      assert prev + items == prev;
      CloseAndReopen(rest, InOrdered(prev, e));
    } else {
      var k := Numbered(e, items[0]);
      var tl := NumberedLines(e + 1, items[1..]) + rest;
      NumberedSplit(e, items, rest);
      StepContinue(k, tl, InOrdered(prev, e));
      OrderedRun(prev + [items[0]], e + 1, items[1..], rest);
      Snoc(prev, items);
    }
  }

  /** Ordered items numbered `m`, `m + 1`, ... form one ordered list that
      keeps only their texts, not their numbers. The list starts at any
      number, and the first line that is not the next-numbered item closes
      it, with no blank line needed. */
  lemma OrderedBlock(m: nat, items: seq<string>, rest: seq<LineKind>)
    requires |items| >= 1
    requires rest == [] || !(rest[0].Numbered? && rest[0].marker == m + |items|)
    ensures Assemble(NumberedLines(m, items) + rest, Idle) == [OrderedList(items)] + Assemble(rest, Idle)
  {
    var k := Numbered(m, items[0]);
    var tl := NumberedLines(m + 1, items[1..]) + rest;
    NumberedSplit(m, items, rest);
    assert Open(k) == ([], InOrdered([items[0]], m + 1));
    StepIdle(k, tl);
    OrderedRun([items[0]], m + 1, items[1..], rest);
    Uncons(items);
  }

  lemma NumberedSplit(m: nat, items: seq<string>, rest: seq<LineKind>)
    requires |items| >= 1
    ensures NumberedLines(m, items) + rest == [Numbered(m, items[0])] + (NumberedLines(m + 1, items[1..]) + rest)
  {
    Assoc([Numbered(m, items[0])], NumberedLines(m + 1, items[1..]), rest);
  }

  lemma {:induction false} ParagraphRun(prev: seq<string>, ts: seq<string>, rest: seq<LineKind>)
    requires rest == [] || !rest[0].Plain?
    ensures Assemble(PlainLines(ts) + rest, InParagraph(prev))
         == [Paragraph(JoinLines(prev + ts))] + Assemble(rest, Idle)
    decreases |ts|
  {
    if |ts| == 0 {
      assert PlainLines(ts) + rest == rest;
      assert prev + ts == prev;
      CloseAndReopen(rest, InParagraph(prev));
    } else {
      var k := Plain(ts[0]);
      var tl := PlainLines(ts[1..]) + rest;
      PlainSplit(ts, rest);
      StepContinue(k, tl, InParagraph(prev));
      ParagraphRun(prev + [ts[0]], ts[1..], rest);
      Snoc(prev, ts);
    }
  }

  /** Consecutive lines of paragraph text form one paragraph, the lines
      joined by a line feed; any marked line closes it, with no blank line
      needed. */
  lemma ParagraphBlock(ts: seq<string>, rest: seq<LineKind>)
    requires |ts| >= 1
    requires rest == [] || !rest[0].Plain?
    ensures Assemble(PlainLines(ts) + rest, Idle) == [Paragraph(JoinLines(ts))] + Assemble(rest, Idle)
  {
    var k := Plain(ts[0]);
    var tl := PlainLines(ts[1..]) + rest;
    PlainSplit(ts, rest);
    assert Open(k) == ([], InParagraph([ts[0]]));
    StepIdle(k, tl);
    ParagraphRun([ts[0]], ts[1..], rest);
    Uncons(ts);
  }

  lemma PlainSplit(ts: seq<string>, rest: seq<LineKind>)
    requires |ts| >= 1
    ensures PlainLines(ts) + rest == [Plain(ts[0])] + (PlainLines(ts[1..]) + rest)
  {
    Assoc([Plain(ts[0])], PlainLines(ts[1..]), rest);
  }

  /** A checklist never absorbs the plain `- ` items that follow it. */
  lemma ChecklistThenUnordered(es: seq<(string, bool)>, items: seq<string>)
    requires |es| >= 1 && |items| >= 1
    ensures Assemble(CheckLines(es) + BulletLines(items), Idle) == [Checklist(es), UnorderedList(items)]
  {
    assert BulletLines(items)[0] == Bullet(items[0]);
    ChecklistBlock(es, BulletLines(items));
    UnorderedBlock(items, []);
    assert BulletLines(items) + [] == BulletLines(items);
  }

  /** An unordered list never absorbs the checkbox items that follow it. */
  lemma UnorderedThenChecklist(items: seq<string>, es: seq<(string, bool)>)
    requires |items| >= 1 && |es| >= 1
    ensures Assemble(BulletLines(items) + CheckLines(es), Idle) == [UnorderedList(items), Checklist(es)]
  {
    assert CheckLines(es)[0] == CheckItem(es[0].0, es[0].1);
    UnorderedBlock(items, CheckLines(es));
    ChecklistBlock(es, []);
    assert CheckLines(es) + [] == CheckLines(es);
  }

  /** A numbered item that breaks the sequence (a restart at 1, say)
      closes the ordered list and opens a second one. */
  lemma OrderedRestart(m1: nat, items1: seq<string>, m2: nat, items2: seq<string>)
    requires |items1| >= 1 && |items2| >= 1
    requires m2 != m1 + |items1|
    ensures Assemble(NumberedLines(m1, items1) + NumberedLines(m2, items2), Idle)
         == [OrderedList(items1), OrderedList(items2)]
  {
    assert NumberedLines(m2, items2)[0] == Numbered(m2, items2[0]);
    OrderedBlock(m1, items1, NumberedLines(m2, items2));
    OrderedBlock(m2, items2, []);
    assert NumberedLines(m2, items2) + [] == NumberedLines(m2, items2);
  }

  // ---------------------------------------------------------------------
  // Whole buffers

  lemma {:induction false} ClassifyAllAppend(x: seq<string>, y: seq<string>)
    ensures ClassifyAll(x + y) == ClassifyAll(x) + ClassifyAll(y)
  {
    if |x| > 0 {
      var tl := x[1..] + y;
      assert x + y == [x[0]] + tl by {
        Uncons(x);
        Assoc([x[0]], x[1..], y);
      }
      ClassifyCons(x[0], tl);
      ClassifyAllAppend(x[1..], y);
      ClassifyCons(x[0], x[1..]);
      Uncons(x);
      Assoc([ClassifyLine(x[0])], ClassifyAll(x[1..]), ClassifyAll(y));
    } else {
      assert x + y == y;
    }
  }

  lemma ClassifyCons(x: string, rest: seq<string>)
    ensures ClassifyAll([x] + rest) == [ClassifyLine(x)] + ClassifyAll(rest)
  {
    assert ([x] + rest)[1..] == rest;
  }

  /** The lines of `a + "\n" + b`, classified, are those of `a` then those
      of `b`. */
  lemma KindsAppend(a: string, b: string)
    ensures ClassifyAll(SplitLines(a + "\n" + b)) == ClassifyAll(SplitLines(a)) + ClassifyAll(SplitLines(b))
  {
    SplitAppend(a, b);
    ClassifyAllAppend(SplitLines(a), SplitLines(b));
  }

  /** A blank buffer has only blank lines. */
  lemma BlankKinds(g: string)
    requires AllSpace(g)
    ensures |ClassifyAll(SplitLines(g))| >= 1 && AllBlank(ClassifyAll(SplitLines(g)))
  {
    var lines := SplitLines(g);
    var ks := ClassifyAll(lines);
    AllSpaceLines(g);
    forall i | 0 <= i < |ks| ensures ks[i].Blank? {
      ClassifyAllAt(lines, i);
    }
  }

  /** Parsing never fails, and it gives no element exactly when the buffer
      holds only whitespace (spaces, tabs, line feeds, ...). */
  lemma ParseEmpty(s: string)
    ensures Parse(s) == [] <==> AllSpace(s)
  {
    var lines := SplitLines(s);
    var ks := ClassifyAll(lines);
    assert Parse(s) == [] <==> Assemble(ks, Idle) == [];
    AssembleEmpty(ks, Idle);
    AllSpaceLines(s);
    BlankLinesKinds(lines);
  }

  /** The lines are all blank exactly when their kinds all are. */
  lemma BlankLinesKinds(lines: seq<string>)
    ensures AllBlank(ClassifyAll(lines)) <==> AllBlankLines(lines)
  {
    var ks := ClassifyAll(lines);
    forall i | 0 <= i < |ks| ensures ks[i].Blank? <==> AllSpace(lines[i]) {
      ClassifyAllAt(lines, i);
    }
  }

  /** Blank-line runs are pure separators: a run of whitespace-only lines
      between two pieces of text, however long, makes the output the two
      pieces parsed on their own, one after the other. */
  lemma ParseGap(a: string, g: string, b: string)
    requires AllSpace(g)
    ensures Parse(a + "\n" + g + "\n" + b) == Parse(a) + Parse(b)
  {
    KindsGap(a, g, b);
    BlankKinds(g);
    BlankGap(ClassifyAll(SplitLines(a)), ClassifyAll(SplitLines(g)), ClassifyAll(SplitLines(b)), Idle);
  }

  lemma KindsGap(a: string, g: string, b: string)
    ensures ClassifyAll(SplitLines(a + "\n" + g + "\n" + b))
         == ClassifyAll(SplitLines(a)) + ClassifyAll(SplitLines(g)) + ClassifyAll(SplitLines(b))
  {
    var ka, kg, kb := ClassifyAll(SplitLines(a)), ClassifyAll(SplitLines(g)), ClassifyAll(SplitLines(b));
    var t := g + "\n" + b;
    GapShape(a, g, b);
    assert ClassifyAll(SplitLines(t)) == kg + kb by { KindsAppend(g, b); }
    assert ClassifyAll(SplitLines(a + "\n" + t)) == ka + (kg + kb) by { KindsAppend(a, t); }
    Assoc(ka, kg, kb);
  }

  lemma GapShape(a: string, g: string, b: string)
    ensures a + "\n" + g + "\n" + b == a + "\n" + (g + "\n" + b)
  {
  }

  /** Blank lines before the text change nothing. */
  lemma ParseLeadingGap(g: string, b: string)
    requires AllSpace(g)
    ensures Parse(g + "\n" + b) == Parse(b)
  {
    KindsAppend(g, b);
    BlankKinds(g);
    AssembleLeadingBlanks(ClassifyAll(SplitLines(g)), ClassifyAll(SplitLines(b)));
  }

  /** Blank lines after the text change nothing; in particular a missing
      final line feed makes no difference (take `g` empty). */
  lemma ParseTrailingGap(a: string, g: string)
    requires AllSpace(g)
    ensures Parse(a + "\n" + g) == Parse(a)
  {
    KindsAppend(a, g);
    BlankKinds(g);
    AssembleTrailingBlanks(ClassifyAll(SplitLines(a)), ClassifyAll(SplitLines(g)), Idle);
  }

  /** A line with no line feed is one line of one kind. */
  lemma KindsOfLine(h: string)
    requires '\n' !in h
    ensures ClassifyAll(SplitLines(h)) == [ClassifyLine(h)]
  {
    SplitNoNewline(h);
    assert [h][1..] == [];
  }

  /** A heading stands on its own line: it closes the block before it, is
      emitted at once, and the next line starts a new block, with no blank
      line needed on either side. */
  lemma ParseHeading(a: string, h: string, b: string, t: string, n: nat)
    requires '\n' !in h && ClassifyLine(h) == Heading(t, n)
    ensures Parse(a + "\n" + h + "\n" + b) == Parse(a) + [TitleOrHeading(t, n)] + Parse(b)
  {
    var ka, kb := ClassifyAll(SplitLines(a)), ClassifyAll(SplitLines(b));
    KindsGap(a, h, b);
    KindsOfLine(h);
    AssembleBreak(ka, Heading(t, n), kb, Idle);
  }

  /** The same at the head of a buffer. */
  lemma ParseHeadingFirst(h: string, b: string, t: string, n: nat)
    requires '\n' !in h && ClassifyLine(h) == Heading(t, n)
    ensures Parse(h + "\n" + b) == [TitleOrHeading(t, n)] + Parse(b)
  {
    var kb := ClassifyAll(SplitLines(b));
    KindsAppend(h, b);
    KindsOfLine(h);
    StepIdle(Heading(t, n), kb);
  }

  /** A line that continues the open block extends it. */
  lemma StepContinue(k: LineKind, ks: seq<LineKind>, st: State)
    requires Continues(st, k)
    ensures Assemble([k] + ks, st) == Assemble(ks, Extend(st, k))
  {
    assert ([k] + ks)[1..] == ks;
  }

  /** A line that does not continue the open block closes it and is read
      as if from `Idle`. */
  lemma StepBreak(k: LineKind, ks: seq<LineKind>, st: State)
    requires !Continues(st, k)
    ensures Assemble([k] + ks, st) == Close(st) + Open(k).0 + Assemble(ks, Open(k).1)
  {
    assert ([k] + ks)[1..] == ks;
  }

  /** One line, whichever way it goes. */
  lemma StepAny(k: LineKind, ks: seq<LineKind>, st: State)
    ensures Assemble([k] + ks, st)
         == (if Continues(st, k) then [] else Close(st) + Open(k).0)
            + Assemble(ks, if Continues(st, k) then Extend(st, k) else Open(k).1)
  {
    if Continues(st, k) {
      StepContinue(k, ks, st);
      assert [] + Assemble(ks, Extend(st, k)) == Assemble(ks, Extend(st, k));
    } else {
      StepBreak(k, ks, st);
    }
  }

  /** One line read from `Idle`. */
  lemma StepIdle(k: LineKind, ks: seq<LineKind>)
    ensures Assemble([k] + ks, Idle) == Open(k).0 + Assemble(ks, Open(k).1)
  {
    assert ([k] + ks)[1..] == ks;
  }

  lemma Snoc<T>(prev: seq<T>, xs: seq<T>)
    requires |xs| >= 1
    ensures prev + [xs[0]] + xs[1..] == prev + xs
  {
    assert xs == [xs[0]] + xs[1..];
  }

  lemma Uncons<T>(xs: seq<T>)
    requires |xs| >= 1
    ensures [xs[0]] + xs[1..] == xs
  {
  }

  lemma Assoc<T>(x: seq<T>, y: seq<T>, z: seq<T>)
    ensures x + (y + z) == x + y + z
  {
  }
}
