/** The documented behaviour of the Jotdown parser, example by example:
    each example is first proved for any payloads of the right shape, then
    for the very texts of the example. */
module JotExamples {
  import opened JotText
  import opened JotLines
  import opened JotBlocks
  import opened JotProperties

  /** Text that may follow a `- ` marker and stay a plain item. */
  predicate ItemText(t: string) {
    '\n' !in t && IsPayload(t) && !OpensWithBox(t, false) && !OpensWithBox(t, true)
  }

  /** Text that may follow a heading, checkbox or number marker. */
  predicate MarkedText(t: string) {
    '\n' !in t && IsPayload(t)
  }

  /** A line of paragraph text. */
  predicate PlainLine(p: string) {
    '\n' !in p && IsPlainText(p)
  }

  // ---------------------------------------------------------------------
  // Lines with a marker hold no line feed when their text holds none.

  lemma DashNoNewline(t: string)
    requires '\n' !in t
    ensures '\n' !in "- " + t
  {
  }

  lemma BoxNoNewline(c: bool, t: string)
    requires '\n' !in t
    ensures '\n' !in CheckPrefix(c) + t
  {
  }

  lemma NumberNoNewline(m: nat, t: string)
    requires '\n' !in t
    ensures '\n' !in ShowDecimal(m) + ". " + t
  {
    var ds := ShowDecimal(m);
    assert forall i :: 0 <= i < |ds| ==> ds[i] != '\n';
  }

  lemma HashNoNewline(n: nat, t: string)
    requires '\n' !in t
    ensures '\n' !in Hashes(n) + " " + t
  {
    var hs := Hashes(n);
    assert forall i :: 0 <= i < |hs| ==> hs[i] != '\n';
  }

  // ---------------------------------------------------------------------
  // The classified lines of a buffer, one leading line at a time.

  lemma KindsCons(x: string, r: string, k: LineKind)
    requires '\n' !in x && ClassifyLine(x) == k
    ensures ClassifyAll(SplitLines(x + "\n" + r)) == [k] + ClassifyAll(SplitLines(r))
  {
    KindsAppend(x, r);
    KindsOfLine(x);
  }

  lemma BulletCons(a: string, r: string)
    requires ItemText(a)
    ensures ClassifyAll(SplitLines("- " + a + "\n" + r)) == [Bullet(a)] + ClassifyAll(SplitLines(r))
  {
    DashNoNewline(a);
    ClassifyBullet(a);
    KindsCons("- " + a, r, Bullet(a));
  }

  lemma BulletLast(a: string)
    requires ItemText(a)
    ensures ClassifyAll(SplitLines("- " + a)) == [Bullet(a)]
  {
    DashNoNewline(a);
    ClassifyBullet(a);
    KindsOfLine("- " + a);
  }

  lemma CheckCons(a: string, c: bool, r: string)
    requires MarkedText(a)
    ensures ClassifyAll(SplitLines(CheckPrefix(c) + a + "\n" + r)) == [CheckItem(a, c)] + ClassifyAll(SplitLines(r))
  {
    BoxNoNewline(c, a);
    ClassifyCheckItem(a, c);
    KindsCons(CheckPrefix(c) + a, r, CheckItem(a, c));
  }

  lemma CheckLast(a: string, c: bool)
    requires MarkedText(a)
    ensures ClassifyAll(SplitLines(CheckPrefix(c) + a)) == [CheckItem(a, c)]
  {
    BoxNoNewline(c, a);
    ClassifyCheckItem(a, c);
    KindsOfLine(CheckPrefix(c) + a);
  }

  lemma NumberedCons(m: nat, a: string, r: string)
    requires MarkedText(a)
    ensures ClassifyAll(SplitLines(ShowDecimal(m) + ". " + a + "\n" + r)) == [Numbered(m, a)] + ClassifyAll(SplitLines(r))
  {
    NumberNoNewline(m, a);
    ClassifyNumbered(m, a);
    KindsCons(ShowDecimal(m) + ". " + a, r, Numbered(m, a));
  }

  lemma NumberedLast(m: nat, a: string)
    requires MarkedText(a)
    ensures ClassifyAll(SplitLines(ShowDecimal(m) + ". " + a)) == [Numbered(m, a)]
  {
    NumberNoNewline(m, a);
    ClassifyNumbered(m, a);
    KindsOfLine(ShowDecimal(m) + ". " + a);
  }

  lemma PlainKind(p: string)
    requires PlainLine(p)
    ensures ClassifyLine(p) == Plain(p)
  {
    TrimTrimmed(p);
  }

  lemma PlainLast(p: string)
    requires PlainLine(p)
    ensures ClassifyAll(SplitLines(p)) == [Plain(p)]
  {
    PlainKind(p);
    KindsOfLine(p);
  }

  lemma BlankLast()
    ensures ClassifyAll(SplitLines("")) == [Blank]
  {
    KindsOfLine("");
  }

  // ---------------------------------------------------------------------
  // The markers the examples spell out.

  lemma SmallNumbers()
    ensures ShowDecimal(1) == "1" && ShowDecimal(2) == "2"
  {
  }

  lemma SmallHashes()
    ensures Hashes(1) == "#" && Hashes(2) == "##"
  {
  }

  lemma Boxes()
    ensures CheckPrefix(false) == "- [ ] " && CheckPrefix(true) == "- [x] "
  {
  }

  // ---------------------------------------------------------------------
  // The same texts, regrouped line by line.

  lemma BulletsShape(a: string, b: string)
    ensures "- " + a + "\n- " + b == "- " + a + "\n" + ("- " + b)
  {
  }

  lemma ChecksShape(a: string, b: string)
    ensures "- [ ] " + a + "\n- [x] " + b == CheckPrefix(false) + a + "\n" + (CheckPrefix(true) + b)
  {
    Boxes();
  }

  lemma NumbersShape(a: string, b: string)
    ensures "1. " + a + "\n2. " + b == ShowDecimal(1) + ". " + a + "\n" + (ShowDecimal(2) + ". " + b)
  {
    SmallNumbers();
  }

  // ---------------------------------------------------------------------
  // Whole blocks.

  /** One line of paragraph text is one paragraph. */
  lemma ParseParagraphLine(p: string)
    requires PlainLine(p)
    ensures Parse(p) == [Paragraph(p)]
  {
    var ks := ClassifyAll(SplitLines(p));
    assert ks == [Plain(p)] by { PlainLast(p); }
    OneParagraph(p);
  }

  /** A final line feed changes nothing. */
  lemma ParseNewline(x: string)
    ensures Parse(x + "\n") == Parse(x)
  {
    ParseTrailingGap(x, "");
    assert x + "\n" + "" == x + "\n";
  }

  /** One empty line separates two pieces of text. */
  lemma ParseBlankLine(x: string, y: string)
    ensures Parse(x + "\n\n" + y) == Parse(x) + Parse(y)
  {
    assert x + "\n\n" + y == x + "\n" + "" + "\n" + y;
    ParseGap(x, "", y);
  }

  lemma TwoBullets(a: string, b: string)
    ensures BulletLines([a, b]) == [Bullet(a), Bullet(b)]
  {
    assert [a, b][1..] == [b];
    assert BulletLines([b]) == [Bullet(b)] + BulletLines([b][1..]);
    assert [b][1..] == [];
  }

  lemma TwoChecks(a: string, b: string)
    ensures CheckLines([(a, false), (b, true)]) == [CheckItem(a, false), CheckItem(b, true)]
  {
    assert [(a, false), (b, true)][1..] == [(b, true)];
    assert CheckLines([(b, true)]) == [CheckItem(b, true)] + CheckLines([(b, true)][1..]);
    assert [(b, true)][1..] == [];
  }

  lemma TwoNumbered(m: nat, a: string, b: string)
    ensures NumberedLines(m, [a, b]) == [Numbered(m, a), Numbered(m + 1, b)]
  {
    assert [a, b][1..] == [b];
    assert NumberedLines(m + 1, [b]) == [Numbered(m + 1, b)] + NumberedLines(m + 2, [b][1..]);
    assert [b][1..] == [];
  }

  lemma BulletsKinds(a: string, b: string)
    requires ItemText(a) && ItemText(b)
    ensures ClassifyAll(SplitLines("- " + a + "\n- " + b)) == BulletLines([a, b])
  {
    BulletsShape(a, b);
    BulletCons(a, "- " + b);
    BulletLast(b);
    TwoBullets(a, b);
  }

  lemma ChecksKinds(a: string, b: string)
    requires MarkedText(a) && MarkedText(b)
    ensures ClassifyAll(SplitLines("- [ ] " + a + "\n- [x] " + b)) == CheckLines([(a, false), (b, true)])
  {
    ChecksShape(a, b);
    CheckCons(a, false, CheckPrefix(true) + b);
    CheckLast(b, true);
    TwoChecks(a, b);
  }

  lemma NumbersKinds(a: string, b: string)
    requires MarkedText(a) && MarkedText(b)
    ensures ClassifyAll(SplitLines("1. " + a + "\n2. " + b)) == NumberedLines(1, [a, b])
  {
    NumbersShape(a, b);
    NumberedCons(1, a, ShowDecimal(2) + ". " + b);
    NumberedLast(2, b);
    TwoNumbered(1, a, b);
  }

  /** Two `- ` items are one unordered list. */
  lemma ParseBullets(a: string, b: string)
    requires ItemText(a) && ItemText(b)
    ensures Parse("- " + a + "\n- " + b) == [UnorderedList([a, b])]
  {
    BulletsKinds(a, b);
    UnorderedBlock([a, b], []);
    assert BulletLines([a, b]) + [] == BulletLines([a, b]);
  }

  /** An unchecked and a checked item are one checklist. */
  lemma ParseChecks(a: string, b: string)
    requires MarkedText(a) && MarkedText(b)
    ensures Parse("- [ ] " + a + "\n- [x] " + b) == [Checklist([(a, false), (b, true)])]
  {
    ChecksKinds(a, b);
    ChecklistBlock([(a, false), (b, true)], []);
    assert CheckLines([(a, false), (b, true)]) + [] == CheckLines([(a, false), (b, true)]);
  }

  /** Items `1.` and `2.` are one ordered list. */
  lemma ParseNumbers(a: string, b: string)
    requires MarkedText(a) && MarkedText(b)
    ensures Parse("1. " + a + "\n2. " + b) == [OrderedList([a, b])]
  {
    NumbersKinds(a, b);
    OrderedBlock(1, [a, b], []);
    assert NumberedLines(1, [a, b]) + [] == NumberedLines(1, [a, b]);
  }

  /** A level-`n` heading line, alone, is one heading. */
  lemma ParseHeadingLine(n: nat, t: string)
    requires n >= 1 && MarkedText(t)
    ensures Parse(Hashes(n) + " " + t) == [TitleOrHeading(t, n)]
  {
    HashNoNewline(n, t);
    ClassifyHeading(t, n);
    KindsOfLine(Hashes(n) + " " + t);
    StepIdle(Heading(t, n), []);
    assert [Heading(t, n)] + [] == [Heading(t, n)];
  }

  /** A heading line followed by more text. */
  lemma ParseHeadingThen(n: nat, t: string, r: string)
    requires n >= 1 && MarkedText(t)
    ensures Parse(Hashes(n) + " " + t + "\n" + r) == [TitleOrHeading(t, n)] + Parse(r)
  {
    HashNoNewline(n, t);
    ClassifyHeading(t, n);
    ParseHeadingFirst(Hashes(n) + " " + t, r, t, n);
  }

  /** A line that opens with `#` or `-` not followed by a space, alone, is
      one paragraph holding the whole line. */
  lemma ParseUnmarkedLine(line: string)
    requires '\n' !in line && IsPayload(line)
    requires line[0] == '#' || line[0] == '-'
    requires !HeadingShaped(line)
    requires |line| < 2 || line[1] != ' '
    ensures Parse(line) == [Paragraph(line)]
  {
    MarkerWithoutSpace(line);
    KindsOfLine(line);
    OneParagraph(line);
  }

  lemma OneParagraph(p: string)
    ensures Assemble([Plain(p)], Idle) == [Paragraph(p)]
  {
    assert Assemble([Plain(p)], Idle) == Assemble([], InParagraph([p]));
  }

  /** Two blocks separated by one empty line, with a final line feed. */
  lemma ParseBlockPair(x: string, y: string)
    ensures Parse(x + "\n\n" + y + "\n") == Parse(x) + Parse(y)
  {
    assert x + "\n\n" + y + "\n" == x + "\n\n" + (y + "\n");
    ParseBlankLine(x, y + "\n");
    ParseNewline(y);
  }

  // ---------------------------------------------------------------------
  // Regrouping short sequences of kinds and blocks.

  lemma ConsPair(x: LineKind, y: LineKind, tl: seq<LineKind>)
    ensures [x] + ([y] + tl) == [x, y] + tl
  {
  }

  lemma BlocksPair(x: JdElement, y: JdElement)
    ensures [x] + ([y] + []) == [x, y]
  {
  }

  lemma BlocksTwo(x: JdElement, y: JdElement)
    ensures [x] + [y] == [x, y]
  {
  }

  lemma BlocksThree(x: JdElement, y: JdElement, z: JdElement)
    ensures [x] + ([y] + [z]) == [x, y, z]
  {
  }

  lemma BlankOnly()
    ensures Assemble([Blank], Idle) == []
  {
    AssembleLeadingBlanks([Blank], []);
    assert [Blank] + [] == [Blank];
  }

  // ---------------------------------------------------------------------
  // The examples, for any payloads of the right shape.

  lemma ThreeParagraphsShape(p: string, q: string, r: string)
    ensures p + "\n\n" + q + "\n\n" + r + "\n\n" == p + "\n\n" + (q + "\n\n" + (r + "\n" + "\n"))
  {
  }

  /** Paragraphs separated by empty lines, the last followed by two line
      feeds. */
  lemma ParagraphsTwoNewlinesEnd(p: string, q: string, r: string)
    requires PlainLine(p) && PlainLine(q) && PlainLine(r)
    ensures Parse(p + "\n\n" + q + "\n\n" + r + "\n\n") == [Paragraph(p), Paragraph(q), Paragraph(r)]
  {
    var s2 := r + "\n" + "\n";
    assert Parse(s2) == [Paragraph(r)] by {
      ParseNewline(r + "\n");
      ParseNewline(r);
      ParseParagraphLine(r);
    }
    var s1 := q + "\n\n" + s2;
    assert Parse(s1) == [Paragraph(q)] + [Paragraph(r)] by {
      ParseBlankLine(q, s2);
      ParseParagraphLine(q);
    }
    assert Parse(p + "\n\n" + s1) == [Paragraph(p)] + ([Paragraph(q)] + [Paragraph(r)]) by {
      ParseBlankLine(p, s1);
      ParseParagraphLine(p);
    }
    ThreeParagraphsShape(p, q, r);
    BlocksThree(Paragraph(p), Paragraph(q), Paragraph(r));
  }

  /** Two paragraphs, the last followed by one line feed. */
  lemma ParagraphsNoEnd(p: string, q: string)
    requires PlainLine(p) && PlainLine(q)
    ensures Parse(p + "\n\n" + q + "\n") == [Paragraph(p), Paragraph(q)]
  {
    ParseBlockPair(p, q);
    ParseParagraphLine(p);
    ParseParagraphLine(q);
  }

  /** Two paragraphs, the last with no line feed at all. */
  lemma ParagraphUnterminated(p: string, q: string)
    requires PlainLine(p) && PlainLine(q)
    ensures Parse(p + "\n\n" + q) == [Paragraph(p), Paragraph(q)]
  {
    ParseBlankLine(p, q);
    ParseParagraphLine(p);
    ParseParagraphLine(q);
  }

  lemma LeadingNewlinesShape(p: string, q: string)
    ensures "\n\n" + p + "\n\n" + q == "\n" + "\n" + (p + "\n\n" + q)
    ensures AllSpace("\n")
  {
  }

  /** Empty lines before the first paragraph are skipped. */
  lemma ParagraphAfterNewlines(p: string, q: string)
    requires PlainLine(p) && PlainLine(q)
    ensures Parse("\n\n" + p + "\n\n" + q) == [Paragraph(p), Paragraph(q)]
  {
    LeadingNewlinesShape(p, q);
    ParseLeadingGap("\n", p + "\n\n" + q);
    ParagraphUnterminated(p, q);
  }

  /** A heading closes on its own line: the next line, with no empty line
      between, is a paragraph. */
  lemma HeadingThenParagraph(n: nat, h: string, p: string)
    requires n >= 1 && MarkedText(h) && PlainLine(p)
    ensures Parse(Hashes(n) + " " + h + "\n" + p) == [TitleOrHeading(h, n), Paragraph(p)]
  {
    ParseHeadingThen(n, h, p);
    ParseParagraphLine(p);
  }

  lemma TitlesShape(h1: string, p: string, h2: string)
    ensures "# " + h1 + "\n\n\n" + p + "\n\n# " + h2 + "\n"
         == Hashes(1) + " " + h1 + "\n" + ("\n" + "\n" + (p + "\n\n" + (Hashes(1) + " " + h2) + "\n"))
  {
    SmallHashes();
  }

  /** Titles and a paragraph separated by runs of empty lines. */
  lemma Titles(h1: string, p: string, h2: string)
    requires MarkedText(h1) && PlainLine(p) && MarkedText(h2)
    ensures Parse("# " + h1 + "\n\n\n" + p + "\n\n# " + h2 + "\n")
         == [TitleOrHeading(h1, 1), Paragraph(p), TitleOrHeading(h2, 1)]
  {
    var last := Hashes(1) + " " + h2;
    assert Parse(last) == [TitleOrHeading(h2, 1)] by { ParseHeadingLine(1, h2); }
    var rest := p + "\n\n" + last + "\n";
    assert Parse(rest) == [Paragraph(p)] + [TitleOrHeading(h2, 1)] by {
      ParseBlockPair(p, last);
      ParseParagraphLine(p);
    }
    var gap := "\n" + "\n" + rest;
    assert Parse(gap) == Parse(rest) by {
      LeadingNewlinesShape("", "");
      ParseLeadingGap("\n", rest);
    }
    assert Parse(Hashes(1) + " " + h1 + "\n" + gap) == [TitleOrHeading(h1, 1)] + Parse(gap) by {
      ParseHeadingThen(1, h1, gap);
    }
    TitlesShape(h1, p, h2);
    BlocksThree(TitleOrHeading(h1, 1), Paragraph(p), TitleOrHeading(h2, 1));
  }

  /** Two `- ` items and a final line feed. */
  lemma UnorderedListTwo(a: string, b: string)
    requires ItemText(a) && ItemText(b)
    ensures Parse("- " + a + "\n- " + b + "\n") == [UnorderedList([a, b])]
  {
    ParseNewline("- " + a + "\n- " + b);
    ParseBullets(a, b);
  }

  lemma ParagraphAndUnorderedShape(p: string, a: string, b: string)
    ensures p + "\n\n- " + a + "\n- " + b + "\n" == p + "\n\n" + ("- " + a + "\n- " + b) + "\n"
  {
  }

  /** A paragraph, an empty line, then an unordered list. */
  lemma ParagraphAndUnorderedList(p: string, a: string, b: string)
    requires PlainLine(p) && ItemText(a) && ItemText(b)
    ensures Parse(p + "\n\n- " + a + "\n- " + b + "\n") == [Paragraph(p), UnorderedList([a, b])]
  {
    ParagraphAndUnorderedShape(p, a, b);
    ParseBlockPair(p, "- " + a + "\n- " + b);
    ParseParagraphLine(p);
    ParseBullets(a, b);
  }

  lemma UnorderedAndParagraphShape(a: string, b: string, p: string)
    ensures "- " + a + "\n- " + b + "\n" + p == "- " + a + "\n" + ("- " + b + "\n" + p)
  {
  }

  lemma UnorderedAndParagraphKinds(a: string, b: string, p: string)
    requires ItemText(a) && ItemText(b) && PlainLine(p)
    ensures ClassifyAll(SplitLines("- " + a + "\n- " + b + "\n" + p)) == BulletLines([a, b]) + [Plain(p)]
  {
    var k2 := ClassifyAll(SplitLines(p));
    assert k2 == [Plain(p)] by { PlainLast(p); }
    var r := "- " + b + "\n" + p;
    assert ClassifyAll(SplitLines(r)) == [Bullet(b)] + k2 by { BulletCons(b, p); }
    assert ClassifyAll(SplitLines("- " + a + "\n" + r)) == [Bullet(a)] + ([Bullet(b)] + k2) by { BulletCons(a, r); }
    ConsPair(Bullet(a), Bullet(b), k2);
    UnorderedAndParagraphShape(a, b, p);
    TwoBullets(a, b);
  }

  /** A paragraph line right after the items closes the list, with no
      empty line needed. */
  lemma UnorderedListAndParagraph(a: string, b: string, p: string)
    requires ItemText(a) && ItemText(b) && PlainLine(p)
    ensures Parse("- " + a + "\n- " + b + "\n" + p) == [UnorderedList([a, b]), Paragraph(p)]
  {
    UnorderedAndParagraphKinds(a, b, p);
    UnorderedBlock([a, b], [Plain(p)]);
    OneParagraph(p);
  }

  lemma UnorderedFarShape(p: string, a: string, b: string, q: string)
    ensures p + "\n\n- " + a + "\n- " + b + "\n\n" + q + "\n\n"
         == p + "\n\n" + (("- " + a + "\n- " + b) + "\n\n" + (q + "\n") + "\n")
  {
  }

  /** A list between two paragraphs, all separated by empty lines. */
  lemma UnorderedListFar(p: string, a: string, b: string, q: string)
    requires PlainLine(p) && ItemText(a) && ItemText(b) && PlainLine(q)
    ensures Parse(p + "\n\n- " + a + "\n- " + b + "\n\n" + q + "\n\n")
         == [Paragraph(p), UnorderedList([a, b]), Paragraph(q)]
  {
    var last := q + "\n";
    assert Parse(last) == [Paragraph(q)] by {
      ParseNewline(q);
      ParseParagraphLine(q);
    }
    var list := "- " + a + "\n- " + b;
    assert Parse(list) == [UnorderedList([a, b])] by { ParseBullets(a, b); }
    var rest := list + "\n\n" + last + "\n";
    assert Parse(rest) == [UnorderedList([a, b])] + [Paragraph(q)] by { ParseBlockPair(list, last); }
    assert Parse(p + "\n\n" + rest) == [Paragraph(p)] + ([UnorderedList([a, b])] + [Paragraph(q)]) by {
      ParseBlankLine(p, rest);
      ParseParagraphLine(p);
    }
    UnorderedFarShape(p, a, b, q);
    BlocksThree(Paragraph(p), UnorderedList([a, b]), Paragraph(q));
  }

  /** Items `1.` and `2.` and a final line feed. */
  lemma OrderedListTwo(a: string, b: string)
    requires MarkedText(a) && MarkedText(b)
    ensures Parse("1. " + a + "\n2. " + b + "\n") == [OrderedList([a, b])]
  {
    ParseNewline("1. " + a + "\n2. " + b);
    ParseNumbers(a, b);
  }

  lemma TwoOrderedShape(a: string, b: string, c: string, d: string)
    ensures "1. " + a + "\n2. " + b + "\n1. " + c + "\n2. " + d + "\n"
         == ShowDecimal(1) + ". " + a + "\n" + (ShowDecimal(2) + ". " + b + "\n"
            + (ShowDecimal(1) + ". " + c + "\n" + (ShowDecimal(2) + ". " + d + "\n" + "")))
  {
    SmallNumbers();
  }

  lemma TwoOrderedKinds(a: string, b: string, c: string, d: string)
    requires MarkedText(a) && MarkedText(b) && MarkedText(c) && MarkedText(d)
    ensures ClassifyAll(SplitLines("1. " + a + "\n2. " + b + "\n1. " + c + "\n2. " + d + "\n"))
         == NumberedLines(1, [a, b]) + (NumberedLines(1, [c, d]) + [Blank])
  {
    var k4 := ClassifyAll(SplitLines(""));
    assert k4 == [Blank] by { BlankLast(); }
    var r3 := ShowDecimal(2) + ". " + d + "\n" + "";
    assert ClassifyAll(SplitLines(r3)) == [Numbered(2, d)] + k4 by { NumberedCons(2, d, ""); }
    var r2 := ShowDecimal(1) + ". " + c + "\n" + r3;
    assert ClassifyAll(SplitLines(r2)) == [Numbered(1, c)] + ([Numbered(2, d)] + k4) by { NumberedCons(1, c, r3); }
    var k2 := [Numbered(1, c), Numbered(2, d)] + k4;
    assert ClassifyAll(SplitLines(r2)) == k2 by { ConsPair(Numbered(1, c), Numbered(2, d), k4); }
    var r1 := ShowDecimal(2) + ". " + b + "\n" + r2;
    assert ClassifyAll(SplitLines(r1)) == [Numbered(2, b)] + k2 by { NumberedCons(2, b, r2); }
    var r0 := ShowDecimal(1) + ". " + a + "\n" + r1;
    assert ClassifyAll(SplitLines(r0)) == [Numbered(1, a)] + ([Numbered(2, b)] + k2) by { NumberedCons(1, a, r1); }
    ConsPair(Numbered(1, a), Numbered(2, b), k2);
    TwoOrderedShape(a, b, c, d);
    TwoNumbered(1, a, b);
    TwoNumbered(1, c, d);
  }

  /** Numbering that restarts at 1 starts a second ordered list. */
  lemma TwoOrderedLists(a: string, b: string, c: string, d: string)
    requires MarkedText(a) && MarkedText(b) && MarkedText(c) && MarkedText(d)
    ensures Parse("1. " + a + "\n2. " + b + "\n1. " + c + "\n2. " + d + "\n")
         == [OrderedList([a, b]), OrderedList([c, d])]
  {
    TwoOrderedKinds(a, b, c, d);
    var tl := NumberedLines(1, [c, d]) + [Blank];
    assert tl[0] == Numbered(1, c) by { TwoNumbered(1, c, d); }
    OrderedBlock(1, [a, b], tl);
    OrderedBlock(1, [c, d], [Blank]);
    BlankOnly();
    BlocksPair(OrderedList([a, b]), OrderedList([c, d]));
  }

  lemma OrderedAndParagraphShape(a: string, b: string, p: string)
    ensures "1. " + a + "\n2. " + b + "\n\n" + p + "\n" == ("1. " + a + "\n2. " + b) + "\n\n" + p + "\n"
  {
  }

  /** An ordered list, an empty line, then a paragraph. */
  lemma OrderedListAndParagraph(a: string, b: string, p: string)
    requires MarkedText(a) && MarkedText(b) && PlainLine(p)
    ensures Parse("1. " + a + "\n2. " + b + "\n\n" + p + "\n") == [OrderedList([a, b]), Paragraph(p)]
  {
    ParseBlockPair("1. " + a + "\n2. " + b, p);
    ParseNumbers(a, b);
    ParseParagraphLine(p);
  }

  lemma OrderedAndUnorderedShape(a: string, b: string, c: string, d: string)
    ensures "1. " + a + "\n2. " + b + "\n\n- " + c + "\n- " + d + "\n"
         == ("1. " + a + "\n2. " + b) + "\n\n" + ("- " + c + "\n- " + d) + "\n"
  {
  }

  /** An ordered list, an empty line, then an unordered list. */
  lemma OrderedAndUnorderedLists(a: string, b: string, c: string, d: string)
    requires MarkedText(a) && MarkedText(b) && ItemText(c) && ItemText(d)
    ensures Parse("1. " + a + "\n2. " + b + "\n\n- " + c + "\n- " + d + "\n")
         == [OrderedList([a, b]), UnorderedList([c, d])]
  {
    OrderedAndUnorderedShape(a, b, c, d);
    ParseBlockPair("1. " + a + "\n2. " + b, "- " + c + "\n- " + d);
    ParseNumbers(a, b);
    ParseBullets(c, d);
  }

  lemma LongGapsShape(h: string, p: string)
    ensures "\n\n\n\n\n# " + h + "\n\n\n\n\n\n\n\n\n\n" + p + "\n\n\n\n\n\n"
         == "\n\n\n\n" + "\n" + (Hashes(1) + " " + h + "\n" + ("\n\n\n\n\n\n\n\n" + "\n" + (p + "\n" + "\n\n\n\n\n")))
  {
    SmallHashes();
  }

  lemma LongGaps()
    ensures AllSpace("\n\n\n\n") && AllSpace("\n\n\n\n\n\n\n\n") && AllSpace("\n\n\n\n\n")
  {
  }

  /** Runs of many empty lines before, between and after blocks are pure
      separators. */
  lemma VeryLongGaps(h: string, p: string)
    requires MarkedText(h) && PlainLine(p)
    ensures Parse("\n\n\n\n\n# " + h + "\n\n\n\n\n\n\n\n\n\n" + p + "\n\n\n\n\n\n")
         == [TitleOrHeading(h, 1), Paragraph(p)]
  {
    LongGaps();
    var last := p + "\n" + "\n\n\n\n\n";
    assert Parse(last) == [Paragraph(p)] by {
      ParseTrailingGap(p, "\n\n\n\n\n");
      ParseParagraphLine(p);
    }
    var tail := "\n\n\n\n\n\n\n\n" + "\n" + last;
    assert Parse(tail) == Parse(last) by { ParseLeadingGap("\n\n\n\n\n\n\n\n", last); }
    var heading := Hashes(1) + " " + h + "\n" + tail;
    assert Parse(heading) == [TitleOrHeading(h, 1)] + Parse(tail) by { ParseHeadingThen(1, h, tail); }
    assert Parse("\n\n\n\n" + "\n" + heading) == Parse(heading) by { ParseLeadingGap("\n\n\n\n", heading); }
    LongGapsShape(h, p);
    BlocksTwo(TitleOrHeading(h, 1), Paragraph(p));
  }

  /** An unchecked and a checked item and a final line feed. */
  lemma ChecklistTwo(a: string, b: string)
    requires MarkedText(a) && MarkedText(b)
    ensures Parse("- [ ] " + a + "\n- [x] " + b + "\n") == [Checklist([(a, false), (b, true)])]
  {
    ParseNewline("- [ ] " + a + "\n- [x] " + b);
    ParseChecks(a, b);
  }

  lemma ChecksThenBulletsShape(a: string, b: string, c: string, d: string)
    ensures "- [ ] " + a + "\n- [x] " + b + "\n- " + c + "\n- " + d + "\n"
         == CheckPrefix(false) + a + "\n" + (CheckPrefix(true) + b + "\n"
            + ("- " + c + "\n" + ("- " + d + "\n" + "")))
  {
    Boxes();
  }

  lemma ChecksThenBulletsKinds(a: string, b: string, c: string, d: string)
    requires MarkedText(a) && MarkedText(b) && ItemText(c) && ItemText(d)
    ensures ClassifyAll(SplitLines("- [ ] " + a + "\n- [x] " + b + "\n- " + c + "\n- " + d + "\n"))
         == CheckLines([(a, false), (b, true)]) + (BulletLines([c, d]) + [Blank])
  {
    var k4 := ClassifyAll(SplitLines(""));
    assert k4 == [Blank] by { BlankLast(); }
    var r3 := "- " + d + "\n" + "";
    assert ClassifyAll(SplitLines(r3)) == [Bullet(d)] + k4 by { BulletCons(d, ""); }
    var r2 := "- " + c + "\n" + r3;
    assert ClassifyAll(SplitLines(r2)) == [Bullet(c)] + ([Bullet(d)] + k4) by { BulletCons(c, r3); }
    var k2 := [Bullet(c), Bullet(d)] + k4;
    assert ClassifyAll(SplitLines(r2)) == k2 by { ConsPair(Bullet(c), Bullet(d), k4); }
    var r1 := CheckPrefix(true) + b + "\n" + r2;
    assert ClassifyAll(SplitLines(r1)) == [CheckItem(b, true)] + k2 by { CheckCons(b, true, r2); }
    var r0 := CheckPrefix(false) + a + "\n" + r1;
    assert ClassifyAll(SplitLines(r0)) == [CheckItem(a, false)] + ([CheckItem(b, true)] + k2) by { CheckCons(a, false, r1); }
    ConsPair(CheckItem(a, false), CheckItem(b, true), k2);
    ChecksThenBulletsShape(a, b, c, d);
    TwoChecks(a, b);
    TwoBullets(c, d);
  }

  /** A checklist does not take in the `- ` items that follow it. */
  lemma ChecklistDoesntEatUnordered(a: string, b: string, c: string, d: string)
    requires MarkedText(a) && MarkedText(b) && ItemText(c) && ItemText(d)
    ensures Parse("- [ ] " + a + "\n- [x] " + b + "\n- " + c + "\n- " + d + "\n")
         == [Checklist([(a, false), (b, true)]), UnorderedList([c, d])]
  {
    ChecksThenBulletsKinds(a, b, c, d);
    TwoBullets(c, d);
    ChecklistBlock([(a, false), (b, true)], BulletLines([c, d]) + [Blank]);
    UnorderedBlock([c, d], [Blank]);
    BlankOnly();
    BlocksPair(Checklist([(a, false), (b, true)]), UnorderedList([c, d]));
  }

  lemma BulletsThenChecksShape(a: string, b: string, c: string, d: string)
    ensures "- " + a + "\n- " + b + "\n- [ ] " + c + "\n- [x] " + d + "\n"
         == "- " + a + "\n" + ("- " + b + "\n"
            + (CheckPrefix(false) + c + "\n" + (CheckPrefix(true) + d + "\n" + "")))
  {
    Boxes();
  }

  lemma BulletsThenChecksKinds(a: string, b: string, c: string, d: string)
    requires ItemText(a) && ItemText(b) && MarkedText(c) && MarkedText(d)
    ensures ClassifyAll(SplitLines("- " + a + "\n- " + b + "\n- [ ] " + c + "\n- [x] " + d + "\n"))
         == BulletLines([a, b]) + (CheckLines([(c, false), (d, true)]) + [Blank])
  {
    var k4 := ClassifyAll(SplitLines(""));
    assert k4 == [Blank] by { BlankLast(); }
    var r3 := CheckPrefix(true) + d + "\n" + "";
    assert ClassifyAll(SplitLines(r3)) == [CheckItem(d, true)] + k4 by { CheckCons(d, true, ""); }
    var r2 := CheckPrefix(false) + c + "\n" + r3;
    assert ClassifyAll(SplitLines(r2)) == [CheckItem(c, false)] + ([CheckItem(d, true)] + k4) by { CheckCons(c, false, r3); }
    var k2 := [CheckItem(c, false), CheckItem(d, true)] + k4;
    assert ClassifyAll(SplitLines(r2)) == k2 by { ConsPair(CheckItem(c, false), CheckItem(d, true), k4); }
    var r1 := "- " + b + "\n" + r2;
    assert ClassifyAll(SplitLines(r1)) == [Bullet(b)] + k2 by { BulletCons(b, r2); }
    var r0 := "- " + a + "\n" + r1;
    assert ClassifyAll(SplitLines(r0)) == [Bullet(a)] + ([Bullet(b)] + k2) by { BulletCons(a, r1); }
    ConsPair(Bullet(a), Bullet(b), k2);
    BulletsThenChecksShape(a, b, c, d);
    TwoBullets(a, b);
    TwoChecks(c, d);
  }

  /** An unordered list does not take in the checkbox items that follow
      it. */
  lemma UnorderedDoesntEatChecklist(a: string, b: string, c: string, d: string)
    requires ItemText(a) && ItemText(b) && MarkedText(c) && MarkedText(d)
    ensures Parse("- " + a + "\n- " + b + "\n- [ ] " + c + "\n- [x] " + d + "\n")
         == [UnorderedList([a, b]), Checklist([(c, false), (d, true)])]
  {
    BulletsThenChecksKinds(a, b, c, d);
    TwoChecks(c, d);
    UnorderedBlock([a, b], CheckLines([(c, false), (d, true)]) + [Blank]);
    ChecklistBlock([(c, false), (d, true)], [Blank]);
    BlankOnly();
    BlocksPair(UnorderedList([a, b]), Checklist([(c, false), (d, true)]));
  }

  lemma ChecklistAndParagraphShape(a: string, b: string, p: string)
    ensures "- [ ] " + a + "\n- [x] " + b + "\n\n" + p + "\n" == ("- [ ] " + a + "\n- [x] " + b) + "\n\n" + p + "\n"
  {
  }

  /** A checklist, an empty line, then a paragraph. */
  lemma ChecklistAndParagraph(a: string, b: string, p: string)
    requires MarkedText(a) && MarkedText(b) && PlainLine(p)
    ensures Parse("- [ ] " + a + "\n- [x] " + b + "\n\n" + p + "\n")
         == [Checklist([(a, false), (b, true)]), Paragraph(p)]
  {
    ParseBlockPair("- [ ] " + a + "\n- [x] " + b, p);
    ParseChecks(a, b);
    ParseParagraphLine(p);
  }

  lemma ChecklistAndOrderedShape(a: string, b: string, c: string, d: string)
    ensures "- [ ] " + a + "\n- [x] " + b + "\n\n1. " + c + "\n2. " + d + "\n"
         == ("- [ ] " + a + "\n- [x] " + b) + "\n\n" + ("1. " + c + "\n2. " + d) + "\n"
  {
  }

  /** A checklist, an empty line, then an ordered list. */
  lemma ChecklistAndOrderedList(a: string, b: string, c: string, d: string)
    requires MarkedText(a) && MarkedText(b) && MarkedText(c) && MarkedText(d)
    ensures Parse("- [ ] " + a + "\n- [x] " + b + "\n\n1. " + c + "\n2. " + d + "\n")
         == [Checklist([(a, false), (b, true)]), OrderedList([c, d])]
  {
    ChecklistAndOrderedShape(a, b, c, d);
    ParseBlockPair("- [ ] " + a + "\n- [x] " + b, "1. " + c + "\n2. " + d);
    ParseChecks(a, b);
    ParseNumbers(c, d);
  }

  lemma ChecklistAndUnorderedShape(a: string, b: string, c: string, d: string)
    ensures "- [ ] " + a + "\n- [x] " + b + "\n\n- " + c + "\n- " + d + "\n"
         == ("- [ ] " + a + "\n- [x] " + b) + "\n\n" + ("- " + c + "\n- " + d) + "\n"
  {
  }

  /** A checklist, an empty line, then an unordered list. */
  lemma ChecklistAndUnorderedList(a: string, b: string, c: string, d: string)
    requires MarkedText(a) && MarkedText(b) && ItemText(c) && ItemText(d)
    ensures Parse("- [ ] " + a + "\n- [x] " + b + "\n\n- " + c + "\n- " + d + "\n")
         == [Checklist([(a, false), (b, true)]), UnorderedList([c, d])]
  {
    ChecklistAndUnorderedShape(a, b, c, d);
    ParseBlockPair("- [ ] " + a + "\n- [x] " + b, "- " + c + "\n- " + d);
    ParseChecks(a, b);
    ParseBullets(c, d);
  }

  lemma ChecklistAndChecklistShape(a: string, b: string, c: string, d: string)
    ensures "- [ ] " + a + "\n- [x] " + b + "\n\n- [ ] " + c + "\n- [x] " + d + "\n"
         == ("- [ ] " + a + "\n- [x] " + b) + "\n\n" + ("- [ ] " + c + "\n- [x] " + d) + "\n"
  {
  }

  /** An empty line between two checklists keeps them apart. */
  lemma ChecklistAndChecklist(a: string, b: string, c: string, d: string)
    requires MarkedText(a) && MarkedText(b) && MarkedText(c) && MarkedText(d)
    ensures Parse("- [ ] " + a + "\n- [x] " + b + "\n\n- [ ] " + c + "\n- [x] " + d + "\n")
         == [Checklist([(a, false), (b, true)]), Checklist([(c, false), (d, true)])]
  {
    ChecklistAndChecklistShape(a, b, c, d);
    ParseBlockPair("- [ ] " + a + "\n- [x] " + b, "- [ ] " + c + "\n- [x] " + d);
    ParseChecks(a, b);
    ParseChecks(c, d);
  }
}
