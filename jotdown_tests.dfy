/** The examples of the parser's test suite (jotdown/src/tests.rs), each
    on its own texts: the payload constants below are the texts the tests
    use, and each input is written as those texts joined by the markers and
    line feeds of the test's input. */
module JotTests {
  import opened JotText
  import opened JotLines
  import opened JotBlocks
  import opened JotProperties
  import opened JotExamples

  const Para1 := "This is a paragraph."
  const Para2 := "This is another paragraph."
  const Para3 := "Another paragraph!"
  const Item1 := "This is a list item"
  const Item2 := "This is another list item"
  const Header := "This is a header"
  const Title1 := "This is a title"
  const Title2 := "This is another title"
  const NotHeader := "#This is not a header"
  const NotItem := "-This is not a list item"
  const BulletHeader := "This is a header with a bullet - in it"
  const GapTitle := "This is a very long gap"
  const GapPara := "I sure hope it doesn't break my parser"
  const NoJotdown := "\n \n  \n\n\t\n\t\t\n\t\t\t"

  // ---------------------------------------------------------------------
  // The texts are of the shapes the examples ask for.

  /** A text opening with a capital letter and not ending in whitespace
      carries no marker: it is paragraph text, and it may follow any
      marker. */
  lemma WordText(t: string)
    requires |t| > 0 && '\n' !in t
    requires 'A' <= t[0] <= 'Z' && !IsSpace(t[|t| - 1])
    ensures PlainLine(t) && MarkedText(t) && ItemText(t)
  {
    assert LeadingHashes(t) == 0;
    assert LeadingDigits(t) == 0;
  }

  lemma ParasPlain()
    ensures PlainLine(Para1) && PlainLine(Para2) && PlainLine(Para3)
  {
    WordText(Para1);
    WordText(Para2);
    WordText(Para3);
  }

  lemma ItemsText()
    ensures ItemText(Item1) && ItemText(Item2)
  {
    WordText(Item1);
    WordText(Item2);
  }

  lemma ItemsMarked()
    ensures MarkedText(Item1) && MarkedText(Item2)
  {
    WordText(Item1);
    WordText(Item2);
  }

  lemma TitlesMarked()
    ensures MarkedText(Header) && MarkedText(Title1) && MarkedText(Title2)
  {
    WordText(Header);
    WordText(Title1);
    WordText(Title2);
  }

  lemma HashPrefixes(t: string, r: string)
    ensures "# " + t + "\n" + r == Hashes(1) + " " + t + "\n" + r
    ensures "## " + t + "\n" + r == Hashes(2) + " " + t + "\n" + r
  {
    SmallHashes();
  }

  lemma GapTextsShaped()
    ensures MarkedText(GapTitle) && PlainLine(GapPara)
  {
    GapTitleMarked();
    GapParaPlain();
  }

  lemma GapTitleMarked()
    ensures MarkedText(GapTitle)
  {
    WordText(GapTitle);
  }

  lemma GapParaPlain()
    ensures PlainLine(GapPara)
  {
    WordText(GapPara);
  }

  lemma BulletHeaderMarked()
    ensures MarkedText(BulletHeader)
  {
    WordText(BulletHeader);
  }

  lemma NotHeaderUnmarked()
    ensures '\n' !in NotHeader && IsPayload(NotHeader)
    ensures NotHeader[0] == '#' && NotHeader[1] != ' ' && !HeadingShaped(NotHeader)
  {
    assert LeadingHashes(NotHeader) == 1;
  }

  lemma NotItemUnmarked()
    ensures '\n' !in NotItem && IsPayload(NotItem)
    ensures NotItem[0] == '-' && NotItem[1] != ' ' && !HeadingShaped(NotItem)
  {
    assert LeadingHashes(NotItem) == 0;
  }

  // ---------------------------------------------------------------------
  // One lemma per test.

  lemma TestParagraphsTwoNewlinesEnd()
    ensures Parse(Para1 + "\n\n" + Para2 + "\n\n" + Para3 + "\n\n")
         == [Paragraph(Para1), Paragraph(Para2), Paragraph(Para3)]
  {
    ParasPlain();
    ParagraphsTwoNewlinesEnd(Para1, Para2, Para3);
  }

  lemma TestParagraphsNoEnd()
    ensures Parse(Para1 + "\n\n" + Para2 + "\n") == [Paragraph(Para1), Paragraph(Para2)]
  {
    ParasPlain();
    ParagraphsNoEnd(Para1, Para2);
  }

  lemma TestParagraphUnterminated()
    ensures Parse(Para1 + "\n\n" + Para2) == [Paragraph(Para1), Paragraph(Para2)]
  {
    ParasPlain();
    ParagraphUnterminated(Para1, Para2);
  }

  lemma TestParagraphAfterNewlines()
    ensures Parse("\n\n" + Para1 + "\n\n" + Para2) == [Paragraph(Para1), Paragraph(Para2)]
  {
    ParasPlain();
    ParagraphAfterNewlines(Para1, Para2);
  }

  lemma TestHeader()
    ensures Parse("## " + Header + "\n" + Para1) == [TitleOrHeading(Header, 2), Paragraph(Para1)]
  {
    ParasPlain();
    TitlesMarked();
    HeadingThenParagraph(2, Header, Para1);
    HashPrefixes(Header, Para1);
  }

  lemma TestTitles()
    ensures Parse("# " + Title1 + "\n\n\n" + Para1 + "\n\n# " + Title2 + "\n")
         == [TitleOrHeading(Title1, 1), Paragraph(Para1), TitleOrHeading(Title2, 1)]
  {
    ParasPlain();
    TitlesMarked();
    Titles(Title1, Para1, Title2);
  }

  lemma TestParagraphStartsWithHashtag()
    ensures Parse(NotHeader) == [Paragraph(NotHeader)]
  {
    NotHeaderUnmarked();
    ParseUnmarkedLine(NotHeader);
  }

  lemma TestUnorderedList()
    ensures Parse("- " + Item1 + "\n- " + Item2 + "\n") == [UnorderedList([Item1, Item2])]
  {
    ItemsText();
    UnorderedListTwo(Item1, Item2);
  }

  lemma TestParagraphAndUnorderedList()
    ensures Parse(Para1 + "\n\n- " + Item1 + "\n- " + Item2 + "\n")
         == [Paragraph(Para1), UnorderedList([Item1, Item2])]
  {
    ParasPlain();
    ItemsText();
    ParagraphAndUnorderedList(Para1, Item1, Item2);
  }

  lemma TestUnorderedListAndParagraph()
    ensures Parse("- " + Item1 + "\n- " + Item2 + "\n" + Para1)
         == [UnorderedList([Item1, Item2]), Paragraph(Para1)]
  {
    ParasPlain();
    ItemsText();
    UnorderedListAndParagraph(Item1, Item2, Para1);
  }

  lemma TestParagraphStartsWithDash()
    ensures Parse(NotItem) == [Paragraph(NotItem)]
  {
    NotItemUnmarked();
    ParseUnmarkedLine(NotItem);
  }

  lemma TestBulletInHeader()
    ensures Parse("# " + BulletHeader + "\n" + Para1) == [TitleOrHeading(BulletHeader, 1), Paragraph(Para1)]
  {
    ParasPlain();
    BulletHeaderMarked();
    HeadingThenParagraph(1, BulletHeader, Para1);
    HashPrefixes(BulletHeader, Para1);
  }

  lemma TestUnorderedListFar()
    ensures Parse(Para1 + "\n\n- " + Item1 + "\n- " + Item2 + "\n\n" + Para2 + "\n\n")
         == [Paragraph(Para1), UnorderedList([Item1, Item2]), Paragraph(Para2)]
  {
    ParasPlain();
    ItemsText();
    UnorderedListFar(Para1, Item1, Item2, Para2);
  }

  lemma TestOrderedList()
    ensures Parse("1. " + Item1 + "\n2. " + Item2 + "\n") == [OrderedList([Item1, Item2])]
  {
    ItemsMarked();
    OrderedListTwo(Item1, Item2);
  }

  lemma TestTwoOrderedLists()
    ensures Parse("1. " + Item1 + "\n2. " + Item2 + "\n1. " + Item1 + "\n2. " + Item2 + "\n")
         == [OrderedList([Item1, Item2]), OrderedList([Item1, Item2])]
  {
    ItemsMarked();
    TwoOrderedLists(Item1, Item2, Item1, Item2);
  }

  lemma TestOrderedListAndParagraph()
    ensures Parse("1. " + Item1 + "\n2. " + Item2 + "\n\n" + Para1 + "\n")
         == [OrderedList([Item1, Item2]), Paragraph(Para1)]
  {
    ParasPlain();
    ItemsMarked();
    OrderedListAndParagraph(Item1, Item2, Para1);
  }

  lemma TestOrderedAndUnorderedLists()
    ensures Parse("1. " + Item1 + "\n2. " + Item2 + "\n\n- " + Item1 + "\n- " + Item2 + "\n")
         == [OrderedList([Item1, Item2]), UnorderedList([Item1, Item2])]
  {
    ItemsMarked();
    ItemsText();
    OrderedAndUnorderedLists(Item1, Item2, Item1, Item2);
  }

  lemma TestVeryLongGaps()
    ensures Parse("\n\n\n\n\n# " + GapTitle + "\n\n\n\n\n\n\n\n\n\n" + GapPara + "\n\n\n\n\n\n")
         == [TitleOrHeading(GapTitle, 1), Paragraph(GapPara)]
  {
    GapTextsShaped();
    VeryLongGaps(GapTitle, GapPara);
  }

  lemma TestNoJotdown()
    ensures Parse(NoJotdown) == []
  {
    assert AllSpace(NoJotdown);
    ParseEmpty(NoJotdown);
  }

  lemma TestChecklist()
    ensures Parse("- [ ] " + Item1 + "\n- [x] " + Item2 + "\n") == [Checklist([(Item1, false), (Item2, true)])]
  {
    ItemsMarked();
    ChecklistTwo(Item1, Item2);
  }

  lemma TestChecklistDoesntEatUnordered()
    ensures Parse("- [ ] " + Item1 + "\n- [x] " + Item2 + "\n- " + Item1 + "\n- " + Item2 + "\n")
         == [Checklist([(Item1, false), (Item2, true)]), UnorderedList([Item1, Item2])]
  {
    ItemsMarked();
    ItemsText();
    ChecklistDoesntEatUnordered(Item1, Item2, Item1, Item2);
  }

  lemma TestUnorderedDoesntEatChecklist()
    ensures Parse("- " + Item1 + "\n- " + Item2 + "\n- [ ] " + Item1 + "\n- [x] " + Item2 + "\n")
         == [UnorderedList([Item1, Item2]), Checklist([(Item1, false), (Item2, true)])]
  {
    ItemsMarked();
    ItemsText();
    UnorderedDoesntEatChecklist(Item1, Item2, Item1, Item2);
  }

  lemma TestChecklistAndParagraph()
    ensures Parse("- [ ] " + Item1 + "\n- [x] " + Item2 + "\n\n" + Para1 + "\n")
         == [Checklist([(Item1, false), (Item2, true)]), Paragraph(Para1)]
  {
    ParasPlain();
    ItemsMarked();
    ChecklistAndParagraph(Item1, Item2, Para1);
  }

  lemma TestChecklistAndOrderedList()
    ensures Parse("- [ ] " + Item1 + "\n- [x] " + Item2 + "\n\n1. " + Item1 + "\n2. " + Item2 + "\n")
         == [Checklist([(Item1, false), (Item2, true)]), OrderedList([Item1, Item2])]
  {
    ItemsMarked();
    ChecklistAndOrderedList(Item1, Item2, Item1, Item2);
  }

  lemma TestChecklistAndUnorderedList()
    ensures Parse("- [ ] " + Item1 + "\n- [x] " + Item2 + "\n\n- " + Item1 + "\n- " + Item2 + "\n")
         == [Checklist([(Item1, false), (Item2, true)]), UnorderedList([Item1, Item2])]
  {
    ItemsMarked();
    ItemsText();
    ChecklistAndUnorderedList(Item1, Item2, Item1, Item2);
  }

  lemma TestChecklistAndChecklist()
    ensures Parse("- [ ] " + Item1 + "\n- [x] " + Item2 + "\n\n- [ ] " + Item1 + "\n- [x] " + Item2 + "\n")
         == [Checklist([(Item1, false), (Item2, true)]), Checklist([(Item1, false), (Item2, true)])]
  {
    ItemsMarked();
    ChecklistAndChecklist(Item1, Item2, Item1, Item2);
  }
}
