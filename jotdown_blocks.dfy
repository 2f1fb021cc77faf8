/** The block assembler and top-level driver of the Jotdown parser: the
    classified lines are grouped, in order, into block elements by a small
    state machine. */
module JotBlocks {
  import opened JotText
  import opened JotLines

  /** One block of a Jotdown document. */
  datatype JdElement =
    | Paragraph(text: string)
    | TitleOrHeading(text: string, level: nat)
    | UnorderedList(items: seq<string>)
    | OrderedList(items: seq<string>)
    | Checklist(entries: seq<(string, bool)>)

  /** The block being built. A heading has no state of its own: it is
      emitted on the line that holds it. */
  datatype State =
    | Idle
    | InParagraph(lines: seq<string>)
    | InUnordered(items: seq<string>)
    | InOrdered(items: seq<string>, expected: nat)
    | InChecklist(entries: seq<(string, bool)>)

  predicate AllPayloads(ts: seq<string>) {
    forall i :: 0 <= i < |ts| ==> IsPayload(ts[i])
  }

  predicate AllEntryPayloads(es: seq<(string, bool)>) {
    forall i :: 0 <= i < |es| ==> IsPayload(es[i].0)
  }

  /** No element is empty: every text is a non-empty trimmed payload, every
      list has at least one item, and a heading's level is at least one. */
  predicate WellFormedElement(e: JdElement) {
    match e
    case Paragraph(t) => IsPayload(t)
    case TitleOrHeading(t, n) => n >= 1 && IsPayload(t)
    case UnorderedList(items) => |items| >= 1 && AllPayloads(items)
    case OrderedList(items) => |items| >= 1 && AllPayloads(items)
    case Checklist(es) => |es| >= 1 && AllEntryPayloads(es)
  }

  predicate WellFormedState(st: State) {
    match st
    case Idle => true
    case InParagraph(ls) => |ls| >= 1 && AllPayloads(ls)
    case InUnordered(items) => |items| >= 1 && AllPayloads(items)
    case InOrdered(items, _) => |items| >= 1 && AllPayloads(items)
    case InChecklist(es) => |es| >= 1 && AllEntryPayloads(es)
  }

  /** Paragraph lines joined by a line feed form a payload when the lines
      are payloads. */
  lemma {:induction false} JoinPayload(ls: seq<string>)
    ensures |ls| >= 1 && AllPayloads(ls) ==> IsPayload(JoinLines(ls))
  {
    if |ls| > 1 && AllPayloads(ls) {
      JoinPayload(ls[1..]);
      var rest := JoinLines(ls[1..]);
      var t := ls[0] + "\n" + rest;
      assert t[0] == ls[0][0] && t[|t| - 1] == rest[|rest| - 1];
    }
  }

  /** The element an open block becomes when it closes (none when idle). */
  function Close(st: State): (out: seq<JdElement>)
    ensures |out| == (if st.Idle? then 0 else 1)
    ensures WellFormedState(st) ==> forall e :: e in out ==> WellFormedElement(e)
  {
    match st
    case Idle => []
    case InParagraph(ls) => JoinPayload(ls); [Paragraph(JoinLines(ls))]
    case InUnordered(items) => [UnorderedList(items)]
    case InOrdered(items, _) => [OrderedList(items)]
    case InChecklist(es) => [Checklist(es)]
  }

  /** Two states build the same kind of block. */
  predicate SameBlockKind(a: State, b: State) {
    (a.InParagraph? && b.InParagraph?) || (a.InUnordered? && b.InUnordered?) ||
    (a.InOrdered? && b.InOrdered?) || (a.InChecklist? && b.InChecklist?)
  }

  /** Whether a line joins the open block: paragraph text continues a
      paragraph, a plain dash item an unordered list, a checkbox item a
      checklist, and a numbered item an ordered list only when its marker
      is the one expected next. */
  function Continues(st: State, k: LineKind): (b: bool)
    ensures b <==> SameBlockKind(st, Open(k).1) && (st.InOrdered? ==> k.Numbered? && k.marker == st.expected)
  {
    match st
    case Idle => false
    case InParagraph(_) => k.Plain?
    case InUnordered(_) => k.Bullet?
    case InChecklist(_) => k.CheckItem?
    case InOrdered(_, e) => k.Numbered? && k.marker == e
  }

  /** The open block with one more line. */
  function Extend(st: State, k: LineKind): (st': State)
    requires Continues(st, k)
    ensures WellFormedState(st) && WellFormedKind(k) ==> WellFormedState(st')
  {
    match st
    case InParagraph(ls) => InParagraph(ls + [k.text])
    case InUnordered(items) => InUnordered(items + [k.text])
    case InChecklist(es) => InChecklist(es + [(k.text, k.checked)])
    case InOrdered(items, _) => InOrdered(items + [k.text], k.marker + 1)
  }

  /** What a line does from `Idle`: a blank line opens nothing, a heading
      is emitted at once, any other line opens the block of its kind; the
      first item of an ordered list expects its own marker plus one next. */
  function Open(k: LineKind): (r: (seq<JdElement>, State))
    ensures WellFormedKind(k) ==> WellFormedState(r.1)
    ensures WellFormedKind(k) ==> forall e :: e in r.0 ==> WellFormedElement(e)
    ensures r.0 == (if k.Heading? then [TitleOrHeading(k.text, k.level)] else [])
    ensures r.1.Idle? <==> k.Blank? || k.Heading?
  {
    match k
    case Blank => ([], Idle)
    case Heading(t, n) => ([TitleOrHeading(t, n)], Idle)
    case Plain(t) => ([], InParagraph([t]))
    case Bullet(t) => ([], InUnordered([t]))
    case CheckItem(t, c) => ([], InChecklist([(t, c)]))
    case Numbered(m, t) => ([], InOrdered([t], m + 1))
  }

  predicate AllWellFormedKinds(ks: seq<LineKind>) {
    forall i :: 0 <= i < |ks| ==> WellFormedKind(ks[i])
  }

  /** Groups classified lines into elements, starting in state `st`. A line
      that does not continue the open block closes it and is then read as
      if from `Idle`; at the end the open block closes. A line adds at most
      one element, counting the block it opens. */
  function Assemble(ks: seq<LineKind>, st: State): (out: seq<JdElement>)
    ensures |out| <= |ks| + (if st.Idle? then 0 else 1)
    decreases |ks|
  {
    if |ks| == 0 then Close(st)
    else if Continues(st, ks[0]) then Assemble(ks[1..], Extend(st, ks[0]))
    else Close(st) + Open(ks[0]).0 + Assemble(ks[1..], Open(ks[0]).1)
  }

  /** The assembler never emits an empty element. */
  lemma {:induction false} AssembleWellFormed(ks: seq<LineKind>, st: State)
    requires AllWellFormedKinds(ks) && WellFormedState(st)
    ensures forall e :: e in Assemble(ks, st) ==> WellFormedElement(e)
  {
    if |ks| > 0 {
      if Continues(st, ks[0]) {
        AssembleWellFormed(ks[1..], Extend(st, ks[0]));
      } else {
        AssembleWellFormed(ks[1..], Open(ks[0]).1);
      }
    }
  }

  /** The lines of a buffer, classified one by one. */
  function ClassifyAll(lines: seq<string>): (ks: seq<LineKind>)
    ensures |ks| == |lines|
    ensures AllWellFormedKinds(ks)
  {
    if |lines| == 0 then [] else [ClassifyLine(lines[0])] + ClassifyAll(lines[1..])
  }

  /** Line `i` of the buffer becomes kind `i`. */
  lemma {:induction false} ClassifyAllAt(lines: seq<string>, i: nat)
    requires i < |lines|
    ensures ClassifyAll(lines)[i] == ClassifyLine(lines[i])
  {
    if i > 0 {
      ClassifyAllAt(lines[1..], i - 1);
    }
  }

  /** Parses a whole buffer: split it into lines, classify each line, and
      group them into elements. It never fails, and no element it returns
      is empty. */
  function Parse(s: string): (out: seq<JdElement>)
    ensures forall e :: e in out ==> WellFormedElement(e)
  {
    var ks := ClassifyAll(SplitLines(s));
    AssembleWellFormed(ks, Idle);
    Assemble(ks, Idle)
  }
}
