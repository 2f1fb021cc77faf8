/** The line classifier of the Jotdown block parser: each physical line is
    given a candidate role, with no look at its neighbours. */
module JotLines {
  import opened JotText

  /** The role of one line and the payload it carries. */
  datatype LineKind =
    | Blank
    | Heading(text: string, level: nat)
    | CheckItem(text: string, checked: bool)
    | Bullet(text: string)
    | Numbered(marker: nat, text: string)
    | Plain(text: string)

  /** A payload is non-empty and has no whitespace at either end. */
  predicate IsPayload(t: string) {
    |t| > 0 && Trimmed(t)
  }

  /** What every classified line satisfies: no empty payload, and a heading
      has at least one `#`. */
  predicate WellFormedKind(k: LineKind) {
    match k
    case Blank => true
    case Heading(t, n) => n >= 1 && IsPayload(t)
    case CheckItem(t, _) => IsPayload(t)
    case Bullet(t) => IsPayload(t)
    case Numbered(_, t) => IsPayload(t)
    case Plain(t) => IsPayload(t)
  }

  /** `- ` opens the text. */
  predicate OpensWithDash(t: string) {
    |t| >= 2 && t[0] == '-' && t[1] == ' '
  }

  /** `[ ] ` (unchecked) or `[x] ` (checked) opens the text. */
  predicate OpensWithBox(t: string, checked: bool) {
    |t| >= 4 && t[0] == '[' && t[1] == (if checked then 'x' else ' ') && t[2] == ']' && t[3] == ' '
  }

  /** The marker of a checklist item. */
  function CheckPrefix(checked: bool): (p: string)
    ensures OpensWithDash(p) && OpensWithBox(p[2..], checked) && |p| == 6
  {
    if checked then "- [x] " else "- [ ] "
  }

  /** A run of `#` directly followed by a space. */
  predicate HeadingShaped(t: string) {
    var n := LeadingHashes(t);
    1 <= n < |t| && t[n] == ' '
  }

  /** A run of digits directly followed by `. `. */
  predicate NumberShaped(t: string) {
    var d := LeadingDigits(t);
    1 <= d && d + 1 < |t| && t[d] == '.' && t[d + 1] == ' '
  }

  /** A trimmed non-empty text ends in a non-space, so any suffix of it
      starting after a space still has something left once trimmed. */
  lemma SuffixPayload(t: string, i: nat)
    requires IsPayload(t) && 0 < i <= |t| && t[i - 1] == ' '
    ensures i < |t| && IsPayload(Trim(t[i..]))
  {
    assert t[i..][|t| - i - 1] == t[|t| - 1];
  }

  /** The payload that follows a marker ending in a space at `i - 1`: the
      rest of the line, trimmed. */
  function PayloadAfter(t: string, i: nat): (r: string)
    requires IsPayload(t) && 0 < i <= |t| && t[i - 1] == ' '
    ensures IsPayload(r)
  {
    SuffixPayload(t, i);
    Trim(t[i..])
  }

  /** Classifies one line after trimming it: a line holding only
      whitespace is blank, any other is classified by its trimmed text. */
  function ClassifyLine(line: string): (k: LineKind)
    ensures k.Blank? <==> AllSpace(line)
    ensures WellFormedKind(k)
    ensures k.Plain? ==> k.text == Trim(line)
  {
    var t := Trim(line);
    if |t| == 0 then Blank else ClassifyText(t)
  }

  /** The markers are tried from the most specific: a heading, then the
      dash markers (checkbox before plain dash), then a numbered marker;
      anything else is paragraph text, kept whole. */
  function ClassifyText(t: string): (k: LineKind)
    requires IsPayload(t)
    ensures !k.Blank? && WellFormedKind(k)
    ensures k.Heading? <==> HeadingShaped(t)
    ensures k.Plain? <==> IsPlainText(t)
    ensures k.Plain? ==> k.text == t
  {
    if HeadingShaped(t) then HeadingOf(t)
    else if OpensWithDash(t) then DashItemOf(t)
    else if NumberShaped(t) then NumberedOf(t)
    else Plain(t)
  }

  /** A heading's level is the length of its `#` run; its text is what
      follows the space, trimmed. */
  function HeadingOf(t: string): (k: LineKind)
    requires IsPayload(t) && HeadingShaped(t)
    ensures k.Heading? && WellFormedKind(k)
    ensures k.level == LeadingHashes(t) && t[k.level] == ' '
  {
    var n := LeadingHashes(t);
    Heading(PayloadAfter(t, n + 1), n)
  }

  /** A line opening with `- `: a checklist item when the dash is followed
      by a box, checked exactly when the box holds `x`; a plain unordered
      item otherwise. */
  function DashItemOf(t: string): (k: LineKind)
    requires IsPayload(t) && OpensWithDash(t)
    ensures (k.CheckItem? || k.Bullet?) && WellFormedKind(k)
    ensures k.CheckItem? <==> OpensWithBox(t[2..], false) || OpensWithBox(t[2..], true)
    ensures k.CheckItem? ==> (k.checked <==> OpensWithBox(t[2..], true))
  {
    if OpensWithBox(t[2..], false) then CheckItem(PayloadAfter(t, 6), false)
    else if OpensWithBox(t[2..], true) then CheckItem(PayloadAfter(t, 6), true)
    else Bullet(PayloadAfter(t, 2))
  }

  /** An ordered item: the digit run is read as its marker, the rest after
      `. ` trimmed is its text. */
  function NumberedOf(t: string): (k: LineKind)
    requires IsPayload(t) && NumberShaped(t)
    ensures k.Numbered? && WellFormedKind(k)
    ensures var d := LeadingDigits(t);
      d + 1 < |t| && t[d] == '.' && t[d + 1] == ' ' &&
      k.marker == DecimalValue(t[..d])
  {
    var d := LeadingDigits(t);
    Numbered(DecimalValue(t[..d]), PayloadAfter(t, d + 2))
  }

  /** The canonical line a classified kind stands for: its marker, then
      its payload. */
  function RenderLine(k: LineKind): string {
    match k
    case Blank => ""
    case Heading(t, n) => Hashes(n) + " " + t
    case CheckItem(t, c) => CheckPrefix(c) + t
    case Bullet(t) => "- " + t
    case Numbered(m, t) => ShowDecimal(m) + ". " + t
    case Plain(t) => t
  }

  /** Text that is read as paragraph text however it is placed: it carries
      none of the block markers. */
  predicate IsPlainText(t: string) {
    IsPayload(t) && !HeadingShaped(t) && !OpensWithDash(t) && !NumberShaped(t)
  }

  /** The kinds whose rendering reads back as themselves: payloads hold no
      line feed, a bullet's text does not itself open with a checkbox, and
      paragraph text carries no marker. */
  predicate Canonical(k: LineKind) {
    WellFormedKind(k) &&
    match k
    case Blank => true
    case Heading(t, _) => '\n' !in t
    case CheckItem(t, _) => '\n' !in t
    case Bullet(t) => '\n' !in t && !OpensWithBox(t, false) && !OpensWithBox(t, true)
    case Numbered(_, t) => '\n' !in t
    case Plain(t) => '\n' !in t && IsPlainText(t)
  }

  lemma TrimTrimmed(s: string)
    requires Trimmed(s) && |s| > 0
    ensures Trim(s) == s
  {
    TrimPadded("", s, "");
    assert "" + s + "" == s;
  }

  /** The `#` run of `a + b` is exactly `a` when `a` is all `#` and `b`
      does not open with one. */
  lemma LeadingHashesExact(a: string, b: string)
    requires forall i :: 0 <= i < |a| ==> a[i] == '#'
    requires |b| > 0 && b[0] != '#'
    ensures LeadingHashes(a + b) == |a|
  {
    var s := a + b;
    assert s[|a|] == b[0];
  }

  /** The digit run of `a + b` is exactly `a` when `a` is all digits and
      `b` does not open with one. */
  lemma LeadingDigitsExact(a: string, b: string)
    requires forall i :: 0 <= i < |a| ==> IsDigit(a[i])
    requires |b| > 0 && !IsDigit(b[0])
    ensures LeadingDigits(a + b) == |a|
  {
    var s := a + b;
    assert s[|a|] == b[0];
  }

  /** `#`×n, a space and a text is a level-n heading carrying that text,
      whatever the text holds (a ` - ` inside it included). */
  lemma ClassifyHeading(t: string, n: nat)
    requires n >= 1 && IsPayload(t)
    ensures ClassifyLine(Hashes(n) + " " + t) == Heading(t, n)
  {
    var line := Hashes(n) + " " + t;
    HeadingParts(n, t);
    TrimTrimmed(line);
    TrimTrimmed(t);
  }

  /** Where the parts of a heading line sit. */
  lemma HeadingParts(n: nat, t: string)
    requires n >= 1 && IsPayload(t)
    ensures IsPayload(Hashes(n) + " " + t)
    ensures LeadingHashes(Hashes(n) + " " + t) == n
    ensures (Hashes(n) + " " + t)[n] == ' ' && (Hashes(n) + " " + t)[n + 1..] == t
  {
    var line := Hashes(n) + " " + t;
    assert line == Hashes(n) + (" " + t);
    assert line[0] == '#' && line[|line| - 1] == t[|t| - 1];
    LeadingHashesExact(Hashes(n), " " + t);
  }

  /** A trimmed line opening with `- ` goes to the dash markers. */
  lemma ClassifyDash(line: string)
    requires IsPayload(line) && OpensWithDash(line)
    ensures ClassifyLine(line) == DashItemOf(line)
  {
    TrimTrimmed(line);
    assert line[0] == '-';
    assert LeadingHashes(line) == 0;
  }

  /** `- [ ] ` or `- [x] ` and a text is a checklist item carrying that
      text, checked exactly for `[x]`. */
  lemma ClassifyCheckItem(t: string, checked: bool)
    requires IsPayload(t)
    ensures ClassifyLine(CheckPrefix(checked) + t) == CheckItem(t, checked)
  {
    var line := CheckPrefix(checked) + t;
    assert line[|line| - 1] == t[|t| - 1];
    assert line[0] == '-' && line[1] == ' ';
    ClassifyDash(line);
    DashItemOfCheck(t, checked);
  }

  lemma DashItemOfCheck(t: string, checked: bool)
    requires IsPayload(t) && IsPayload(CheckPrefix(checked) + t)
    ensures OpensWithDash(CheckPrefix(checked) + t)
    ensures DashItemOf(CheckPrefix(checked) + t) == CheckItem(t, checked)
  {
    var p := CheckPrefix(checked);
    var line := p + t;
    assert line[..6] == p;
    assert line[2..][..4] == p[2..];
    assert OpensWithBox(line[2..], checked);
    assert line[6..] == t;
    TrimTrimmed(t);
  }

  lemma DashItemOfBullet(t: string)
    requires IsPayload(t) && !OpensWithBox(t, false) && !OpensWithBox(t, true)
    requires IsPayload("- " + t)
    ensures DashItemOf("- " + t) == Bullet(t)
  {
    var line := "- " + t;
    assert line[2..] == t;
    TrimTrimmed(t);
  }

  /** `- ` and a text is an unordered item carrying that text, unless the
      text itself opens with a checkbox. */
  lemma ClassifyBullet(t: string)
    requires IsPayload(t) && !OpensWithBox(t, false) && !OpensWithBox(t, true)
    ensures ClassifyLine("- " + t) == Bullet(t)
  {
    var line := "- " + t;
    assert line[|line| - 1] == t[|t| - 1];
    ClassifyDash(line);
    DashItemOfBullet(t);
  }

  /** A trimmed line opening with a digit goes to the numbered marker when
      it has one, and is paragraph text otherwise. */
  lemma ClassifyDigit(line: string)
    requires IsPayload(line) && IsDigit(line[0])
    ensures ClassifyLine(line) == if NumberShaped(line) then NumberedOf(line) else Plain(line)
  {
    TrimTrimmed(line);
    assert LeadingHashes(line) == 0;
    assert !OpensWithDash(line);
  }

  lemma NumberedOfShown(m: nat, t: string)
    requires IsPayload(t)
    requires IsPayload(ShowDecimal(m) + ". " + t)
    ensures NumberShaped(ShowDecimal(m) + ". " + t)
    ensures NumberedOf(ShowDecimal(m) + ". " + t) == Numbered(m, t)
  {
    var ds := ShowDecimal(m);
    var line := ds + ". " + t;
    NumberLineParts(ds, t);
    var d := |ds|;
    assert DecimalValue(line[..d]) == m by { DecimalRoundTrip(m); }
    assert PayloadAfter(line, d + 2) == t by { TrimTrimmed(t); }
  }

  /** Where the parts of a numbered line sit. */
  lemma NumberLineParts(ds: string, t: string)
    requires forall i :: 0 <= i < |ds| ==> IsDigit(ds[i])
    ensures LeadingDigits(ds + ". " + t) == |ds|
    ensures (ds + ". " + t)[|ds|] == '.' && (ds + ". " + t)[|ds| + 1] == ' '
    ensures (ds + ". " + t)[..|ds|] == ds && (ds + ". " + t)[|ds| + 2..] == t
  {
    var line := ds + ". " + t;
    assert line == ds + (". " + t);
    LeadingDigitsExact(ds, ". " + t);
  }

  /** A decimal number, `. ` and a text is an ordered item with that
      number as its marker. */
  lemma ClassifyNumbered(m: nat, t: string)
    requires IsPayload(t)
    ensures ClassifyLine(ShowDecimal(m) + ". " + t) == Numbered(m, t)
  {
    var ds := ShowDecimal(m);
    var line := ds + ". " + t;
    assert line[0] == ds[0] && line[|line| - 1] == t[|t| - 1];
    NumberedOfShown(m, t);
    ClassifyDigit(line);
  }

  /** A trimmed line followed by trailing whitespace is classified as the
      line alone. */
  lemma ClassifyCore(core: string, q: string)
    requires IsPayload(core) && AllSpace(q)
    ensures ClassifyLine(core + q) == ClassifyText(core)
  {
    TrimPadded("", core, q);
    assert "" + core + q == core + q;
  }

  /** A text with whitespace before it trims to the text alone. */
  lemma TrimLeftPadded(p: string, t: string)
    requires AllSpace(p) && IsPayload(t)
    ensures Trim(p + t) == t
  {
    TrimPadded(p, t, "");
    assert p + t + "" == p + t;
  }

  /** Where the parts of a padded heading line sit. */
  lemma PaddedHeadingParts(n: nat, p: string, t: string)
    requires n >= 1 && AllSpace(p) && IsPayload(t)
    ensures IsPayload(Hashes(n) + " " + p + t)
    ensures LeadingHashes(Hashes(n) + " " + p + t) == n
    ensures (Hashes(n) + " " + p + t)[n] == ' ' && (Hashes(n) + " " + p + t)[n + 1..] == p + t
  {
    var line := Hashes(n) + " " + p + t;
    var rest := " " + p + t;
    assert line == Hashes(n) + rest;
    assert rest[0] == ' ';
    assert line[0] == '#' && line[|line| - 1] == t[|t| - 1];
    LeadingHashesExact(Hashes(n), rest);
    assert line[n + 1..] == rest[1..];
  }

  /** `#`×n and a space, then a text with any whitespace around it, is a
      level-n heading of the text alone: the rest of the line, trimmed. */
  lemma ClassifyPaddedHeading(n: nat, p: string, t: string, q: string)
    requires n >= 1 && AllSpace(p) && AllSpace(q) && IsPayload(t)
    ensures ClassifyLine(Hashes(n) + " " + p + t + q) == Heading(t, n)
  {
    var core := Hashes(n) + " " + p + t;
    HeadingOfPadded(n, p, t);
    ClassifyCore(core, q);
  }

  lemma HeadingOfPadded(n: nat, p: string, t: string)
    requires n >= 1 && AllSpace(p) && IsPayload(t)
    ensures IsPayload(Hashes(n) + " " + p + t) && HeadingShaped(Hashes(n) + " " + p + t)
    ensures ClassifyText(Hashes(n) + " " + p + t) == Heading(t, n)
  {
    var core := Hashes(n) + " " + p + t;
    PaddedHeadingParts(n, p, t);
    var k := HeadingOf(core);
    assert k.level == n;
    assert k.text == t by {
      assert k.text == PayloadAfter(core, n + 1);
      TrimLeftPadded(p, t);
    }
  }

  /** Where the parts of a padded numbered line sit. */
  lemma PaddedNumberParts(ds: string, p: string, t: string)
    requires |ds| >= 1 && forall i :: 0 <= i < |ds| ==> IsDigit(ds[i])
    requires AllSpace(p) && IsPayload(t)
    ensures IsPayload(ds + ". " + p + t) && IsDigit((ds + ". " + p + t)[0])
    ensures NumberShaped(ds + ". " + p + t)
    ensures LeadingDigits(ds + ". " + p + t) == |ds|
    ensures (ds + ". " + p + t)[..|ds|] == ds && (ds + ". " + p + t)[|ds| + 2..] == p + t
  {
    var line := ds + ". " + p + t;
    var rest := ". " + p + t;
    assert line == ds + rest;
    assert rest[0] == '.' && rest[1] == ' ';
    assert line[0] == ds[0] && line[|line| - 1] == t[|t| - 1];
    LeadingDigitsExact(ds, rest);
    assert line[|ds| + 2..] == rest[2..];
  }

  /** Any run of digits (leading zeros included) and `. `, then a text with
      any whitespace around it, is an ordered item whose marker is the
      value of the digits and whose text is the text alone. */
  lemma ClassifyPaddedNumbered(ds: string, p: string, t: string, q: string)
    requires |ds| >= 1 && forall i :: 0 <= i < |ds| ==> IsDigit(ds[i])
    requires AllSpace(p) && AllSpace(q) && IsPayload(t)
    ensures ClassifyLine(ds + ". " + p + t + q) == Numbered(DecimalValue(ds), t)
  {
    var core := ds + ". " + p + t;
    PaddedNumberParts(ds, p, t);
    ClassifyCore(core, q);
    assert ClassifyText(core) == NumberedOf(core) by {
      assert LeadingHashes(core) == 0;
      assert !OpensWithDash(core);
    }
    NumberedOfPadded(ds, p, t);
  }

  lemma NumberedOfPadded(ds: string, p: string, t: string)
    requires |ds| >= 1 && forall i :: 0 <= i < |ds| ==> IsDigit(ds[i])
    requires AllSpace(p) && IsPayload(t)
    ensures IsPayload(ds + ". " + p + t) && NumberShaped(ds + ". " + p + t)
    ensures NumberedOf(ds + ". " + p + t) == Numbered(DecimalValue(ds), t)
  {
    var core := ds + ". " + p + t;
    PaddedNumberParts(ds, p, t);
    var k := NumberedOf(core);
    assert k.marker == DecimalValue(ds);
    assert k.text == t by {
      assert k.text == PayloadAfter(core, |ds| + 2);
      TrimLeftPadded(p, t);
    }
  }

  /** Where the parts of a padded dash line sit. */
  lemma PaddedDashParts(p: string, t: string)
    requires AllSpace(p) && IsPayload(t)
    ensures IsPayload("- " + p + t) && OpensWithDash("- " + p + t)
    ensures ("- " + p + t)[2..] == p + t
  {
    var line := "- " + p + t;
    assert line == "- " + (p + t);
    assert line[|line| - 1] == t[|t| - 1];
  }

  /** `- `, then a text with any whitespace around it that does not open
      with a box, is an unordered item of the text alone. */
  lemma ClassifyPaddedBullet(p: string, t: string, q: string)
    requires AllSpace(p) && AllSpace(q) && IsPayload(t)
    requires !OpensWithBox(p + t, false) && !OpensWithBox(p + t, true)
    ensures ClassifyLine("- " + p + t + q) == Bullet(t)
  {
    var core := "- " + p + t;
    PaddedDashParts(p, t);
    ClassifyCore(core, q);
    ClassifyDash(core);
    TrimLeftPadded(p, t);
  }

  /** Where the parts of a padded checklist line sit. */
  lemma PaddedCheckParts(checked: bool, p: string, t: string)
    requires AllSpace(p) && IsPayload(t)
    ensures IsPayload(CheckPrefix(checked) + p + t) && OpensWithDash(CheckPrefix(checked) + p + t)
    ensures OpensWithBox((CheckPrefix(checked) + p + t)[2..], checked)
    ensures (CheckPrefix(checked) + p + t)[6..] == p + t
  {
    var pre := CheckPrefix(checked);
    var line := pre + p + t;
    assert line == pre + (p + t);
    assert line[..6] == pre;
    assert line[2..][..4] == pre[2..];
    assert line[|line| - 1] == t[|t| - 1];
  }

  /** `- [ ] ` or `- [x] `, then a text with any whitespace around it, is a
      checklist item of the text alone, checked exactly for `[x]`. */
  lemma ClassifyPaddedCheckItem(checked: bool, p: string, t: string, q: string)
    requires AllSpace(p) && AllSpace(q) && IsPayload(t)
    ensures ClassifyLine(CheckPrefix(checked) + p + t + q) == CheckItem(t, checked)
  {
    var core := CheckPrefix(checked) + p + t;
    PaddedCheckParts(checked, p, t);
    ClassifyCore(core, q);
    ClassifyDash(core);
    TrimLeftPadded(p, t);
  }

  /** Classifying the rendering of a canonical kind gives the kind back: the
      classifier recognises every marker it is meant to, keeps the level
      of a heading, the checked flag of a box, the number of an item, and
      reads marker-free text as a paragraph. */
  lemma ClassifyRender(k: LineKind)
    requires Canonical(k)
    ensures ClassifyLine(RenderLine(k)) == k
  {
    match k
    case Blank =>
    case Heading(t, n) => ClassifyHeading(t, n);
    case CheckItem(t, c) => ClassifyCheckItem(t, c);
    case Bullet(t) => ClassifyBullet(t);
    case Numbered(m, t) => ClassifyNumbered(m, t);
    case Plain(t) => TrimTrimmed(t);
  }

  /** A `#` run not followed by a space never opens a heading; a line that
      opens with `-` but not `- ` is never a list item; such a line is kept
      whole as paragraph text. */
  lemma MarkerWithoutSpace(line: string)
    requires IsPayload(line)
    requires line[0] == '#' || line[0] == '-'
    requires !HeadingShaped(line)
    requires |line| < 2 || line[1] != ' '
    ensures ClassifyLine(line) == Plain(line)
  {
    assert !OpensWithDash(line);
    assert LeadingDigits(line) == 0;
    assert IsPlainText(line);
    TrimTrimmed(line);
  }

  /** Whitespace before a line's marker is ignored: an indented line is
      classified exactly as the same line without its indentation. */
  lemma ClassifyIndented(p: string, line: string)
    requires AllSpace(p)
    ensures ClassifyLine(p + line) == ClassifyLine(line)
  {
    TrimStartSkips(p, line);
  }

  /** Text with no marker, followed by a space, is that text alone. */
  lemma PlainThenSpace(m: string)
    requires IsPlainText(m)
    ensures ClassifyLine(m + " ") == Plain(m)
  {
    TrimStartPadded("", m + " ");
    assert "" + (m + " ") == m + " ";
    TrimEndPadded(m, " ");
  }

  /** A marker with nothing after it loses its space to trimming: `- `,
      `# ` and `1. ` alone on a line are paragraph text holding the marker
      without its space. */
  lemma BareMarker()
    ensures ClassifyLine("-" + " ") == Plain("-")
    ensures ClassifyLine("#" + " ") == Plain("#")
    ensures ClassifyLine("1." + " ") == Plain("1.")
  {
    assert IsPlainText("-") by { assert LeadingDigits("-") == 0; }
    PlainThenSpace("-");
    assert IsPlainText("#") by { assert LeadingHashes("#") == 1; }
    PlainThenSpace("#");
    assert IsPlainText("1.") by {
      assert LeadingHashes("1.") == 0;
      assert LeadingDigits("1.") == 1;
    }
    PlainThenSpace("1.");
  }

  /** `- `, a text that does not open with a box, and a trailing space is
      an unordered item of that text. */
  lemma BulletThenSpace(b: string)
    requires IsPayload(b) && !OpensWithBox(b, false) && !OpensWithBox(b, true)
    ensures ClassifyLine("- " + b + " ") == Bullet(b)
  {
    var line := "- " + b;
    assert line[|line| - 1] == b[|b| - 1];
    TrimEndPadded(line, " ");
    TrimStartPadded("", line + " ");
    assert "" + (line + " ") == line + " ";
    ClassifyDash(line);
    DashItemOfBullet(b);
  }

  /** A checkbox with nothing after it is too short to open a checklist
      item once trimmed: `- [ ] ` or `- [x] ` alone on a line is an
      unordered item whose text is the box itself. */
  lemma BareBox(checked: bool)
    ensures ClassifyLine(CheckPrefix(checked)) == Bullet(if checked then "[x]" else "[ ]")
  {
    var b: string := if checked then "[x]" else "[ ]";
    assert CheckPrefix(checked) == "- " + b + " ";
    BulletThenSpace(b);
  }
}
