/**
 * `formatThought`: the boxed, coloured rendering of one step that the server
 * logs and broadcasts to event-stream listeners.
 */
module Display {
  import opened Wrappers
  import opened Text
  import opened Thoughts

  const ColorReset := "\U{1B}[0m"
  const ColorGreen := "\U{1B}[32m"
  const ColorYellow := "\U{1B}[33m"
  const ColorBlue := "\U{1B}[34m"

  /** Wraps `text` in an ANSI colour code and the reset code. */
  function Colorize(color: string, text: string): (r: string)
    ensures |r| == |color| + |text| + |ColorReset|
    ensures r[..|color|] == color
    ensures r[|color|..|color| + |text|] == text
    ensures r[|color| + |text|..] == ColorReset
  {
    color + text + ColorReset
  }

  /** The three ways a step is labelled. */
  datatype Label = Revision | Branch | Plain

  /**
   * A revision wins over a branch, and a branch over a plain step: a step is a
   * revision only when `isRevision` is present and true, and a branch when it
   * is not a revision but names the step it branches from.
   */
  function LabelOf(t: ThoughtData): (l: Label)
    ensures l == Revision <==> t.isRevision == Some(true)
    ensures l == Branch <==> t.isRevision != Some(true) && t.branchFromThought.Some?
    ensures l == Plain <==> t.isRevision != Some(true) && t.branchFromThought.None?
  {
    if t.isRevision == Some(true) then Revision
    else if t.branchFromThought.Some? then Branch
    else Plain
  }

  /** The coloured label at the head of the box. */
  function Prefix(t: ThoughtData): string
  {
    match LabelOf(t)
    case Revision => Colorize(ColorYellow, "\U{1F504} Revision")
    case Branch => Colorize(ColorGreen, "\U{1F33F} Branch")
    case Plain => Colorize(ColorBlue, "\U{1F4AD} Thought")
  }

  /** The fixed texts around the numbers and the id of a note. */
  const RevisingOpen := " (revising thought "
  const BranchOpen := " (from thought "
  const IdSeparator := ", ID: "

  /** A revision's note: the revised step, in parentheses. */
  function RevisionNote(n: int): (c: string)
    ensures |c| > |RevisingOpen| + 1 && c[..|RevisingOpen|] == RevisingOpen && c[|c| - 1] == ')'
    ensures IntText(c[|RevisingOpen|..|c| - 1]) && ParseInt(c[|RevisingOpen|..|c| - 1]) == n
  {
    FormatIntRoundTrip(n);
    var number := FormatInt(n);
    var c := RevisingOpen + number + ")";
    assert c[|RevisingOpen|..|c| - 1] == number;
    c
  }

  /** A branch's note: the origin step, then the id just before the closing parenthesis. */
  function BranchNote(origin: int, id: string): (c: string)
    ensures |c| > |BranchOpen| + |IdSeparator| + |id| + 1 && c[..|BranchOpen|] == BranchOpen
    ensures c[|c| - |id| - |IdSeparator| - 1..] == IdSeparator + id + ")"
    ensures IntText(c[|BranchOpen|..|c| - |id| - |IdSeparator| - 1])
    ensures ParseInt(c[|BranchOpen|..|c| - |id| - |IdSeparator| - 1]) == origin
  {
    FormatIntRoundTrip(origin);
    var number := FormatInt(origin);
    var tail := IdSeparator + id + ")";
    var c := BranchOpen + number + tail;
    assert c[|BranchOpen|..|c| - |tail|] == number;
    assert c[|c| - |tail|..] == tail;
    c
  }

  /**
   * The parenthesised note after the step count: a revision's names the
   * revised step when there is one, a branch's names its origin step and id,
   * and a plain step has none.
   */
  function Context(t: ThoughtData): (c: string)
    // A revision has a note exactly when it names the step it revises, and
    // the number in the note reads back as that step.
    ensures LabelOf(t) == Revision ==> (c != "" <==> t.revisesThought.Some?)
    ensures LabelOf(t) == Revision && t.revisesThought.Some? ==>
              && |c| > |RevisingOpen| + 1 && c[..|RevisingOpen|] == RevisingOpen && c[|c| - 1] == ')'
              && IntText(c[|RevisingOpen|..|c| - 1])
              && ParseInt(c[|RevisingOpen|..|c| - 1]) == t.revisesThought.value
    // A branch's note reads back as its origin step, followed by its id just
    // before the closing parenthesis.
    ensures LabelOf(t) == Branch ==>
              && |c| > |BranchOpen| + |IdSeparator| + |t.branchId| + 1 && c[..|BranchOpen|] == BranchOpen
              && c[|c| - |t.branchId| - |IdSeparator| - 1..] == IdSeparator + t.branchId + ")"
              && IntText(c[|BranchOpen|..|c| - |t.branchId| - |IdSeparator| - 1])
              && ParseInt(c[|BranchOpen|..|c| - |t.branchId| - |IdSeparator| - 1]) == t.branchFromThought.value
    // A plain step has no note.
    ensures LabelOf(t) == Plain ==> c == ""
  {
    match LabelOf(t)
    case Revision =>
      (match t.revisesThought
       case Some(n) => RevisionNote(n)
       case None => "")
    case Branch => BranchNote(t.branchFromThought.value, t.branchId)
    case Plain => ""
  }

  /**
   * `n/total`, as `%d/%d` renders it: the step number and the estimate read
   * back from either side of a slash.
   */
  function Counter(t: ThoughtData): (c: string)
    ensures forall i :: 0 <= i < |c| ==> c[i] as int < 0x80
    ensures exists k :: 0 <= k < |c| && c[k] == '/'
              && IntText(c[..k]) && ParseInt(c[..k]) == t.thoughtNumber
              && IntText(c[k + 1..]) && ParseInt(c[k + 1..]) == t.totalThoughts
  {
    var a := FormatInt(t.thoughtNumber);
    var b := FormatInt(t.totalThoughts);
    var c := a + "/" + b;
    FormatIntRoundTrip(t.thoughtNumber);
    FormatIntRoundTrip(t.totalThoughts);
    assert c[..|a|] == a;
    assert c[|a| + 1..] == b;
    assert c[|a|] == '/';
    c
  }

  /** The header line's text: label, counter and note. */
  function Header(t: ThoughtData): string
  {
    Prefix(t) + " " + Counter(t) + Context(t)
  }

  /**
   * The byte length the box is sized by. The source measures the uncoloured
   * header with the plain-step label, whatever the step's own label is.
   */
  function HeaderLen(t: ThoughtData): nat
  {
    Utf8Len("\U{1F4AD} Thought " + Counter(t) + Context(t))
  }

  /**
   * The emoji of the measured label takes four bytes, so `HeaderLen` counts
   * thirteen for "💭 Thought " although it shows ten code points; the counter
   * is plain ASCII.
   */
  lemma HeaderLenInBytes(t: ThoughtData)
    ensures HeaderLen(t) == 13 + |Counter(t)| + Utf8Len(Context(t))
  {
    var emoji := "\U{1F4AD}";
    var word := " Thought ";
    assert Utf8Len(emoji) == 4;
    Utf8LenAscii(word);
    Utf8LenAppend(emoji, word);
    var plain := emoji + word;
    assert plain == "\U{1F4AD} Thought ";
    var counter := Counter(t);
    Utf8LenAscii(counter);
    Utf8LenAppend(plain, counter);
    Utf8LenAppend(plain + counter, Context(t));
  }

  /** The number of border characters: the longer of header and thought, plus four. */
  function BorderLen(t: ThoughtData): (w: nat)
    ensures w >= HeaderLen(t) + 4 && w >= Utf8Len(t.thought) + 4
    ensures w == HeaderLen(t) + 4 || w == Utf8Len(t.thought) + 4
    ensures w >= |t.thought| + 4
  {
    Utf8LenBounds(t.thought);
    var thoughtLen := Utf8Len(t.thought);
    (if thoughtLen > HeaderLen(t) then thoughtLen else HeaderLen(t)) + 4
  }

  /** A border line: a corner, `width` rules, and the other corner. */
  function BorderLine(left: char, width: nat, right: char): (r: string)
    ensures |r| == width + 2
    ensures r[0] == left && r[width + 1] == right
    ensures forall i :: 1 <= i <= width ==> r[i] == '─'
  {
    [left] + Repeat('─', width) + [right]
  }

  /**
   * The body line: `text` left-aligned in a field of `width - 2` code points
   * between the side rules. When `text` fits, the line is `width + 2` wide.
   */
  function BodyLine(text: string, width: nat): (r: string)
    requires |text| + 2 <= width
    ensures |r| == width + 2
    ensures r[..2] == "│ " && r[2..2 + |text|] == text
    ensures forall i :: 2 + |text| <= i < width ==> r[i] == ' '
    ensures r[width..] == " │"
  {
    var padded := PadRight(text, width - 2);
    var r := "│ " + padded + " │";
    assert r[2..2 + |text|] == padded[..|text|];
    assert r[width..] == " │";
    r
  }

  /** The five lines of the box, before they are joined. */
  datatype Box = Box(top: string, headerLine: string, separator: string, body: string, bottom: string)

  /**
   * The box around a step: three border lines of the computed width, the
   * header line, and the thought padded so that its line is exactly as wide
   * (in code points) as the borders.
   */
  function Layout(t: ThoughtData): (b: Box)
    ensures |b.top| == |b.separator| == |b.bottom| == |b.body| == BorderLen(t) + 2
    ensures forall i :: 1 <= i <= BorderLen(t) ==>
              b.top[i] == b.separator[i] == b.bottom[i] == '─'
    ensures b.top[0] == '┌' && b.top[BorderLen(t) + 1] == '┐'
    ensures b.separator[0] == '├' && b.separator[BorderLen(t) + 1] == '┤'
    ensures b.bottom[0] == '└' && b.bottom[BorderLen(t) + 1] == '┘'
    ensures b.headerLine == "│ " + Header(t) + " │"
    ensures b.body[..2] == "│ " && b.body[2..2 + |t.thought|] == t.thought
    ensures forall i :: 2 + |t.thought| <= i < BorderLen(t) ==> b.body[i] == ' '
    ensures b.body[BorderLen(t)..] == " │"
  {
    var width := BorderLen(t);
    Box(BorderLine('┌', width, '┐'),
        "│ " + Header(t) + " │",
        BorderLine('├', width, '┤'),
        BodyLine(t.thought, width),
        BorderLine('└', width, '┘'))
  }

  /** Joins the box lines; the Go template starts with a newline. */
  function Render(b: Box): string
  {
    "\n" + b.top + "\n" + b.headerLine + "\n" + b.separator + "\n" + b.body + "\n" + b.bottom
  }

  /** `formatThought`. */
  function FormatThought(t: ThoughtData): string
  {
    Render(Layout(t))
  }
}
