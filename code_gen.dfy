/** The assembly line buffer and its text form (code_gen.py). */
module CodeGen {
  import opened Wrappers
  import opened Strings

  /** A stored line: a command as the tuple of its opcode and operands, or a label name
      without its colon. */
  datatype Line = CommandLine(parts: seq<string>) | LabelLine(name: string)

  /** What a caller can hand to `add_command` or `add_label`: a tuple of strings, a string,
      or some other Python value. */
  datatype PyValue = PyTuple(items: seq<string>) | PyStr(s: string) | PyOther

  const CommandNotTuple := "Command is not a tuple"
  const LabelNotString := "Label is not a string"

  /** The lines that start every program: the entry point calls `main` and exits with its
      result. */
  const Header: seq<string> :=
    ["global _start", "", "_start:", "     call main", "     mov rdi, rax", "     mov rax, 60", "     syscall"]

  const Indent := "     "

  /** The text of one stored line; a command with an empty tuple has no opcode and cannot
      be rendered. */
  function RenderLine(line: Line): (r: Option<string>)
    ensures r.None? <==> line.CommandLine? && line.parts == []
    ensures line.LabelLine? ==> r == Some(line.name + ":")
    ensures line.CommandLine? && |line.parts| == 1 ==> r == Some(Indent + line.parts[0])
    ensures line.CommandLine? && |line.parts| > 1 ==>
      r == Some(Indent + line.parts[0] + " " + Join(", ", line.parts[1..]))
  {
    match line
    case LabelLine(name) => Some(name + ":")
    case CommandLine(parts) =>
      if parts == [] then None
      else if |parts| == 1 then Some(Indent + parts[0])
      else Some(Indent + parts[0] + " " + Join(", ", parts[1..]))
  }

  /** The rendered lines, in order, or None when some command cannot be rendered. */
  function RenderAll(lines: seq<Line>): (r: Option<seq<string>>)
    ensures r.Some? <==> forall i :: 0 <= i < |lines| ==> RenderLine(lines[i]).Some?
    ensures r.Some? ==> (|r.value| == |lines| &&
      forall i :: 0 <= i < |lines| ==> r.value[i] == RenderLine(lines[i]).value)
    decreases |lines|
  {
    if lines == [] then Some([])
    else
      match RenderLine(lines[0])
      case None => None
      case Some(first) =>
        match RenderAll(lines[1..])
        case None => None
        case Some(rest) => Some([first] + rest)
  }

  /** `CodeStore`: the lines of assembly generated so far. */
  class CodeStore {
    var lines: seq<Line>

    constructor()
      ensures lines == []
    {
      lines := [];
    }

    /** `add_command`: a tuple is appended as a command; anything else is refused and the
        buffer is left as it was. */
    method AddCommand(command: PyValue) returns (r: Result<(), string>)
      modifies this
      ensures command.PyTuple? ==> r.Ok? && lines == old(lines) + [CommandLine(command.items)]
      ensures !command.PyTuple? ==> r == Err(CommandNotTuple) && lines == old(lines)
    {
      if !command.PyTuple? {
        return Err(CommandNotTuple);
      }
      lines := lines + [CommandLine(command.items)];
      return Ok(());
    }

    /** `add_label`: a string is appended as a label; anything else is refused and the buffer
        is left as it was. */
    method AddLabel(name: PyValue) returns (r: Result<(), string>)
      modifies this
      ensures name.PyStr? ==> r.Ok? && lines == old(lines) + [LabelLine(name.s)]
      ensures !name.PyStr? ==> r == Err(LabelNotString) && lines == old(lines)
    {
      if !name.PyStr? {
        return Err(LabelNotString);
      }
      lines := lines + [LabelLine(name.s)];
      return Ok(());
    }

    /** `full_code`: the header and then one rendered line per stored line, separated by
        newlines; None where the source would fail on an empty command tuple. */
    function FullCode(): (r: Option<string>)
      reads this
      ensures r.Some? <==> RenderAll(lines).Some?
      ensures r.Some? ==> r.value == Join("\n", Header + RenderAll(lines).value)
    {
      match RenderAll(lines)
      case None => None
      case Some(rendered) => Some(Join("\n", Header + rendered))
    }
  }

  /** Splits text at every occurrence of a separator character, as `str.split` does. */
  function Split(s: string, sep: char): (parts: seq<string>)
    ensures |parts| >= 1
    decreases |s|
  {
    if s == [] then [""]
    else
      var rest := Split(s[1..], sep);
      if s[0] == sep then [""] + rest else [[s[0]] + rest[0]] + rest[1..]
  }

  predicate NoChar(s: string, c: char) { forall i :: 0 <= i < |s| ==> s[i] != c }

  lemma {:induction false} SplitPrefix(a: string, b: string, sep: char)
    requires NoChar(a, sep)
    ensures Split(a + [sep] + b, sep) == [a] + Split(b, sep)
    decreases |a|
  {
    if a == [] {
      assert (a + [sep] + b)[1..] == b;
    } else {
      assert (a + [sep] + b)[1..] == a[1..] + [sep] + b;
      SplitPrefix(a[1..], b, sep);
      assert [a[0]] + a[1..] == a;
    }
  }

  lemma {:induction false} SplitNoSep(a: string, sep: char)
    requires NoChar(a, sep)
    ensures Split(a, sep) == [a]
    decreases |a|
  {
    if a != [] {
      SplitNoSep(a[1..], sep);
      assert [a[0]] + a[1..] == a;
    }
  }

  /** Splitting joined parts at the separator gives the parts back, when none contains it. */
  lemma {:induction false} SplitJoin(parts: seq<string>, sep: char)
    requires |parts| >= 1
    requires forall i :: 0 <= i < |parts| ==> NoChar(parts[i], sep)
    ensures Split(Join([sep], parts), sep) == parts
    decreases |parts|
  {
    if |parts| == 1 {
      SplitNoSep(parts[0], sep);
    } else {
      SplitJoin(parts[1..], sep);
      SplitPrefix(parts[0], Join([sep], parts[1..]), sep);
      assert parts[0] + [sep] + Join([sep], parts[1..]) == Join([sep], parts);
      assert [parts[0]] + parts[1..] == parts;
    }
  }

  /** No part of a stored line holds a newline. */
  predicate SingleLine(line: Line) {
    match line
    case CommandLine(parts) => forall i :: 0 <= i < |parts| ==> NoChar(parts[i], '\n')
    case LabelLine(name) => NoChar(name, '\n')
  }

  lemma {:induction false} JoinNoChar(sep: string, parts: seq<string>, c: char)
    requires NoChar(sep, c)
    requires forall i :: 0 <= i < |parts| ==> NoChar(parts[i], c)
    ensures NoChar(Join(sep, parts), c)
    decreases |parts|
  {
    if |parts| > 1 {
      JoinNoChar(sep, parts[1..], c);
    }
  }

  lemma RenderLineSingle(line: Line)
    requires SingleLine(line) && RenderLine(line).Some?
    ensures NoChar(RenderLine(line).value, '\n')
  {
    if line.CommandLine? && |line.parts| > 1 {
      JoinNoChar(", ", line.parts[1..], '\n');
    }
  }

  /** The text of a buffer of single-line entries splits, at its newlines, into exactly the
      header followed by one line per stored entry, in the order they were added: the
      full code is a faithful listing of the buffer. */
  lemma FullCodeLines(store: CodeStore)
    requires forall i :: 0 <= i < |store.lines| ==> SingleLine(store.lines[i])
    requires store.FullCode().Some?
    ensures var rendered := RenderAll(store.lines).value;
            Split(store.FullCode().value, '\n') == Header + rendered &&
            |rendered| == |store.lines| &&
            forall i :: 0 <= i < |store.lines| ==> rendered[i] == RenderLine(store.lines[i]).value
  {
    var rendered := RenderAll(store.lines).value;
    var all := Header + rendered;
    forall i | 0 <= i < |all|
      ensures NoChar(all[i], '\n')
    {
      if i >= |Header| {
        RenderLineSingle(store.lines[i - |Header|]);
      }
    }
    SplitJoin(all, '\n');
    assert "\n" == ['\n'];
  }

  /** A label line ends in a colon; a command line starts with the five-space indent. */
  lemma LabelAndCommandLines(name: string, parts: seq<string>)
    requires parts != []
    ensures var l := RenderLine(LabelLine(name)).value;
            |l| > 0 && l[|l| - 1] == ':'
    ensures var c := RenderLine(CommandLine(parts)).value;
            |c| >= 5 && c[..5] == Indent
  {
  }
}
