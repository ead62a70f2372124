/** Compile-time errors and how they print (errors.py), plus the record the parser uses to
    report how far it got. */
module Errors {
  import opened Wrappers
  import opened Strings

  /** `CompilerError`: a description and an optional place. */
  datatype CompilerError = CompilerError(description: string, fileName: Option<string>, lineNum: Option<int>)

  /** `CompilerError.__init__` stores its arguments unchanged. */
  function NewError(description: string, fileName: Option<string>, lineNum: Option<int>): (e: CompilerError)
    ensures e.description == description && e.fileName == fileName && e.lineNum == lineNum
  {
    CompilerError(description, fileName, lineNum)
  }

  /** Python truthiness of the optional fields: a missing or empty name and a missing or
      zero line number are false. */
  predicate HasFile(e: CompilerError) { e.fileName.Some? && e.fileName.value != "" }
  predicate HasLine(e: CompilerError) { e.lineNum.Some? && e.lineNum.value != 0 }

  /** The name printed when the file is unknown. */
  const ProgramName := "JackShenC"

  /** `CompilerError.__str__`. */
  function Message(e: CompilerError): (m: string)
    ensures HasFile(e) && HasLine(e) ==>
      m == e.fileName.value + ":" + IntToString(e.lineNum.value) + ": Error: " + e.description
    ensures HasFile(e) && !HasLine(e) ==> m == e.fileName.value + ": Error: " + e.description
    ensures !HasFile(e) ==> m == ProgramName + ": Error: " + e.description
  {
    if HasFile(e) && HasLine(e) then
      e.fileName.value + ":" + IntToString(e.lineNum.value) + ": Error: " + e.description
    else if HasFile(e) then
      e.fileName.value + ": Error: " + e.description
    else
      ProgramName + ": Error: " + e.description
  }

  /** Every message ends with "Error: " and the description, and the part before it is
      never empty. */
  lemma MessageEndsWithDescription(e: CompilerError)
    ensures var tail := "Error: " + e.description;
            |Message(e)| > |tail| && Message(e)[|Message(e)| - |tail|..] == tail
  {
    var tail := "Error: " + e.description;
    var m := Message(e);
    var head := if HasFile(e) && HasLine(e) then e.fileName.value + ":" + IntToString(e.lineNum.value) + ": "
                else if HasFile(e) then e.fileName.value + ": "
                else ProgramName + ": ";
    assert m == head + tail;
  }

  /** A line number of 0 prints as if there were none, and a missing file hides any line. */
  lemma ZeroLineCountsAsMissing(d: string, f: Option<string>, l: int)
    ensures Message(CompilerError(d, f, Some(0))) == Message(CompilerError(d, f, None))
    ensures Message(CompilerError(d, None, Some(l))) == Message(CompilerError(d, None, None))
    ensures Message(CompilerError(d, Some(""), Some(l))) == ProgramName + ": Error: " + d
  {
  }

  /** A negative line number prints with its sign. */
  lemma NegativeLinePrintsSign(d: string, f: string, l: int)
    requires f != "" && l < 0
    ensures Message(CompilerError(d, Some(f), Some(l))) ==
      f + ":" + "-" + NatToString(-l) + ": Error: " + d
  {
    assert IntToString(l) == "-" + NatToString(-l);
  }

  /** Where a parser error points: at the token it stopped on, after the previous one, or
      at what it got instead. */
  datatype MessageType = At | After | Got

  /** `ParserError`, as far as the parser uses it: its description, the number of tokens
      parsed before it, and how the message refers to the token. The class itself is not
      part of this model; its rendering of the token text is left out. */
  datatype ParserError = ParserError(description: string, amountParsed: nat, messageType: MessageType)

  /** How a parse attempt can end without a result: a `ParserError`, which callers catch
      and log, or any other Python exception, which nothing in the parser catches. */
  datatype ParseFailure = Syntax(err: ParserError) | ParseCrash(reason: string)

  /** How lowering a node can end without a result: a `CompilerError`, which the enclosing
      statement or declaration catches and logs, or any other Python exception
      (AttributeError, NotImplementedError, ValueError), which nothing in the lowering
      catches. */
  datatype Abort = Raised(error: CompilerError) | Crashed(reason: string)

  /** A `CompilerError` raised by the lowering or the declaration code. Its position is not
      modelled. */
  function RaiseError(description: string): (a: Abort)
    ensures a.Raised? && a.error.description == description
  {
    Raised(CompilerError(description, None, None))
  }

  /** One entry of the error collector: an error, or a warning when `warning` is set. */
  datatype Diagnostic = Diagnostic(error: CompilerError, warning: bool)
}
