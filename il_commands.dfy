/** The assembly each IL command becomes (il_commands.py). For every command with an
    assembly template the template is a function of the spots of its operands and their
    sizes; the `MakeAsm` methods append that template to the line buffer one line at a time,
    as `make_asm` does. */
module ILCommands {
  import opened Wrappers
  import opened Strings
  import opened CTypes
  import opened Spots
  import opened CodeGen
  import opened IL

  /** The commands il_commands.py defines a class for: add, multiply, divide, set, return,
      label and jump-if-zero. */
  predicate Defined(c: ILCommand) {
    match c
    case Arith(op, _, _, _) => op == AddOp || op == MultOp || op == DivOp
    case Set(_, _) => true
    case Return(_) => true
    case Label(_) => true
    case JumpZero(_, _) => true
    case _ => false
  }

  /** `input_values`: the values a command reads. */
  function InputValues(c: ILCommand): (vs: seq<ILValue>)
    requires Defined(c)
    ensures c.Arith? ==> vs == [c.arg1, c.arg2]
    ensures c.Set? || c.Return? ==> vs == [c.arg]
    ensures c.JumpZero? ==> vs == [c.cond]
    ensures c.Label? ==> vs == []
    ensures |vs| <= 2
  {
    match c
    case Arith(_, _, arg1, arg2) => [arg1, arg2]
    case Set(_, arg) => [arg]
    case Return(arg) => [arg]
    case JumpZero(cond, _) => [cond]
    case Label(_) => []
  }

  /** `output_values`: the values a command writes. */
  function OutputValues(c: ILCommand): (vs: seq<ILValue>)
    requires Defined(c)
    ensures |vs| <= 1
    ensures |vs| == 1 <==> c.Arith? || c.Set?
    ensures c.Arith? || c.Set? ==> vs == [c.output]
  {
    match c
    case Arith(_, output, _, _) => [output]
    case Set(output, _) => [output]
    case Return(_) => []
    case JumpZero(_, _) => []
    case Label(_) => []
  }

  /** The contract of `make_asm`: the spot map has a spot for every value the command
      reads or writes. */
  predicate Mapped(c: ILCommand, spotmap: map<ILValue, Spot>)
    requires Defined(c)
  {
    forall v :: v in InputValues(c) + OutputValues(c) ==> v in spotmap
  }

  /** The inputs and outputs of a command are exactly its operands, so a spot map covers
      them when, and only when, it has a spot for each operand. */
  lemma {:induction false} MappedOperands(c: ILCommand, spotmap: map<ILValue, Spot>)
    requires Defined(c)
    ensures c.Arith? ==> (Mapped(c, spotmap) <==> c.output in spotmap && c.arg1 in spotmap && c.arg2 in spotmap)
    ensures c.Set? ==> (Mapped(c, spotmap) <==> c.output in spotmap && c.arg in spotmap)
    ensures c.Return? ==> (Mapped(c, spotmap) <==> c.arg in spotmap)
    ensures c.JumpZero? ==> (Mapped(c, spotmap) <==> c.cond in spotmap)
    ensures c.Label? ==> Mapped(c, spotmap)
  {
    var all := InputValues(c) + OutputValues(c);
    match c
    case Arith(_, output, arg1, arg2) =>
      assert all[0] == arg1 && all[1] == arg2 && all[2] == output;
    case Set(output, arg) =>
      assert all[0] == arg && all[1] == output;
    case Return(arg) =>
      assert all[0] == arg;
    case JumpZero(cond, _) =>
      assert all[0] == cond;
    case Label(_) =>
  }

  const DifferentCTypes := "different ctypes"

  /** `assert_same_ctype`: meant to reject values of differing types, but the type it
      compares against is never recorded, so it accepts every list. */
  method AssertSameCType(values: seq<ILValue>) returns (r: Result<(), string>)
    ensures r == Ok(())
  {
    var ctype: Option<CType> := None;
    r := Ok(());
    var i := 0;
    while i < |values| && r.Ok?
      invariant 0 <= i <= |values|
      invariant ctype == None && r == Ok(())
    {
      var t := values[i].ctype;
      match ctype {
        case Some(expected) =>
          if expected != t {
            r := Err(DifferentCTypes);
          }
        case None =>
      }
      i := i + 1;
    }
  }

  /** The scratch registers the templates use. */
  const RaxSpot := RegisterSpot(Rax)
  const RsiSpot := RegisterSpot(Rsi)

  /** The column of a register name at a supported size. */
  function RegisterAt(r: Register, size: int): string
    requires size in {1, 2, 4, 8}
  {
    RegisterNames(r)[SizeIndex(size).value]
  }

  predicate SupportedSize(size: int) { size in {1, 2, 4, 8} }

  /** `Add.make_asm` and `Mult.make_asm`: the first argument goes into rax at the operand
      size, the operation combines it with the second, and rax is stored to the output. */
  function ArithTemplate(mnemonic: string, size: int, output: Spot, arg1: Spot, arg2: Spot): (r: Result<seq<Line>, string>)
    ensures r.Ok? <==> SupportedSize(size)
    ensures r.Err? ==> r.error == UnsupportedCombo
  {
    var arg1Asm :- AsmStr(arg1, size);
    var arg2Asm :- AsmStr(arg2, size);
    var outputAsm :- AsmStr(output, size);
    var raxAsm :- AsmStr(RaxSpot, size);
    Ok([CommandLine(["mov", raxAsm, arg1Asm]),
        CommandLine([mnemonic, raxAsm, arg2Asm]),
        CommandLine(["mov", outputAsm, raxAsm])])
  }

  /** The part of a division after the divisor is in place. */
  function DivTail(raxAsm: string, arg1Asm: string, divisorAsm: string, outputAsm: string): seq<Line> {
    [CommandLine(["mov", raxAsm, arg1Asm]), CommandLine(["cdq"]),
     CommandLine(["idiv", divisorAsm]), CommandLine(["mov", outputAsm, raxAsm])]
  }

  /** `Div.make_asm`: a literal divisor is first moved into rsi; then the dividend is loaded
      into rax, sign-extended, divided, and the quotient stored. */
  function DivTemplate(size: int, output: Spot, arg1: Spot, arg2: Spot): (r: Result<seq<Line>, string>)
    ensures r.Ok? <==> SupportedSize(size)
    ensures r.Err? ==> r.error == UnsupportedCombo
  {
    var arg1Asm :- AsmStr(arg1, size);
    var arg2Asm :- AsmStr(arg2, size);
    var outputAsm :- AsmStr(output, size);
    var raxAsm :- AsmStr(RaxSpot, size);
    if arg2.LiteralSpot? then
      var rsiAsm := AsmStr(RsiSpot, size).value;
      Ok([CommandLine(["mov", rsiAsm, arg2Asm])] + DivTail(raxAsm, arg1Asm, rsiAsm, outputAsm))
    else
      Ok(DivTail(raxAsm, arg1Asm, arg2Asm, outputAsm))
  }

  /** The error of reading `signed` from a type that is not an integer type. */
  const NoSignedAttribute := "object has no attribute 'signed'"

  /** The widening move for an output type: sign extension for a signed integer type, zero
      extension for an unsigned one; other types have no `signed` attribute. */
  function ExtendMnemonic(outputType: CType): (r: Result<string, string>)
    ensures r.Ok? <==> outputType.kind.IntegerKind?
    ensures r.Ok? ==> (r.value == "movsx" <==> outputType.kind.signed)
    ensures r.Ok? ==> r.value in {"movsx", "movzx"}
  {
    if outputType.kind.IntegerKind? then
      Ok(if outputType.kind.signed then "movsx" else "movzx")
    else Err(NoSignedAttribute)
  }

  /** `Set.make_asm`, with both operands in memory recognised by their memory spot type:
      a narrowing or same-size copy is a `mov` of the argument read at the output size; a
      widening copy sign- or zero-extends the argument read at its own size. A memory to
      memory copy goes through rax at the output size and then to the output. */
  function SetTemplate(output: Spot, arg: Spot, outputType: CType, argType: CType): (r: Result<seq<Line>, string>)
    ensures r.Ok? ==> |r.value| == (if output.MemSpot? && arg.MemSpot? then 2 else 1)
    ensures r.Err? ==> r.error in {UnsupportedCombo, NoSignedAttribute}
  {
    var outputSize := SizeOf(outputType);
    var argSize := SizeOf(argType);
    var outputAsm :- AsmStr(output, outputSize);
    var bothMemory := arg.MemSpot? && output.MemSpot?;
    var temp :- if bothMemory then AsmStr(RaxSpot, outputSize) else Ok(outputAsm);
    var move :-
      if outputSize <= argSize then
        var argAsm :- AsmStr(arg, outputSize);
        Ok(CommandLine(["mov", temp, argAsm]))
      else
        var mnemonic :- ExtendMnemonic(outputType);
        var argAsm :- AsmStr(arg, argSize);
        Ok(CommandLine([mnemonic, temp, argAsm]));
    Ok([move] + (if bothMemory then [CommandLine(["mov", outputAsm, temp])] else []))
  }

  /** The error Python raises on the spot type `Spot.STACK`, which spots.py does not define. */
  const NoStackAttribute := "type object 'Spot' has no attribute 'STACK'"

  /** `Set.make_asm` as written: after rendering the output it reads `Spot.STACK`, which
      does not exist, so it never emits anything. */
  function SetTemplateAsWritten(output: Spot, arg: Spot, outputType: CType, argType: CType): (r: Result<seq<Line>, string>)
    ensures r.Err?
  {
    var outputAsm :- AsmStr(output, SizeOf(outputType));
    Err(NoStackAttribute)
  }

  /** As written, `Set` fails on every operand whose output renders, including a plain
      register copy that the corrected template handles with one `mov`. */
  lemma SetAsWrittenNeverEmits(output: Spot, arg: Spot, outputType: CType, argType: CType)
    ensures AsmStr(output, SizeOf(outputType)).Ok? ==>
      SetTemplateAsWritten(output, arg, outputType, argType) == Err(NoStackAttribute)
    ensures SetTemplateAsWritten(RaxSpot, RegisterSpot(Rcx), Integer, Integer) == Err(NoStackAttribute)
    ensures SetTemplate(RaxSpot, RegisterSpot(Rcx), Integer, Integer) == Ok([CommandLine(["mov", "eax", "ecx"])])
  {
    RegisterColumns(Rax);
    RegisterColumns(Rcx);
    var r := SetTemplate(RaxSpot, RegisterSpot(Rcx), Integer, Integer);
    assert r.value == [CommandLine(["mov", "eax", "ecx"])];
  }

  /** The text `str(int(s))` gives for a run of digits: the digits without leading zeros. */
  function Magnitude(digits: string): string
    requires forall i :: 0 <= i < |digits| ==> IsDigit(digits[i])
  {
    NatToString(ParseNat(digits))
  }

  /** What `re.match(r'^-[0-9]+$', s)` accepts: a minus sign and decimal digits. */
  predicate NegativeDecimal(s: string) {
    |s| >= 2 && s[0] == '-' && IsDigits(s[1..])
  }

  /** What `re.match(r'^-0[bB][01]+$', s)` accepts: a minus sign, `0b` or `0B`, and binary
      digits. */
  predicate NegativeBinary(s: string) {
    |s| >= 4 && s[0] == '-' && s[1] == '0' && (s[2] == 'b' || s[2] == 'B') &&
    forall i :: 3 <= i < |s| ==> IsBinaryDigit(s[i])
  }

  /** The lines that leave `main`: restore the stack and return. */
  const Epilogue: seq<Line> := [CommandLine(["mov", "rsp", "rbp"]), CommandLine(["pop", "rbp"]), CommandLine(["ret"])]

  /** `Return.make_asm`: the value goes into rax at its size, a negative literal as its
      magnitude followed by `neg`, and then the function returns. */
  function ReturnTemplate(arg: Spot, argType: CType): (r: Result<seq<Line>, string>)
    ensures r.Ok? <==> SupportedSize(SizeOf(argType))
    ensures r.Ok? ==> |r.value| >= 4 && r.value[|r.value| - 3..] == Epilogue
  {
    var size := SizeOf(argType);
    var argAsm :- AsmStr(arg, size);
    var raxAsm :- AsmStr(RaxSpot, size);
    Ok(ReturnLoad(argAsm, raxAsm) + Epilogue)
  }

  /** How `Return` puts its rendered operand into rax. */
  function ReturnLoad(argAsm: string, raxAsm: string): (lines: seq<Line>)
    ensures 1 <= |lines| <= 2
  {
    if NegativeDecimal(argAsm) then
      [CommandLine(["mov", raxAsm, Magnitude(argAsm[1..])]), CommandLine(["neg", raxAsm])]
    else if NegativeBinary(argAsm) then
      [CommandLine(["mov", raxAsm, argAsm[3..] + "B"]), CommandLine(["neg", raxAsm])]
    else
      [CommandLine(["mov", raxAsm, argAsm])]
  }

  /** `JumpZero.make_asm`: a literal condition is decided now, a jump when it reads "0" and
      nothing otherwise; any other condition is compared with 0 at run time. */
  function JumpZeroTemplate(cond: Spot, condType: CType, labelText: string): (r: Result<seq<Line>, string>)
    ensures r.Ok? <==> (cond.RegisterSpot? ==> SupportedSize(SizeOf(condType)))
    ensures r.Ok? && cond.LiteralSpot? ==> |r.value| <= 1
    ensures r.Ok? && !cond.LiteralSpot? ==> |r.value| == 2 && r.value[1] == CommandLine(["je", labelText])
  {
    var condAsm :- AsmStr(cond, SizeOf(condType));
    if cond.LiteralSpot? then
      Ok(if condAsm == "0" then [CommandLine(["jmp", labelText])] else [])
    else
      Ok([CommandLine(["cmp", condAsm, "0"]), CommandLine(["je", labelText])])
  }

  /** The assembly of one command, given the spot of every value it mentions and the
      assembler's name for each label id. */
  function AsmTemplate(c: ILCommand, spotmap: map<ILValue, Spot>, labelName: nat -> string): (r: Result<seq<Line>, string>)
    requires Defined(c) && Mapped(c, spotmap)
    ensures c.Label? ==> r == Ok([LabelLine(labelName(c.id))])
  {
    MappedOperands(c, spotmap);
    match c
    case Arith(op, output, arg1, arg2) =>
      if op == AddOp then ArithTemplate("add", SizeOf(arg1.ctype), spotmap[output], spotmap[arg1], spotmap[arg2])
      else if op == MultOp then ArithTemplate("imul", SizeOf(arg1.ctype), spotmap[output], spotmap[arg1], spotmap[arg2])
      else DivTemplate(SizeOf(arg1.ctype), spotmap[output], spotmap[arg1], spotmap[arg2])
    case Set(output, arg) => SetTemplate(spotmap[output], spotmap[arg], output.ctype, arg.ctype)
    case Return(arg) => ReturnTemplate(spotmap[arg], arg.ctype)
    case Label(id) => Ok([LabelLine(labelName(id))])
    case JumpZero(cond, target) => JumpZeroTemplate(spotmap[cond], cond.ctype, labelName(target))
  }

  // ---- Properties of the templates ----

  /** Add and multiply are exactly three lines through one scratch register: rax at the
      first argument's size receives the first argument, is combined with the second, and
      is what the output receives. */
  lemma ArithThroughRax(mnemonic: string, size: int, output: Spot, arg1: Spot, arg2: Spot)
    requires SupportedSize(size)
    ensures var lines := ArithTemplate(mnemonic, size, output, arg1, arg2).value;
            var rax := RegisterAt(Rax, size);
            lines == [CommandLine(["mov", rax, AsmStr(arg1, size).value]),
                      CommandLine([mnemonic, rax, AsmStr(arg2, size).value]),
                      CommandLine(["mov", AsmStr(output, size).value, rax])]
  {
  }

  /** The divisor operand of `idiv` is never a literal: it is the divisor's own register or
      memory operand, or rsi after a literal divisor was moved there. The division always
      ends by loading, sign-extending, dividing and storing rax. */
  lemma DivisorNeverLiteral(size: int, output: Spot, arg1: Spot, arg2: Spot)
    requires SupportedSize(size)
    ensures var lines := DivTemplate(size, output, arg1, arg2).value;
            var divisor := if arg2.LiteralSpot? then RsiSpot else arg2;
            !divisor.LiteralSpot? &&
            lines[|lines| - 4..] == DivTail(RegisterAt(Rax, size), AsmStr(arg1, size).value,
                                            AsmStr(divisor, size).value, AsmStr(output, size).value) &&
            (arg2.LiteralSpot? <==> |lines| == 5) &&
            (arg2.LiteralSpot? ==> lines[0] == CommandLine(["mov", RegisterAt(Rsi, size), AsmStr(arg2, size).value]))
  {
    var lines := DivTemplate(size, output, arg1, arg2).value;
    if arg2.LiteralSpot? {
      assert lines[|lines| - 4..] == lines[1..];
    } else {
      assert lines[|lines| - 4..] == lines;
    }
  }

  /** The move `Set` chooses: `mov` unless the output is wider than the argument, then
      `movsx` for a signed output and `movzx` for an unsigned one; a widening copy into a
      non-integer type has no signedness and fails. The argument is read at the output size
      when narrowing and at its own size when widening. */
  lemma SetMoveChoice(output: Spot, arg: Spot, outputType: CType, argType: CType)
    requires AsmStr(output, SizeOf(outputType)).Ok? && AsmStr(arg, SizeOf(argType)).Ok?
    requires AsmStr(arg, SizeOf(outputType)).Ok? && SupportedSize(SizeOf(outputType))
    ensures var r := SetTemplate(output, arg, outputType, argType);
            var widen := SizeOf(outputType) > SizeOf(argType);
            (r.Err? <==> widen && !outputType.kind.IntegerKind?) &&
            (r.Ok? ==>
               r.value[0].CommandLine? && |r.value[0].parts| == 3 &&
               r.value[0].parts[0] == (if !widen then "mov" else if outputType.kind.signed then "movsx" else "movzx") &&
               r.value[0].parts[2] == AsmStr(arg, if widen then SizeOf(argType) else SizeOf(outputType)).value)
  {
  }

  /** A copy between two memory operands is routed through rax at the output size, and a
      second `mov` stores rax to the output; any other copy writes the output directly. */
  lemma SetMemoryToMemory(output: Spot, arg: Spot, outputType: CType, argType: CType)
    requires SetTemplate(output, arg, outputType, argType).Ok?
    ensures var lines := SetTemplate(output, arg, outputType, argType).value;
            var outputAsm := AsmStr(output, SizeOf(outputType)).value;
            if output.MemSpot? && arg.MemSpot? then
              SupportedSize(SizeOf(outputType)) &&
              lines[0].parts[1] == RegisterAt(Rax, SizeOf(outputType)) &&
              lines[1] == CommandLine(["mov", outputAsm, RegisterAt(Rax, SizeOf(outputType))])
            else
              lines[0].parts[1] == outputAsm
  {
  }

  /** A negative integer literal is returned by loading its magnitude and negating it. */
  lemma ReturnNegativeLiteral(v: int, argType: CType)
    requires v < 0 && SupportedSize(SizeOf(argType))
    ensures var rax := RegisterAt(Rax, SizeOf(argType));
            ReturnTemplate(LiteralSpot(IntLit(v)), argType) ==
              Ok([CommandLine(["mov", rax, NatToString(-v)]), CommandLine(["neg", rax])] + Epilogue)
  {
    var size := SizeOf(argType);
    var s := IntToString(v);
    var rax := RegisterAt(Rax, size);
    assert AsmStr(LiteralSpot(IntLit(v)), size) == Ok(s);
    assert AsmStr(RaxSpot, size) == Ok(rax);
    IntToStringSign(v);
    assert s[1..] == NatToString(-v);
    ParseNatToString(-v);
    assert NegativeDecimal(s);
    assert Magnitude(s[1..]) == NatToString(-v);
    assert ReturnLoad(s, rax) == [CommandLine(["mov", rax, NatToString(-v)]), CommandLine(["neg", rax])];
  }

  /** A non-negative integer literal, a register and a memory operand are loaded with one
      `mov` as rendered. */
  lemma ReturnPlainOperand(arg: Spot, argType: CType)
    requires SupportedSize(SizeOf(argType))
    requires arg.LiteralSpot? ==> arg.value.IntLit? && arg.value.i >= 0
    ensures var size := SizeOf(argType);
            ReturnTemplate(arg, argType) ==
              Ok([CommandLine(["mov", RegisterAt(Rax, size), AsmStr(arg, size).value])] + Epilogue)
  {
    var size := SizeOf(argType);
    var s := AsmStr(arg, size).value;
    match arg
    case LiteralSpot(lit) =>
      IntToStringSign(lit.i);
    case RegisterSpot(reg) =>
      assert s[0] != '-';
    case MemSpot(_, _) =>
      assert s[0] != '-';
  }

  /** A negative binary literal kept as text is loaded as its digits with the `B` suffix,
      then negated. */
  lemma ReturnNegativeBinary()
    ensures ReturnTemplate(LiteralSpot(TextLit("-0b101")), Integer) ==
      Ok([CommandLine(["mov", "eax", "101B"]), CommandLine(["neg", "eax"])] + Epilogue)
  {
    assert !NegativeDecimal("-0b101") by { assert !IsDigit("-0b101"[2]); }
    assert NegativeBinary("-0b101");
    assert "-0b101"[3..] + "B" == "101B";
  }

  /** A literal condition is resolved now: an integer literal jumps exactly when it is zero,
      and otherwise emits nothing. Any other condition compares with 0 and jumps if equal. */
  lemma JumpZeroCases(cond: Spot, condType: CType, labelText: string)
    requires SupportedSize(SizeOf(condType))
    ensures cond.LiteralSpot? && cond.value.IntLit? ==>
      JumpZeroTemplate(cond, condType, labelText) ==
        Ok(if cond.value.i == 0 then [CommandLine(["jmp", labelText])] else [])
    ensures !cond.LiteralSpot? ==>
      JumpZeroTemplate(cond, condType, labelText) ==
        Ok([CommandLine(["cmp", AsmStr(cond, SizeOf(condType)).value, "0"]), CommandLine(["je", labelText])])
  {
    if cond.LiteralSpot? && cond.value.IntLit? {
      var v := cond.value.i;
      IntToStringSign(v);
      assert ParseNat("0") == 0;
      if v > 0 {
        ParseNatToString(v);
      }
    }
  }

  /** The template of a command depends only on the spots of its input and output values:
      two spot maps that agree on those give the same assembly. */
  lemma TemplateReadsOnlyItsValues(c: ILCommand, m1: map<ILValue, Spot>, m2: map<ILValue, Spot>, labelName: nat -> string)
    requires Defined(c) && Mapped(c, m1) && Mapped(c, m2)
    requires forall v :: v in InputValues(c) + OutputValues(c) ==> m1[v] == m2[v]
    ensures AsmTemplate(c, m1, labelName) == AsmTemplate(c, m2, labelName)
  {
    MappedOperands(c, m1);
    var all := InputValues(c) + OutputValues(c);
    match c
    case Arith(_, output, arg1, arg2) =>
      assert all[0] == arg1 && all[1] == arg2 && all[2] == output;
    case Set(output, arg) =>
      assert all[0] == arg && all[1] == output;
    case Return(arg) =>
      assert all[0] == arg;
    case JumpZero(cond, _) =>
      assert all[0] == cond;
    case Label(_) =>
  }

  // ---- Emission into the line buffer ----

  /** Appends one command line. */
  method Emit(code: CodeStore, parts: seq<string>)
    modifies code
    ensures code.lines == old(code.lines) + [CommandLine(parts)]
  {
    var _ := code.AddCommand(PyTuple(parts));
  }

  /** `Add.make_asm` and `Mult.make_asm`. */
  method MakeArithAsm(mnemonic: string, size: int, output: Spot, arg1: Spot, arg2: Spot, code: CodeStore)
    returns (r: Result<(), string>)
    modifies code
    ensures var t := ArithTemplate(mnemonic, size, output, arg1, arg2);
            (r.Ok? <==> t.Ok?) &&
            (t.Ok? ==> code.lines == old(code.lines) + t.value) &&
            (t.Err? ==> r.error == t.error && code.lines == old(code.lines))
  {
    var arg1Asm := AsmStr(arg1, size);
    var arg2Asm := AsmStr(arg2, size);
    var outputAsm := AsmStr(output, size);
    var raxAsm := AsmStr(RaxSpot, size);
    if raxAsm.Err? {
      r := Err(raxAsm.error);
    } else {
      Emit(code, ["mov", raxAsm.value, arg1Asm.value]);
      Emit(code, [mnemonic, raxAsm.value, arg2Asm.value]);
      Emit(code, ["mov", outputAsm.value, raxAsm.value]);
      r := Ok(());
    }
  }

  /** `Div.make_asm`. */
  method MakeDivAsm(size: int, output: Spot, arg1: Spot, arg2: Spot, code: CodeStore)
    returns (r: Result<(), string>)
    modifies code
    ensures var t := DivTemplate(size, output, arg1, arg2);
            (r.Ok? <==> t.Ok?) &&
            (t.Ok? ==> code.lines == old(code.lines) + t.value) &&
            (t.Err? ==> r.error == t.error && code.lines == old(code.lines))
  {
    var arg1Asm := AsmStr(arg1, size);
    var arg2Asm := AsmStr(arg2, size);
    var outputAsm := AsmStr(output, size);
    var raxAsm := AsmStr(RaxSpot, size);
    if raxAsm.Err? {
      r := Err(raxAsm.error);
    } else {
      var divisorAsm := arg2Asm.value;
      if arg2.LiteralSpot? {
        divisorAsm := AsmStr(RsiSpot, size).value;
        Emit(code, ["mov", divisorAsm, arg2Asm.value]);
      }
      EmitDivTail(raxAsm.value, arg1Asm.value, divisorAsm, outputAsm.value, code);
      r := Ok(());
    }
  }

  /** `Set.make_asm`, memory spots standing for `Spot.STACK`. */
  method MakeSetAsm(output: Spot, arg: Spot, outputType: CType, argType: CType, code: CodeStore)
    returns (r: Result<(), string>)
    modifies code
    ensures var t := SetTemplate(output, arg, outputType, argType);
            (r.Ok? <==> t.Ok?) &&
            (t.Ok? ==> code.lines == old(code.lines) + t.value) &&
            (t.Err? ==> r.error == t.error && code.lines == old(code.lines))
  {
    var t := SetTemplate(output, arg, outputType, argType);
    var outputSize := SizeOf(outputType);
    var argSize := SizeOf(argType);
    var outputAsm := AsmStr(output, outputSize);
    var bothMemory := arg.MemSpot? && output.MemSpot?;
    var temp := if bothMemory then AsmStr(RaxSpot, outputSize) else outputAsm;
    var mnemonic := if outputSize <= argSize then Ok("mov") else ExtendMnemonic(outputType);
    var argAsm := AsmStr(arg, if outputSize <= argSize then outputSize else argSize);
    if outputAsm.Err? {
      r := Err(outputAsm.error);
    } else if temp.Err? {
      r := Err(temp.error);
    } else if mnemonic.Err? {
      r := Err(mnemonic.error);
    } else if argAsm.Err? {
      r := Err(argAsm.error);
    } else {
      Emit(code, [mnemonic.value, temp.value, argAsm.value]);
      if bothMemory {
        Emit(code, ["mov", outputAsm.value, temp.value]);
      }
      r := Ok(());
    }
  }

  /** The first part of `Return.make_asm`: the operand into rax, negated when its text is
      a negative number. */
  method EmitReturnLoad(argAsm: string, raxAsm: string, code: CodeStore)
    modifies code
    ensures code.lines == old(code.lines) + ReturnLoad(argAsm, raxAsm)
  {
    if NegativeDecimal(argAsm) {
      Emit(code, ["mov", raxAsm, Magnitude(argAsm[1..])]);
      Emit(code, ["neg", raxAsm]);
    } else if NegativeBinary(argAsm) {
      Emit(code, ["mov", raxAsm, argAsm[3..] + "B"]);
      Emit(code, ["neg", raxAsm]);
    } else {
      Emit(code, ["mov", raxAsm, argAsm]);
    }
  }

  /** The end of `Return.make_asm`. */
  method EmitEpilogue(code: CodeStore)
    modifies code
    ensures code.lines == old(code.lines) + Epilogue
  {
    Emit(code, ["mov", "rsp", "rbp"]);
    Emit(code, ["pop", "rbp"]);
    Emit(code, ["ret"]);
  }

  /** The division proper, after a literal divisor has been moved to rsi. */
  method EmitDivTail(raxAsm: string, arg1Asm: string, divisorAsm: string, outputAsm: string, code: CodeStore)
    modifies code
    ensures code.lines == old(code.lines) + DivTail(raxAsm, arg1Asm, divisorAsm, outputAsm)
  {
    Emit(code, ["mov", raxAsm, arg1Asm]);
    Emit(code, ["cdq"]);
    Emit(code, ["idiv", divisorAsm]);
    Emit(code, ["mov", outputAsm, raxAsm]);
  }

  /** `Return.make_asm`. */
  method MakeReturnAsm(arg: Spot, argType: CType, code: CodeStore) returns (r: Result<(), string>)
    modifies code
    ensures var t := ReturnTemplate(arg, argType);
            (r.Ok? <==> t.Ok?) &&
            (t.Ok? ==> code.lines == old(code.lines) + t.value) &&
            (t.Err? ==> r.error == t.error && code.lines == old(code.lines))
  {
    var size := SizeOf(argType);
    var argAsm := AsmStr(arg, size);
    var raxAsm := AsmStr(RaxSpot, size);
    if argAsm.Err? {
      r := Err(argAsm.error);
    } else if raxAsm.Err? {
      r := Err(raxAsm.error);
    } else {
      EmitReturnLoad(argAsm.value, raxAsm.value, code);
      EmitEpilogue(code);
      r := Ok(());
    }
  }

  /** `JumpZero.make_asm`. */
  method MakeJumpZeroAsm(cond: Spot, condType: CType, labelText: string, code: CodeStore) returns (r: Result<(), string>)
    modifies code
    ensures var t := JumpZeroTemplate(cond, condType, labelText);
            (r.Ok? <==> t.Ok?) &&
            (t.Ok? ==> code.lines == old(code.lines) + t.value) &&
            (t.Err? ==> r.error == t.error && code.lines == old(code.lines))
  {
    var condAsm := AsmStr(cond, SizeOf(condType));
    if condAsm.Err? {
      r := Err(condAsm.error);
    } else {
      if cond.LiteralSpot? {
        if condAsm.value == "0" {
          Emit(code, ["jmp", labelText]);
        }
      } else {
        Emit(code, ["cmp", condAsm.value, "0"]);
        Emit(code, ["je", labelText]);
      }
      r := Ok(());
    }
  }

  /** `make_asm` of any command il_commands.py defines: the command's template is appended
      to the buffer, or nothing is appended and the rendering error is reported. */
  method MakeAsm(c: ILCommand, spotmap: map<ILValue, Spot>, labelName: nat -> string, code: CodeStore)
    returns (r: Result<(), string>)
    requires Defined(c) && Mapped(c, spotmap)
    modifies code
    ensures var t := AsmTemplate(c, spotmap, labelName);
            (r.Ok? <==> t.Ok?) &&
            (t.Ok? ==> code.lines == old(code.lines) + t.value) &&
            (t.Err? ==> code.lines == old(code.lines))
  {
    MappedOperands(c, spotmap);
    match c
    case Arith(op, output, arg1, arg2) =>
      if op == AddOp {
        r := MakeArithAsm("add", SizeOf(arg1.ctype), spotmap[output], spotmap[arg1], spotmap[arg2], code);
      } else if op == MultOp {
        r := MakeArithAsm("imul", SizeOf(arg1.ctype), spotmap[output], spotmap[arg1], spotmap[arg2], code);
      } else {
        r := MakeDivAsm(SizeOf(arg1.ctype), spotmap[output], spotmap[arg1], spotmap[arg2], code);
      }
    case Set(output, arg) =>
      r := MakeSetAsm(spotmap[output], spotmap[arg], output.ctype, arg.ctype, code);
    case Return(arg) =>
      r := MakeReturnAsm(spotmap[arg], arg.ctype, code);
    case Label(id) =>
      var _ := code.AddLabel(PyStr(labelName(id)));
      r := Ok(());
    case JumpZero(cond, target) =>
      r := MakeJumpZeroAsm(spotmap[cond], cond.ctype, labelName(target), code);
  }
}
