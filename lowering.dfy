/** Lowering of the syntax tree to IL (the `make_code` methods of tree.py). A `Lowerer` holds
    the IL code being built, the symbol table, the error collector and the `bin_match` flag;
    its methods append commands the way the node classes do. A method's result is the IL
    value of an expression, or how the node gave up: a `CompilerError`, which the enclosing
    statement or declaration catches and logs, or another Python exception, which nothing
    catches. */
module Lowering {
  import opened Wrappers
  import opened Strings
  import opened Tokens
  import opened Errors
  import opened CTypes
  import opened Promotion
  import opened Spots
  import opened Ast
  import opened IL
  import opened Literals
  import opened Declarations

  import opened Operands
  import opened Typing
  import ILCommands

  /** The object types of an optional lvalue. */
  function LvTypes(lv: Option<LValue>): (r: Option<CType>)
    ensures r.Some? <==> lv.Some?
  {
    if lv.None? then None else Some(LValueType(lv.value))
  }

  /** The form `lvalue()` gives each node: a string or an identifier designates its variable,
      a dereference or a subscript the object its pointer-typed address points to. */
  ghost predicate LvShape(e: Expr, lv: Option<LValue>) {
    match e
    case StringNode(_) => lv.Some? && lv.value.Direct?
    case IdentifierNode(_) => lv.Some? && lv.value.Direct?
    case DerefNode(_, _) => lv.Some? && lv.value.Indirect? && IsPointer(lv.value.addr.ctype)
    case ArraySubscriptNode(_, _, _) => lv.Some? && lv.value.Indirect? && IsPointer(lv.value.addr.ctype)
    case ParenExprNode(x) => LvShape(x, lv)
    case _ => lv.None?
  }

  /** The jump `make_bool_andor_code` uses: on zero for `&&`, on nonzero for `||`. */
  function ShortJump(andop: bool, cond: ILValue, target: nat): ILCommand {
    if andop then JumpZero(cond, target) else JumpNotZero(cond, target)
  }

  /** The code `make_bool_andor_code` emits: `out` is preset to the value that holds if
      neither operand decides, each operand that decides jumps to `setOut`, where `out` is
      set to the other value. */
  function AndOrCommands(andop: bool, out: ILValue, zero: ILValue, one: ILValue,
                         left: ILValue, leftCode: seq<ILCommand>, right: ILValue, rightCode: seq<ILCommand>,
                         setOut: nat, end: nat): seq<ILCommand> {
    leftCode + [Set(out, if andop then one else zero), ShortJump(andop, left, setOut)] +
    rightCode + [ShortJump(andop, right, setOut), Jump(end), Label(setOut),
                 Set(out, if andop then zero else one), Label(end)]
  }

  /** As written, tree.py names command classes that il_commands.py does not define: the
      subtraction, bitwise-and and comparison commands, the unconditional jump that `&&`,
      `||` and an `if` with an else branch emit, the jump on nonzero of `||`, and the read
      through a pointer. Naming one raises, so every construct that emits one fails there. */
  lemma EmittedButUndefined(andop: bool, out: ILValue, zero: ILValue, one: ILValue,
                            left: ILValue, leftCode: seq<ILCommand>, right: ILValue, rightCode: seq<ILCommand>,
                            setOut: nat, end: nat, elseLabel: nat, elseCode: seq<ILCommand>)
    ensures forall op, o, a, b :: op in {SubOp, BitAndOp, EqualOp, NotEqualOp} ==> !ILCommands.Defined(Arith(op, o, a, b))
    ensures forall o, a :: !ILCommands.Defined(ReadAt(o, a))
    ensures Jump(end) in AndOrCommands(andop, out, zero, one, left, leftCode, right, rightCode, setOut, end) &&
            !ILCommands.Defined(Jump(end))
    ensures !andop ==> JumpNotZero(left, setOut) in AndOrCommands(andop, out, zero, one, left, leftCode, right, rightCode, setOut, end) &&
                       !ILCommands.Defined(JumpNotZero(left, setOut))
    ensures Jump(end) in ElseCommands(elseLabel, true, elseCode, end)
  {
    var code := AndOrCommands(andop, out, zero, one, left, leftCode, right, rightCode, setOut, end);
    assert code[|leftCode| + 2 + |rightCode| + 1] == Jump(end);
    assert code[|leftCode| + 1] == ShortJump(andop, left, setOut);
    assert ElseCommands(elseLabel, true, elseCode, end)[0] == Jump(end);
  }

  /** The code `BoolNotNode.make_code_raw` emits: `out` is 1 when the operand is zero and 0
      otherwise. */
  function BoolNotCommands(out: ILValue, zero: ILValue, one: ILValue, operand: ILValue,
                           operandCode: seq<ILCommand>, end: nat): seq<ILCommand> {
    operandCode + [Set(out, one), JumpZero(operand, end), Set(out, zero), Label(end)]
  }

  /** The parts of the lowering's state that lowering an expression only adds to: the
      commands, the label counter, the collected diagnostics and `bin_match`. */
  datatype Progress = Progress(commands: seq<ILCommand>, labels: nat, diagnostics: seq<Diagnostic>, binMatch: bool)

  /** Lowering an expression only appends commands, only hands out labels, only logs
      warnings (its errors are raised, not logged) and never clears `bin_match`. */
  ghost predicate Grows(a: Progress, b: Progress) {
    a.commands <= b.commands && a.labels <= b.labels && a.diagnostics <= b.diagnostics &&
    (forall i :: |a.diagnostics| <= i < |b.diagnostics| ==> b.diagnostics[i].warning) &&
    (a.binMatch ==> b.binMatch)
  }

  lemma GrowsTrans(a: Progress, b: Progress, c: Progress)
    requires Grows(a, b) && Grows(b, c)
    ensures Grows(a, c)
  {
  }

  /** Code that extends other code is that code followed by the rest. */
  lemma SplitCode(before: seq<ILCommand>, after: seq<ILCommand>)
    requires before <= after
    ensures after == before + after[|before|..]
  {
  }

  /** Code emitted before and after a jump, joined. */
  lemma JoinAround(prefix: seq<ILCommand>, before: seq<ILCommand>, c: ILCommand, after: seq<ILCommand>, rest: seq<ILCommand>)
    ensures prefix + before + [c] + (after + rest) == prefix + (before + [c] + after + rest)
  {
  }

  /** Appending code piece by piece gives the code of the pieces joined. */
  lemma JoinCode(prefix: seq<ILCommand>, a: seq<ILCommand>, b: seq<ILCommand>, c: seq<ILCommand>, d: seq<ILCommand>)
    ensures prefix + a + b + c + d == prefix + (a + b + c + d)
  {
  }

  /** Lowering a statement only appends commands, only hands out labels, only adds
      diagnostics (errors as well as warnings) and never clears `bin_match`. */
  ghost predicate Extends(a: Progress, b: Progress) {
    a.commands <= b.commands && a.labels <= b.labels && a.diagnostics <= b.diagnostics &&
    (a.binMatch ==> b.binMatch)
  }

  lemma ExtendsTrans(a: Progress, b: Progress, c: Progress)
    requires Extends(a, b) && Extends(b, c)
    ensures Extends(a, c)
  {
  }

  lemma GrowsExtends(a: Progress, b: Progress)
    requires Grows(a, b)
    ensures Extends(a, b)
  {
  }

  /** Only the innermost scope changed: there are as many scopes as before and all the
      outer ones are as they were. */
  ghost predicate InnerOnly(a: Scopes, b: Scopes) {
    |a| == |b| && |a| >= 1 && a[..|a| - 1] == b[..|b| - 1]
  }

  /** The code `IfStatementNode.make_code` emits when nothing in it raises: the condition,
      a jump to the else label when it is zero, the statement, then with an else branch a
      jump over it, the else label, the else statement and the end label, and without one
      just the else label. */
  function IfCommands(condition: ILValue, condCode: seq<ILCommand>, elseLabel: nat, stmtCode: seq<ILCommand>,
                      hasElse: bool, elseCode: seq<ILCommand>, endLabel: nat): seq<ILCommand> {
    condCode + [JumpZero(condition, elseLabel)] + stmtCode + ElseCommands(elseLabel, hasElse, elseCode, endLabel)
  }

  /** What follows the statement of an `if`: the else branch between a jump to the end
      and the end label, or nothing; the else label comes right before the else branch. */
  function ElseCommands(elseLabel: nat, hasElse: bool, elseCode: seq<ILCommand>, endLabel: nat): seq<ILCommand> {
    if hasElse then [Jump(endLabel), Label(elseLabel)] + elseCode + [Label(endLabel)]
    else [Label(elseLabel)]
  }

  /** The code `ReturnNode.make_code` emits: the value's code, its conversion to `int`,
      and the return of the converted value. */
  function ReturnCommands(value: ILValue, valueCode: seq<ILCommand>, result: ILValue): seq<ILCommand> {
    valueCode + Cast(value, Integer, result) + [Return(result)]
  }

  /** The checks of `_make_code` before the variable is bound: the declarator's type and
      storage class, an identifier (reporting a missing one at the first specifier, which
      fails when there is none) and a type other than `void`. */
  function DeclaredVar(decl: DeclRoot): (r: Result<Declared, Abort>)
    ensures r.Ok? ==> r.value.identifier.Some? && r.value.ctype != Void && Ok(r.value) == MakeCType(decl)
    ensures MakeCType(decl).Err? ==> r == MakeCType(decl)
    ensures MakeCType(decl).Ok? && MakeCType(decl).value.identifier.None? ==>
              r == Err(if decl.specs == [] then Crashed(NoSpecifier) else RaiseError(MissingIdentifier))
    ensures MakeCType(decl).Ok? && MakeCType(decl).value.identifier.Some? && MakeCType(decl).value.ctype == Void ==>
              r == Err(RaiseError(VoidVariable))
  {
    match MakeCType(decl)
    case Err(a) => Err(a)
    case Ok(d) =>
      if d.identifier.None? then Err(if decl.specs == [] then Crashed(NoSpecifier) else RaiseError(MissingIdentifier))
      else if d.ctype == Void then Err(RaiseError(VoidVariable))
      else Ok(d)
  }

  /** How `_make_code` gives up once the variable is bound: an extern with an initializer
      raises, a static variable and a non-extern global are not supported. */
  function StorageError(storage: Storage, hasInit: bool, global: bool): (r: Option<Abort>)
    ensures r.None? <==> (storage == Extern && !hasInit) || (storage == Auto && !global)
  {
    match storage
    case Extern => if hasInit then Some(RaiseError(ExternInitializer)) else None
    case Static => Some(Crashed(StaticUnsupported))
    case Auto => if global then Some(Crashed(GlobalUnsupported)) else None
  }

  /** The registries after `_make_code` binds `v`: an extern is registered under its
      name, a local variable as a local, and anything else not at all. */
  function Registered(t: Tables, v: ILValue, d: Declared, global: bool): (r: Tables)
    requires d.identifier.Some?
    ensures r.literals == t.literals && r.strings == t.strings
    ensures d.storage == Extern ==> r.externs == t.externs[v := d.identifier.value.content] && r.locals == t.locals
    ensures d.storage == Auto && !global ==> r.locals == t.locals + {v} && r.externs == t.externs
    ensures d.storage == Static || (d.storage == Auto && global) ==> r == t
  {
    match d.storage
    case Extern => t.(externs := t.externs[v := d.identifier.value.content])
    case Static => t
    case Auto => if global then t else t.(locals := t.locals + {v})
  }

  class Lowerer {
    const il: ILCode
    const symbols: SymbolTable
    /** `error_collector`: the errors and warnings logged so far, in order. */
    var diagnostics: seq<Diagnostic>
    /** `Node.bin_match`: set once a literal in binary form has been read. */
    var binMatch: bool

    constructor(il: ILCode, symbols: SymbolTable)
      ensures this.il == il && this.symbols == symbols
      ensures diagnostics == [] && !binMatch
    {
      this.il := il;
      this.symbols := symbols;
      diagnostics := [];
      binMatch := false;
    }

    /** Logs a caught `CompilerError`. */
    method Log(e: CompilerError)
      modifies this
      ensures diagnostics == old(diagnostics) + [Diagnostic(e, false)]
      ensures binMatch == old(binMatch)
    {
      diagnostics := diagnostics + [Diagnostic(e, false)];
    }

    /** Logs a warning; lowering goes on. */
    method Warn(description: string)
      modifies this
      ensures diagnostics == old(diagnostics) + [Diagnostic(CompilerError(description, None, None), true)]
      ensures binMatch == old(binMatch)
    {
      diagnostics := diagnostics + [Diagnostic(CompilerError(description, None, None), true)];
    }

    /** `NumberNode.make_code_raw`: no command, a new value of the literal's type registered
        with the literal's value; the literal 0 is a null pointer constant. A text in binary
        form sets `bin_match` even when reading it then fails. */
    method NumberCode(text: string) returns (r: Result<ILValue, Abort>)
      modifies this, il
      ensures binMatch == (old(binMatch) || BinaryForm(text)) && diagnostics == old(diagnostics)
      ensures il.commands == old(il.commands) && il.labels == old(il.labels)
      ensures NumberValue(text).Err? ==> r == Err(NumberValue(text).error)
      ensures NumberValue(text).Ok? && LiteralType(NumberValue(text).value).None? ==>
                r == Err(RaiseError(TooLarge))
      ensures NumberValue(text).Ok? && LiteralType(NumberValue(text).value).Some? ==> r.Ok?
      ensures r.Err? ==> il.tables == old(il.tables)
      ensures r.Ok? ==>
                var v := NumberValue(text).value;
                NumberValue(text).Ok? && LiteralType(v).Some? &&
                fresh(r.value) && r.value.ctype == LiteralType(v).value &&
                (r.value.nullPtrConst <==> v == 0) &&
                il.tables == old(il.tables).(literals := old(il.tables).literals[r.value := IntLit(v)])
    {
      if BinaryForm(text) {
        binMatch := true;
      }
      var value := NumberValue(text);
      if value.Err? {
        r := Err(value.error);
      } else {
        var t := LiteralType(value.value);
        if t.None? {
          r := Err(RaiseError(TooLarge));
        } else {
          var v := new ILValue(t.value);
          il.RegisterLiteralVar(v, IntLit(value.value));
          if value.value == 0 {
            v.nullPtrConst := true;
          }
          r := Ok(v);
        }
      }
    }

    /** `make_integer_code` with the command table tree.py intends: both operands brought to
        their promoted type, then one command whose output has the promoted type, or `int`
        for `==` and `!=`. */
    method IntegerCode(op: TokenKind, left: ILValue, right: ILValue)
      returns (r: Result<ILValue, Abort>, leftCast: ILValue, rightCast: ILValue)
      requires IsArith(left.ctype) && IsArith(right.ctype)
      modifies il
      ensures var t := PromoType(left.ctype, right.ctype);
              leftCast.ctype == t && rightCast.ctype == t &&
              (left.ctype == t ==> leftCast == left) && (right.ctype == t ==> rightCast == right)
      ensures r.Ok? <==> CommandFor(op).Some?
      ensures r.Err? ==> r.error == Crashed(UnknownOperator)
      ensures var casts := Cast(left, PromoType(left.ctype, right.ctype), leftCast) +
                           Cast(right, PromoType(left.ctype, right.ctype), rightCast);
              if r.Ok? then
                fresh(r.value) &&
                r.value.ctype == (if IsComparison(CommandFor(op).value) then Integer
                                  else PromoType(left.ctype, right.ctype)) &&
                il.commands == old(il.commands) + casts + [Arith(CommandFor(op).value, r.value, leftCast, rightCast)]
              else il.commands == old(il.commands) + casts
      ensures il.tables == old(il.tables) && il.labels == old(il.labels)
    {
      var t := PromoType(left.ctype, right.ctype);
      leftCast := SetType(left, t, il);
      rightCast := SetType(right, t, il);
      var cmd := CommandFor(op);
      if cmd.None? {
        r := Err(Crashed(UnknownOperator));
      } else {
        var output := new ILValue(if IsComparison(cmd.value) then Integer else t);
        il.Add(Arith(cmd.value, output, leftCast, rightCast));
        r := Ok(output);
      }
    }
  
    /** `make_integer_code` as tree.py writes it: the command table names `Sub`,
        `BitwiseAnd`, `EqualCmp` and `NotEqualCmp`, which il_commands.py does not define, so
        building the table raises once the operands are cast, whatever the operator. */
    method IntegerCodeAsWritten(op: TokenKind, left: ILValue, right: ILValue)
      returns (r: Result<ILValue, Abort>, leftCast: ILValue, rightCast: ILValue)
      requires IsArith(left.ctype) && IsArith(right.ctype)
      modifies il
      ensures r == Err(Crashed(NoSubCommand))
      ensures var t := PromoType(left.ctype, right.ctype);
              leftCast.ctype == t && rightCast.ctype == t &&
              il.commands == old(il.commands) + Cast(left, t, leftCast) + Cast(right, t, rightCast)
      ensures il.tables == old(il.tables) && il.labels == old(il.labels)
    {
      var t := PromoType(left.ctype, right.ctype);
      leftCast := SetType(left, t, il);
      rightCast := SetType(right, t, il);
      r := Err(Crashed(NoSubCommand));
    }

    /** `make_plus_code` (`op` = AddOp) and `make_bitwise_and_code` (`op` = BitAndOp) for
        operands that are not both arithmetic: the integer operand is cast to `unsigned long`,
        multiplied by the size of the pointed-to type, and combined with the pointer into a
        value of the pointer's type. Anything but a pointer and an integer is an error. */
    method PointerOffsetCode(op: ArithOp, left: ILValue, right: ILValue)
      returns (r: Result<ILValue, Abort>, cast: ILValue?, shift: ILValue?, size: ILValue?)
      requires op == AddOp || op == BitAndOp
      modifies il
      ensures OffsetRoles(left.ctype, right.ctype).None? ==>
                r == Err(RaiseError(InvalidAddition)) && il.commands == old(il.commands) &&
                il.tables == old(il.tables)
      ensures OffsetRoles(left.ctype, right.ctype).Some? ==>
                var pointer := if IsPointer(left.ctype) && IsIntegral(right.ctype) then left else right;
                var arith := if IsPointer(left.ctype) && IsIntegral(right.ctype) then right else left;
                r.Ok? && fresh(r.value) && r.value.ctype == pointer.ctype &&
                cast != null && shift != null && size != null && fresh(shift) && fresh(size) &&
                cast.ctype == UnsignLongInt && shift.ctype == UnsignLongInt && size.ctype == UnsignLongInt &&
                il.tables == old(il.tables).(literals := old(il.tables).literals[size := SizeLiteral(pointer.ctype.kind.arg)]) &&
                il.commands == old(il.commands) + Cast(arith, UnsignLongInt, cast) +
                               [Arith(MultOp, shift, cast, size), Arith(op, r.value, pointer, shift)]
      ensures il.labels == old(il.labels)
    {
      var roles := OffsetRoles(left.ctype, right.ctype);
      if roles.None? {
        r, cast, shift, size := Err(RaiseError(InvalidAddition)), null, null, null;
      } else {
        var pointer := if roles.value then left else right;
        var arith := if roles.value then right else left;
        cast := SetType(arith, UnsignLongInt, il);
        shift := new ILValue(UnsignLongInt);
        var out := new ILValue(pointer.ctype);
        size := new ILValue(UnsignLongInt);
        il.RegisterLiteralVar(size, SizeLiteral(pointer.ctype.kind.arg));
        il.Add(Arith(MultOp, shift, cast, size));
        il.Add(Arith(op, out, pointer, shift));
        r := Ok(out);
      }
    }

    /** `make_minus_code` for operands that are not both arithmetic. The difference of two
        pointers to compatible types is their raw difference divided by the size of the
        pointed-to type, a `long`; a pointer minus an integer subtracts the integer, cast to
        `long`, times that size. Anything else is an error. */
    method MinusCode(left: ILValue, right: ILValue)
      returns (r: Result<ILValue, Abort>, raw: ILValue?, size: ILValue?, shift: ILValue?)
      modifies il
      ensures IsPointer(left.ctype) && IsPointer(right.ctype) && Compatible(left.ctype, right.ctype) ==>
                r.Ok? && fresh(r.value) && r.value.ctype == LongInt &&
                raw != null && size != null && fresh(raw) && fresh(size) &&
                raw.ctype == LongInt && size.ctype == LongInt &&
                il.tables == old(il.tables).(literals := old(il.tables).literals[size := SizeLiteral(left.ctype.kind.arg)]) &&
                il.commands == old(il.commands) + [Arith(SubOp, raw, left, right), Arith(DivOp, r.value, raw, size)]
      ensures IsPointer(left.ctype) && !(IsPointer(right.ctype) && Compatible(left.ctype, right.ctype)) &&
              IsIntegral(right.ctype) ==>
                r.Ok? && fresh(r.value) && r.value.ctype == left.ctype &&
                raw != null && size != null && shift != null && fresh(size) && fresh(shift) &&
                raw.ctype == LongInt && size.ctype == LongInt && shift.ctype == LongInt &&
                il.tables == old(il.tables).(literals := old(il.tables).literals[size := SizeLiteral(left.ctype.kind.arg)]) &&
                il.commands == old(il.commands) + Cast(right, LongInt, raw) +
                               [Arith(MultOp, shift, raw, size), Arith(SubOp, r.value, left, shift)]
      ensures !(IsPointer(left.ctype) && IsPointer(right.ctype) && Compatible(left.ctype, right.ctype)) &&
              !(IsPointer(left.ctype) && IsIntegral(right.ctype)) ==>
                r == Err(RaiseError(InvalidSubtraction)) && il.commands == old(il.commands) &&
                il.tables == old(il.tables)
      ensures il.labels == old(il.labels)
    {
      if IsPointer(left.ctype) && IsPointer(right.ctype) && Compatible(left.ctype, right.ctype) {
        raw := new ILValue(LongInt);
        il.Add(Arith(SubOp, raw, left, right));
        var out := new ILValue(LongInt);
        size := new ILValue(LongInt);
        il.RegisterLiteralVar(size, SizeLiteral(left.ctype.kind.arg));
        il.Add(Arith(DivOp, out, raw, size));
        r, shift := Ok(out), null;
      } else if IsPointer(left.ctype) && IsIntegral(right.ctype) {
        var out := new ILValue(left.ctype);
        raw := SetType(right, LongInt, il);
        shift := new ILValue(LongInt);
        size := new ILValue(LongInt);
        il.RegisterLiteralVar(size, SizeLiteral(left.ctype.kind.arg));
        il.Add(Arith(MultOp, shift, raw, size));
        il.Add(Arith(SubOp, out, left, shift));
        r := Ok(out);
      } else {
        r, raw, size, shift := Err(RaiseError(InvalidSubtraction)), null, null, null;
      }
    }

    /** `make_equality_code` for operands that are not both arithmetic: the operands are cast
        to the types `EqualityTypes` gives, its warning is logged, and the comparison's
        output is an `int`. */
    method EqualityCode(op: ArithOp, left: ILValue, right: ILValue)
      returns (r: ILValue, leftFinal: ILValue, rightFinal: ILValue)
      requires IsComparison(op)
      modifies this, il
      ensures var (lt, rt, warning) := EqualityTypes(left.ctype, left.nullPtrConst, right.ctype, right.nullPtrConst);
              leftFinal.ctype == lt && rightFinal.ctype == rt &&
              diagnostics == old(diagnostics) +
                (if warning.Some? then [Diagnostic(CompilerError(warning.value, None, None), true)] else [])
      ensures fresh(r) && r.ctype == Integer
      ensures il.commands == old(il.commands) + Cast(left, leftFinal.ctype, leftFinal) +
                             Cast(right, rightFinal.ctype, rightFinal) + [Arith(op, r, leftFinal, rightFinal)]
      ensures il.tables == old(il.tables) && il.labels == old(il.labels) && binMatch == old(binMatch)
    {
      leftFinal, rightFinal := left, right;
      if IsPointer(left.ctype) && right.nullPtrConst {
        rightFinal := SetType(right, left.ctype, il);
      } else if IsPointer(right.ctype) && left.nullPtrConst {
        leftFinal := SetType(left, right.ctype, il);
      }
      if !IsPointer(leftFinal.ctype) || !IsPointer(rightFinal.ctype) {
        Warn(Incomparable);
      } else if IsVoid(leftFinal.ctype.kind.arg) {
        rightFinal := SetType(rightFinal, leftFinal.ctype, il);
      } else if IsVoid(rightFinal.ctype.kind.arg) {
        leftFinal := SetType(leftFinal, rightFinal.ctype, il);
      } else if !Compatible(leftFinal.ctype, rightFinal.ctype) {
        Warn(DistinctPointers);
      }
      r := new ILValue(Integer);
      il.Add(Arith(op, r, leftFinal, rightFinal));
    }

    /** `IncrDecr._make_code` once the operand's value and lvalue are known. The operand
        must be a modifiable lvalue. The step is a literal 1 for an arithmetic operand and
        the pointed-to size for a pointer; any other operand type is not supported. The new
        value is stored back; a prefix operator yields it, a postfix one a copy of the old
        value taken first. */
    method IncrDecrCode(incr: bool, pre: bool, val: ILValue, lval: Option<LValue>)
      returns (r: Result<ILValue, Abort>, one: ILValue?, newVal: ILValue?)
      modifies il
      ensures lval.None? || !Modable(lval.value) ==>
                r == Err(RaiseError(NotModifiable)) && il.commands == old(il.commands) &&
                il.tables == old(il.tables)
      ensures lval.Some? && Modable(lval.value) && !IsArith(val.ctype) && !IsPointer(val.ctype) ==>
                r == Err(Crashed(UnsupportedOperands)) && il.commands == old(il.commands) &&
                il.tables == old(il.tables)
      ensures lval.Some? && Modable(lval.value) && (IsArith(val.ctype) || IsPointer(val.ctype)) ==>
                var op := if incr then AddOp else SubOp;
                r.Ok? && fresh(r.value) && r.value.ctype == val.ctype &&
                one != null && newVal != null && fresh(one) && fresh(newVal) &&
                one.ctype == val.ctype && newVal.ctype == val.ctype &&
                il.tables == old(il.tables).(literals := old(il.tables).literals[one := StepLiteral(val.ctype)]) &&
                if pre then
                  r.value == newVal &&
                  il.commands == old(il.commands) + [Arith(op, newVal, val, one), SetTo(lval.value, newVal)]
                else
                  r.value != newVal && r.value != one &&
                  il.commands == old(il.commands) + [Set(r.value, val), Arith(op, newVal, val, one), SetTo(lval.value, newVal)]
      ensures il.labels == old(il.labels)
    {
      var op := if incr then AddOp else SubOp;
      if lval.None? || !Modable(lval.value) {
        r, one, newVal := Err(RaiseError(NotModifiable)), null, null;
      } else if !IsArith(val.ctype) && !IsPointer(val.ctype) {
        r, one, newVal := Err(Crashed(UnsupportedOperands)), null, null;
      } else {
        one := new ILValue(val.ctype);
        il.RegisterLiteralVar(one, StepLiteral(val.ctype));
        newVal := new ILValue(val.ctype);
        if pre {
          il.Add(Arith(op, newVal, val, one));
          var _ := LValueSetTo(lval.value, newVal, il);
          r := Ok(newVal);
        } else {
          var oldVal := new ILValue(val.ctype);
          il.Add(Set(oldVal, val));
          il.Add(Arith(op, newVal, val, one));
          var _ := LValueSetTo(lval.value, newVal, il);
          r := Ok(oldVal);
        }
      }
    }

    /** Array decay (`ExpressionNode.make_code` for an lvalue of array type): the address of
        the array, converted to a pointer to its first element. */
    method DecayCode(lv: LValue) returns (r: ILValue, addr: ILValue)
      requires IsArray(LValueType(lv))
      modifies il
      ensures fresh(r) && fresh(addr) && r != addr
      ensures r.ctype == CType(PointerKind(LValueType(lv).kind.elem), false)
      ensures addr.ctype == CType(PointerKind(LValueType(lv)), false)
      ensures il.commands == old(il.commands) + [AddrOf(addr, lv), Set(r, addr)]
      ensures il.tables == old(il.tables) && il.labels == old(il.labels)
    {
      addr := LValueAddr(lv, il);
      var elem := LValueType(lv).kind.elem;
      assert Depth(elem) < Depth(LValueType(lv));
      r := SetType(addr, CType(PointerKind(elem), false), il);
    }

    /** The value of an object reached through a pointer (`make_code_raw` of `DerefNode` and
        `ArraySubscriptNode`): a new value of the pointed-to type, read from the address. */
    method ReadAtCode(addr: ILValue) returns (r: ILValue)
      requires IsPointer(addr.ctype)
      modifies il
      ensures fresh(r) && r.ctype == addr.ctype.kind.arg
      ensures il.commands == old(il.commands) + [ReadAt(r, addr)]
      ensures il.tables == old(il.tables) && il.labels == old(il.labels)
    {
      r := new ILValue(addr.ctype.kind.arg);
      il.Add(ReadAt(r, addr));
    }

    /** The address `ArraySubscriptNode.lvalue` computes once both operands are known: the
        pointer operand plus the integer operand, cast to `unsigned long`, times the
        pointed-to size. Either operand may be the pointer; anything else is an error. */
    method SubscriptAddress(head: ILValue, arg: ILValue)
      returns (r: Result<ILValue, Abort>, cast: ILValue?, shift: ILValue?, size: ILValue?)
      modifies il
      ensures OffsetRoles(head.ctype, arg.ctype).None? ==>
                r == Err(RaiseError(InvalidSubscript)) && il.commands == old(il.commands) &&
                il.tables == old(il.tables)
      ensures OffsetRoles(head.ctype, arg.ctype).Some? ==>
                var pointer := if IsPointer(head.ctype) then head else arg;
                var arith := if IsPointer(head.ctype) then arg else head;
                r.Ok? && fresh(r.value) && r.value.ctype == pointer.ctype && IsPointer(r.value.ctype) &&
                cast != null && shift != null && size != null && fresh(shift) && fresh(size) &&
                cast.ctype == UnsignLongInt && shift.ctype == UnsignLongInt && size.ctype == UnsignLongInt &&
                il.tables == old(il.tables).(literals := old(il.tables).literals[size := SizeLiteral(pointer.ctype.kind.arg)]) &&
                il.commands == old(il.commands) + Cast(arith, UnsignLongInt, cast) +
                               [Arith(MultOp, shift, cast, size), Arith(AddOp, r.value, pointer, shift)]
      ensures il.labels == old(il.labels)
    {
      if OffsetRoles(head.ctype, arg.ctype).None? {
        r, cast, shift, size := Err(RaiseError(InvalidSubscript)), null, null, null;
      } else {
        var pointer := if IsPointer(head.ctype) then head else arg;
        var arith := if IsPointer(head.ctype) then arg else head;
        cast := SetType(arith, UnsignLongInt, il);
        shift := new ILValue(UnsignLongInt);
        var out := new ILValue(pointer.ctype);
        size := new ILValue(UnsignLongInt);
        il.RegisterLiteralVar(size, SizeLiteral(pointer.ctype.kind.arg));
        il.Add(Arith(MultOp, shift, cast, size));
        il.Add(Arith(AddOp, out, pointer, shift));
        r := Ok(out);
      }
    }

    /** The parts of the lowering's state that lowering an expression only adds to. */
    ghost function Now(): Progress
      reads this, il
    {
      Progress(il.commands, il.labels, diagnostics, binMatch)
    }

    /** `ExpressionNode.make_code`: the lvalue first, then the value, an array decayed to a
        pointer to its first element. The lvalue is returned too, for `IncrDecr`, which asks
        for it again and gets the cached one. */
    method Evaluate(ghost scopes: Scopes, e: Expr) returns (r: Result<ILValue, Abort>, lv: Option<LValue>)
      requires scopes == symbols.scopes
      modifies this, il
      decreases e, 3
      ensures Grows(old(Now()), Now())
      ensures r.Ok? ==> TypeOf(e, scopes) == Ok(r.value.ctype) &&
                        LvTypeOf(e, scopes) == Ok(LvTypes(lv))
      ensures r.Err? ==> TypeOf(e, scopes) == Err(r.error)
    {
      LvTypeFirst(e, scopes);
      var l := LValueOf(scopes, e);
      if l.Err? {
        r, lv := Err(l.error), None;
      } else {
        lv := l.value;
        r := EvaluateWith(scopes, e, lv);
      }
    }

    /** `make_code` once the lvalue is known: decay, or `make_code_raw`, which for a node with
        an lvalue form reads through that same lvalue. */
    method EvaluateWith(ghost scopes: Scopes, e: Expr, lv: Option<LValue>) returns (r: Result<ILValue, Abort>)
      requires LvShape(e, lv) && LvTypeOf(e, scopes) == Ok(LvTypes(lv))
      requires scopes == symbols.scopes
      modifies this, il
      decreases e, 2
      ensures Grows(old(Now()), Now())
      ensures r.Ok? ==> TypeOf(e, scopes) == Ok(r.value.ctype)
      ensures r.Err? ==> TypeOf(e, scopes) == Err(r.error)
    {
      LvTypeFirst(e, scopes);
      if lv.Some? && IsArray(LValueType(lv.value)) {
        var v, _ := DecayCode(lv.value);
        r := Ok(v);
      } else {
        match e
        case ParenExprNode(x) =>
          r := EvaluateWith(scopes, x, lv);
        case IdentifierNode(_) =>
          r := Ok(lv.value.variable);
        case StringNode(_) =>
          assert false;
        case DerefNode(_, _) =>
          var v := ReadAtCode(lv.value.addr);
          r := Ok(v);
        case ArraySubscriptNode(_, _, _) =>
          var v := ReadAtCode(lv.value.addr);
          r := Ok(v);
        case NumberNode(text) =>
          r := NumberCode(text);
        case BinaryOperatorNode(_, _, _) =>
          r := BinaryCode(scopes, e);
        case IncrDecrNode(_, _, _, _) =>
          r := IncrDecrNodeCode(scopes, e);
        case BoolNotNode(_, _) =>
          var res, _, _, _, _, _ := BoolNotCode(scopes, e);
          r := res;
        case AddrOfNode(_, _) =>
          r := AddrOfCode(scopes, e);
      }
    }

    /** `lvalue()`: a string registers its characters and designates the new array value; an
        identifier designates the variable it names; a dereference evaluates its operand,
        which must be a pointer; a subscript evaluates both operands and computes the
        element's address. Other nodes have no lvalue and lower nothing. */
    method LValueOf(ghost scopes: Scopes, e: Expr) returns (r: Result<Option<LValue>, Abort>)
      requires scopes == symbols.scopes
      modifies this, il
      decreases e, 1
      ensures Grows(old(Now()), Now())
      ensures r.Ok? ==> LvTypeOf(e, scopes) == Ok(LvTypes(r.value)) && LvShape(e, r.value)
      ensures r.Err? ==> LvTypeOf(e, scopes) == Err(r.error)
    {
      match e
      case StringNode(chars) =>
        var v := new ILValue(CType(ArrayKind(Char, Some(|chars|)), false));
        il.RegisterStringLiteral(v, chars);
        r := Ok(Some(Direct(v)));
      case IdentifierNode(identifier) =>
        var found := symbols.LookupTok(identifier);
        r := if found.Ok? then Ok(Some(Direct(found.value))) else Err(Raised(found.error));
      case ParenExprNode(x) =>
        r := LValueOf(scopes, x);
      case DerefNode(x, _) =>
        var addr, _ := Evaluate(scopes, x);
        if addr.Err? {
          r := Err(addr.error);
        } else if !IsPointer(addr.value.ctype) {
          r := Err(RaiseError(DerefNeedsPointer));
        } else {
          r := Ok(Some(Indirect(addr.value)));
        }
      case ArraySubscriptNode(_, _, _) =>
        r := SubscriptLValue(scopes, e);
      case _ =>
        r := Ok(None);
    }

    /** `ArraySubscriptNode.lvalue`: both operands lowered, head first, then the element's
        address. */
    method SubscriptLValue(ghost scopes: Scopes, e: Expr) returns (r: Result<Option<LValue>, Abort>)
      requires e.ArraySubscriptNode?
      requires scopes == symbols.scopes
      modifies this, il
      decreases e, 0
      ensures Grows(old(Now()), Now())
      ensures r.Ok? ==> LvTypeOf(e, scopes) == Ok(LvTypes(r.value)) && LvShape(e, r.value)
      ensures r.Err? ==> LvTypeOf(e, scopes) == Err(r.error)
    {
      var h, _ := Evaluate(scopes, e.head);
      if h.Err? {
        r := Err(h.error);
        return;
      }
      var a, _ := Evaluate(scopes, e.arg);
      if a.Err? {
        r := Err(a.error);
        return;
      }
      var addr, _, _, _ := SubscriptAddress(h.value, a.value);
      r := if addr.Err? then Err(addr.error) else Ok(Some(Indirect(addr.value)));
    }

    /** `BinaryOperatorNode.make_code_raw`: `=` lowers its right side and then takes the
        left side's lvalue, which must be modifiable; `&&` and `||` short-circuit; any other
        operator lowers both operands, left first, and combines them. */
    method BinaryCode(ghost scopes: Scopes, e: Expr) returns (r: Result<ILValue, Abort>)
      requires e.BinaryOperatorNode?
      requires scopes == symbols.scopes
      modifies this, il
      decreases e, 1
      ensures Grows(old(Now()), Now())
      ensures r.Ok? ==> TypeOf(e, scopes) == Ok(r.value.ctype)
      ensures r.Err? ==> TypeOf(e, scopes) == Err(r.error)
    {
      var op := e.operator.kind;
      if op == Equals {
        var right, _ := Evaluate(scopes, e.right);
        if right.Err? {
          r := Err(right.error);
          return;
        }
        var lv := LValueOf(scopes, e.left);
        if lv.Err? {
          r := Err(lv.error);
        } else if lv.value.Some? && Modable(lv.value.value) {
          var v := LValueSetTo(lv.value.value, right.value, il);
          r := Ok(v);
        } else {
          r := Err(RaiseError(NotAssignable));
        }
      } else if op == BoolAnd || op == BoolOr {
        var res, _, _, _, _, _, _, _, _ := AndOrCode(scopes, e);
        r := res;
      } else {
        var left, _ := Evaluate(scopes, e.left);
        if left.Err? {
          r := Err(left.error);
          return;
        }
        var right, _ := Evaluate(scopes, e.right);
        if right.Err? {
          r := Err(right.error);
          return;
        }
        r := OperandsCode(op, left.value, right.value);
      }
    }

    /** The rest of `make_code_raw` once both operands are lowered: `make_integer_code` for
        two arithmetic operands, else `make_equality_code`, `make_plus_code`,
        `make_bitwise_and_code` or `make_minus_code` by operator; `*` and `/` of anything
        else raise, and any other operator is not supported. */
    method OperandsCode(k: TokenKind, left: ILValue, right: ILValue) returns (r: Result<ILValue, Abort>)
      modifies this, il
      ensures Grows(old(Now()), Now())
      ensures r.Ok? ==> OperatorType(k, left.ctype, right.ctype) == Ok(r.value.ctype)
      ensures r.Err? ==> OperatorType(k, left.ctype, right.ctype) == Err(r.error)
    {
      if IsArith(left.ctype) && IsArith(right.ctype) {
        var res, _, _ := IntegerCode(k, left, right);
        r := res;
      } else {
        r := MixedOperandsCode(k, left, right);
      }
    }

    /** The operators that accept operands that are not both arithmetic: comparisons,
        `+`, `&` and `-`. */
    method MixedOperandsCode(k: TokenKind, left: ILValue, right: ILValue) returns (r: Result<ILValue, Abort>)
      requires !(IsArith(left.ctype) && IsArith(right.ctype))
      modifies this, il
      ensures Grows(old(Now()), Now())
      ensures r.Ok? ==> OperatorType(k, left.ctype, right.ctype) == Ok(r.value.ctype)
      ensures r.Err? ==> OperatorType(k, left.ctype, right.ctype) == Err(r.error)
    {
      if k == TwoEquals || k == NotEqual {
        var v := ComparisonCode(k == TwoEquals, left, right);
        r := Ok(v);
      } else if k == Plus || k == Amp {
        var res, _, _, _ := PointerOffsetCode(if k == Plus then AddOp else BitAndOp, left, right);
        r := res;
      } else if k == Minus {
        var res, _, _, _ := MinusCode(left, right);
        r := res;
      } else if k == Star {
        r := Err(RaiseError(InvalidMultiplication));
      } else if k == Slash {
        r := Err(RaiseError(InvalidDivision));
      } else {
        r := Err(Crashed(UnsupportedOperands));
      }
    }

    /** The values `&&`, `||` and `!` start from: a fresh `int` output and the literals 0
        and 1, registered before any operand is lowered. */
    method TruthValues() returns (out: ILValue, zero: ILValue, one: ILValue)
      modifies il
      ensures fresh(out) && fresh(zero) && fresh(one)
      ensures out.ctype == Integer && zero.ctype == Integer && one.ctype == Integer
      ensures il.tables == old(il.tables).(literals := old(il.tables).literals[zero := TextLit("0")][one := TextLit("1")])
      ensures il.commands == old(il.commands) && il.labels == old(il.labels)
    {
      out := new ILValue(Integer);
      zero := new ILValue(Integer);
      il.RegisterLiteralVar(zero, TextLit("0"));
      one := new ILValue(Integer);
      il.RegisterLiteralVar(one, TextLit("1"));
    }

    /** `==` (`equal`) or `!=` of operands that are not both arithmetic: an `int`, with at
        most a warning logged. */
    method ComparisonCode(equal: bool, left: ILValue, right: ILValue) returns (r: ILValue)
      modifies this, il
      ensures Grows(old(Now()), Now())
      ensures r.ctype == Integer
    {
      var v, _, _ := EqualityCode(if equal then EqualOp else NotEqualOp, left, right);
      r := v;
    }

    /** `make_bool_andor_code`: the output and the two literals are made and both labels
        taken before either operand is lowered; the code is `AndOrCommands` around the
        operands' own code. */
    method AndOrCode(ghost scopes: Scopes, e: Expr)
      returns (r: Result<ILValue, Abort>, ghost zero: ILValue?, ghost one: ILValue?,
               ghost left: ILValue?, ghost leftCode: seq<ILCommand>,
               ghost right: ILValue?, ghost rightCode: seq<ILCommand>, setOut: nat, end: nat)
      requires e.BinaryOperatorNode? && (e.operator.kind == BoolAnd || e.operator.kind == BoolOr)
      requires scopes == symbols.scopes
      modifies this, il
      decreases e, 0
      ensures Grows(old(Now()), Now())
      ensures r.Ok? ==> TypeOf(e, scopes) == Ok(r.value.ctype)
      ensures r.Err? ==> TypeOf(e, scopes) == Err(r.error)
      ensures setOut == old(il.labels) && end == old(il.labels) + 1
      ensures r.Ok? ==>
                zero != null && one != null && left != null && right != null && r.value.ctype == Integer &&
                il.commands == old(il.commands) +
                  AndOrCommands(e.operator.kind == BoolAnd, r.value, zero, one, left, leftCode, right, rightCode, setOut, end)
    {
      AndOrType(e, scopes);
      left, right, leftCode, rightCode := null, null, [], [];
      var andop := e.operator.kind == BoolAnd;
      var out, z, o := TruthValues();
      zero, one := z, o;
      setOut := il.GetLabel();
      end := il.GetLabel();
      ghost var p0 := Now();
      var l, _ := Evaluate(scopes, e.left);
      GrowsTrans(old(Now()), p0, Now());
      if l.Err? {
        r := Err(l.error);
        return;
      }
      SplitCode(p0.commands, il.commands);
      left, leftCode := l.value, il.commands[|p0.commands|..];
      var mid := [Set(out, if andop then o else z), ShortJump(andop, l.value, setOut)];
      il.AddAll(mid);
      ghost var p1 := Now();
      GrowsTrans(old(Now()), p0, p1);
      var rt, _ := Evaluate(scopes, e.right);
      GrowsTrans(old(Now()), p1, Now());
      if rt.Err? {
        r := Err(rt.error);
        return;
      }
      SplitCode(p1.commands, il.commands);
      right, rightCode := rt.value, il.commands[|p1.commands|..];
      ghost var p2 := Now();
      var tail := [ShortJump(andop, rt.value, setOut), Jump(end), Label(setOut), Set(out, if andop then z else o), Label(end)];
      il.AddAll(tail);
      JoinCode(old(il.commands), leftCode, mid, rightCode, tail);
      GrowsTrans(old(Now()), p2, Now());
      r := Ok(out);
    }

    /** `BoolNotNode.make_code_raw`: the output and the two literals are made and the label
        taken before the operand is lowered; the code is `BoolNotCommands` after the
        operand's own code. */
    method BoolNotCode(ghost scopes: Scopes, e: Expr)
      returns (r: Result<ILValue, Abort>, ghost zero: ILValue?, ghost one: ILValue?,
               ghost operand: ILValue?, ghost operandCode: seq<ILCommand>, end: nat)
      requires e.BoolNotNode?
      requires scopes == symbols.scopes
      modifies this, il
      decreases e, 0
      ensures Grows(old(Now()), Now())
      ensures r.Ok? ==> TypeOf(e, scopes) == Ok(r.value.ctype)
      ensures r.Err? ==> TypeOf(e, scopes) == Err(r.error)
      ensures end == old(il.labels)
      ensures r.Ok? ==>
                zero != null && one != null && operand != null && r.value.ctype == Integer &&
                il.commands == old(il.commands) +
                  BoolNotCommands(r.value, zero, one, operand, operandCode, end)
    {
      operand, operandCode := null, [];
      var out, z, o := TruthValues();
      zero, one := z, o;
      end := il.GetLabel();
      ghost var p0 := Now();
      var v, _ := Evaluate(scopes, e.expr);
      GrowsTrans(old(Now()), p0, Now());
      if v.Err? {
        r := Err(v.error);
        return;
      }
      SplitCode(p0.commands, il.commands);
      operand, operandCode := v.value, il.commands[|p0.commands|..];
      ghost var p1 := Now();
      var tail := [Set(out, o), JumpZero(v.value, end), Set(out, z), Label(end)];
      il.AddAll(tail);
      assert il.commands == p0.commands + operandCode + tail;
      GrowsTrans(old(Now()), p1, Now());
      r := Ok(out);
    }

    /** `AddrOfNode.make_code_raw`: the address of the operand's lvalue; an operand without
        one raises. */
    method AddrOfCode(ghost scopes: Scopes, e: Expr) returns (r: Result<ILValue, Abort>)
      requires e.AddrOfNode?
      requires scopes == symbols.scopes
      modifies this, il
      decreases e, 0
      ensures Grows(old(Now()), Now())
      ensures r.Ok? ==> TypeOf(e, scopes) == Ok(r.value.ctype)
      ensures r.Err? ==> TypeOf(e, scopes) == Err(r.error)
    {
      var lv := LValueOf(scopes, e.expr);
      if lv.Err? {
        r := Err(lv.error);
      } else if lv.value.None? {
        r := Err(RaiseError(AddrOfNeedsLValue));
      } else {
        var v := LValueAddr(lv.value.value, il);
        r := Ok(v);
      }
    }

    /** `IncrDecr._make_code`: the operand's value, then its (cached) lvalue, then
        `IncrDecrCode`. */
    method IncrDecrNodeCode(ghost scopes: Scopes, e: Expr) returns (r: Result<ILValue, Abort>)
      requires e.IncrDecrNode?
      requires scopes == symbols.scopes
      modifies this, il
      decreases e, 0
      ensures Grows(old(Now()), Now())
      ensures r.Ok? ==> TypeOf(e, scopes) == Ok(r.value.ctype)
      ensures r.Err? ==> TypeOf(e, scopes) == Err(r.error)
    {
      var val, lval := Evaluate(scopes, e.expr);
      if val.Err? {
        r := Err(val.error);
      } else {
        var res, _, _ := IncrDecrCode(e.incr, e.pre, val.value, lval);
        r := res;
      }
    }

    /** `make_code` of a statement-level node, or `make_code_global` when `global`, which
        only a declaration treats differently. A `CompilerError` that the node does not
        catch itself is returned as `Raised`; the caller logs it. */
    method StatementCode(n: Node, global: bool) returns (r: Result<(), Abort>)
      requires symbols.Valid()
      modifies this, il, symbols
      decreases n, 3
      ensures Extends(old(Now()), Now())
      ensures r.Ok? || r.error.Raised? ==> InnerOnly(old(symbols.scopes), symbols.scopes)
      ensures n.CompoundNode? || n.IfStatementNode? || n.DeclarationNode? || n.RootNode? ==>
                r.Err? ==> r.error.Crashed?
    {
      match n
      case RootNode(_) =>
        r := RootCode(n);
      case MainNode(_) =>
        r := MainCode(n);
      case CompoundNode(_) =>
        r := CompoundCode(n);
      case ReturnNode(_, _) =>
        ghost var p := Now();
        var res, _, _, _ := ReturnCode(n);
        GrowsExtends(p, Now());
        r := res;
      case IfStatementNode(_, _, _) =>
        r := IfCode(n);
      case ExprStatementNode(_) =>
        ghost var p := Now();
        r := ExprStatementCode(n);
        GrowsExtends(p, Now());
      case DeclarationNode(_, _) =>
        r := DeclarationCode(n, global);
    }

    /** `ExprStatementNode.make_code`: the expression's code; its value is dropped. */
    method ExprStatementCode(n: Node) returns (r: Result<(), Abort>)
      requires n.ExprStatementNode?
      modifies this, il
      ensures Grows(old(Now()), Now())
      ensures r.Ok? <==> TypeOf(n.expr, symbols.scopes).Ok?
      ensures r.Err? ==> TypeOf(n.expr, symbols.scopes) == Err(r.error)
    {
      var v, _ := Evaluate(symbols.scopes, n.expr);
      r := if v.Ok? then Ok(()) else Err(v.error);
    }

    /** `ReturnNode.make_code`: the value, converted to `int`, is returned. */
    method ReturnCode(n: Node)
      returns (r: Result<(), Abort>, ghost value: ILValue?, ghost valueCode: seq<ILCommand>, ghost result: ILValue?)
      requires n.ReturnNode?
      modifies this, il
      ensures Grows(old(Now()), Now())
      ensures r.Ok? <==> TypeOf(n.value, symbols.scopes).Ok?
      ensures r.Err? ==> TypeOf(n.value, symbols.scopes) == Err(r.error)
      ensures r.Ok? ==>
                value != null && result != null &&
                value.ctype == TypeOf(n.value, symbols.scopes).value && result.ctype == Integer &&
                il.commands == old(il.commands) + ReturnCommands(value, valueCode, result)
    {
      value, valueCode, result := null, [], null;
      ghost var p0 := Now();
      var v, _ := Evaluate(symbols.scopes, n.value);
      if v.Err? {
        r := Err(v.error);
        return;
      }
      SplitCode(p0.commands, il.commands);
      value, valueCode := v.value, il.commands[|p0.commands|..];
      ghost var p1 := Now();
      var w := SetType(v.value, Integer, il);
      il.Add(Return(w));
      GrowsTrans(old(Now()), p1, Now());
      result := w;
      r := Ok(());
    }

    /** `IfStatementNode.make_code`: `IfBranches`, with a `CompilerError` logged. */
    method IfCode(n: Node) returns (r: Result<(), Abort>)
      requires n.IfStatementNode? && symbols.Valid()
      modifies this, il, symbols
      decreases n, 2
      ensures Extends(old(Now()), Now())
      ensures r.Err? ==> r.error.Crashed?
      ensures r.Ok? ==> InnerOnly(old(symbols.scopes), symbols.scopes)
    {
      var res, _, _, _, _, _, _ := IfBranches(n);
      if res.Err? && res.error.Raised? {
        ghost var p := Now();
        Log(res.error.error);
        ExtendsTrans(old(Now()), p, Now());
        r := Ok(());
      } else {
        r := res;
      }
    }

    /** The body of `IfStatementNode.make_code`'s `try`: the else label is taken before
        anything is lowered, then the condition and the jump on it are emitted. */
    method IfBranches(n: Node)
      returns (r: Result<(), Abort>, ghost condition: ILValue?, ghost condCode: seq<ILCommand>,
               ghost stmtCode: seq<ILCommand>, ghost elseCode: seq<ILCommand>, elseLabel: nat, endLabel: nat)
      requires n.IfStatementNode? && symbols.Valid()
      modifies this, il, symbols
      decreases n, 1
      ensures Extends(old(Now()), Now())
      ensures r.Ok? || r.error.Raised? ==> InnerOnly(old(symbols.scopes), symbols.scopes)
      ensures elseLabel == old(il.labels)
      ensures TypeOf(n.cond, old(symbols.scopes)).Err? ==> r == Err(TypeOf(n.cond, old(symbols.scopes)).error)
      ensures r.Ok? ==>
                condition != null && (n.elseStmt.Some? ==> elseLabel < endLabel) &&
                il.commands == old(il.commands) +
                  IfCommands(condition, condCode, elseLabel, stmtCode, n.elseStmt.Some?, elseCode, endLabel)
    {
      condition, condCode, stmtCode, elseCode, endLabel := null, [], [], [], 0;
      elseLabel := il.GetLabel();
      ghost var p0 := Now();
      var c, _ := Evaluate(symbols.scopes, n.cond);
      GrowsExtends(p0, Now());
      ExtendsTrans(old(Now()), p0, Now());
      if c.Err? {
        r := Err(c.error);
        return;
      }
      SplitCode(p0.commands, il.commands);
      condition, condCode := c.value, il.commands[|p0.commands|..];
      il.Add(JumpZero(c.value, elseLabel));
      ghost var p1 := Now();
      ExtendsTrans(old(Now()), p0, p1);
      r, stmtCode, elseCode, endLabel := IfBody(n, elseLabel);
      ExtendsTrans(old(Now()), p1, Now());
      JoinAround(old(il.commands), condCode, JumpZero(c.value, elseLabel), stmtCode,
                 ElseCommands(elseLabel, n.elseStmt.Some?, elseCode, endLabel));
    }

    /** The rest of `IfBranches`: the statement, then `ElseBranch` when there is an else
        branch, and the else label when there is none. */
    method IfBody(n: Node, elseLabel: nat)
      returns (r: Result<(), Abort>, ghost stmtCode: seq<ILCommand>, ghost elseCode: seq<ILCommand>, endLabel: nat)
      requires n.IfStatementNode? && symbols.Valid()
      modifies this, il, symbols
      decreases n, 0
      ensures Extends(old(Now()), Now())
      ensures r.Ok? || r.error.Raised? ==> InnerOnly(old(symbols.scopes), symbols.scopes)
      ensures r.Ok? ==>
                (n.elseStmt.Some? ==> old(il.labels) <= endLabel) &&
                il.commands == old(il.commands) + stmtCode + ElseCommands(elseLabel, n.elseStmt.Some?, elseCode, endLabel)
    {
      stmtCode, elseCode, endLabel := [], [], 0;
      ghost var p1 := Now();
      var s := StatementCode(n.stmt, false);
      if s.Err? {
        r := s;
        return;
      }
      SplitCode(p1.commands, il.commands);
      stmtCode := il.commands[|p1.commands|..];
      ghost var p2 := Now();
      if n.elseStmt.None? {
        il.Add(Label(elseLabel));
        r := Ok(());
      } else {
        r, elseCode, endLabel := ElseBranch(n.elseStmt.value, elseLabel);
      }
      ExtendsTrans(old(Now()), p2, Now());
    }

    /** The else branch of an `if`: the end label is taken, the jump to it and the else
        label are emitted, then the else statement and the end label. */
    method ElseBranch(elseStmt: Node, elseLabel: nat)
      returns (r: Result<(), Abort>, ghost elseCode: seq<ILCommand>, endLabel: nat)
      requires symbols.Valid()
      modifies this, il, symbols
      decreases elseStmt, 4
      ensures Extends(old(Now()), Now())
      ensures r.Ok? || r.error.Raised? ==> InnerOnly(old(symbols.scopes), symbols.scopes)
      ensures endLabel == old(il.labels)
      ensures r.Ok? ==> il.commands == old(il.commands) + ElseCommands(elseLabel, true, elseCode, endLabel)
    {
      elseCode := [];
      endLabel := il.GetLabel();
      il.AddAll([Jump(endLabel), Label(elseLabel)]);
      ghost var p2 := Now();
      var e := StatementCode(elseStmt, false);
      ExtendsTrans(old(Now()), p2, Now());
      if e.Err? {
        r := e;
        return;
      }
      SplitCode(p2.commands, il.commands);
      elseCode := il.commands[|p2.commands|..];
      ghost var p3 := Now();
      il.Add(Label(endLabel));
      ExtendsTrans(old(Now()), p3, Now());
      r := Ok(());
    }

    /** `CompoundNode.make_code`: the items in a new scope, each `CompilerError` logged and
        lowering going on with the next item; the scope is ended afterwards. */
    method CompoundCode(n: Node) returns (r: Result<(), Abort>)
      requires n.CompoundNode? && symbols.Valid()
      modifies this, il, symbols
      decreases n, 0
      ensures Extends(old(Now()), Now())
      ensures r.Err? ==> r.error.Crashed?
      ensures r.Ok? ==> symbols.scopes == old(symbols.scopes)
    {
      symbols.NewScope();
      var i := 0;
      while i < |n.items|
        invariant 0 <= i <= |n.items|
        invariant Extends(old(Now()), Now())
        invariant InnerOnly(old(symbols.scopes) + [map[]], symbols.scopes)
      {
        ghost var p := Now();
        ghost var s := symbols.scopes;
        var res := StatementCode(n.items[i], false);
        ExtendsTrans(old(Now()), p, Now());
        if res.Err? {
          if res.error.Crashed? {
            r := res;
            return;
          }
          ghost var q := Now();
          Log(res.error.error);
          ExtendsTrans(old(Now()), q, Now());
        }
        i := i + 1;
      }
      symbols.EndScope();
      r := Ok(());
    }

    /** `MainNode.make_code`: the body, then the return of 0 added after it. */
    method MainCode(n: Node) returns (r: Result<(), Abort>)
      requires n.MainNode? && symbols.Valid()
      modifies this, il, symbols
      decreases n, 0
      ensures Extends(old(Now()), Now())
      ensures r.Ok? || r.error.Raised? ==> InnerOnly(old(symbols.scopes), symbols.scopes)
      ensures r.Ok? ==> |il.commands| > 0 && il.commands[|il.commands| - 1].Return? &&
                        il.commands[|il.commands| - 1].arg.ctype == Integer
    {
      var body := StatementCode(n.body, false);
      if body.Err? {
        r := body;
        return;
      }
      ghost var p := Now();
      ZeroIsInt(symbols.scopes);
      var res, _, _, _ := ReturnCode(ReturnNode(NumberNode("0"), None));
      GrowsExtends(p, Now());
      ExtendsTrans(old(Now()), p, Now());
      r := res;
    }

    /** `RootNode.make_code`: every node lowered at file scope (`make_code_global`), each
        `CompilerError` logged and lowering going on with the next node. */
    method RootCode(n: Node) returns (r: Result<(), Abort>)
      requires n.RootNode? && symbols.Valid()
      modifies this, il, symbols
      decreases n, 0
      ensures Extends(old(Now()), Now())
      ensures r.Err? ==> r.error.Crashed?
      ensures r.Ok? ==> InnerOnly(old(symbols.scopes), symbols.scopes)
    {
      var i := 0;
      while i < |n.nodes|
        invariant 0 <= i <= |n.nodes|
        invariant Extends(old(Now()), Now())
        invariant InnerOnly(old(symbols.scopes), symbols.scopes)
      {
        ghost var p := Now();
        var res := StatementCode(n.nodes[i], true);
        ExtendsTrans(old(Now()), p, Now());
        if res.Err? {
          if res.error.Crashed? {
            r := res;
            return;
          }
          ghost var q := Now();
          Log(res.error.error);
          ExtendsTrans(old(Now()), q, Now());
        }
        i := i + 1;
      }
      r := Ok(());
    }

    /** `DeclarationNode._make_code`: the declarators with their initializers, paired up to
        the shorter list (`zip`), each `CompilerError` logged and lowering going on with the
        next declarator. */
    method DeclarationCode(n: Node, global: bool) returns (r: Result<(), Abort>)
      requires n.DeclarationNode? && symbols.Valid()
      modifies this, il, symbols
      ensures Extends(old(Now()), Now())
      ensures r.Err? ==> r.error.Crashed?
      ensures r.Ok? ==> InnerOnly(old(symbols.scopes), symbols.scopes)
    {
      var i := 0;
      while i < |n.decls| && i < |n.inits|
        invariant 0 <= i <= |n.decls|
        decreases |n.decls| - i
        invariant Extends(old(Now()), Now())
        invariant InnerOnly(old(symbols.scopes), symbols.scopes)
      {
        ghost var p := Now();
        var res := DeclaratorCode(n.decls[i], n.inits[i], global);
        ExtendsTrans(old(Now()), p, Now());
        if res.Err? {
          if res.error.Crashed? {
            r := res;
            return;
          }
          ghost var q := Now();
          Log(res.error.error);
          ExtendsTrans(old(Now()), q, Now());
        }
        i := i + 1;
      }
      r := Ok(());
    }

    /** One declarator of `_make_code`: the variable is declared, then initialized. */
    method DeclaratorCode(decl: DeclRoot, init: Option<Expr>, global: bool) returns (r: Result<(), Abort>)
      requires symbols.Valid()
      modifies this, il, symbols
      ensures Extends(old(Now()), Now())
      ensures InnerOnly(old(symbols.scopes), symbols.scopes)
      ensures DeclaredVar(decl).Err? ==> r == Err(DeclaredVar(decl).error)
    {
      var v, _ := DeclareCode(decl, init.Some?, global);
      if v.Err? {
        r := Err(v.error);
      } else if init.None? {
        r := Ok(());
      } else {
        ghost var p := Now();
        var res, _, _ := InitCode(v.value, init.value);
        GrowsExtends(p, Now());
        r := res;
      }
    }

    /** The declaring part of one declarator of `_make_code`: its type and identifier are
        checked, the variable is bound in the innermost scope, and it is registered as an
        extern or a local variable as its storage class and level say; a static variable, a
        non-extern global and an extern with an initializer give up after the binding. */
    method DeclareCode(decl: DeclRoot, hasInit: bool, global: bool) returns (r: Result<ILValue, Abort>, bound: ILValue?)
      requires symbols.Valid()
      modifies symbols, il
      ensures il.commands == old(il.commands) && il.labels == old(il.labels)
      ensures InnerOnly(old(symbols.scopes), symbols.scopes)
      ensures DeclaredVar(decl).Err? ==>
                r == Err(DeclaredVar(decl).error) && bound == null &&
                symbols.scopes == old(symbols.scopes) && il.tables == old(il.tables)
      ensures DeclaredVar(decl).Ok? ==>
                var d := DeclaredVar(decl).value;
                var top := |old(symbols.scopes)| - 1;
                bound != null && fresh(bound) && bound.ctype == d.ctype &&
                symbols.scopes[top] == old(symbols.scopes)[top][d.identifier.value.content := bound] &&
                il.tables == Registered(old(il.tables), bound, d, global) &&
                r == (if StorageError(d.storage, hasInit, global).Some? then Err(StorageError(d.storage, hasInit, global).value)
                      else Ok(bound))
    {
      var d := DeclaredVar(decl);
      if d.Err? {
        r, bound := Err(d.error), null;
        return;
      }
      var identifier := d.value.identifier.value;
      bound := symbols.Add(identifier, d.value.ctype);
      if d.value.storage == Extern {
        il.RegisterExternVar(bound, identifier.content);
        r := if hasInit then Err(RaiseError(ExternInitializer)) else Ok(bound);
      } else if d.value.storage == Static {
        r := Err(Crashed(StaticUnsupported));
      } else if global {
        r := Err(Crashed(GlobalUnsupported));
      } else {
        il.RegisterLocalVar(bound);
        r := Ok(bound);
      }
    }

    /** The initializing part of one declarator of `_make_code`: the initializer's value
        is stored into the variable when its type is assignable. */
    method InitCode(v: ILValue, init: Expr)
      returns (r: Result<(), Abort>, ghost value: ILValue?, ghost initCode: seq<ILCommand>)
      modifies this, il
      ensures Grows(old(Now()), Now())
      ensures TypeOf(init, symbols.scopes).Err? ==> r == Err(TypeOf(init, symbols.scopes).error)
      ensures TypeOf(init, symbols.scopes).Ok? ==>
                if ModableType(v.ctype) then
                  r.Ok? && value != null && value.ctype == TypeOf(init, symbols.scopes).value &&
                  il.commands == old(il.commands) + initCode + [SetTo(Direct(v), value)]
                else r == Err(RaiseError(DeclaredNotAssignable))
    {
      value, initCode := null, [];
      ghost var p0 := Now();
      var iv, _ := Evaluate(symbols.scopes, init);
      if iv.Err? {
        r := Err(iv.error);
        return;
      }
      if !Modable(Direct(v)) {
        r := Err(RaiseError(DeclaredNotAssignable));
        return;
      }
      SplitCode(p0.commands, il.commands);
      value, initCode := iv.value, il.commands[|p0.commands|..];
      ghost var p1 := Now();
      var _ := LValueSetTo(Direct(v), iv.value, il);
      GrowsTrans(old(Now()), p1, Now());
      r := Ok(());
    }
  }
}
