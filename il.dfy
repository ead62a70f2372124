/** The intermediate language the lowering emits and the code generator consumes: IL values,
    IL commands, the IL code buffer with its side tables, the scoped symbol table and the
    lvalue views. These are the parts of `il_gen` that tree.py and il_commands.py rely on;
    il_gen is not part of this model, so each operation here does the least the calling code
    needs, as documented on it. */
module IL {
  import opened Wrappers
  import opened Tokens
  import opened Errors
  import opened CTypes
  import opened Spots

  /** `ILValue`: an abstract value of a C type. Two IL values are the same only if they are
      the same object, so a new value is a fresh allocation. */
  class ILValue {
    const ctype: CType
    /** Set on the literal 0, which is a null pointer constant. */
    var nullPtrConst: bool

    constructor(ctype: CType)
      ensures this.ctype == ctype && !nullPtrConst
    {
      this.ctype := ctype;
      nullPtrConst := false;
    }
  }

  /** The three-operand commands, each `(output, arg1, arg2)`. */
  datatype ArithOp = AddOp | SubOp | MultOp | DivOp | BitAndOp | EqualOp | NotEqualOp

  /** An lvalue view of an expression: the variable itself, or the object a pointer value
      points to. */
  datatype LValue = Direct(variable: ILValue) | Indirect(addr: ILValue)

  /** The IL commands tree.py emits. `AddrOf` and `SetTo` stand for the commands that
      `LValue.addr` and `LValue.set_to` append, which are not part of this model. */
  datatype ILCommand =
    | Arith(op: ArithOp, output: ILValue, arg1: ILValue, arg2: ILValue)
    | Set(output: ILValue, arg: ILValue)
    | Return(arg: ILValue)
    | Label(id: nat)
    | Jump(target: nat)
    | JumpZero(cond: ILValue, target: nat)
    | JumpNotZero(cond: ILValue, target: nat)
    | ReadAt(output: ILValue, addr: ILValue)
    | AddrOf(output: ILValue, lvalue: LValue)
    | SetTo(lvalue: LValue, value: ILValue)

  /** The registries beside the command list: literal values, string literals, extern
      names and local variables. */
  datatype Tables = Tables(literals: map<ILValue, LitValue>, strings: map<ILValue, string>,
                           externs: map<ILValue, string>, locals: set<ILValue>)

  /** `ILCode`: the commands emitted so far, in order, the registries, and the label
      counter: the number of labels handed out. */
  class ILCode {
    var commands: seq<ILCommand>
    var tables: Tables
    var labels: nat

    constructor()
      ensures commands == [] && labels == 0
      ensures tables == Tables(map[], map[], map[], {})
    {
      commands := [];
      tables := Tables(map[], map[], map[], {});
      labels := 0;
    }

    /** `add`: appends one command. */
    method Add(c: ILCommand)
      modifies this
      ensures commands == old(commands) + [c]
      ensures tables == old(tables) && labels == old(labels)
    {
      commands := commands + [c];
    }

    /** `add` called once for each of several commands, in order. */
    method AddAll(cs: seq<ILCommand>)
      modifies this
      ensures commands == old(commands) + cs
      ensures tables == old(tables) && labels == old(labels)
    {
      commands := commands + cs;
    }

    /** `get_label`: a label id never handed out before. */
    method GetLabel() returns (l: nat)
      modifies this
      ensures l == old(labels) && labels == old(labels) + 1
      ensures commands == old(commands) && tables == old(tables)
    {
      l := labels;
      labels := labels + 1;
    }

    /** `register_literal_var`: records the literal a value stands for. */
    method RegisterLiteralVar(v: ILValue, value: LitValue)
      modifies this
      ensures tables == old(tables).(literals := old(tables).literals[v := value])
      ensures commands == old(commands) && labels == old(labels)
    {
      tables := tables.(literals := tables.literals[v := value]);
    }

    /** `register_string_literal`. */
    method RegisterStringLiteral(v: ILValue, chars: string)
      modifies this
      ensures tables == old(tables).(strings := old(tables).strings[v := chars])
      ensures commands == old(commands) && labels == old(labels)
    {
      tables := tables.(strings := tables.strings[v := chars]);
    }

    /** `register_extern_var`. */
    method RegisterExternVar(v: ILValue, name: string)
      modifies this
      ensures tables == old(tables).(externs := old(tables).externs[v := name])
      ensures commands == old(commands) && labels == old(labels)
    {
      tables := tables.(externs := tables.externs[v := name]);
    }

    /** `register_local_var`. */
    method RegisterLocalVar(v: ILValue)
      modifies this
      ensures tables == old(tables).(locals := old(tables).locals + {v})
      ensures commands == old(commands) && labels == old(labels)
    {
      tables := tables.(locals := tables.locals + {v});
    }
  }

  /** The innermost binding of a name in a stack of scopes, outermost scope first. */
  function Lookup(scopes: seq<map<string, ILValue>>, name: string): (r: Option<ILValue>)
    ensures r.None? <==> forall i :: 0 <= i < |scopes| ==> name !in scopes[i]
    ensures r.Some? ==> exists i :: 0 <= i < |scopes| && name in scopes[i] && scopes[i][name] == r.value
    decreases |scopes|
  {
    if scopes == [] then None
    else
      var top := scopes[|scopes| - 1];
      if name in top then Some(top[name]) else Lookup(scopes[..|scopes| - 1], name)
  }

  const UndeclaredIdentifier := "use of undeclared identifier"

  /** `SymbolTable`: a stack of scopes, the outermost (file) scope first. */
  class SymbolTable {
    var scopes: seq<map<string, ILValue>>

    ghost predicate Valid()
      reads this
    {
      |scopes| >= 1
    }

    constructor()
      ensures Valid() && scopes == [map[]]
    {
      scopes := [map[]];
    }

    /** `new_scope`. */
    method NewScope()
      modifies this
      ensures scopes == old(scopes) + [map[]]
    {
      scopes := scopes + [map[]];
    }

    /** `end_scope`: drops the innermost scope. */
    method EndScope()
      requires |scopes| >= 2
      modifies this
      ensures scopes == old(scopes)[..|old(scopes)| - 1]
    {
      scopes := scopes[..|scopes| - 1];
    }

    /** `add`: a new variable of the given type, bound to the identifier's text in the
        innermost scope. */
    method Add(identifier: Token, ctype: CType) returns (v: ILValue)
      requires Valid()
      modifies this
      ensures Valid() && fresh(v) && v.ctype == ctype && !v.nullPtrConst
      ensures |scopes| == |old(scopes)|
      ensures scopes[..|scopes| - 1] == old(scopes)[..|old(scopes)| - 1]
      ensures scopes[|scopes| - 1] == old(scopes)[|old(scopes)| - 1][identifier.content := v]
    {
      v := new ILValue(ctype);
      var top := scopes[|scopes| - 1][identifier.content := v];
      scopes := scopes[..|scopes| - 1] + [top];
    }

    /** `lookup_tok`: the innermost variable of that name, or an error. */
    method LookupTok(identifier: Token) returns (r: Result<ILValue, CompilerError>)
      ensures r.Ok? <==> Lookup(scopes, identifier.content).Some?
      ensures r.Ok? ==> r.value == Lookup(scopes, identifier.content).value
      ensures r.Err? ==> r.error == CompilerError(UndeclaredIdentifier, identifier.fileName, identifier.lineNum)
    {
      var found := Lookup(scopes, identifier.content);
      if found.Some? {
        r := Ok(found.value);
      } else {
        r := Err(CompilerError(UndeclaredIdentifier, identifier.fileName, identifier.lineNum));
      }
    }
  }

  /** `set_type`: the value itself when it already has the type; otherwise a new value of
      the type, set from it. */
  method SetType(v: ILValue, ctype: CType, il: ILCode) returns (r: ILValue)
    modifies il
    ensures r.ctype == ctype
    ensures v.ctype == ctype ==> r == v && il.commands == old(il.commands)
    ensures v.ctype != ctype ==> fresh(r) && !r.nullPtrConst && il.commands == old(il.commands) + [Set(r, v)]
    ensures il.tables == old(il.tables) && il.labels == old(il.labels)
  {
    if v.ctype == ctype {
      r := v;
    } else {
      r := new ILValue(ctype);
      il.Add(Set(r, v));
    }
  }

  /** The type of the object an lvalue designates. */
  function LValueType(lv: LValue): CType {
    match lv
    case Direct(v) => v.ctype
    case Indirect(addr) => if addr.ctype.kind.PointerKind? then addr.ctype.kind.arg else addr.ctype
  }

  /** `modable`: a modifiable lvalue in the sense of C11 section 6.3.2.1, whose type is not
      an array, not incomplete and not const-qualified. */
  predicate Modable(lv: LValue) {
    ModableType(LValueType(lv))
  }

  /** The object types a modifiable lvalue may have. */
  predicate ModableType(t: CType) {
    !IsArray(t) && !IsIncomplete(t) && !IsConst(t)
  }

  /** `addr`: a new pointer to the designated object. */
  method LValueAddr(lv: LValue, il: ILCode) returns (r: ILValue)
    modifies il
    ensures fresh(r) && r.ctype == CType(PointerKind(LValueType(lv)), false) && !r.nullPtrConst
    ensures il.commands == old(il.commands) + [AddrOf(r, lv)]
    ensures il.tables == old(il.tables) && il.labels == old(il.labels)
  {
    r := new ILValue(CType(PointerKind(LValueType(lv)), false));
    il.Add(AddrOf(r, lv));
  }

  /** `set_to`: stores a value into the designated object; the stored value is the result. */
  method LValueSetTo(lv: LValue, value: ILValue, il: ILCode) returns (r: ILValue)
    modifies il
    ensures r == value
    ensures il.commands == old(il.commands) + [SetTo(lv, value)]
    ensures il.tables == old(il.tables) && il.labels == old(il.labels)
  {
    il.Add(SetTo(lv, value));
    r := value;
  }
}
