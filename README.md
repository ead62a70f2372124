# CCompiler core in Dafny

A model of the front end and IL back end of JackShen1/CCompiler. This is a small
compiler, written in Python, for a subset of C whose only function is `main`. The
pipeline runs in four stages:

1. **Tokens** (`tokens.py`): each token kind has its spelling. A token keeps its kind,
   its content and its position. Tokens compare by kind and printed text.
2. **Parsing** (`myparser.py`): a recursive-descent `Parser` handles the root, `main`,
   statements and declarations. It keeps the "best error", the error raised after the
   most tokens. Bracket matching runs as scans over the token list. Declarators are
   decomposed into pointer, array and name layers. Expressions go through a
   shift-reduce `ExpressionParser`.
3. **Lowering** (`tree.py`): a node's `make_code` appends three-address IL commands
   to an `ILCode` buffer. It resolves identifiers through a scoped symbol table and
   applies the usual arithmetic conversions (`promo_type`). It handles pointer
   arithmetic, array decay and short-circuit `&&`/`||`. Declarations get their types
   from their specifiers and declarators (`make_specs_ctype`, `make_ctype`). The
   model's reference is `Typing.TypeOf`, the type of every expression as a function
   of the tree and the scopes. Every lowering method is proved to succeed exactly
   when `TypeOf` does, with a value of that type, and otherwise to fail with the same
   error.
4. **Assembly** (`il_commands.py`, `spots.py`, `code_gen.py`): each IL command turns
   into x86-64 lines. Its operands are rendered through their storage spots
   (registers by size, `rbp`-relative memory, literals). The lines are collected in
   an assembly buffer whose full text the model describes line by line.

The C types (`ctypes.py`) are a datatype. Copies made by `copy.copy` keep an explicit
origin number, which stands for the `_orig` identity of the source. The objects the
source updates in place are classes with `modifies` clauses:

- the parser;
- the expression parser's stack;
- the IL code;
- the symbol table;
- the assembly buffer;
- the lowering state, meaning the error collector and the `bin_match` flag.

An IL value is a class, so two values are the same only when they are the same
allocation, as in Python.

## Model

| member | source | states |
|---|---|---|
| Tokens.TextRepr | tokens.py:16-27 | a kind's spelling is empty exactly for the four literal classes (numbers, identifiers, strings, characters) |
| Tokens.KindList.constructor | tokens.py:21 | a fresh kind list starts empty |
| Tokens.DeclareKind | tokens.py:16-24 | a new kind is appended to the supplied list, or to a fresh list holding only it when none is given |
| Tokens.NewToken | tokens.py:40-44 | a token keeps its kind and non-empty content, falls back to the kind's spelling for empty content, and starts without file or line |
| Tokens.TokenStr | tokens.py:49-50 | a token prints as its content |
| Tokens.TokensEqualProperties | tokens.py:46-47 | token equality is reflexive, symmetric and transitive, ignores position, and holds exactly when kinds and printed texts agree |
| Tokens.DefaultContent | tokens.py:40-44 | a token built without content equals, and prints like, one built with its kind's spelling |
| Errors.NewError | errors.py:10-13 | an error stores its description, file and line unchanged |
| Errors.Message | errors.py:15-22 | the message has the "file:line: Error: d" form when both file and line are truthy, "file: Error: d" when only the file is, and the program name otherwise |
| Errors.MessageEndsWithDescription | errors.py:15-22 | every message ends with "Error: " and the description, after a non-empty prefix |
| Errors.ZeroLineCountsAsMissing | errors.py:16-22 | a line of 0 prints as no line, and a missing or empty file name hides the line |
| Errors.NegativeLinePrintsSign | errors.py:16-18 | a negative line number prints with its minus sign |
| Errors.RaiseError | tree.py:249-250 | a compiler error raised by the lowering or the declaration code carries its description |
| CTypes.ObjectCompleteOrIncomplete | ctypes.py:30-40 | an object type is complete exactly when it is not incomplete, a function type is neither, and scalars are complete objects |
| CTypes.CompatibleIsWeakPlusConst | ctypes.py:78-80 | outside arrays, compatibility is weak compatibility plus equal const flags |
| CTypes.CompatibleReflexive | ctypes.py:78-80 | every type is compatible with itself, through pointers, arrays and function parameters |
| CTypes.CompatibleSymmetric | ctypes.py:78-80 | compatibility is symmetric at every level |
| CTypes.PointerCompatible | ctypes.py:176-178 | a pointer is compatible exactly with equally qualified pointers to compatible types |
| CTypes.ArrayCompatible | ctypes.py:205-208 | arrays are compatible exactly when their elements are and their lengths agree or one is unknown |
| CTypes.ArrayCompatibleNotTransitive | ctypes.py:205-208 | int[3] and int[4] are both compatible with int[] but not with each other |
| CTypes.FunctionCompatible | ctypes.py:241-250 | function types need compatible returns; parameters and arity are compared only when both carry information |
| CTypes.IntegerWeakCompat | ctypes.py:115-118 | integer types are weakly compatible only with copies of the same original that agree on signedness and the bool flag |
| CTypes.StructCompatibleByIdentity | ctypes.py:273-279 | structs are compatible exactly when they come from the same declaration and have equal qualification |
| CTypes.SameLayoutDistinctStructs | ctypes.py:273-279 | two struct declarations with identical members are not compatible |
| CTypes.MakeConst | ctypes.py:90-94 | the copy keeps the kind and is const |
| CTypes.MakeUnqual | ctypes.py:96-100 | the copy keeps the kind and is not const |
| CTypes.MakeUnsigned | ctypes.py:136-140 | the copy is unsigned and keeps size, bool flag, origin and qualification |
| CTypes.QualifiedCopies | ctypes.py:90-100 | a qualified copy stays weakly compatible, is fully compatible only if the original was const (or an array), and has the same size |
| CTypes.UnsignedCopyIsNotUnsignInt | ctypes.py:136-140 | `int` made unsigned is not compatible with the `unsigned int` singleton, whose origin differs |
| CTypes.GetOffset | ctypes.py:296-298 | a member's entry is returned exactly when the offsets table holds it |
| CTypes.SetMembers | ctypes.py:300-311 | the struct gets the member list, one offset entry per member over the old table, and the members' total size; tag, origin and qualification are kept |
| CTypes.LayoutOffsets | ctypes.py:304-311 | with distinct names every member sits at the summed size of the members before it |
| CTypes.LayoutKeys | ctypes.py:304-311 | the layout holds exactly the member names |
| CTypes.MembersSizeBound | ctypes.py:304-311 | a struct is at least as large as the offset of any member plus that member's size |
| Promotion.Promote | tree.py:492-497 | an operand narrower than 4 bytes becomes `int`, any other is kept |
| Promotion.PromoType | tree.py:488-529 | the common type is one of the promoted operands, as wide as the wider of them, and its signedness follows the usual arithmetic conversions |
| Promotion.PromoTypeOrderIndependent | tree.py:488-529 | size and signedness of the common type do not depend on operand order |
| Promotion.PromoTypeKeepsFirstOnTie | tree.py:503-506 | of two equally wide types of equal signedness, the first operand's type is kept |
| Promotion.PromoTypeSame | tree.py:499-501 | operands of one type are converted to its promotion |
| Promotion.PromoTypeLadder | tree.py:488-529 | the conversions on the compiler's own integer types (char+char is int, int+unsigned int is unsigned int, long+unsigned long is unsigned long, ...) |
| Promotion.PromoTypeWideOperands | tree.py:503-513 | wide operands of equal signedness keep it, and an unsigned first operand at least as wide is the result |
| Spots.RegisterNames | spots.py:36-45 | every register has four names |
| Spots.SizeIndex | spots.py:47-51 | a column exists exactly for the sizes 1, 2, 4 and 8 |
| Spots.AsmStr | spots.py:25-72 | a register at an unsupported size raises; a register renders as one of its names, memory as size keyword plus bracketed base and offset, a literal as its value's text |
| Spots.RegisterColumns | spots.py:47-51 | sizes 8, 4, 2, 1 pick the register table's columns in that order (rax at 4 is "eax") |
| Spots.RegisterNamesDistinct | spots.py:36-45 | no name is shared by two registers or two sizes |
| Spots.MemExample | spots.py:28-32 | the documented renderings such as "DWORD [rbp-16]" and "14" |
| Spots.MemPrefix | spots.py:53-57 | a memory operand has a size keyword exactly for the sizes 1, 2, 4 and 8 |
| Spots.OffsetText | spots.py:59-67 | the displacement is empty exactly for offset 0, and otherwise starts with the offset's sign |
| Spots.OffsetTextInjective | spots.py:59-67 | the displacement text determines the offset |
| Spots.MemRenderingInjective | spots.py:52-67 | two memory operands of one base and size render alike only when the offsets are equal |
| Spots.LiteralIgnoresSize | spots.py:69-70 | a literal renders the same at every size and never raises |
| Spots.SpotType | spots.py:12-18 | the spot type is 1, 2 or 3 |
| Spots.SpotEqIsIdentityOfContent | spots.py:77-84 | spot equality is equality of type and detail, and equal spots hash alike |
| Spots.RegistersDistinct | spots.py:87-97 | the nine predefined registers are distinct and rbx is not among them |
| CodeGen.RenderLine | code_gen.py:34-41 | a label renders as its name and a colon, a one-word command as the indent and opcode, a longer one with its operands joined by ", "; an empty command tuple has no rendering |
| CodeGen.RenderAll | code_gen.py:51 | every line renders, in order, or the whole listing fails |
| CodeGen.CodeStore.constructor | code_gen.py:11-12 | a new store holds no lines |
| CodeGen.CodeStore.AddCommand | code_gen.py:14-21 | a tuple is appended as a command; anything else raises and leaves the lines unchanged |
| CodeGen.CodeStore.AddLabel | code_gen.py:23-30 | a string is appended as a label; anything else raises and leaves the lines unchanged |
| CodeGen.CodeStore.FullCode | code_gen.py:32-51 | the text is the header and the rendered lines joined by newlines, and exists exactly when every line renders |
| CodeGen.FullCodeLines | code_gen.py:32-51 | splitting the text at newlines gives back the header and one rendered line per stored line, in order |
| CodeGen.LabelAndCommandLines | code_gen.py:34-41 | a label line ends in a colon and a command line starts with the five-space indent |
| ParserScan.MatchToken | myparser.py:345-353 | the index after the token when the next token has the expected kind, otherwise the given error at the index |
| ParserScan.NextTokenPastEnd | myparser.py:341-353 | no token follows the last one, so matching there always fails |
| ParserScan.PairForward | myparser.py:251-271 | the pair lies at or after the index, and is a closer after the index when the scan starts on an opener |
| ParserScan.PairForwardFirstBalanced | myparser.py:259-266 | the pair is the first position after the index where the running depth returns to zero |
| ParserScan.PairForwardMismatch | myparser.py:267-270 | a mismatch is raised at the index exactly when the depth never returns to zero |
| ParserScan.ScanBackward | myparser.py:276-287 | the backward scan stops at or before its start, and fails with the mismatch at the index |
| ParserScan.PairBackward | myparser.py:273-288 | the pair lies at or before the index, strictly before it when the scan starts on a closer |
| ParserScan.PairBackwardFirstBalanced | myparser.py:276-287 | the pair is the nearest position where the depth back to the index is zero, and a mismatch means there is none |
| ParserScan.FindDeclEnd | myparser.py:290-306 | the end lies at or after the start, within the tokens, on a token that cannot continue a declarator; failures are the two mismatch errors at or after the start |
| ParserScan.ScanForward | myparser.py:259-270 | the rest of the forward scan stops inside the input at or after the current position, on a closer when the depth is positive, or fails with the mismatch at the index |
| ParserScan.PartEnd | myparser.py:296-304 | a declarator part ends after its start and within the input; its failure is one of the two mismatch errors, at the part's start |
| ParserScan.FindDeclEndIsRunEnd | myparser.py:290-306 | the end found is exactly the index that closes a run of whole stars, identifiers and balanced bracket groups from the start and does not begin another part |
| ParserScan.FindDeclEndMismatch | myparser.py:298-304 | an unclosed bracket met after a run of whole parts is the error the end search reports |
| ParserScan.ParseDeclarator | myparser.py:308-333 | a decomposed declarator has exactly as many pointer levels, array levels and names as its range has stars, opening square brackets and identifiers; syntax errors lie at or after the start |
| ParserScan.DeclaratorNameRule | myparser.py:318-319 | a lone identifier is the declared name |
| ParserScan.DeclaratorParenRule | myparser.py:321-323 | a range wrapped in a matching parenthesis pair is the declarator inside it |
| ParserScan.DeclaratorPointerRule | myparser.py:325-326 | a leading star makes a pointer to the rest |
| ParserScan.DeclaratorArrayRule | myparser.py:328-333 | a trailing `[`, number, `]` makes an array of that length of the rest |
| ParserScan.DeclaratorFaultyRule | myparser.py:333 | any other non-empty range raises "faulty declaration syntax" at its start |
| DeclaratorLists.DeclaratorAt | myparser.py:207-216 | a success holds the declarator tree of the range with the specifiers, an initializer exactly when `=` is at the range's end, and then the expression parsed after the `=` and the position where it stops; a failing declarator is the failure |
| DeclaratorLists.DeclaratorAtCases | myparser.py:211-216 | the result without `=`, with `=` and a failing expression, and with `=` and an expression |
| DeclaratorLists.InitDeclarator | myparser.py:206-216 | a mismatch the end search finds is the turn's syntax error; a success ends within the input, no earlier than its start, and carries the specifiers; syntax errors lie at or after the start |
| DeclaratorLists.InitDeclaratorParts | myparser.py:206-216 | a success is the tree `parse_declarator` builds up to the end `find_decl_end` finds, with an initializer exactly when `=` follows that end; a failing declarator is the turn's failure |
| DeclaratorLists.ListRestProgress | myparser.py:203-225 | the rest of a declarator list consumes at least one token, stays within the input, and reports syntax errors no earlier than where it starts |
| DeclaratorLists.ListRestResult | myparser.py:203-225 | the rest of a list extends the chain so far by each turn it takes: every turn but the last is followed by a comma and the next starts right after it; success ends just after the semicolon that follows the last turn; failure is the last turn's error or the missing semicolon after it |
| DeclaratorLists.DeclaratorListParts | myparser.py:203-225 | a declaration's declarator list is the comma-separated init-declarators, each exactly `InitDeclarator` at its start, and the semicolon after the last; or the error of the last one, or "expected semicolon" after it |
| DeclaratorLists.InitDeclaratorTurn | myparser.py:206-216 | some turn function is the init-declarator at every start and keeps the turn laws |
| DeclaratorLists.TurnsAgree | myparser.py:206-216 | two turn functions that are both the init-declarator agree at every start |
| DeclaratorLists.ListRestAgree | myparser.py:203-225 | turn functions that agree at every start give the same declarator list |
| DeclaratorLists.DeclaratorListIs | myparser.py:203-225 | a result is the declarator list for every init-declarator turn function exactly when it is `DeclaratorListOf` |
| DeclaratorLists.ListRestIsDeclaratorList | myparser.py:203-225 | the list one init-declarator turn function gives is the declarator list |
| DeclaratorLists.ListRestShape | myparser.py:203-225 | for any turn function keeping the turn laws, a list that parses holds at least one declarator, one initializer slot each, all with the specifiers, and ends after a semicolon past its start; its syntax errors lie at or after the start |
| DeclaratorLists.DeclaratorListShape | myparser.py:203-225 | a declarator list that parses holds at least one declarator, one initializer slot each, all with the specifiers, and ends after a semicolon past its start; its syntax errors lie at or after the start |
| DeclTallies.CountSplit | myparser.py:308-333 | the tally of a range is the sum of the tallies of its two parts |
| DeclTallies.ParenCount | myparser.py:321-323 | parentheses add nothing to a range's tally |
| DeclTallies.ArraySuffixCount | myparser.py:328-332 | an array suffix adds one bracket and nothing else |
| DeclaratorExamples.ArrayOfPointersEnd | tests/test_parser.py:640-648 | the declarator of `int *var[3];` ends before the semicolon |
| DeclaratorExamples.ArrayOfPointersTree | tests/test_parser.py:640-657 | `int *var[3];` decomposes to a pointer over an array of 3 over the name |
| DeclaratorExamples.ParensAtOneCloseAtFour | tests/test_parser.py:659-668 | the parenthesis of `int (*var)[3];` is closed by the fifth token |
| DeclaratorExamples.PointerToArrayEnd | tests/test_parser.py:659-668 | the declarator of `int (*var)[3];` ends before the semicolon |
| DeclaratorExamples.PointerToArrayTree | tests/test_parser.py:659-677 | `int (*var)[3];` decomposes to an array of 3 over a pointer over the name |
| DeclaratorExamples.UnclosedParenDeclarator | tests/test_parser.py:733-741 | `int (var;` is a parenthesis mismatch reported at the parenthesis |
| DeclaratorExamples.EmptyArrayEnd | tests/test_parser.py:743-749 | `int var[];` is well bracketed, ending before the semicolon |
| DeclaratorExamples.EmptyArrayTree | tests/test_parser.py:743-752 | `int var[];` is faulty declaration syntax reported at the identifier |
| ExprParser.BinaryPrecedence | myparser.py:367-369 | exactly the ten binary operators have a precedence; `*` and `/` bind tightest and `=` loosest |
| ExprParser.ReduceStack | myparser.py:583-592 | the top `num` items (all, if fewer) are replaced by one node item whose length is the sum of theirs; the items below and the total length are kept |
| ExprParser.NumberRule | myparser.py:443-448 | a number token on top reduces to its number node, and only then |
| ExprParser.StringRule | myparser.py:450-472 | a string or character token on top reduces; a character constant is an error exactly when it does not hold one character, and then becomes a number node of None |
| ExprParser.IdentifierRule | myparser.py:474-479 | an identifier token on top reduces to its identifier node, and only then |
| ExprParser.BinOpRule | myparser.py:481-512 | node, binary operator, node reduce unless the next token is a tighter binary operator, starts a postfix operator, or is a second assignment |
| ExprParser.PrefixRule | myparser.py:514-526 | a prefix operator and a node reduce unless the next token starts a postfix operator |
| ExprParser.PostfixRule | myparser.py:528-536 | a node followed by `++` or `--` reduces |
| ExprParser.SubscriptRule | myparser.py:538-547 | node `[` node `]` reduces to a subscript |
| ExprParser.ParenRule | myparser.py:549-558 | `(` node `)` reduces to a parenthesised expression |
| ExprParser.FirstRule | myparser.py:413-420 | the rules are tried in order; a reduction replaces items that are on the stack, among them a token on top or just below it |
| ExprParser.ReductionRemovesToken | myparser.py:583-592 | every reduction lowers the number of tokens on the stack, so the loop ends |
| ExprParser.RunReduces | myparser.py:413-420 | a turn of the loop reduces by the first matching rule |
| ExprParser.RunShifts | myparser.py:431-433 | when nothing matches, a token that can be part of an expression is shifted |
| ExprParser.RunStops | myparser.py:424-429 | when nothing matches, the loop stops at the end of the input or at a token that cannot be part of an expression |
| ExprParser.RunCoversInput | myparser.py:404-441 | started inside the input, the loop never reads past its end and ends with a stack covering part of the rest of the input |
| ExprParser.ParseExpressionBounds | myparser.py:404-441 | a parse started inside the input returns a node and a position after it and no further than the end, or "expected expression" at the start; started past the end it crashes |
| ExprParser.ExpressionParser.constructor | myparser.py:399-402 | a new parser holds its tokens and an empty stack |
| ExprParser.ExpressionParser.Reduce | myparser.py:583-592 | the stack becomes its reduction by the node |
| ExprParser.ExpressionParser.Apply | myparser.py:450-472 | a rule's error is reported, then its reduction is made |
| ExprParser.ExpressionParser.TryMatchNumber | myparser.py:443-448 | it reduces exactly when the number rule matches, and otherwise changes nothing |
| ExprParser.ExpressionParser.TryMatchString | myparser.py:450-472 | it reduces and reports exactly as the string rule says, and otherwise changes nothing |
| ExprParser.ExpressionParser.ReduceCharString | myparser.py:455-470 | a character constant on top of the stack is reduced and reported exactly as the string rule says |
| ExprParser.ExpressionParser.TryMatchIdentifier | myparser.py:474-479 | it reduces exactly when the identifier rule matches |
| ExprParser.ExpressionParser.TryMatchBinOp | myparser.py:481-512 | it reduces exactly when the binary-operator rule matches |
| ExprParser.ExpressionParser.TryMatchUnaryPrefix | myparser.py:514-526 | it reduces exactly when the prefix rule matches |
| ExprParser.ExpressionParser.TryMatchUnaryPostfix | myparser.py:528-536 | it reduces exactly when the postfix rule matches |
| ExprParser.ExpressionParser.TryMatchArraySubscript | myparser.py:538-547 | it reduces exactly when the subscript rule matches |
| ExprParser.ExpressionParser.TryMatchParenExpr | myparser.py:549-558 | it reduces exactly when the parenthesis rule matches |
| ExprParser.ExpressionParser.TryMatchAny | myparser.py:413-420 | the first matching rule reduces, and the state is unchanged when none matches |
| ExprParser.ExpressionParser.Step | myparser.py:411-433 | one turn reduces (removing a token from the stack), shifts one token, or stops; the rest of the loop ends as it would have from the old state |
| ExprParser.ExpressionParser.Parse | myparser.py:404-441 | the final stack, the reported errors and the result are those of the loop run from the current stack |
| ExprParser.ExpressionParser.Result | myparser.py:435-441 | the bottom item, if a node, and the position after it, else "expected expression" at the start |
| ExprExamples.LeftAssociative | myparser.py:491-506 | an operator followed by another of the same precedence does not wait, unless both are assignments |
| ExprExamples.RightAssociative | myparser.py:501-503 | an assignment followed by another waits for it |
| ExprExamples.MultiplicationBindsTighter | myparser.py:494-495 | `+` or `-` followed by `*` or `/` waits |
| ExprExamples.NumberStep | myparser.py:443-448 | a number token on top is reduced before anything else |
| ExprExamples.IdentifierStep | myparser.py:474-479 | an identifier token on top is reduced before anything else |
| ExprExamples.BinOpStep | myparser.py:481-512 | a ready binary operation is reduced when the next token does not make it wait |
| ExprExamples.NoRuleOnNode | myparser.py:413-420 | a lone node matches no rule |
| ExprExamples.NoRuleOnInert | myparser.py:413-420 | a non-literal, non-closing token on top matches no rule |
| ExprExamples.NoRuleWhileWaiting | myparser.py:413-420 | a waiting binary operation matches no rule |
| ExprExamples.ShiftOntoNode | myparser.py:424-433 | the token after a lone node is shifted |
| ExprExamples.StopAtNode | myparser.py:424-425 | the loop stops at a lone node at the end of the input |
| ExprExamples.ShiftOntoInert | myparser.py:424-433 | the token after an inert token is shifted |
| ExprExamples.ShiftWhileWaiting | myparser.py:424-433 | the token a waiting operation waits for is shifted |
| ExprExamples.ShiftFirst | myparser.py:424-433 | on the empty stack the first token is shifted |
| ExprExamples.LeadingNumber | myparser.py:443-448 | a leading number is shifted and reduced |
| ExprExamples.LeadingName | myparser.py:474-479 | a leading name is shifted and reduced |
| ExprExamples.LeadingSum | myparser.py:404-433 | a leading sum of two numbers leaves node, `+`, node on the stack |
| ExprExamples.ThreeTermSumSecondPair | myparser.py:481-512 | in `1 + 2 + 3` the first sum is reduced before the second `+` is shifted |
| ExprExamples.ThreeTermSumTree | tests/test_parser.py:355-366 | `1 + 2 + 3` parses as `(1 + 2) + 3`, covering all five tokens |
| ExprExamples.SumThenProductWaits | myparser.py:481-512 | in `1 + 2 * 3` the sum waits while the product is shifted |
| ExprExamples.SumThenProductTree | tests/test_parser.py:381-399 | `1 + 2 * 3` parses as `1 + (2 * 3)` |
| ExprExamples.LeadingAssignment | myparser.py:404-433 | a leading `a = b` leaves node, `=`, node on the stack |
| ExprExamples.ChainedAssignmentWaits | myparser.py:501-503 | in `a = b = 10` the first assignment waits for the second |
| ExprExamples.ChainedAssignmentTree | tests/test_parser.py:419-434 | `a = b = 10` parses as `a = (b = 10)` |
| StatementParser.Better | myparser.py:355-360 | the error kept is the best so far or the new one, got at least as far as both, and a tie goes to the new one |
| StatementParser.BestOf | myparser.py:355-360 | there is a best error exactly when some error was logged |
| StatementParser.BestOfIsLastFurthest | myparser.py:355-360 | the best error is the last logged among those that got furthest: none got further, and every later one got less far |
| StatementParser.BestOfMonotone | myparser.py:355-360 | logging more errors never lowers how far the best error got |
| StatementParser.ExpressionNeedsStart | myparser.py:404-441 | an expression cannot start at the end of the input or at a token that cannot appear in an expression |
| StatementParser.StartsAsDecides | myparser.py:92-111 | the first token decides which kind of statement parses |
| StatementParser.SpecifierEnd | myparser.py:227-249 | the specifier run ends at or after its start and within the input |
| StatementParser.SpecifierEndIsLongestRun | myparser.py:235-243 | every token of the run is a specifier and the token after it is not |
| StatementParser.Parser.constructor | myparser.py:31-34 | a new parser holds its tokens and no best error |
| StatementParser.Parser.LogError | myparser.py:355-360 | the new error becomes the best unless the best got further, so the best never gets less far and keeps the choice rule over all logged errors |
| StatementParser.Parser.FindPairForward | myparser.py:251-271 | the loop returns what the forward pair scan specifies |
| StatementParser.Parser.FindPairBackward | myparser.py:273-288 | started inside the input it returns the backward pair or the mismatch; started past the end its first read raises |
| StatementParser.Parser.ScanPairBackward | myparser.py:276-288 | the loop returns what the backward pair scan specifies |
| StatementParser.Parser.ParseDeclSpecifiers | myparser.py:227-249 | succeeds exactly when a specifier comes first, returning the whole run of specifiers and the index after it; otherwise "expected declaration specifier" at the index |
| StatementParser.Parser.ParseExpressionAt | myparser.py:187-191 | the result and the reported errors are those of a fresh expression parser run from the index |
| StatementParser.Parser.ParseReturn | myparser.py:142-150 | `return`, an expression and a semicolon give a return node of that expression and the index after the semicolon; a missing keyword or semicolon gives its own error |
| StatementParser.Parser.ParseExprStatement | myparser.py:173-185 | an expression followed by a semicolon gives an expression statement; otherwise "missing semicolon or malformed expression" after the expression, or the expression's own error |
| StatementParser.Parser.ParseInitDeclarator | myparser.py:206-216 | one turn of the declarator loop is exactly `InitDeclarator` at the index: the declarator tree `parse_declarator` builds up to the end `find_decl_end` finds, with the declaration's specifiers, and the initializer expression exactly when `=` follows; otherwise the end search's mismatch or the declarator's or expression's error |
| StatementParser.Parser.ParseDeclaratorAt | myparser.py:207-216 | the declarator for the range, then the expression after `=` when `=` is at the range's end: exactly `DeclaratorAt` |
| StatementParser.Parser.ParseDeclaration | myparser.py:193-225 | specifiers are required; a semicolon right after them gives a declaration with no declarators; otherwise the result is exactly the declarator list after the run of specifiers (`IsDeclaratorList`, which `DeclaratorListIs` shows is `DeclaratorListOf`); every declarator gets exactly that run, declarators and initializers pair up, and the declaration ends after a semicolon |
| StatementParser.Parser.ParseDeclarators | myparser.py:203-225 | the declarators after the specifiers are exactly the declarator list from there; a parsed list holds at least one declarator, one initializer slot each, all with the specifiers, and ends after a semicolon past its start; its syntax errors lie at or after the start |
| StatementParser.Parser.ParseDeclaratorList | myparser.py:203-225 | the loop returns exactly the declarator list `ListRest` specifies from the first declarator |
| StatementParser.Parser.Parse | myparser.py:36-47 | a root node of mains and declarations, or, when parsing fails, the best of all logged errors is reported and nothing is returned |
| StatementParser.Parser.ParseRoot | myparser.py:49-77 | mains and declarations until neither parses; success uses up the input, and leftover tokens give "unexpected token" at the first one |
| StatementParser.Parser.ParseMain | myparser.py:79-90 | `int main ( )` and a compound statement; anything else is "expected main function starting" |
| StatementParser.Parser.ParseStatement | myparser.py:92-111 | the compound, return, if and expression forms are tried in order, and a success starts with its kind's first token |
| StatementParser.Parser.ParseCompound | myparser.py:113-140 | a brace, statements and declarations until neither parses, and the closing brace |
| StatementParser.Parser.ParseBlockItem | myparser.py:119-134 | a statement or, failing that, a declaration |
| StatementParser.Parser.ParseIf | myparser.py:152-171 | `if ( expression )` and a statement, with the condition the expression parsed after the parenthesis |
| StatementParser.Parser.ParseIfBranches | myparser.py:160-171 | an else branch is parsed exactly when `else` follows the statement, so an `else` belongs to the innermost `if` |
| IL.ILValue.constructor | tree.py:245 | a new IL value has the given type and is not a null pointer constant |
| IL.ILCode.constructor | main.py:35 | new IL code holds no commands, no registrations and no labels |
| IL.ILCode.Add | tree.py:216 | one command is appended and nothing else changes |
| IL.ILCode.AddAll | tree.py:597-604 | commands are appended in order and nothing else changes |
| IL.ILCode.GetLabel | tree.py:394 | the label returned was never handed out before, and the counter moves on by one |
| IL.ILCode.RegisterLiteralVar | tree.py:253 | the value's literal is recorded and nothing else changes |
| IL.ILCode.RegisterStringLiteral | tree.py:290 | the value's string is recorded and nothing else changes |
| IL.ILCode.RegisterExternVar | tree.py:1059 | the value's extern name is recorded and nothing else changes |
| IL.ILCode.RegisterLocalVar | tree.py:1078 | the value is recorded as a local and nothing else changes |
| IL.Lookup | tree.py:316 | a name is found exactly when some scope binds it, and the value found is one of its bindings (the innermost) |
| IL.SymbolTable.constructor | main.py:36 | a new table has the one file scope, empty |
| IL.SymbolTable.NewScope | tree.py:183 | an empty innermost scope is pushed |
| IL.SymbolTable.EndScope | tree.py:189 | the innermost scope is dropped |
| IL.SymbolTable.Add | tree.py:1055 | a fresh value of the type is bound to the name in the innermost scope; outer scopes are kept |
| IL.SymbolTable.LookupTok | tree.py:316-322 | the innermost binding of the identifier's name, or "use of undeclared identifier" at the identifier |
| IL.SetType | tree.py:539-540 | a value of the requested type: the value itself when it has it, otherwise a fresh value set from it by one appended command |
| IL.LValueAddr | tree.py:92-93 | a fresh pointer to the designated object, computed by one appended command |
| IL.LValueSetTo | tree.py:565-566 | one store command is appended and the stored value is the result |
| ILCommands.InputValues | il_commands.py:64 | the values a command reads: both arguments of an arithmetic command, the argument of a set or return, the condition of a conditional jump, none for a label |
| ILCommands.OutputValues | il_commands.py:66 | the values a command writes: exactly the output of an arithmetic or set command, none for any other |
| ILCommands.MappedOperands | il_commands.py:26-32 | a spot map covers a command's inputs and outputs exactly when it has a spot for each operand `make_asm` looks up, for every kind of command |
| ILCommands.AssertSameCType | il_commands.py:46-51 | `assert_same_ctype` accepts every list of values, because the type it compares against is never recorded |
| ILCommands.ArithTemplate | il_commands.py:68-78 | add and multiply assemble exactly when the operand size is one a register has a name for; otherwise the spot rendering error |
| ILCommands.ArithThroughRax | il_commands.py:68-78 | add and multiply are three lines: the first argument into rax, the operation with the second, rax into the output |
| ILCommands.DivTemplate | il_commands.py:146-167 | division assembles exactly when the operand size is supported |
| ILCommands.DivisorNeverLiteral | il_commands.py:146-167 | the `idiv` operand is never a literal (a literal divisor goes to rsi first, which adds one line), and every division ends by loading, extending, dividing and storing rax |
| ILCommands.ExtendMnemonic | il_commands.py:219-220 | `movsx` for a signed integer output, `movzx` for an unsigned one, and the missing-attribute error for any other type |
| ILCommands.SetTemplate | il_commands.py:204-224 | a copy is one line, or two when both operands are in memory; it fails only with a rendering or missing-signedness error |
| ILCommands.SetMoveChoice | il_commands.py:214-220 | the move chosen: `mov` unless widening, then the extension by the output's signedness; fails exactly on widening into a non-integer type |
| ILCommands.SetMemoryToMemory | il_commands.py:210-224 | a memory-to-memory copy goes through rax at the output size and then into the output |
| ILCommands.SetTemplateAsWritten | il_commands.py:204-210 | as written, every copy whose output renders fails on the missing `Spot.STACK` |
| ILCommands.SetAsWrittenNeverEmits | il_commands.py:204-210 | as written even a register-to-register copy fails, where the corrected template emits one `mov` |
| ILCommands.ReturnTemplate | il_commands.py:259-275 | a return assembles exactly when the size is supported and always ends with the three-line epilogue |
| ILCommands.ReturnLoad | il_commands.py:263-272 | the operand reaches rax in one line, or two when it must be negated |
| ILCommands.ReturnNegativeLiteral | il_commands.py:263-265 | a negative literal is loaded as its magnitude and negated |
| ILCommands.ReturnPlainOperand | il_commands.py:271-272 | a non-negative literal, register or memory operand is loaded with one `mov` as rendered |
| ILCommands.ReturnNegativeBinary | il_commands.py:266-268 | a negative binary text is loaded as its digits with a `B` suffix and negated |
| ILCommands.JumpZeroTemplate | il_commands.py:323-332 | a literal condition gives at most one line; any other gives a comparison and a `je` to the label |
| ILCommands.JumpZeroCases | il_commands.py:323-332 | an integer literal condition jumps exactly when it is zero and emits nothing otherwise |
| ILCommands.AsmTemplate | il_commands.py:307 | a label command is the label line of its name |
| ILCommands.TemplateReadsOnlyItsValues | il_commands.py:18-24 | the assembly of a command depends only on the spots of its input and output values |
| ILCommands.Emit | code_gen.py:14-21 | one command line is appended |
| ILCommands.MakeArithAsm | il_commands.py:68-78 | the lines appended are the add or multiply template, or none with the template's error |
| ILCommands.MakeDivAsm | il_commands.py:146-167 | the lines appended are the division template, or none with its error |
| ILCommands.MakeSetAsm | il_commands.py:204-224 | the lines appended are the corrected copy template, or none with its error |
| ILCommands.EmitReturnLoad | il_commands.py:263-272 | the lines appended are those loading the operand into rax |
| ILCommands.EmitEpilogue | il_commands.py:274-276 | the epilogue restoring the stack and returning is appended |
| ILCommands.EmitDivTail | il_commands.py:163-167 | the load, sign extension, division and store are appended |
| ILCommands.MakeReturnAsm | il_commands.py:259-276 | the lines appended are the return template, or none with its error |
| ILCommands.MakeJumpZeroAsm | il_commands.py:323-332 | the lines appended are the jump-if-zero template, or none with its error |
| ILCommands.MakeAsm | il_commands.py:26-32 | the lines appended for any defined command are its template, or none when the template fails |
| Declarations.SpecKinds | tree.py:1126 | the kinds of the specifier tokens, one per token and in order |
| Declarations.SimpleType | ctypes.py:337-338 | the type each base-type keyword names; only `void` names the void type |
| Declarations.BaseType | tree.py:1127-1135 | `int` when no base-type keyword is present, the one named when exactly one kind is, and "two or more data types" otherwise |
| Declarations.StorageClass | tree.py:1144-1160 | AUTO when no storage keyword is present, STATIC or EXTERN exactly when that keyword is, and "two or more storage classes" when two kinds are |
| Declarations.Unsigned | ctypes.py:90-100 | an integer type gets its unsigned copy; any other type raises |
| Declarations.MakeSpecsCTypeAsWritten | tree.py:1137-1140 | as written, a lone `unsigned` with at most one base type always fails on the undefined `ctypes.to_unsigned` |
| Declarations.MakeSpecsCType | tree.py:1122-1162 | with the unsigned copy taken by `make_unsigned`: the error of the first failing check (base type, signedness, storage class), the storage class, and the base type made unsigned exactly when `unsigned` is present |
| Declarations.SpecsAccepted | tree.py:1122-1162 | the specifiers are accepted exactly when there is at most one base type, not both signed and unsigned, not `unsigned void`, and at most one storage class; no keyword at all gives `int` and AUTO |
| Declarations.UnsignedCharExample | tree.py:1137-1140 | `unsigned char` is the unsigned copy of `char`, where the code as written fails |
| Declarations.LongIntExample | tree.py:1127-1135 | `long int` names two data types |
| Declarations.ExternStaticExample | tree.py:1159-1161 | `extern static int` names two storage classes |
| Declarations.StaticLongExample | tree.py:1122-1162 | `static long` is a static `long` |
| Declarations.BuildCType | tree.py:1115-1120 | each declarator layer wraps the type so far; stripping the layers gives that type back, the depth grows by one per layer, and the identifier and storage class pass through |
| Declarations.MakeCType | tree.py:1112-1114 | a declaration fails exactly when its specifiers fail; otherwise its identifier, its storage class, and a type whose declarator layers strip back to the specifiers' type |
| Declarations.DeclaratorTypes | tests/test_parser.py:640-677 | `int *var[3]` declares an array of three pointers to int, and `int (*var)[3]` a pointer to an array of three ints |
| Literals.BinaryRun | tree.py:238 | the longest prefix of binary digits |
| Literals.NumberValue | tree.py:238-242 | a number text has a value exactly when it is a binary text ending at its `B` or a signed or unsigned decimal; otherwise "invalid literal"; the value's sign follows the text |
| Literals.DigitsNotBinary | tree.py:238 | a run of decimal digits is never read as binary |
| Literals.DecimalRoundTrip | tree.py:242 | reading the decimal text of any integer gives it back |
| Literals.BinaryRoundTrip | tree.py:238-240 | reading a number's binary digits followed by `B` gives the number back |
| Literals.BinaryPrefixOnly | tree.py:238-240 | `10B1` matches the binary prefix but cannot be read, and `101B` is 5 |
| Literals.LimitsAreTwosComplement | ctypes.py:328-334 | the int and long limits are the two's-complement ranges of 4 and 8 bytes |
| Literals.LiteralType | tree.py:244-250 | `int` exactly when the value fits an int, `long` when it fits only a long, and no type when it fits neither |
| Literals.LiteralTypeBoundaries | tree.py:244-250 | the boundary values on either side of the int and long limits get the type their range gives |
| Operands.CommandFor | tree.py:543-549 | the operators with a command are exactly `+ - * / & == !=` |
| Operands.OffsetRoles | tree.py:640-645 | the left operand is the pointer exactly when it is a pointer and the right one an integer, and the right one exactly when the roles are swapped |
| Operands.OffsetRolesAsWrittenAdmitsVoid | tree.py:640-645 | the written test agrees wherever the intended one accepts, but also takes a `void` value as the pointer when it is added to a `void *` |
| Operands.EqualityWarnings | tree.py:703-730 | a comparison draws no warning exactly when it ends up comparing compatible pointers, and "incomparable" exactly when one side is not a pointer; the types compared are the operands' own, and a null pointer constant takes the other side's pointer type |
| Typing.PointerTo | ctypes.py:166-190 | a pointer type to the given type |
| Typing.Decayed | tree.py:87-95 | an array type becomes a pointer to its element; any other type is kept; the result is never an array |
| Typing.NumberType | tree.py:233-258 | a number node has type `int` or `long`, and fails with its text's error when the text cannot be read |
| Typing.LvTypeOf | tree.py:87-95 | an lvalue computation that succeeds gives a type exactly for the nodes with an lvalue form |
| Typing.OperatorType | tree.py:437-486 | for arithmetic operands a type exactly when the operator has a command; a comparison gives `int`; a pointer `+` or `&` gives the pointer operand's type |
| Typing.TypeOfNotArray | tree.py:87-95 | an expression's value never has an array type |
| Typing.LvTypeFirst | tree.py:87-95 | an lvalue error is the expression's error, and an lvalue-form node's value is its lvalue decayed |
| Typing.AndOrType | tree.py:571-605 | `&&` and the logical or fail with the left operand's error, then the right one's, and otherwise give `int` |
| Typing.ZeroIsInt | tree.py:153-160 | the literal 0 `main` returns by default is an `int` |
| Lowering.LvTypes | tree.py:87-95 | an optional lvalue's object type, present exactly when the lvalue is |
| Lowering.GrowsTrans | tree.py:87-95 | lowering steps that each only add to the commands, labels, warnings and `bin_match` compose into one that does too |
| Lowering.SplitCode | tree.py:596-604 | code that extends earlier code is that code followed by what was appended |
| Lowering.JoinAround | tree.py:395-405 | the pieces emitted around the `if` jump join into one sequence |
| Lowering.JoinCode | tree.py:596-604 | code appended piece by piece is the pieces joined |
| Lowering.ExtendsTrans | tree.py:181-189 | statement steps that each only add to the commands, labels and diagnostics compose |
| Lowering.GrowsExtends | tree.py:340-342 | an expression step is also a statement step |
| Lowering.DeclaredVar | tree.py:1044-1054 | a declarator is accepted exactly when its type can be made, it names an identifier and its type is not `void`; otherwise the first failing check's error, "missing identifier" (an index error without specifiers) or "void type" |
| Lowering.StorageError | tree.py:1058-1075 | a bound variable is kept exactly when it is an extern without initializer or a local automatic variable |
| Lowering.Registered | tree.py:1058-1079 | an extern is registered under its name, a local automatic variable as a local, and nothing else is registered |
| Lowering.Lowerer.constructor | tree.py:33 | lowering starts with no diagnostics and `bin_match` clear |
| Lowering.Lowerer.Log | tree.py:130-131 | a caught error is appended to the collected diagnostics |
| Lowering.Lowerer.Warn | tree.py:714-716 | a warning is appended to the collected diagnostics |
| Lowering.Lowerer.NumberCode | tree.py:233-258 | no command; a binary text sets `bin_match`; a fresh value of the literal's type registered with its value and a null pointer constant exactly when it is 0; the text's error or "too large" otherwise, with nothing registered |
| Lowering.Lowerer.IntegerCode | tree.py:531-558 | both operands cast to their promoted type (no command when already of it), then one command whose output is fresh and has the promoted type, or `int` for `==` and `!=`; an operator without command raises after the casts |
| Lowering.Lowerer.IntegerCodeAsWritten | tree.py:542-549 | as written, the casts are emitted and then the command table raises on the missing `Sub`, whatever the operator |
| Lowering.Lowerer.PointerOffsetCode | tree.py:607-663 | the integer operand cast to `unsigned long`, multiplied by the pointee size literal and combined with the pointer into a fresh value of the pointer's type; under the intended operand-role test, a pair that is not a pointer and an integer is "invalid operand types for binary addition" with nothing emitted |
| Lowering.Lowerer.MinusCode | tree.py:665-701 | two compatible pointers give their raw difference divided by the pointee size, a `long`; a pointer minus an integer subtracts the integer, cast to `long`, times that size; anything else is "invalid operand types for binary subtraction" with nothing emitted |
| Lowering.Lowerer.EqualityCode | tree.py:703-738 | the operands reach the types `EqualityTypes` gives through at most one cast each, its warning is logged, and one comparison command gives a fresh `int` |
| Lowering.Lowerer.IncrDecrCode | tree.py:749-777 | a non-modifiable operand raises and a non-arithmetic, non-pointer one crashes, emitting nothing; otherwise the step literal is registered, the new value stored back, and the result is the new value for a prefix operator and a copy of the old value for a postfix one |
| Lowering.Lowerer.DecayCode | tree.py:90-93 | an array lvalue's address, converted to a pointer to its first element by two commands |
| Lowering.Lowerer.ReadAtCode | tree.py:921-927 | a fresh value of the pointed-to type read from the address by one command |
| Lowering.Lowerer.SubscriptAddress | tree.py:982-1013 | the pointer operand plus the integer operand, cast to `unsigned long`, times the pointee size, whichever side the pointer is on; any other pair is "invalid operand types for array subscriping" with nothing emitted |
| Lowering.Lowerer.Evaluate | tree.py:87-95 | lowering an expression succeeds exactly when `TypeOf` does, with a value of that type and an lvalue of the type `LvTypeOf` gives, fails with the same error otherwise, and only adds commands, labels, warnings and `bin_match` |
| Lowering.Lowerer.EvaluateWith | tree.py:87-95 | with the lvalue known, the value has the type `TypeOf` gives, or the error is the one it gives |
| Lowering.Lowerer.LValueOf | tree.py:285-322 | the lvalue has the type and form `LvTypeOf` gives, or its error |
| Lowering.Lowerer.SubscriptLValue | tree.py:973-1013 | a subscript's lvalue is indirect through a pointer of the type `LvTypeOf` gives, or its error |
| Lowering.Lowerer.BinaryCode | tree.py:437-486 | a binary operation's value has the type `TypeOf` gives, or its error |
| Lowering.Lowerer.OperandsCode | tree.py:453-486 | once both operands are lowered, the value has the type `OperatorType` gives, or its error |
| Lowering.Lowerer.MixedOperandsCode | tree.py:461-486 | for operands not both arithmetic, the value has the type `OperatorType` gives, or its error |
| Lowering.Lowerer.TruthValues | tree.py:575-583 | a fresh `int` output and the registered literals 0 and 1; no command |
| Lowering.Lowerer.ComparisonCode | tree.py:461-463 | a pointer comparison gives an `int` and at most logs a warning |
| Lowering.Lowerer.AndOrCode | tree.py:571-605 | both labels are taken first; the value is an `int` as `TypeOf` says, and the code is the operands' code with the preset, the two short-circuit jumps and the setting of the deciding value |
| Lowering.Lowerer.BoolNotCode | tree.py:850-873 | the label is taken first; the value is an `int` set to 1 and reset to 0 unless the operand is zero |
| Lowering.Lowerer.AddrOfCode | tree.py:890-897 | the address of the operand's lvalue, of the type `TypeOf` gives, or "lvalue required" |
| Lowering.Lowerer.IncrDecrNodeCode | tree.py:743-777 | an increment or decrement has the type `TypeOf` gives, or its error |
| Lowering.Lowerer.StatementCode | tree.py:125-216 | a statement only adds code, labels and diagnostics and changes at most the innermost scope; compound, `if`, declaration and root nodes let only crashes escape |
| Lowering.Lowerer.ExprStatementCode | tree.py:340-342 | an expression statement succeeds exactly when its expression has a type, and fails with its error otherwise |
| Lowering.Lowerer.ReturnCode | tree.py:211-216 | the value's code, its conversion to `int`, and the return of the converted value; fails exactly when the value has no type |
| Lowering.Lowerer.IfCode | tree.py:391-412 | an `if` logs its own error, so only a crash escapes, and it leaves the outer scopes alone |
| Lowering.Lowerer.IfBranches | tree.py:393-409 | the else label is taken first; a condition without a type is the error; the code is the condition, the jump on zero, the statement and the else part |
| Lowering.Lowerer.IfBody | tree.py:397-409 | the statement's code followed by the else branch, or by the else label alone |
| Lowering.Lowerer.ElseBranch | tree.py:399-409 | the end label is taken; the jump to it, the else label, the else statement and the end label |
| Lowering.Lowerer.CompoundCode | tree.py:181-189 | the items in a new scope, each error logged and the next item lowered; the scopes are as before afterwards |
| Lowering.Lowerer.MainCode | tree.py:153-160 | the body, then a return of the `int` literal 0 as the last command |
| Lowering.Lowerer.RootCode | tree.py:125-131 | each node lowered at file scope, each error logged; only crashes escape |
| Lowering.Lowerer.DeclarationCode | tree.py:1038-1104 | the declarators paired with their initializers up to the shorter list, each error logged; only crashes escape |
| Lowering.Lowerer.DeclaratorCode | tree.py:1044-1088 | a declarator whose checks fail gives that error; otherwise the variable is declared and then initialized |
| Lowering.Lowerer.DeclareCode | tree.py:1044-1079 | a rejected declarator changes nothing; otherwise a fresh variable of its type is bound in the innermost scope, registered by storage class, and storage errors come after the binding |
| Lowering.Lowerer.InitCode | tree.py:1081-1088 | the initializer's code and a store into the variable when its type is assignable, "not of assignable type" otherwise, and the initializer's error when it has no type |
| Lowering.EmittedButUndefined | tree.py:591-604 | as written, the subtraction, bitwise-and and comparison commands, the jump that `&&`, the logical or and an `if` with an else branch emit, the jump on nonzero of logical or and the read through a pointer name no class of il_commands.py |

## Left out

- The lexer is not part of this model. Neither are the driver `main.py`, its command-line flags, its file I/O, or assembling and linking. The parser starts from a token list.
- `il_gen` is not part of this model. Module `IL` gives `ILValue`, `ILCode`, `SymbolTable`, `LValue` and `set_type` only the behaviour that tree.py and il_commands.py rely on. `LValue.addr` and `LValue.set_to` become the single commands `AddrOf` and `SetTo`. `check_cast`, and any warning it would log, is not modelled. `IL.SetType` compares types as values. If il_gen compares `ctype` objects by identity, it would emit a `Set` for two equal but separately built types where the model emits none.
- `decl_tree` is not part of this model. Its nodes are the `DeclNode` datatype.
- `asm_gen` is not part of this model, and neither is register allocation. The map from IL values to spots and the names of labels are parameters of `ILCommands.MakeAsm`.
- The `make_masm` methods, `MASMCode`, the 32-bit register twins and all `__repr__` methods are left out. They only print or duplicate the x86-64 path.
- Error positions are not tracked. Python passes a token's `.r` range to `CompilerError`; the model records no file or line for the diagnostics of the lowering and the declaration code.
- `ParserError` is not in errors.py. The model keeps only its description, the number of tokens parsed and its message type, and leaves out its rendering of the token text.
- The module-level `error_collector` is a sequence field of `Lowering.Lowerer` (`diagnostics`). The parser's error output is the best error it reports.
- Regular expressions (`re.match` in tree.py and il_commands.py) are modelled as the character classes they test.
- CTypes.SizeOf: an array of unknown length (`ArrayCType(elem, None)`) has size 0 here. The source multiplies by `None`, which raises.
- ParserScan.ParseDeclarator: a range shorter than three tokens whose last token is `]` reports "faulty declaration syntax". The source's `tokens[end-3]` would then read before the range, or wrap around to the end of the list.
- StatementParser.Parser.ParseIf: a missing `if` is reported with the description text. The source passes a one-element tuple (a trailing comma), which prints in tuple form.
- ILCommands.AssertSameCType: modelled as written. It never rejects anything, because the type it compares against is never recorded. A working type comparison would reject the `Add` of a pointer and an `unsigned long` that `make_plus_code` emits.
- ILCommands.AsmTemplate: states the label case outright. The other commands are stated by their templates' own lemmas (`ArithThroughRax`, `DivisorNeverLiteral`, `SetMoveChoice`, `ReturnNegativeLiteral`, `JumpZeroCases`).
- Lowering.Lowerer.ComparisonCode: states only that the result is an `int`. Its commands and warning are stated by `EqualityCode`.
- Lowering.Lowerer.StatementCode: for statements, states growth of the IL and of the diagnostics and which failures escape. It does not state the exact commands; `IfBranches`, `ReturnCode`, `InitCode` and the expression methods do that for each construct.
- Lowering.Lowerer.MainCode: states that the last command returns an `int`. It does not state the body's commands.
- Lowering.Lowerer.RootCode: does not state which declarations are bound. Only their growth and the errors that escape are stated.
- Lowering.Lowerer.DeclarationCode: does not state which declarations are bound. Only their growth and the errors that escape are stated.
- Lowering.Lowerer.CompoundCode: does not state which block items are bound. Only their growth and the errors that escape are stated.
- Lowering.Lowerer.PointerOffsetCode and Typing.OperatorType: follow the intended operand-role test (`Operands.OffsetRoles`). As written, tree.py:613 and tree.py:642 also accept a pointer next to a `void` or struct value, or two operands neither of which is an integer. The source then takes a non-pointer for the pointer and raises when it reads the pointee size (tree.py:630, tree.py:659). The model reports "invalid operand types for binary addition" instead (see the findings).
- IL.LValueSetTo and Typing.TypeOf: an assignment's value is the right operand's value, of the right operand's type. il_gen's `set_to` is not part of this model. C gives an assignment expression the type of its left operand, after conversion; the model does not.
- Lowering: the command classes tree.py names but il_commands.py does not define are modelled as the commands their names describe (see the findings). Only `Lowering.Lowerer.IntegerCodeAsWritten` keeps the as-written failure.

## Findings

| source | as written | input that shows it | evidently intended | confidence | as-written member | corrected member |
|---|---|---|---|---|---|---|
| il_commands.py:210 | `Set.make_asm` reads `Spot.STACK`, which spots.py does not define (its memory type is `MEM`), so every copy raises `AttributeError` | a `Set` from `ecx` to `eax` | a memory-to-memory copy goes through rax; any other copy is a single `mov`, `movsx` or `movzx` | not executed | ILCommands.SetAsWrittenNeverEmits | ILCommands.SetMoveChoice |
| tree.py:543-549 | the command table of `make_integer_code` names `Sub`, `BitwiseAnd`, `EqualCmp` and `NotEqualCmp`, which il_commands.py does not define, so building the table raises for every arithmetic operator | `1 + 2` | one command of the operator on the promoted operands | not executed | Lowering.Lowerer.IntegerCodeAsWritten | Lowering.Lowerer.IntegerCode |
| tree.py:591-604 | `&&`, the logical or, an `if` with an else branch, a dereference and pointer subtraction emit `Jump`, `JumpNotZero`, `ReadAt` or `Sub`, none of which il_commands.py defines | `a && b` | the short-circuit code over those commands | not executed | Lowering.EmittedButUndefined | Lowering.Lowerer.AndOrCode |
| tree.py:1137-1140 | a lone `unsigned` calls `ctypes.to_unsigned`, which ctypes.py does not define | `unsigned char c;` | the unsigned copy that `make_unsigned` makes | not executed | Declarations.UnsignedCharExample | Declarations.SpecsAccepted |
| tree.py:613, tree.py:642 | the second operand-role test compares two booleans with `==`, so it also accepts two operands of which neither is an integer | a `void *` plus a `void` value | one operand a pointer and the other an integer | not executed | Operands.OffsetRolesAsWrittenAdmitsVoid | Operands.OffsetRoles |
