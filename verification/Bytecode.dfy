/**
 * Instructions and their byte encoding. A 32 bit operand is four little-endian bytes in
 * two's complement. A 64 bit operand is a boxed word: the model keeps the word and the
 * byte's index in it instead of the NaN-boxing bit pattern.
 */
module Bytecode {
  import opened Values

  type Byte = x: int | 0 <= x < 256

  datatype Word = Boxed(v: Value) | Symbol(name: string) | Pooled(s: string)

  datatype Cell = Raw(b: Byte) | Part(w: Word, k: nat)

  datatype BranchKind = Always | IfTrue | UnlessTrue | OnLt | OnGt | OnLe | OnGe | OnEq | OnNeq

  datatype Ins =
    | Nop
    | ReadLocal(index: nat, level: nat)
    | ReadMemberSymbol(symbol: string)
    | ReadArrayIndex(index: nat)
    | SetLocalPush(index: nat, level: nat)
    | SetLocal(index: nat, level: nat)
    | PutValue(v: Value)
    | PutString(s: string)
    | PutFunction(name: string, offset: int, anonymous: bool, needsArguments: bool,
                  argc: nat, minimum: nat, lvarcount: nat)
    | Pop
    | Dup
    | CallOp(argc: nat)
    | ReturnOp
    | ThrowOp
    | RegisterCatchTable(offset: int)
    | PopCatchTable
    | BranchOp(kind: BranchKind, offset: int)
    | Operator(op: BinOp)
    | UnaryOperator(uop: UnOp)

  const INT32_LIMIT: int := 0x8000_0000

  function BranchCode(k: BranchKind): Byte {
    match k
    case Always => 37 case IfTrue => 38 case UnlessTrue => 39
    case OnLt => 40 case OnGt => 41 case OnLe => 42
    case OnGe => 43 case OnEq => 44 case OnNeq => 45
  }

  function OperatorCode(op: BinOp): Byte {
    match op
    case Add => 46 case Sub => 47 case Mul => 48
    case Eq => 52 case Neq => 53 case Lt => 54
    case Gt => 55 case Le => 56 case Ge => 57
  }

  function UnaryCode(op: UnOp): Byte {
    match op case UAdd => 63 case USub => 64 case UNot => 65
  }

  /** Opcode numbers, in the order of the opcode enumeration. */
  function Opcode(i: Ins): Byte {
    match i
    case Nop => 0
    case ReadLocal(_, _) => 1
    case ReadMemberSymbol(_) => 2
    case ReadArrayIndex(_) => 4
    case SetLocalPush(_, _) => 6
    case SetLocal(_, _) => 10
    case PutValue(_) => 19
    case PutString(_) => 20
    case PutFunction(_, _, _, _, _, _, _) => 21
    case Pop => 25
    case Dup => 26
    case CallOp(_) => 29
    case ReturnOp => 32
    case ThrowOp => 34
    case RegisterCatchTable(_) => 35
    case PopCatchTable => 36
    case BranchOp(k, _) => BranchCode(k)
    case Operator(op) => OperatorCode(op)
    case UnaryOperator(op) => UnaryCode(op)
  }

  /** The table of instruction lengths, opcode byte included. */
  function InstructionLength(op: Byte): nat {
    if op == 1 || op == 6 || op == 10 || op == 20 then 1 + 4 + 4
    else if op == 2 || op == 5 || op == 7 || op == 11 || op == 14 || op == 15 || op == 18 || op == 19 then 1 + 8
    else if op == 4 || op == 9 || op == 13 || op == 22 || op == 23 || op == 27 then 1 + 4
    else if op == 21 then 1 + 8 + 4 + 1 * 2 + 4 + 4 + 4
    else if op == 24 then 1 + 8 + 4 * 4 + 1 + 1
    else if 29 <= op <= 31 || op == 35 || 37 <= op <= 45 then 1 + 4
    else if op == 69 then 1 + 2
    else 1
  }

  function Len(i: Ins): nat {
    InstructionLength(Opcode(i))
  }

  /** Byte `i` of a number in two's complement. */
  function Digit(x: int, i: nat): Byte
    decreases i
  {
    if i == 0 then x % 256 else Digit(x / 256, i - 1)
  }

  function U32(x: int): seq<Cell> {
    seq(4, i requires 0 <= i < 4 => Raw(Digit(x, i)))
  }

  function Flag(b: bool): Cell {
    Raw(if b then 1 else 0)
  }

  function Bytes8(w: Word): seq<Cell> {
    [Part(w, 0), Part(w, 1), Part(w, 2), Part(w, 3), Part(w, 4), Part(w, 5), Part(w, 6), Part(w, 7)]
  }

  /** What the instruction writers append to the buffer. */
  function Encode(i: Ins): seq<Cell> {
    [Raw(Opcode(i))] + Operands(i)
  }

  function Operands(i: Ins): seq<Cell> {
    match i
    case ReadLocal(x, l) => U32(x) + U32(l)
    case ReadMemberSymbol(s) => Bytes8(Symbol(s))
    case ReadArrayIndex(x) => U32(x)
    case SetLocalPush(x, l) => U32(x) + U32(l)
    case SetLocal(x, l) => U32(x) + U32(l)
    case PutValue(v) => Bytes8(Boxed(v))
    case PutString(s) => Bytes8(Pooled(s))
    case PutFunction(name, off, an, needs, argc, min, lv) =>
      Bytes8(Symbol(name)) + U32(off) + [Flag(an), Flag(needs)] + U32(argc) + U32(min) + U32(lv)
    case CallOp(n) => U32(n)
    case RegisterCatchTable(off) => U32(off)
    case BranchOp(_, off) => U32(off)
    case _ => []
  }

  lemma EncodeLength(i: Ins)
    ensures |Encode(i)| == Len(i)
  {
  }

  predicate IsU32(x: int) {
    0 <= x < UINT32_RANGE
  }

  predicate IsI32(x: int) {
    -INT32_LIMIT <= x < INT32_LIMIT
  }

  /** Operands fit their fields. */
  predicate Fits(i: Ins) {
    match i
    case ReadLocal(x, l) => IsU32(x) && IsU32(l)
    case ReadArrayIndex(x) => IsU32(x)
    case SetLocalPush(x, l) => IsU32(x) && IsU32(l)
    case SetLocal(x, l) => IsU32(x) && IsU32(l)
    case PutFunction(_, off, _, _, argc, min, lv) => IsI32(off) && IsU32(argc) && IsU32(min) && IsU32(lv)
    case CallOp(n) => IsU32(n)
    case RegisterCatchTable(off) => IsI32(off)
    case BranchOp(_, off) => IsI32(off)
    case _ => true
  }

  predicate RawAt(code: seq<Cell>, p: nat) {
    p < |code| && code[p].Raw?
  }

  function ReadU32(code: seq<Cell>, p: nat): Option<nat> {
    if RawAt(code, p) && RawAt(code, p + 1) && RawAt(code, p + 2) && RawAt(code, p + 3) then
      Some(code[p].b + 256 * code[p + 1].b + 65536 * code[p + 2].b + 16777216 * code[p + 3].b)
    else None
  }

  function ReadI32(code: seq<Cell>, p: nat): Option<int> {
    match ReadU32(code, p)
    case None => None
    case Some(x) => Some(if x < INT32_LIMIT then x else x - UINT32_RANGE)
  }

  function ReadWord(code: seq<Cell>, p: nat): Option<Word> {
    if p + 8 <= |code| && code[p].Part? && code[p..p + 8] == Bytes8(code[p].w) then Some(code[p].w) else None
  }

  function FetchLocal(code: seq<Cell>, p: nat): Option<(nat, nat)> {
    match (ReadU32(code, p + 1), ReadU32(code, p + 5))
    case (Some(x), Some(l)) => Some((x, l))
    case _ => None
  }

  function KindOf(op: Byte): BranchKind
    requires 37 <= op <= 45
  {
    if op == 37 then Always else if op == 38 then IfTrue else if op == 39 then UnlessTrue
    else if op == 40 then OnLt else if op == 41 then OnGt else if op == 42 then OnLe
    else if op == 43 then OnGe else if op == 44 then OnEq else OnNeq
  }

  function OperatorOf(op: Byte): Option<Ins> {
    if op == 46 then Some(Operator(Add)) else if op == 47 then Some(Operator(Sub))
    else if op == 48 then Some(Operator(Mul)) else if op == 52 then Some(Operator(Eq))
    else if op == 53 then Some(Operator(Neq)) else if op == 54 then Some(Operator(Lt))
    else if op == 55 then Some(Operator(Gt)) else if op == 56 then Some(Operator(Le))
    else if op == 57 then Some(Operator(Ge)) else if op == 63 then Some(UnaryOperator(UAdd))
    else if op == 64 then Some(UnaryOperator(USub)) else if op == 65 then Some(UnaryOperator(UNot))
    else None
  }

  function FetchFunction(code: seq<Cell>, p: nat): Option<Ins> {
    match (ReadWord(code, p + 1), ReadI32(code, p + 9), ReadU32(code, p + 15), ReadU32(code, p + 19),
        ReadU32(code, p + 23))
    case (Some(Symbol(name)), Some(off), Some(argc), Some(min), Some(lv)) =>
      if RawAt(code, p + 13) && RawAt(code, p + 14) then
        Some(PutFunction(name, off, code[p + 13].b != 0, code[p + 14].b != 0, argc, min, lv))
      else None
    case _ => None
  }

  function FetchWord(code: seq<Cell>, p: nat, op: Byte): Option<Ins> {
    match ReadWord(code, p + 1)
    case Some(Boxed(v)) => if op == 19 then Some(PutValue(v)) else None
    case Some(Pooled(s)) => if op == 20 then Some(PutString(s)) else None
    case Some(Symbol(s)) => if op == 2 then Some(ReadMemberSymbol(s)) else None
    case None => None
  }

  function FetchShort(code: seq<Cell>, p: nat, op: Byte): Option<Ins> {
    match (ReadU32(code, p + 1), ReadI32(code, p + 1))
    case (Some(x), Some(off)) =>
      if op == 4 then Some(ReadArrayIndex(x))
      else if op == 29 then Some(CallOp(x))
      else if op == 35 then Some(RegisterCatchTable(off))
      else if 37 <= op <= 45 then Some(BranchOp(KindOf(op), off))
      else None
    case _ => None
  }

  /** The instruction the VM decodes at address `p`. */
  function Fetch(code: seq<Cell>, p: int): Option<Ins> {
    if p < 0 || !RawAt(code, p) then None
    else
      var op := code[p].b;
      if op == 0 then Some(Nop)
      else if op == 1 || op == 6 || op == 10 then
        match FetchLocal(code, p)
        case None => None
        case Some((x, l)) =>
          Some(if op == 1 then ReadLocal(x, l) else if op == 6 then SetLocalPush(x, l) else SetLocal(x, l))
      else if op == 2 || op == 19 || op == 20 then FetchWord(code, p, op)
      else if op == 21 then FetchFunction(code, p)
      else if op == 25 then Some(Pop)
      else if op == 26 then Some(Dup)
      else if op == 32 then Some(ReturnOp)
      else if op == 34 then Some(ThrowOp)
      else if op == 36 then Some(PopCatchTable)
      else if op == 4 || op == 29 || op == 35 || 37 <= op <= 45 then FetchShort(code, p, op)
      else OperatorOf(op)
  }

  /** `bs` stands at address `p`. */
  predicate Has(code: seq<Cell>, p: nat, bs: seq<Cell>) {
    p + |bs| <= |code| && code[p..p + |bs|] == bs
  }

  lemma HasAt(code: seq<Cell>, p: nat, bs: seq<Cell>, k: nat)
    requires Has(code, p, bs) && k < |bs|
    ensures p + k < |code| && code[p + k] == bs[k]
  {
    assert code[p..p + |bs|][k] == code[p + k];
  }

  lemma HasSplit(code: seq<Cell>, p: nat, a: seq<Cell>, b: seq<Cell>)
    ensures Has(code, p, a + b) <==> Has(code, p, a) && Has(code, p + |a|, b)
  {
    if Has(code, p, a + b) {
      assert code[p..p + |a|] == (a + b)[..|a|] == a by {
        assert code[p..p + |a|] == code[p..p + |a + b|][..|a|];
      }
      assert code[p + |a|..p + |a| + |b|] == (a + b)[|a|..] == b by {
        assert code[p + |a|..p + |a| + |b|] == code[p..p + |a + b|][|a|..];
      }
    }
    if Has(code, p, a) && Has(code, p + |a|, b) {
      assert code[p..p + |a + b|] == code[p..p + |a|] + code[p + |a|..p + |a| + |b|];
    }
  }

  lemma FourDigits(x: int, a: int, b: int, c: int)
    requires a == x / 256 && b == a / 256 && c == b / 256
    ensures x % 256 + 256 * (a % 256) + 65536 * (b % 256) + 16777216 * (c % 256) == x % UINT32_RANGE
  {
    var d := c / 256;
    assert x == UINT32_RANGE * d + (x % 256 + 256 * (a % 256) + 65536 * (b % 256) + 16777216 * (c % 256));
  }

  /** Four bytes determine the number modulo 2^32. */
  lemma BytesSum(x: int)
    ensures Digit(x, 0) + 256 * Digit(x, 1) + 65536 * Digit(x, 2) + 16777216 * Digit(x, 3) == x % UINT32_RANGE
  {
    var a := x / 256;
    var b := a / 256;
    var c := b / 256;
    FourDigits(x, a, b, c);
    assert Digit(x, 3) == Digit(a, 2) == Digit(b, 1) == Digit(c, 0);
  }

  lemma ReadU32At(code: seq<Cell>, p: nat, x: int)
    requires Has(code, p, U32(x))
    ensures ReadU32(code, p) == Some(x % UINT32_RANGE)
  {
    HasAt(code, p, U32(x), 0);
    HasAt(code, p, U32(x), 1);
    HasAt(code, p, U32(x), 2);
    HasAt(code, p, U32(x), 3);
    BytesSum(x);
  }

  lemma ReadI32At(code: seq<Cell>, p: nat, x: int)
    requires Has(code, p, U32(x)) && IsI32(x)
    ensures ReadI32(code, p) == Some(x)
  {
    assert ReadU32(code, p) == Some(x % UINT32_RANGE) by {
      ReadU32At(code, p, x);
    }
  }

  lemma ReadWordAt(code: seq<Cell>, p: nat, w: Word)
    requires Has(code, p, Bytes8(w))
    ensures ReadWord(code, p) == Some(w)
  {
    HasAt(code, p, Bytes8(w), 0);
  }

  lemma ThreeCounts(code: seq<Cell>, p: nat, argc: nat, min: nat, lv: nat)
    requires IsU32(argc) && IsU32(min) && IsU32(lv)
    requires Has(code, p, U32(argc) + (U32(min) + U32(lv)))
    ensures ReadU32(code, p) == Some(argc)
    ensures ReadU32(code, p + 4) == Some(min)
    ensures ReadU32(code, p + 8) == Some(lv)
  {
    assert Has(code, p, U32(argc)) && Has(code, p + 4, U32(min) + U32(lv)) by {
      HasSplit(code, p, U32(argc), U32(min) + U32(lv));
    }
    assert ReadU32(code, p) == Some(argc) by {
      ReadU32At(code, p, argc);
    }
    FetchTwo(code, p + 4, min, lv);
  }

  lemma FetchTwo(code: seq<Cell>, p: nat, x: nat, y: nat)
    requires IsU32(x) && IsU32(y) && Has(code, p, U32(x) + U32(y))
    ensures ReadU32(code, p) == Some(x)
    ensures ReadU32(code, p + 4) == Some(y)
  {
    assert Has(code, p, U32(x)) && Has(code, p + 4, U32(y)) by {
      HasSplit(code, p, U32(x), U32(y));
    }
    assert ReadU32(code, p) == Some(x) by {
      ReadU32At(code, p, x);
    }
    assert ReadU32(code, p + 4) == Some(y) by {
      ReadU32At(code, p + 4, y);
    }
  }

  /** The second half of a function instruction's operands. */
  lemma FunctionCounts(code: seq<Cell>, p: nat, flags: seq<Cell>, argc: nat, min: nat, lv: nat)
    requires |flags| == 2 && IsU32(argc) && IsU32(min) && IsU32(lv)
    requires Has(code, p, flags + (U32(argc) + (U32(min) + U32(lv))))
    ensures p + 1 < |code| && code[p] == flags[0] && code[p + 1] == flags[1]
    ensures ReadU32(code, p + 2) == Some(argc)
    ensures ReadU32(code, p + 6) == Some(min)
    ensures ReadU32(code, p + 10) == Some(lv)
  {
    assert Has(code, p, flags) && Has(code, p + 2, U32(argc) + (U32(min) + U32(lv))) by {
      HasSplit(code, p, flags, U32(argc) + (U32(min) + U32(lv)));
    }
    HasAt(code, p, flags, 0);
    HasAt(code, p, flags, 1);
    ThreeCounts(code, p + 2, argc, min, lv);
  }

  lemma FetchFunctionAt(code: seq<Cell>, p: nat, i: Ins)
    requires i.PutFunction? && Fits(i) && Has(code, p + 1, Operands(i))
    ensures FetchFunction(code, p) == Some(i)
  {
    var PutFunction(name, off, an, needs, argc, min, lv) := i;
    var w, flags := Bytes8(Symbol(name)), [Flag(an), Flag(needs)];
    var counts := U32(argc) + (U32(min) + U32(lv));
    assert Operands(i) == w + (U32(off) + (flags + counts));
    HasSplit(code, p + 1, w, U32(off) + (flags + counts));
    HasSplit(code, p + 9, U32(off), flags + counts);
    ReadWordAt(code, p + 1, Symbol(name));
    ReadI32At(code, p + 9, off);
    FunctionCounts(code, p + 13, flags, argc, min, lv);
  }

  lemma FetchLocalAt(code: seq<Cell>, p: nat, x: nat, l: nat)
    requires IsU32(x) && IsU32(l) && Has(code, p + 1, U32(x) + U32(l))
    ensures FetchLocal(code, p) == Some((x, l))
  {
    FetchTwo(code, p + 1, x, l);
  }

  lemma FetchWordAt(code: seq<Cell>, p: nat, i: Ins)
    requires i.PutValue? || i.PutString? || i.ReadMemberSymbol?
    requires Has(code, p + 1, Operands(i))
    ensures FetchWord(code, p, Opcode(i)) == Some(i)
  {
    ReadWordAt(code, p + 1, if i.PutValue? then Boxed(i.v) else if i.PutString? then Pooled(i.s) else Symbol(i.symbol));
  }

  lemma KindOfCode(k: BranchKind)
    ensures KindOf(BranchCode(k)) == k
  {
  }

  lemma FetchShortAt(code: seq<Cell>, p: nat, i: Ins, x: int)
    requires (i.ReadArrayIndex? && i.index == x) || (i.CallOp? && i.argc == x)
          || (i.RegisterCatchTable? && i.offset == x) || (i.BranchOp? && i.offset == x)
    requires Fits(i) && Has(code, p + 1, U32(x))
    ensures FetchShort(code, p, Opcode(i)) == Some(i)
  {
    assert ReadU32(code, p + 1) == Some(x % UINT32_RANGE) by {
      ReadU32At(code, p + 1, x);
    }
    if i.BranchOp? {
      KindOfCode(i.kind);
    }
  }

  /** Decoding inverts encoding, for every instruction whose operands fit. */
  lemma FetchEncode(code: seq<Cell>, p: nat, i: Ins)
    requires Fits(i) && Has(code, p, Encode(i))
    ensures Fetch(code, p) == Some(i)
  {
    HasSplit(code, p, [Raw(Opcode(i))], Operands(i));
    HasAt(code, p, [Raw(Opcode(i))], 0);
    if i.PutFunction? {
      FetchFunctionAt(code, p, i);
    } else if i.ReadLocal? || i.SetLocalPush? || i.SetLocal? {
      FetchLocalAt(code, p, i.index, i.level);
    } else if i.PutValue? || i.PutString? || i.ReadMemberSymbol? {
      FetchWordAt(code, p, i);
    } else if i.ReadArrayIndex? || i.CallOp? || i.RegisterCatchTable? || i.BranchOp? {
      FetchShortAt(code, p, i, if i.ReadArrayIndex? then i.index else if i.CallOp? then i.argc else i.offset);
    }
  }
}
