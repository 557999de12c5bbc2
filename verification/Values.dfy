/** Run-time values and the VM's pure operators. */
module Values {

  datatype Option<+T> = None | Some(value: T)

  /**
   * The values of the modelled fragment. Functions and arrays are heap objects, so a
   * value only carries their identity. Numbers are exact reals plus NaN.
   */
  datatype Value =
    | Null
    | Bool(b: bool)
    | Num(n: real)
    | NaN
    | Str(s: string)
    | Fun(id: nat)
    | Arr(id: nat)

  datatype UnOp = UAdd | USub | UNot

  datatype BinOp = Add | Sub | Mul | Eq | Neq | Lt | Gt | Le | Ge

  const NOT_CALLABLE: string := "Attempted to call a non-callable type: "
  const NOT_ENOUGH: string := "Not enough arguments for function call"

  const MAX_STRING_LENGTH: int := 0xffff_ffff
  const UINT32_RANGE: int := 0x1_0000_0000

  predicate IsNumber(v: Value) {
    v.Num? || v.NaN?
  }

  predicate Truthy(v: Value) {
    match v
    case NaN => false
    case Null => false
    case Bool(b) => b
    case Num(n) => n != 0.0
    case _ => true
  }

  /** The human readable type names that end up in error messages. */
  function TypeName(v: Value): string {
    match v
    case Null => "null"
    case Bool(_) => "boolean"
    case Num(_) => "number"
    case NaN => "number"
    case Str(_) => "string"
    case Fun(_) => "function"
    case Arr(_) => "array"
  }

  predicate IsComparisonOp(op: BinOp) {
    op.Eq? || op.Neq? || IsOrdering(op)
  }

  predicate IsOrdering(op: BinOp) {
    op.Lt? || op.Gt? || op.Le? || op.Ge?
  }

  /** The operator whose branch instruction skips the guarded code. */
  function Opposite(op: BinOp): BinOp
    requires IsComparisonOp(op)
  {
    match op
    case Lt => Ge
    case Gt => Le
    case Le => Gt
    case Ge => Lt
    case Eq => Neq
    case _ => Eq
  }

  function OrderNum(op: BinOp, x: real, y: real): bool
    requires IsOrdering(op)
  {
    match op
    case Lt => x < y
    case Gt => x > y
    case Le => x <= y
    case _ => x >= y
  }

  /**
   * Whether a comparison operator yields kTrue. Two arrays are compared element by
   * element through the heap, which is outside the fragment: None.
   */
  function Compare(op: BinOp, l: Value, r: Value): Option<bool>
    requires IsComparisonOp(op)
  {
    if IsOrdering(op) then
      if l.Num? && r.Num? then Some(OrderNum(op, l.n, r.n))
      else if l.Str? && r.Str? then Some(OrderNum(op, |l.s| as real, |r.s| as real))
      else Some(false)
    else if l.Arr? && r.Arr? then None
    else Some((l == r) == op.Eq?)
  }

  /** Operands on which an ordering and its opposite exclude each other. */
  predicate Comparable(l: Value, r: Value) {
    (l.Num? && r.Num?) || (l.Str? && r.Str?)
  }

  function Repeat(s: string, n: nat): string {
    if n == 0 then "" else s + Repeat(s, n - 1)
  }

  /** Truncation toward zero, as a number is converted to an integer. */
  function Truncate(x: real): int {
    if x >= 0.0 then x.Floor else -((-x).Floor)
  }

  /** String concatenation; None where the 32 bit length arithmetic would wrap. */
  function Concat(l: string, r: string): Option<Value> {
    if |l| + |r| >= UINT32_RANGE then None
    else if |l| == 0 then Some(Str(r))
    else if |r| == 0 then Some(Str(l))
    else if |l| + |r| >= MAX_STRING_LENGTH then Some(Null)
    else Some(Str(l + r))
  }

  /** String multiplication; None where the 32 bit length arithmetic would wrap. */
  function Multiply(s: string, amount: int): Option<Value> {
    if amount <= 0 then Some(Str(""))
    else if amount == 1 then Some(Str(s))
    else if amount >= MAX_STRING_LENGTH then Some(Null)
    else if |s| * amount >= UINT32_RANGE then None
    else Some(Str(Repeat(s, amount)))
  }

  /** Binary operators; None where the operands leave the fragment. */
  function Binary(op: BinOp, l: Value, r: Value): Option<Value> {
    match op
    case Add =>
      if IsNumber(l) && IsNumber(r) then
        Some(if l.Num? && r.Num? then Num(l.n + r.n) else NaN)
      else if l.Arr? then None
      else if l.Str? && r.Str? then Concat(l.s, r.s)
      else if l.Str? || r.Str? then None
      else Some(NaN)
    case Sub => Some(if l.Num? && r.Num? then Num(l.n - r.n) else NaN)
    case Mul =>
      if l.Num? && r.Num? then Some(Num(l.n * r.n))
      else if l.Str? && r.Num? then Multiply(l.s, Truncate(r.n))
      else if l.Num? && r.Str? then Multiply(r.s, Truncate(l.n))
      else if (l.Str? && r.NaN?) || (l.NaN? && r.Str?) then None
      else Some(NaN)
    case _ =>
      match Compare(op, l, r)
      case None => None
      case Some(b) => Some(Bool(b))
  }

  function Unary(op: UnOp, v: Value): Value {
    match op
    case UAdd => v
    case USub => if v.Num? then Num(-v.n) else NaN
    case UNot => Bool(!Truthy(v))
  }

  /**
   * Branching on the opposite operator is the same as comparing and branching unless,
   * exactly when the operator is an equality or the operands are comparable.
   */
  lemma OppositeBranchExact(op: BinOp, l: Value, r: Value)
    requires IsComparisonOp(op)
    requires Compare(op, l, r).Some?
    ensures Compare(Opposite(op), l, r).Some?
    ensures (Compare(op, l, r).value == !Compare(Opposite(op), l, r).value)
       <==> (!IsOrdering(op) || Comparable(l, r))
  {
  }

  /** `1 < null` is false, yet `if 1 < null` runs its block: the opposite test is false too. */
  lemma IncomparableConditionTaken()
    ensures Binary(Lt, Num(1.0), Null) == Some(Bool(false))
    ensures Compare(Opposite(Lt), Num(1.0), Null) == Some(false)
  {
  }
}
