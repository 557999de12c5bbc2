/**
 * What the operators mean: the laws of arithmetic, ordering and text that the machine's operators
 * obey, in terms of one another.
 */
module Operators {
  import opened Values

  /** The operator gives a number on any two numbers, and that is it. */
  function Of(op: BinOp, x: real, y: real): (z: real)
    requires op.Add? || op.Sub? || op.Mul?
    ensures Binary(op, Num(x), Num(y)) == Some(Num(z))
  {
    Binary(op, Num(x), Num(y)).value.n
  }

  /** Whether a comparison of two values holds. */
  predicate Says(op: BinOp, l: Value, r: Value) {
    Binary(op, l, r) == Some(Bool(true))
  }

  // ----- numbers -----

  /** Addition: commutative, associative, with unit 0, monotonic, and adding 1 counts. */
  lemma Addition(x: real, y: real, z: real, n: int)
    ensures Of(Add, x, y) == Of(Add, y, x)
    ensures Of(Add, Of(Add, x, y), z) == Of(Add, x, Of(Add, y, z))
    ensures Of(Add, x, 0.0) == x
    ensures Of(Add, n as real, 1.0) == (n + 1) as real
    ensures x < y <==> Of(Add, x, z) < Of(Add, y, z)
  {
  }

  /** Subtraction is undone by addition and undoes it. */
  lemma Subtraction(x: real, y: real)
    ensures Of(Add, Of(Sub, x, y), y) == x
    ensures Of(Sub, Of(Add, x, y), y) == x
  {
  }

  /** Multiplication: commutative, with unit 1, distributing over addition, and keeping positive numbers positive. */
  lemma Multiplication(x: real, y: real, z: real)
    ensures Of(Mul, x, y) == Of(Mul, y, x)
    ensures Of(Mul, x, 1.0) == x
    ensures Of(Mul, x, Of(Add, y, z)) == Of(Add, Of(Mul, x, y), Of(Mul, x, z))
    ensures x > 0.0 && y > 0.0 ==> Of(Mul, x, y) > 0.0
  {
    assert x * (y + z) == x * y + x * z;
  }

  /** Repeated addition: `n` times `x` is one `x` more than `n - 1` times. */
  lemma Counting(x: real, n: int)
    ensures Of(Mul, n as real, x) == Of(Add, Of(Mul, (n - 1) as real, x), x)
    ensures Of(Mul, 0.0, x) == 0.0
  {
    assert (n - 1) as real == n as real - 1.0;
    assert (n as real - 1.0) * x == n as real * x - x;
  }

  /** A number and its negation cancel; the unary plus keeps its operand. */
  lemma Negation(x: real, v: Value)
    ensures Unary(USub, Num(x)).Num?
    ensures Of(Add, x, Unary(USub, Num(x)).n) == 0.0
    ensures Unary(UAdd, v) == v
    ensures !v.Num? ==> Unary(USub, v).NaN?
  {
  }

  /** Arithmetic on anything but two numbers gives NaN, strings and sums with an array on the left apart. */
  lemma NotANumber(op: BinOp, l: Value, r: Value)
    requires op.Add? || op.Sub? || op.Mul?
    requires !(l.Num? && r.Num?)
    ensures op.Sub? ==> Binary(op, l, r) == Some(NaN)
    ensures !l.Str? && !r.Str? && !(op.Add? && l.Arr?) ==> Binary(op, l, r) == Some(NaN)
    ensures op.Mul? && !IsNumber(l) && !IsNumber(r) ==> Binary(op, l, r) == Some(NaN)
    ensures op.Mul? && !l.Str? && !r.Str? ==> Binary(op, l, r) == Some(NaN)
  {
  }

  // ----- comparisons -----

  /** One number is less than another exactly if some positive number makes up the difference. */
  lemma LessThan(x: real, y: real)
    ensures Says(Lt, Num(x), Num(y)) <==> exists d: real :: d > 0.0 && Of(Add, x, d) == y
  {
    if x < y {
      assert Of(Add, x, y - x) == y;
    }
  }

  /** The other orderings, for any two values: mirrors, and complements where there is an order at all. */
  lemma Orderings(l: Value, r: Value)
    ensures Says(Gt, l, r) <==> Says(Lt, r, l)
    ensures Says(Ge, l, r) <==> Says(Le, r, l)
    ensures Says(Le, l, r) <==> Comparable(l, r) && !Says(Gt, l, r)
    ensures Says(Lt, l, r) ==> Comparable(l, r)
    ensures IsOrdered(Lt, l, r) && IsOrdered(Gt, l, r) && IsOrdered(Le, l, r) && IsOrdered(Ge, l, r)
  {
  }

  /** The comparison gives one of the two booleans. */
  predicate IsOrdered(op: BinOp, l: Value, r: Value) {
    Binary(op, l, r) == Some(Bool(Says(op, l, r)))
  }

  /** Of two numbers exactly one is less, or they are equal. */
  lemma Trichotomy(x: real, y: real)
    ensures Says(Lt, Num(x), Num(y)) || Says(Eq, Num(x), Num(y)) || Says(Gt, Num(x), Num(y))
    ensures !(Says(Lt, Num(x), Num(y)) && Says(Eq, Num(x), Num(y)))
    ensures !(Says(Lt, Num(x), Num(y)) && Says(Gt, Num(x), Num(y)))
    ensures !(Says(Eq, Num(x), Num(y)) && Says(Gt, Num(x), Num(y)))
  {
  }

  /** Equality is identity, NaN included; two arrays are outside the fragment. */
  lemma Equality(l: Value, r: Value)
    requires !(l.Arr? && r.Arr?)
    ensures Says(Eq, l, r) <==> l == r
    ensures Says(Neq, l, r) <==> l != r
    ensures IsOrdered(Eq, l, r) && IsOrdered(Neq, l, r)
  {
  }

  /** Strings are ordered by their lengths. */
  lemma StringOrder(s: string, t: string)
    ensures Says(Lt, Str(s), Str(t)) <==> |s| < |t|
  {
  }

  /** False are null, false, NaN and zero, and nothing else; `!` turns that round. */
  lemma Truth(v: Value)
    ensures !Truthy(v) <==> v in {Null, Bool(false), NaN, Num(0.0)}
    ensures Unary(UNot, v) == Bool(true) <==> !Truthy(v)
    ensures Unary(UNot, v) == Bool(false) <==> Truthy(v)
  {
  }

  // ----- strings -----

  /** Adding strings puts one behind the other, up to the length limit. */
  lemma Concatenation(s: string, t: string)
    requires |s| + |t| < MAX_STRING_LENGTH
    ensures Binary(Add, Str(s), Str(t)) == Some(Str(s + t))
  {
    assert s + "" == s && "" + t == t;
  }

  /** A string times a number is that many copies of it: one more for each whole one more. */
  lemma Copies(s: string, n: nat)
    requires |s| * (n + 1) < MAX_STRING_LENGTH && n + 1 < MAX_STRING_LENGTH
    ensures Binary(Mul, Str(s), Num(0.0)) == Some(Str(""))
    ensures Binary(Mul, Str(s), Num(1.0)) == Some(Str(s))
    ensures Text(Binary(Mul, Str(s), Num((n + 1) as real))) == s + Text(Binary(Mul, Str(s), Num(n as real)))
  {
    Whole(n);
    Whole(n + 1);
    assert |s| * n <= |s| * (n + 1);
    assert Repeat(s, 1) == s + "" == s;
    assert Repeat(s, n + 1) == s + Repeat(s, n);
    assert Multiply(s, n) == Some(Str(Repeat(s, n)));
    assert Multiply(s, n + 1) == Some(Str(Repeat(s, n + 1)));
  }

  function Text(v: Option<Value>): string {
    if v.Some? && v.value.Str? then v.value.s else ""
  }

  lemma Whole(n: nat)
    ensures Truncate(n as real) == n
  {
  }

  /** Only the whole part of the number counts, a negative one gives nothing, and the order is free. */
  lemma Fractions(s: string, n: nat, x: real)
    requires n as real <= x < (n + 1) as real
    ensures Binary(Mul, Str(s), Num(x)) == Binary(Mul, Str(s), Num(n as real))
    ensures Binary(Mul, Str(s), Num(-x)) == Some(Str(""))
    ensures Binary(Mul, Num(x), Str(s)) == Binary(Mul, Str(s), Num(x))
  {
    Whole(n);
    assert Truncate(x) == n;
    assert Truncate(-x) <= 0;
  }

  /** From the length limit on both operators give null. */
  lemma TooLong(s: string, t: string, n: nat)
    ensures |s| > 0 && |t| > 0 && |s| + |t| == MAX_STRING_LENGTH ==> Binary(Add, Str(s), Str(t)) == Some(Null)
    ensures n >= MAX_STRING_LENGTH ==> Binary(Mul, Str(s), Num(n as real)) == Some(Null)
  {
    Whole(n);
  }

  // ----- errors -----

  /** The messages of the two errors a call can raise. */
  lemma Messages()
    ensures NOT_ENOUGH == "Not enough arguments for function call"
    ensures NOT_CALLABLE + TypeName(Null) == "Attempted to call a non-callable type: null"
    ensures NOT_CALLABLE + TypeName(Bool(true)) == NOT_CALLABLE + TypeName(Bool(false)) ==
            "Attempted to call a non-callable type: boolean"
    ensures NOT_CALLABLE + TypeName(Num(1.0)) == NOT_CALLABLE + TypeName(NaN) ==
            "Attempted to call a non-callable type: number"
    ensures NOT_CALLABLE + TypeName(Str("")) == "Attempted to call a non-callable type: string"
  {
  }

  /** The type named in the message tells numbers, strings, booleans, functions, arrays and null apart. */
  lemma TypeNamesTell(v: Value, u: Value)
    requires TypeName(v) == TypeName(u)
    ensures IsNumber(v) == IsNumber(u) && v.Str? == u.Str? && v.Null? == u.Null?
    ensures v.Bool? == u.Bool? && v.Fun? == u.Fun? && v.Arr? == u.Arr?
  {
    assert TypeName(v)[0] == TypeName(u)[0];
    assert |TypeName(v)| == |TypeName(u)|;
    assert TypeName(v)[2] == TypeName(u)[2];
  }
}
