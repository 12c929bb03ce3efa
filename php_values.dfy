/**
 * The PHP values the rules look at: scalars, arrays, language-level enum
 * cases and PHP-Parser nodes, with the PHP semantics of reading a property,
 * reading an attribute, truthiness (`empty`), `instanceof`, `foreach`,
 * `count`, the string and integer conversions and the bitwise `&`.
 */
module PhpValues {
  import opened Wrappers
  import opened PhpClasses
  import Versions
  import LanguageLevel

  datatype Value =
    | Null
    | Bool(b: bool)
    | Int(i: int)
    | Float(f: real)
    | Str(s: string)
    /** A list-shaped PHP array. */
    | Arr(items: seq<Value>)
    | Obj(node: Node)
    /** A case of the LanguageLevel enum (an object in PHP). */
    | Lvl(level: LanguageLevel.Level)

  /**
   * A parser node: its class, its attribute map and its public properties
   * (the sub nodes and flags), in declaration order.
   */
  datatype Node = Node(cls: Cls, attrs: map<string, Value>, props: seq<(string, Value)>)

  // ---------------------------------------------------------------- properties and attributes

  function Lookup(ps: seq<(string, Value)>, name: string): (v: Value)
    ensures v != Null ==> (name, v) in ps
    ensures (forall p :: p in ps ==> p.0 != name) ==> v == Null
  {
    if |ps| == 0 then Null else if ps[0].0 == name then ps[0].1 else Lookup(ps[1..], name)
  }

  /** `$node->name`: an undefined property reads as null. */
  function Prop(n: Node, name: string): Value
  {
    Lookup(n.props, name)
  }

  /** `$v->name` and `$v?->name`: reading a property of null or of a non-object gives null. */
  function PropOf(v: Value, name: string): Value
  {
    if v.Obj? then Prop(v.node, name) else Null
  }

  /** `$node->getAttribute(key, default)`: the default only when the key is absent. */
  function GetAttribute(n: Node, key: string, default: Value := Null): (v: Value)
    ensures key in n.attrs ==> v == n.attrs[key]
    ensures key !in n.attrs ==> v == default
  {
    if key in n.attrs then n.attrs[key] else default
  }

  /** `$node->setAttribute(key, value)`. */
  function SetAttribute(n: Node, key: string, value: Value): (r: Node)
    ensures r.cls == n.cls && r.props == n.props
    ensures GetAttribute(r, key) == value
    ensures forall k :: k != key ==> GetAttribute(r, k) == GetAttribute(n, k)
  {
    n.(attrs := n.attrs[key := value])
  }

  // ---------------------------------------------------------------- the nodes of a tree

  /** The nodes of a sub node value in the order the traversal leaves them. */
  function NodesOf(v: Value): seq<Node>
    decreases v
  {
    match v
    case Obj(n) => NodesOfProps(n.props) + [n]
    case Arr(items) => NodesOfItems(items)
    case _ => []
  }

  function NodesOfItems(items: seq<Value>): seq<Node>
    decreases items
  {
    if |items| == 0 then [] else NodesOf(items[0]) + NodesOfItems(items[1..])
  }

  function NodesOfProps(props: seq<(string, Value)>): seq<Node>
    decreases props
  {
    if |props| == 0 then []
    else
      assert props[0].1 < props[0];
      NodesOf(props[0].1) + NodesOfProps(props[1..])
  }

  /** Two node lists of the same classes, position by position. */
  predicate SameClasses(a: seq<Node>, b: seq<Node>)
  {
    |a| == |b| && forall i :: 0 <= i < |a| ==> a[i].cls == b[i].cls
  }

  lemma SameClassesJoin(a: seq<Node>, b: seq<Node>, c: seq<Node>, d: seq<Node>)
    requires SameClasses(a, c) && SameClasses(b, d)
    ensures SameClasses(a + b, c + d)
  {
  }

  // ---------------------------------------------------------------- truthiness and types

  /** The values PHP converts to false; `empty($x)` of a read value is this test. */
  predicate Falsy(v: Value)
  {
    match v
    case Null => true
    case Bool(b) => !b
    case Int(i) => i == 0
    case Float(f) => f == 0.0
    case Str(s) => s == "" || s == "0"
    case Arr(items) => |items| == 0
    case Obj(_) => false
    case Lvl(_) => false
  }

  /** `$v instanceof C`: false for every non-object. */
  predicate InstanceOf(v: Value, c: Cls)
  {
    v.Obj? && IsA(v.node.cls, c)
  }

  /** The values `foreach` visits: an array's items, an object's public properties, nothing for a scalar. */
  function Iterate(v: Value): (r: seq<Value>)
    ensures v.Arr? ==> r == v.items
    ensures !v.Arr? && !v.Obj? && !v.Lvl? ==> r == []
  {
    match v
    case Arr(items) => items
    case Obj(n) => seq(|n.props|, i requires 0 <= i < |n.props| => n.props[i].1)
    case Lvl(l) => [Str(LanguageLevel.Name(l)), Str(LanguageLevel.Value(l))]
    case _ => []
  }

  /** `count($v)`: only arrays are countable here; anything else is a TypeError. */
  function Count(v: Value): (r: Result<nat>)
    ensures r.Ok? <==> v.Arr?
    ensures r.Ok? ==> r.value == |v.items|
  {
    if v.Arr? then Ok(|v.items|) else Err(TypeError)
  }

  // ---------------------------------------------------------------- strings

  function DigitChar(d: nat): (c: char)
    requires d < 10
    ensures Versions.IsDigit(c)
  {
    ('0' as int + d) as char
  }

  /** The decimal digits of a natural number. */
  function Digits(n: nat): (s: string)
    ensures |s| >= 1 && Versions.AllDigits(s)
  {
    if n < 10 then [DigitChar(n)] else Digits(n / 10) + [DigitChar(n % 10)]
  }

  /** Reading the digits back gives the number: the decimal rendering is faithful. */
  lemma {:induction false} DigitsRoundTrip(n: nat)
    ensures Versions.NatOf(Digits(n)) == n
  {
    var s := Digits(n);
    if n < 10 {
      assert s[..|s| - 1] == [];
    } else {
      DigitsRoundTrip(n / 10);
      assert s[..|s| - 1] == Digits(n / 10);
    }
  }

  /** `(string)` of an int. */
  function IntToString(i: int): string
  {
    if i < 0 then "-" + Digits(-i) else Digits(i)
  }

  /** `(string)` of a value that is not an object; a float is reported as a TypeError, see README. */
  function ScalarToString(v: Value): (r: Result<string>)
    ensures v.Str? ==> r == Ok(v.s)
    ensures v.Null? ==> r == Ok("")
    ensures (v.Obj? || v.Lvl?) ==> r == Err(PhpError)
  {
    match v
    case Null => Ok("")
    case Bool(b) => Ok(if b then "1" else "")
    case Int(i) => Ok(IntToString(i))
    case Float(_) => Err(TypeError)
    case Str(s) => Ok(s)
    case Arr(_) => Ok("Array")
    case Obj(_) => Err(PhpError)
    case Lvl(_) => Err(PhpError)
  }

  function Join(parts: seq<string>, sep: string): string
  {
    if |parts| == 0 then "" else if |parts| == 1 then parts[0] else parts[0] + sep + Join(parts[1..], sep)
  }

  function JoinValues(items: seq<Value>, sep: string): (r: Result<string>)
    ensures r.Ok? && |items| == 1 ==> r == ScalarToString(items[0])
  {
    if |items| == 0 then Ok("")
    else
      var head := ScalarToString(items[0]);
      if head.Err? then head
      else if |items| == 1 then head
      else
        var tail := JoinValues(items[1..], sep);
        if tail.Err? then tail else Ok(head.value + sep + tail.value)
  }

  /** Name::toString(): the parts joined by backslashes; implode() refuses a non-array. */
  function NameToString(n: Node): (r: Result<string>)
    ensures !Prop(n, "parts").Arr? ==> r == Err(TypeError)
  {
    var parts := Prop(n, "parts");
    if parts.Arr? then JoinValues(parts.items, "\\") else Err(TypeError)
  }

  /** Identifier::toString(): its name, coerced to the declared string return type. */
  function IdentifierToString(n: Node): (r: Result<string>)
    ensures Prop(n, "name").Str? ==> r == Ok(Prop(n, "name").s)
    ensures Prop(n, "name").Null? ==> r == Err(TypeError)
  {
    match Prop(n, "name")
    case Str(s) => Ok(s)
    case Int(i) => Ok(IntToString(i))
    case Bool(b) => Ok(if b then "1" else "")
    case _ => Err(TypeError)
  }

  /** Whether the object has a toString()/__toString() method (Name, Identifier and their subclasses). */
  predicate Stringable(v: Value)
  {
    v.Obj? && (IsA(v.node.cls, Name) || IsA(v.node.cls, Identifier))
  }

  function ObjectToString(v: Value): Result<string>
    requires Stringable(v)
  {
    if IsA(v.node.cls, Name) then NameToString(v.node) else IdentifierToString(v.node)
  }

  /** `$v->toString()`: an Error for null, non-objects and objects without the method. */
  function CallToString(v: Value): (r: Result<string>)
    ensures !Stringable(v) ==> r == Err(PhpError)
  {
    if Stringable(v) then ObjectToString(v) else Err(PhpError)
  }

  /** `(string)$v`. */
  function CastToString(v: Value): (r: Result<string>)
    ensures Stringable(v) ==> r == CallToString(v)
    ensures v.Obj? && !Stringable(v) ==> r == Err(PhpError)
    ensures !v.Obj? ==> r == ScalarToString(v)
  {
    if Stringable(v) then ObjectToString(v) else ScalarToString(v)
  }

  /**
   * A value passed to a string parameter of a built-in function in coercive
   * mode: null becomes "", arrays and objects without __toString are a TypeError.
   */
  function StringArgument(v: Value): (r: Result<string>)
    ensures v.Str? ==> r == Ok(v.s)
    ensures v.Null? ==> r == Ok("")
    ensures v.Arr? || (v.Obj? && !Stringable(v)) || v.Lvl? ==> r == Err(TypeError)
  {
    if Stringable(v) then ObjectToString(v)
    else if v.Arr? || v.Obj? || v.Lvl? then Err(TypeError)
    else ScalarToString(v)
  }

  /** PHP's strict `$s === "..."` between a value and a string literal. */
  predicate IsString(v: Value, s: string)
  {
    v == Str(s)
  }

  // ---------------------------------------------------------------- integers and `&`

  /** (int) of a float: truncation toward zero. */
  function Truncate(f: real): int
  {
    if f >= 0.0 then f.Floor else -((-f).Floor)
  }

  /** An operand of `&`: null and false are 0, true is 1, floats are truncated. */
  function IntOperand(v: Value): (r: Result<int>)
    ensures v.Int? ==> r == Ok(v.i)
    ensures v.Null? ==> r == Ok(0)
    ensures v.Str? || v.Arr? || v.Obj? || v.Lvl? ==> r == Err(TypeError)
  {
    match v
    case Null => Ok(0)
    case Bool(b) => Ok(if b then 1 else 0)
    case Int(i) => Ok(i)
    case Float(f) => Ok(Truncate(f))
    case _ => Err(TypeError)
  }

  /** A value passed to an `int` parameter of a user function in coercive mode: null is a TypeError. */
  function IntParameter(v: Value): (r: Result<int>)
    ensures v.Int? ==> r == Ok(v.i)
    ensures v.Null? ==> r == Err(TypeError)
  {
    if v.Null? then Err(TypeError) else IntOperand(v)
  }

  function Pow2(b: nat): (p: nat)
    ensures p >= 1
  {
    if b == 0 then 1 else 2 * Pow2(b - 1)
  }

  /** Bit b of x in two's complement (floor division keeps the sign bits of negative numbers). */
  predicate HasBit(x: int, b: nat)
  {
    (x / Pow2(b)) % 2 == 1
  }

  function Abs(x: int): nat { if x < 0 then -x else x }

  /** PHP's `x & y` on integers, bit by bit in two's complement. */
  function BitAnd(x: int, y: int): int
    decreases Abs(x) + Abs(y)
  {
    if x == 0 || y == 0 then 0
    else if x == -1 then y
    else if y == -1 then x
    else 2 * BitAnd(x / 2, y / 2) + (x % 2) * (y % 2)
  }

  lemma HalfStep(x: int, m: nat)
    requires m >= 1
    ensures 2 * ((x / 2) % m) + x % 2 == x % (2 * m)
    ensures (x / 2) / m == x / (2 * m)
  {
    var q, r := x / 2, x % 2;
    assert x == 2 * q + r;
    var q2, r2 := q / m, q % m;
    assert q == m * q2 + r2;
    assert x == (2 * m) * q2 + (2 * r2 + r);
    assert 0 <= 2 * r2 + r < 2 * m;
    DivModUnique(x, 2 * m, q2, 2 * r2 + r);
  }

  lemma DivModUnique(x: int, d: int, q: int, r: int)
    requires d > 0 && x == d * q + r && 0 <= r < d
    ensures x / d == q && x % d == r
  {
    var q', r' := x / d, x % d;
    assert x == d * q' + r';
    if q' > q {
      assert d * q' >= d * (q + 1) by { MulMono(d, q + 1, q'); }
    } else if q' < q {
      assert d * q >= d * (q' + 1) by { MulMono(d, q' + 1, q); }
    }
  }

  lemma MulMono(d: int, a: int, b: int)
    requires d > 0 && a <= b
    ensures d * a <= d * b
  {
  }

  /** x & (2^k - 1) keeps the k low bits of x. */
  lemma {:induction false} BitAndLowMask(x: int, k: nat)
    ensures BitAnd(x, Pow2(k) - 1) == x % Pow2(k)
    decreases k
  {
    if k == 0 {
    } else if x == 0 {
    } else if x == -1 {
      assert -1 % Pow2(k) == Pow2(k) - 1 by { DivModUnique(-1, Pow2(k), -1, Pow2(k) - 1); }
    } else if k == 1 {
      assert BitAnd(x, 1) == 2 * BitAnd(x / 2, 0) + (x % 2) * 1;
    } else {
      var m := Pow2(k - 1);
      assert (Pow2(k) - 1) / 2 == m - 1 && (Pow2(k) - 1) % 2 == 1 by {
        DivModUnique(Pow2(k) - 1, 2, m - 1, 1);
      }
      assert Pow2(k) - 1 != -1 && Pow2(k) - 1 != 0;
      assert BitAnd(x, Pow2(k) - 1) == 2 * BitAnd(x / 2, m - 1) + x % 2;
      BitAndLowMask(x / 2, k - 1);
      HalfStep(x, m);
    }
  }

  /** x & 2^k is 2^k exactly when bit k of x is set, and 0 otherwise. */
  lemma {:induction false} BitAndSingle(x: int, k: nat)
    ensures BitAnd(x, Pow2(k)) == if HasBit(x, k) then Pow2(k) else 0
    decreases k
  {
    if x == 0 {
    } else if x == -1 {
      assert -1 / Pow2(k) == -1 by { DivModUnique(-1, Pow2(k), -1, Pow2(k) - 1); }
    } else if k == 0 {
      assert BitAnd(x, 1) == 2 * BitAnd(x / 2, 0) + (x % 2) * 1;
    } else {
      var m := Pow2(k - 1);
      assert Pow2(k) / 2 == m && Pow2(k) % 2 == 0 by { DivModUnique(Pow2(k), 2, m, 0); }
      assert BitAnd(x, Pow2(k)) == 2 * BitAnd(x / 2, m);
      BitAndSingle(x / 2, k - 1);
      HalfStep(x, m);
    }
  }
}
