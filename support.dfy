/**
  Values and helpers the partial drivers rely on: PHP values as they appear in a
  driver's parameters, PHP truthiness, integer-to-string conversion, `rtrim(.., '/')`,
  top-level `array_merge`, the two-segment dotted paths of the parameter bag
  (`attrs.class`, `view.directory`) and `sprintf` with a single `%s`.
*/
module Support {

  datatype Option<T> = None | Some(value: T) {
    function GetOr(default: T): T {
      if Some? then value else default
    }
  }

  datatype Result<T, E> = Ok(value: T) | Err(error: E)

  /** A PHP value as it can be stored in a driver's parameter bag. */
  datatype Value =
    | Null
    | Bool(b: bool)
    | Int(i: int)
    | Str(s: string)
    | Arr(m: map<string, Value>)
    | Closure(fn: nat)          // a Closure object; `fn` identifies it for the producer oracle
    | ViewObject(handle: nat)   // an object implementing the view interface

  /** A parameter bag: string keys to values. */
  type Params = map<string, Value>

  /** What a content producer sees of the driver it is applied to. */
  datatype DriverView = DriverView(alias: string, id: string, index: int, params: Params)

  /** The behaviour of the closures stored in parameters: closure id and driver to a string. */
  type Producer = (nat, DriverView) -> string

  /** PHP string truthiness: only "" and "0" are false. */
  predicate FalsyString(s: string) {
    s == "" || s == "0"
  }

  /** PHP truthiness of a value (`!$v`). Objects are always truthy. */
  predicate Falsy(v: Value) {
    match v
    case Null => true
    case Bool(b) => !b
    case Int(i) => i == 0
    case Str(s) => FalsyString(s)
    case Arr(m) => |m| == 0
    case Closure(_) => false
    case ViewObject(_) => false
  }

  // ---------------------------------------------------------------------------
  // Integer to decimal string, as PHP's string interpolation of an int
  // ---------------------------------------------------------------------------

  function Digit(d: nat): (c: char)
    requires d < 10
    ensures '0' <= c <= '9'
    ensures c as int - '0' as int == d
  {
    ('0' as int + d) as char
  }

  /** The number a string of decimal digits denotes, most significant digit first. */
  function DigitsValue(s: string): int
    decreases |s|
  {
    if s == [] then 0 else 10 * DigitsValue(s[..|s| - 1]) + (s[|s| - 1] as int - '0' as int)
  }

  /** The decimal representation of `n`, without leading zeros. */
  function Decimal(n: nat): (r: string)
    ensures |r| >= 1
    ensures |r| == 1 <==> n < 10
    ensures forall i | 0 <= i < |r| :: '0' <= r[i] <= '9'
    ensures DigitsValue(r) == n
    ensures r[0] == '0' <==> n == 0
  {
    if n < 10 then [Digit(n)]
    else
      var r := Decimal(n / 10) + [Digit(n % 10)];
      assert r[..|r| - 1] == Decimal(n / 10);
      r
  }

  /** PHP's conversion of an int to a string. */
  function IntString(i: int): (r: string)
    ensures |r| >= 1
    ensures i >= 0 ==> r == Decimal(i)
    ensures i < 0 ==> r == "-" + Decimal(-i)
  {
    if i < 0 then "-" + Decimal(-i) else Decimal(i)
  }

  /** Different numbers have different decimal representations: each denotes its number. */
  lemma DecimalInjective(m: nat, n: nat)
    requires Decimal(m) == Decimal(n)
    ensures m == n
  {
    assert DigitsValue(Decimal(m)) == m;
  }

  /** ASCII lower-casing of one character, as PHP applies to method names. */
  function LowerChar(c: char): char {
    if 'A' <= c <= 'Z' then (c as int + 32) as char else c
  }

  /** `strtolower` on ASCII: PHP compares method names this way. */
  function LowerAscii(s: string): (r: string)
    ensures |r| == |s|
    ensures forall i | 0 <= i < |s| :: r[i] == LowerChar(s[i])
  {
    seq(|s|, i requires 0 <= i < |s| => LowerChar(s[i]))
  }

  // ---------------------------------------------------------------------------
  // Paths
  // ---------------------------------------------------------------------------

  /** `rtrim($s, '/')`: drops every trailing slash. */
  function RTrimSlash(s: string): (r: string)
    ensures |r| <= |s| && r == s[..|r|]
    ensures r == [] || r[|r| - 1] != '/'
    ensures forall i | |r| <= i < |s| :: s[i] == '/'
    decreases |s|
  {
    if |s| > 0 && s[|s| - 1] == '/' then RTrimSlash(s[..|s| - 1]) else s
  }

  /** `rtrim($root, '/') . '/' . $name` */
  function JoinPath(root: string, name: string): string {
    RTrimSlash(root) + "/" + name
  }

  // ---------------------------------------------------------------------------
  // array_merge and the dotted paths of the parameter bag
  // ---------------------------------------------------------------------------

  /** `array_merge($a, $b)` on string keys: a shallow merge where `b` wins. */
  function Merge(a: Params, b: Params): Params {
    a + b
  }

  /** `$bag->get($key)` for a top-level key; null when absent. */
  function Get(p: Params, key: string): Value {
    if key in p then p[key] else Null
  }

  /** `$bag->has("outer.inner")` */
  predicate Has2(p: Params, outer: string, inner: string) {
    outer in p && p[outer].Arr? && inner in p[outer].m
  }

  /** `$bag->get("outer.inner")`; null when the path is missing. */
  function Get2(p: Params, outer: string, inner: string): Value {
    if Has2(p, outer, inner) then p[outer].m[inner] else Null
  }

  /** `$bag->set("outer.inner", $v)`; a non-array `outer` is replaced by an array. */
  function Set2(p: Params, outer: string, inner: string, v: Value): (r: Params)
    ensures Has2(r, outer, inner) && Get2(r, outer, inner) == v
    ensures forall k | k != outer :: (k in r <==> k in p) && (k in r ==> r[k] == p[k])
    ensures forall k | k != inner :: Has2(r, outer, k) == Has2(p, outer, k) && Get2(r, outer, k) == Get2(p, outer, k)
  {
    var inside := if outer in p && p[outer].Arr? then p[outer].m else map[];
    p[outer := Arr(inside[inner := v])]
  }

  /** `$bag->forget("outer.inner")`; nothing happens when the path is missing. */
  function Forget2(p: Params, outer: string, inner: string): (r: Params)
    ensures !Has2(r, outer, inner)
    ensures !Has2(p, outer, inner) ==> r == p
    ensures forall k | k != outer :: (k in r <==> k in p) && (k in r ==> r[k] == p[k])
    ensures forall k | k != inner :: Has2(r, outer, k) == Has2(p, outer, k) && Get2(r, outer, k) == Get2(p, outer, k)
  {
    if Has2(p, outer, inner) then p[outer := Arr(p[outer].m - {inner})] else p
  }

  // ---------------------------------------------------------------------------
  // sprintf with one string argument
  // ---------------------------------------------------------------------------

  /** The format strings this model gives `sprintf`: every '%' starts a "%s", and there is at most one. */
  predicate SingleStringDirective(t: string)
    decreases |t|
  {
    if |t| == 0 then true
    else if t[0] == '%' then |t| >= 2 && t[1] == 's' && '%' !in t[2..]
    else SingleStringDirective(t[1..])
  }

  /** `sprintf($t, $arg)`: the "%s" directive, if any, is replaced by `arg`. */
  function Sprintf(t: string, arg: string): string
    requires SingleStringDirective(t)
    decreases |t|
  {
    if |t| < 2 then t
    else if t[0] == '%' then arg + t[2..]
    else [t[0]] + Sprintf(t[1..], arg)
  }

  /** A format without '%' comes out of `sprintf` unchanged. */
  lemma {:induction false} SprintfWithoutDirective(t: string, arg: string)
    requires '%' !in t
    ensures SingleStringDirective(t) && Sprintf(t, arg) == t
  {
    if |t| >= 2 {
      SprintfWithoutDirective(t[1..], arg);
    }
  }

  /** The one "%s" is replaced by the argument and everything around it is kept. */
  lemma {:induction false} SprintfSubstitutes(a: string, b: string, arg: string)
    requires '%' !in a && '%' !in b
    ensures SingleStringDirective(a + "%s" + b)
    ensures Sprintf(a + "%s" + b, arg) == a + arg + b
  {
    var t := a + "%s" + b;
    assert t[|a|] == '%' && t[|a| + 1] == 's';
    assert forall i | 0 <= i < |t| && i != |a| :: t[i] != '%' by {
      forall i | 0 <= i < |t| && i != |a|
        ensures t[i] != '%'
      {
        if i < |a| { assert t[i] == a[i]; }
        else if i > |a| + 1 { assert t[i] == b[i - |a| - 2]; }
      }
    }
    if a == [] {
      assert t[2..] == b;
    } else {
      SprintfSubstitutes(a[1..], b, arg);
      assert t[1..] == a[1..] + "%s" + b;
    }
  }
}
