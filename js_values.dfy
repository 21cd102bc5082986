/**
 * The JavaScript values that flow through the protocol: configuration entries,
 * command names, command arguments, results and property values.
 */
module JsValues {

  /**
   * A JavaScript value. Numbers are modelled by their integer values. Every
   * object, array or function is an `Object`, carrying an identity token and the
   * text that `String(v)` gives for it.
   */
  datatype Value =
    | Undefined
    | Null
    | Bool(b: bool)
    | Num(n: int)
    | Str(s: string)
    | Object(token: nat, text: string)

  /** The falsy values the model can represent (`NaN` and `-0` are not among its numbers). */
  const FALSY: set<Value> := {Undefined, Null, Bool(false), Num(0), Str("")}

  /** JavaScript truthiness, the test behind `if (v)` and `!v`: every value but the falsy ones. */
  predicate Truthy(v: Value)
    ensures Truthy(v) <==> v !in FALSY
  {
    match v
    case Undefined => false
    case Null => false
    case Bool(b) => b
    case Num(n) => n != 0
    case Str(s) => s != ""
    case Object(_, _) => true
  }

  function DecimalDigit(d: nat): char
    requires d < 10
  {
    (48 + d) as char
  }

  /** The decimal numeral of `n`, without leading zeros. */
  function Decimal(n: nat): (r: string)
    ensures |r| >= 1 && (n >= 10 ==> |r| >= 2)
    ensures forall i :: 0 <= i < |r| ==> '0' <= r[i] <= '9'
    decreases n
  {
    if n < 10 then [DecimalDigit(n)] else Decimal(n / 10) + [DecimalDigit(n % 10)]
  }

  /**
   * `String(v)`: the text of a value. This is also the key under which an event
   * emitter files a listener, and the text `+` appends when one operand is a string.
   */
  function ToStr(v: Value): string {
    match v
    case Undefined => "undefined"
    case Null => "null"
    case Bool(b) => if b then "true" else "false"
    case Num(n) => if n < 0 then "-" + Decimal(-n) else Decimal(n)
    case Str(s) => s
    case Object(_, text) => text
  }

  /** Distinct numbers have distinct numerals. */
  lemma {:induction false} DecimalInjective(a: nat, b: nat)
    requires Decimal(a) == Decimal(b)
    ensures a == b
    decreases a
  {
    if a >= 10 && b >= 10 {
      var da, db := Decimal(a), Decimal(b);
      assert da == Decimal(a / 10) + [DecimalDigit(a % 10)];
      assert db == Decimal(b / 10) + [DecimalDigit(b % 10)];
      assert DecimalDigit(a % 10) == da[|da| - 1] == DecimalDigit(b % 10);
      assert da[..|da| - 1] == Decimal(a / 10);
      assert db[..|db| - 1] == Decimal(b / 10);
      DecimalInjective(a / 10, b / 10);
    }
  }

  /** The text of a number starts with a minus sign exactly when the number is negative. */
  lemma SignOfNumeral(a: int)
    ensures |ToStr(Num(a))| >= 1 && (ToStr(Num(a))[0] == '-' <==> a < 0)
  {
    if a >= 0 {
      assert '0' <= Decimal(a)[0];
    }
  }

  /**
   * Emitter keys of numbers: two numbers share a channel exactly when they are
   * equal, but a number shares it with its own numeral, so `1` and `"1"` name the
   * same command.
   */
  lemma NumberKeys(a: int, b: int)
    ensures ToStr(Num(a)) == ToStr(Num(b)) <==> a == b
    ensures a >= 0 ==> ToStr(Num(a)) == ToStr(Str(Decimal(a)))
  {
    var ta, tb := ToStr(Num(a)), ToStr(Num(b));
    SignOfNumeral(a);
    SignOfNumeral(b);
    if ta == tb {
      if a < 0 && b < 0 {
        assert ta == "-" + Decimal(-a) && tb == "-" + Decimal(-b);
        assert Decimal(-a) == ta[1..] == Decimal(-b);
        DecimalInjective(-a, -b);
      } else if a >= 0 && b >= 0 {
        DecimalInjective(a, b);
      }
    }
  }
}
