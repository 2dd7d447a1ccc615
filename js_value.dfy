/** The JavaScript values the storefront code handles: JSON data plus `undefined`,
    with the coercions (`||`, `String(v)`, `Number(v)`, `trim`, `toLowerCase`) and the
    object spread `{...a, ...b}` that the source relies on. */
module JsValue {

  datatype Option<T> = None | Some(value: T)

  /** The outcome of a JavaScript call: a returned value, or an exception thrown past it. */
  datatype Outcome<T> = Returns(value: T) | Throws

  /** A JavaScript value. Numbers are integers; an object is its own properties in order. */
  datatype JsVal =
    | Undefined
    | Null
    | Bool(b: bool)
    | Num(n: int)
    | Str(s: string)
    | Arr(elems: seq<JsVal>)
    | Obj(props: seq<Prop>)

  datatype Prop = Prop(key: string, val: JsVal)

  /** The result of `Number(v)`. */
  datatype Numeric = NaN | Finite(n: int)

  /** JavaScript truthiness. */
  predicate Truthy(v: JsVal)
  {
    match v
    case Undefined => false
    case Null => false
    case Bool(b) => b
    case Num(n) => n != 0
    case Str(s) => s != ""
    case _ => true
  }

  /** `a || b` */
  function Or(a: JsVal, b: JsVal): JsVal
  {
    if Truthy(a) then a else b
  }

  /** `a ?? b` */
  function Nullish(a: JsVal, b: JsVal): JsVal
  {
    if a == Undefined || a == Null then b else a
  }

  /** The first property named `key`, if any. */
  function Lookup(props: seq<Prop>, key: string): Option<JsVal>
  {
    if props == [] then None
    else if props[0].key == key then Some(props[0].val)
    else Lookup(props[1..], key)
  }

  /** A lookup finds something exactly when the key is present. */
  lemma {:induction false} LookupHasKey(props: seq<Prop>, key: string)
    ensures Lookup(props, key).Some? <==> HasKey(props, key)
  {
    if props != [] && props[0].key != key {
      LookupHasKey(props[1..], key);
      if HasKey(props, key) {
        var i :| 0 <= i < |props| && props[i].key == key;
        assert props[1..][i - 1].key == key;
      }
    }
  }

  predicate HasKey(props: seq<Prop>, key: string)
  {
    exists i :: 0 <= i < |props| && props[i].key == key
  }

  /** `v?.key`: a missing property and a nullish base both read as `undefined`;
      other primitives and arrays carry none of the names the source reads. */
  function Get(v: JsVal, key: string): JsVal
  {
    match v
    case Obj(props) =>
      (match Lookup(props, key)
       case Some(x) => x
       case None => Undefined)
    case _ => Undefined
  }

  /** `Array.isArray(v) ? v : []` */
  function ArrayOrEmpty(v: JsVal): seq<JsVal>
  {
    if v.Arr? then v.elems else []
  }

  /** No two properties share a key: every JavaScript object has this shape. */
  predicate UniqueKeys(props: seq<Prop>)
  {
    forall i, j :: 0 <= i < j < |props| ==> props[i].key != props[j].key
  }

  // ---------- strings ----------

  /** The characters `String.prototype.trim` removes (white space and line terminators). */
  predicate IsSpace(c: char)
  {
    c == ' ' || c == '\t' || c == '\n' || c == '\r' || c == '\U{000B}' || c == '\U{000C}'
    || c == '\U{00A0}' || c == '\U{1680}' || ('\U{2000}' <= c <= '\U{200A}')
    || c == '\U{2028}' || c == '\U{2029}' || c == '\U{202F}' || c == '\U{205F}'
    || c == '\U{3000}' || c == '\U{FEFF}'
  }

  function TrimStart(s: string): string
  {
    if s != [] && IsSpace(s[0]) then TrimStart(s[1..]) else s
  }

  function TrimEnd(s: string): string
  {
    if s != [] && IsSpace(s[|s| - 1]) then TrimEnd(s[..|s| - 1]) else s
  }

  /** `TrimStart` drops a prefix and leaves no white space at the front. */
  lemma {:induction false} TrimStartSpec(s: string)
    ensures |TrimStart(s)| <= |s| && TrimStart(s) == s[|s| - |TrimStart(s)|..]
    ensures TrimStart(s) != [] ==> !IsSpace(TrimStart(s)[0])
  {
    if s != [] && IsSpace(s[0]) {
      TrimStartSpec(s[1..]);
    }
  }

  /** `TrimEnd` drops a suffix and leaves no white space at the back. */
  lemma {:induction false} TrimEndSpec(s: string)
    ensures |TrimEnd(s)| <= |s| && TrimEnd(s) == s[..|TrimEnd(s)|]
    ensures TrimEnd(s) != [] ==> !IsSpace(TrimEnd(s)[|TrimEnd(s)| - 1])
  {
    if s != [] && IsSpace(s[|s| - 1]) {
      TrimEndSpec(s[..|s| - 1]);
    }
  }

  /** `s.trim()` */
  function Trim(s: string): string
  {
    TrimEnd(TrimStart(s))
  }

  /** Trimming leaves no white space at either end, and removes only white space. */
  lemma {:induction false} TrimBounds(s: string)
    ensures Trim(s) != [] ==> !IsSpace(Trim(s)[0]) && !IsSpace(Trim(s)[|Trim(s)| - 1])
    ensures (forall i :: 0 <= i < |s| ==> !IsSpace(s[i])) ==> Trim(s) == s
  {
    var t := TrimStart(s);
    TrimStartSpec(s);
    TrimEndSpec(t);
    if Trim(s) != [] {
      assert Trim(s)[0] == t[0];
    }
    if forall i :: 0 <= i < |s| ==> !IsSpace(s[i]) {
      NoSpaceTrimStart(s);
      NoSpaceTrimEnd(s);
    }
  }

  lemma {:induction false} NoSpaceTrimStart(s: string)
    requires forall i :: 0 <= i < |s| ==> !IsSpace(s[i])
    ensures TrimStart(s) == s
  {
    if s != [] {
      assert !IsSpace(s[0]);
    }
  }

  lemma {:induction false} NoSpaceTrimEnd(s: string)
    requires forall i :: 0 <= i < |s| ==> !IsSpace(s[i])
    ensures TrimEnd(s) == s
  {
    if s != [] {
      assert !IsSpace(s[|s| - 1]);
    }
  }

  /** Trimming twice is trimming once. */
  lemma {:induction false} TrimIdempotent(s: string)
    ensures Trim(Trim(s)) == Trim(s)
  {
    var t := Trim(s);
    TrimBounds(s);
    if t != [] {
      assert !IsSpace(t[0]);
      assert TrimStart(t) == t;
      assert !IsSpace(t[|t| - 1]);
      assert TrimEnd(t) == t;
    }
  }

  function LowerChar(c: char): char
  {
    if 'A' <= c <= 'Z' then (c as int + 32) as char else c
  }

  /** `s.toLowerCase()` on the ASCII letters. */
  function LowerAscii(s: string): (r: string)
    ensures |r| == |s|
    ensures forall i :: 0 <= i < |s| ==> r[i] == LowerChar(s[i])
  {
    if s == [] then [] else [LowerChar(s[0])] + LowerAscii(s[1..])
  }

  /** `s.replace(c, "")` with a one-character pattern: only the first occurrence goes. */
  function RemoveFirst(s: string, c: char): (r: string)
    ensures c !in s ==> r == s
    ensures c in s ==> |r| == |s| - 1
  {
    if s == [] then []
    else if s[0] == c then s[1..]
    else [s[0]] + RemoveFirst(s[1..], c)
  }

  function DigitChar(d: int): char
    requires 0 <= d < 10
  {
    "0123456789"[d]
  }

  predicate IsDigit(c: char)
  {
    '0' <= c <= '9'
  }

  /** The decimal digits of a natural number, without leading zeros. */
  function NatToDecimal(n: nat): (r: string)
    ensures r != []
    ensures forall i :: 0 <= i < |r| ==> IsDigit(r[i])
  {
    if n < 10 then [DigitChar(n)] else NatToDecimal(n / 10) + [DigitChar(n % 10)]
  }

  /** `String(n)` for an integer. */
  function IntToDecimal(n: int): string
  {
    if n < 0 then "-" + NatToDecimal(-n) else NatToDecimal(n)
  }

  /** The value of a string of decimal digits. */
  function DigitsValue(s: string): nat
    requires forall i :: 0 <= i < |s| ==> IsDigit(s[i])
  {
    if s == [] then 0
    else
      assert IsDigit(s[|s| - 1]);
      DigitsValue(s[..|s| - 1]) * 10 + (s[|s| - 1] as int - '0' as int)
  }

  predicate AllDigits(s: string)
  {
    s != [] && forall i :: 0 <= i < |s| ==> IsDigit(s[i])
  }

  /** `Number(s)` for a string: white space around is ignored, the empty string is 0,
      an optionally signed run of decimal digits is its value, anything else is NaN. */
  function ParseNumber(s: string): Numeric
  {
    var t := Trim(s);
    if t == [] then Finite(0)
    else if AllDigits(t) then Finite(DigitsValue(t))
    else if (t[0] == '-' || t[0] == '+') && AllDigits(t[1..]) then
      Finite(if t[0] == '-' then 0 - DigitsValue(t[1..]) else DigitsValue(t[1..]))
    else NaN
  }

  lemma {:induction false} DigitsOfNat(n: nat)
    ensures DigitsValue(NatToDecimal(n)) == n
  {
    if n >= 10 {
      var s := NatToDecimal(n);
      DigitsOfNat(n / 10);
      assert s[..|s| - 1] == NatToDecimal(n / 10);
      assert s[|s| - 1] == DigitChar(n % 10);
    }
  }

  /** `Number(String(n)) === n` for every integer. */
  lemma NumberOfDecimal(n: int)
    ensures ParseNumber(IntToDecimal(n)) == Finite(n)
  {
    var s := IntToDecimal(n);
    TrimBounds(s);
    if n < 0 {
      DigitsOfNat(-n);
      assert s[1..] == NatToDecimal(-n);
      assert !IsDigit(s[0]);
    } else {
      DigitsOfNat(n);
    }
  }

  /** `String(v)` */
  function ToStr(v: JsVal): string
  {
    match v
    case Undefined => "undefined"
    case Null => "null"
    case Bool(b) => if b then "true" else "false"
    case Num(n) => IntToDecimal(n)
    case Str(s) => s
    case Arr(es) => JoinElems(es)
    case Obj(_) => "[object Object]"
  }

  /** `Array.prototype.join(",")`: nullish elements print as empty text. */
  function JoinElems(es: seq<JsVal>): string
  {
    if es == [] then ""
    else
      var last := es[|es| - 1];
      var text := if last == Undefined || last == Null then "" else ToStr(last);
      if |es| == 1 then text else JoinElems(es[..|es| - 1]) + "," + text
  }

  /** `Number(v)` */
  function ToNumber(v: JsVal): Numeric
  {
    match v
    case Undefined => NaN
    case Null => Finite(0)
    case Bool(b) => Finite(if b then 1 else 0)
    case Num(n) => Finite(n)
    case _ => ParseNumber(ToStr(v))
  }

  /** `Number(v) > 0` (NaN compares false). */
  predicate NumberPositive(v: JsVal)
  {
    ToNumber(v).Finite? && ToNumber(v).n > 0
  }

  // ---------- object spread ----------

  /** Assigns a property: an existing key keeps its position and takes the new value,
      a new key is appended. */
  function SetProp(props: seq<Prop>, key: string, val: JsVal): (r: seq<Prop>)
    ensures Lookup(r, key) == Some(val)
    ensures forall k :: k != key ==> Lookup(r, k) == Lookup(props, k)
  {
    if props == [] then [Prop(key, val)]
    else if props[0].key == key then [Prop(key, val)] + props[1..]
    else [props[0]] + SetProp(props[1..], key, val)
  }

  /** The own enumerable properties `{...v}` copies: none for nullish values, numbers and
      booleans, the indices for arrays and strings. */
  function SpreadSource(v: JsVal): seq<Prop>
  {
    match v
    case Obj(props) => props
    case Arr(es) => seq(|es|, i requires 0 <= i < |es| => Prop(IntToDecimal(i), es[i]))
    case Str(s) => seq(|s|, i requires 0 <= i < |s| => Prop(IntToDecimal(i), Str([s[i]])))
    case _ => []
  }

  /** Copies `src` onto `acc` in order. */
  function AssignAll(acc: seq<Prop>, src: seq<Prop>): seq<Prop>
    decreases |src|
  {
    if src == [] then acc else AssignAll(SetProp(acc, src[0].key, src[0].val), src[1..])
  }

  /** `{...a, ...b}` */
  function Spread(a: JsVal, b: JsVal): JsVal
  {
    Obj(AssignAll(AssignAll([], SpreadSource(a)), SpreadSource(b)))
  }

  /** Setting a property never duplicates a key. */
  lemma {:induction false} SetPropUnique(props: seq<Prop>, key: string, val: JsVal)
    requires UniqueKeys(props)
    ensures UniqueKeys(SetProp(props, key, val))
  {
    if props != [] && props[0].key != key {
      var rest := props[1..];
      SetPropUnique(rest, key, val);
      var r := SetProp(rest, key, val);
      assert !HasKey(rest, props[0].key);
      LookupHasKey(rest, props[0].key);
      LookupHasKey(r, props[0].key);
      assert !HasKey(r, props[0].key);
      forall i, j | 0 <= i < j < |[props[0]] + r|
        ensures ([props[0]] + r)[i].key != ([props[0]] + r)[j].key
      {
        if i == 0 {
          assert ([props[0]] + r)[j] == r[j - 1];
        }
      }
    } else if props != [] {
      assert forall i :: 1 <= i < |props| ==> ([Prop(key, val)] + props[1..])[i] == props[i];
    }
  }

  lemma {:induction false} AssignAllUnique(acc: seq<Prop>, src: seq<Prop>)
    requires UniqueKeys(acc)
    ensures UniqueKeys(AssignAll(acc, src))
    decreases |src|
  {
    if src != [] {
      SetPropUnique(acc, src[0].key, src[0].val);
      AssignAllUnique(SetProp(acc, src[0].key, src[0].val), src[1..]);
    }
  }

  /** A spread object never has two properties with the same key. */
  lemma SpreadUnique(a: JsVal, b: JsVal)
    ensures Spread(a, b).Obj? && UniqueKeys(Spread(a, b).props)
  {
    AssignAllUnique([], SpreadSource(a));
    AssignAllUnique(AssignAll([], SpreadSource(a)), SpreadSource(b));
  }

  /** After copying `src`, a key `src` carries reads `src`'s value; any other key is untouched. */
  lemma {:induction false} LookupAssignAll(acc: seq<Prop>, src: seq<Prop>, k: string)
    requires UniqueKeys(src)
    ensures Lookup(AssignAll(acc, src), k) ==
            if HasKey(src, k) then Lookup(src, k) else Lookup(acc, k)
    decreases |src|
  {
    if src != [] {
      var acc' := SetProp(acc, src[0].key, src[0].val);
      var rest := src[1..];
      assert HasKey(src, src[0].key);
      assert UniqueKeys(rest);
      LookupAssignAll(acc', rest, k);
      if k == src[0].key {
        assert !HasKey(rest, k) by {
          forall i | 0 <= i < |rest| ensures rest[i].key != k {
            assert rest[i] == src[i + 1];
          }
        }
      } else {
        assert HasKey(src, k) <==> HasKey(rest, k) by {
          if HasKey(src, k) {
            var i :| 0 <= i < |src| && src[i].key == k;
            assert rest[i - 1].key == k;
          }
          if HasKey(rest, k) {
            var i :| 0 <= i < |rest| && rest[i].key == k;
            assert src[i + 1].key == k;
          }
        }
      }
    }
  }

  /** `({...a, ...b}).k` is `b.k` whenever `b` has its own `k` (even when that value is
      `undefined`), and `a.k` otherwise. */
  lemma GetSpread(a: JsVal, b: JsVal, k: string)
    requires a.Obj? && b.Obj? && UniqueKeys(a.props) && UniqueKeys(b.props)
    ensures Get(Spread(a, b), k) == if HasKey(b.props, k) then Get(b, k) else Get(a, k)
  {
    LookupAssignAll([], a.props, k);
    LookupAssignAll(AssignAll([], a.props), b.props, k);
    LookupHasKey(a.props, k);
    LookupHasKey(b.props, k);
  }
}
