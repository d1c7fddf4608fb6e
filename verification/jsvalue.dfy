/**
 * The JavaScript values the core passes around, and the ECMAScript conversions
 * it applies to them: truthiness, `??`, `||`, `String(v)`, `Number(v)`,
 * `Number.parseInt(v, 10)`, property access and `Object.entries`.
 *
 * Numbers are exact reals: every number the model holds is finite, and a
 * conversion that yields `NaN` or an infinity yields `None`.
 * An object is the ordered list of its own enumerable entries.
 */
module JsValue {
  import opened Wrappers
  import opened JsString

  datatype Value =
    | Undef
    | Null
    | Bool(b: bool)
    | Num(n: real)
    | Str(s: string)
      /** A valid `Date`: its time value, its `toISOString()` and its `String(d)` renderings. */
    | Date(ms: int, iso: string, text: string)
    | Arr(items: seq<Value>)
    | Obj(fields: seq<Field>)

  datatype Field = Field(key: string, val: Value)

  /** The own enumerable entries of a plain object, in enumeration order. */
  type Record = seq<Field>

  // ---------------------------------------------------------------- truthiness

  /** `v === null || v === undefined` */
  predicate Nullish(v: Value) { v.Undef? || v.Null? }

  /** ToBoolean */
  predicate Truthy(v: Value) {
    match v
    case Undef => false
    case Null => false
    case Bool(b) => b
    case Num(n) => n != 0.0
    case Str(s) => s != ""
    case _ => true
  }

  /** `a ?? b` */
  function Coalesce(a: Value, b: Value): (r: Value)
    ensures !Nullish(a) ==> r == a
    ensures Nullish(a) ==> r == b
  {
    if Nullish(a) then b else a
  }

  /** `a || b` */
  function Or(a: Value, b: Value): (r: Value)
    ensures Truthy(a) ==> r == a
    ensures !Truthy(a) ==> r == b
  {
    if Truthy(a) then a else b
  }

  /** `typeof v === 'object'` for a non-null value. */
  predicate IsObjectLike(v: Value) { v.Date? || v.Arr? || v.Obj? }

  // ---------------------------------------------------------------- records

  function Keys(r: Record): (ks: seq<string>)
    ensures |ks| == |r| && forall i :: 0 <= i < |r| ==> ks[i] == r[i].key
  {
    if r == [] then [] else [r[0].key] + Keys(r[1..])
  }

  /** `r[k]`: the value stored under `k`, `undefined` when absent. */
  function Get(r: Record, k: string): (v: Value)
    ensures k !in Keys(r) ==> v == Undef
    ensures k in Keys(r) ==> exists i :: 0 <= i < |r| && r[i].key == k && r[i].val == v
  {
    if r == [] then Undef
    else if r[0].key == k then r[0].val
    else Get(r[1..], k)
  }

  /** The update `Set` performs, by recursion over the entries. */
  function Put(r: Record, k: string, v: Value): Record {
    if r == [] then [Field(k, v)]
    else if r[0].key == k then [Field(k, v)] + r[1..]
    else [r[0]] + Put(r[1..], k, v)
  }

  lemma {:induction false} PutGet(r: Record, k: string, v: Value, k': string)
    ensures Get(Put(r, k, v), k') == if k' == k then v else Get(r, k')
  {
    if r != [] {
      var p := Put(r, k, v);
      if r[0].key == k {
        assert p[0].key == k && p[1..] == r[1..];
      } else {
        PutGet(r[1..], k, v, k');
        assert p[0] == r[0] && p[1..] == Put(r[1..], k, v);
      }
    }
  }

  lemma {:induction false} PutKeys(r: Record, k: string, v: Value)
    ensures Keys(Put(r, k, v)) == if k in Keys(r) then Keys(r) else Keys(r) + [k]
  {
    if r != [] {
      var p := Put(r, k, v);
      assert Keys(r) == [r[0].key] + Keys(r[1..]);
      assert Keys(p) == [p[0].key] + Keys(p[1..]);
      if r[0].key != k {
        PutKeys(r[1..], k, v);
        assert p[1..] == Put(r[1..], k, v);
        assert k in Keys(r) <==> k in Keys(r[1..]);
        if k !in Keys(r) {
          assert [r[0].key] + (Keys(r[1..]) + [k]) == Keys(r) + [k];
        }
      } else {
        assert p[1..] == r[1..];
      }
    }
  }

  /** `r[k] = v`: an existing key keeps its place, a new key goes last. */
  function Set(r: Record, k: string, v: Value): (r': Record)
    ensures Get(r', k) == v
    ensures forall k' :: k' != k ==> Get(r', k') == Get(r, k')
    ensures k in Keys(r) ==> Keys(r') == Keys(r)
    ensures k !in Keys(r) ==> Keys(r') == Keys(r) + [k]
  {
    PutKeys(r, k, v);
    PutGet(r, k, v, k);
    assert forall k' :: k' != k ==> Get(Put(r, k, v), k') == Get(r, k') by {
      forall k' | k' != k ensures Get(Put(r, k, v), k') == Get(r, k') {
        PutGet(r, k, v, k');
      }
    }
    Put(r, k, v)
  }

  /** A key of a non-empty record is its first key or a key of the rest. */
  lemma KeyInTail(r: Record, k: string)
    requires r != [] && k in Keys(r) && r[0].key != k
    ensures k in Keys(r[1..])
  {
    var i :| 0 <= i < |r| && Keys(r)[i] == k;
    assert Keys(r[1..])[i - 1] == k;
  }

  /** The entries of `Put(r, k, v)` when the key is not first: the first entry, then those of the rest. */
  lemma PutLater(r: Record, k: string, v: Value)
    requires r != [] && r[0].key != k
    ensures |Put(r, k, v)| == 1 + |Put(r[1..], k, v)| && Put(r, k, v)[0] == r[0]
    ensures forall i :: 1 <= i < |Put(r, k, v)| ==> Put(r, k, v)[i] == Put(r[1..], k, v)[i - 1]
  {
  }

  lemma {:induction false} PutPosition(r: Record, k: string, v: Value) returns (j: nat)
    requires k in Keys(r)
    ensures j < |r| && r[j].key == k && |Put(r, k, v)| == |r|
    ensures Put(r, k, v)[j] == Field(k, v)
    ensures forall i :: 0 <= i < |r| && i != j ==> Put(r, k, v)[i] == r[i]
  {
    if r[0].key == k {
      j := 0;
    } else {
      KeyInTail(r, k);
      var j' := PutPosition(r[1..], k, v);
      PutLater(r, k, v);
      j := j' + 1;
    }
  }

  /** Where `Set` writes when the key exists: in place, at the first entry with that key. */
  lemma SetPosition(r: Record, k: string, v: Value) returns (j: nat)
    requires k in Keys(r)
    ensures j < |r| && r[j].key == k && |Set(r, k, v)| == |r|
    ensures Set(r, k, v)[j] == Field(k, v)
    ensures forall i :: 0 <= i < |r| && i != j ==> Set(r, k, v)[i] == r[i]
  {
    j := PutPosition(r, k, v);
  }

  /** Where `Set` writes when the key is new: at the end. */
  lemma {:induction false} SetAppends(r: Record, k: string, v: Value)
    requires k !in Keys(r)
    ensures Set(r, k, v) == r + [Field(k, v)]
  {
    if r != [] {
      assert r[0].key != k;
      assert Keys(r) == [r[0].key] + Keys(r[1..]);
      assert k !in Keys(r[1..]);
      SetAppends(r[1..], k, v);
      assert Set(r, k, v) == [r[0]] + Set(r[1..], k, v);
    }
  }

  /** `delete r[k]` */
  function Remove(r: Record, k: string): (r': Record)
    ensures k !in Keys(r')
    ensures forall k' :: k' != k ==> Get(r', k') == Get(r, k')
    ensures forall k' :: k' in Keys(r') <==> k' in Keys(r) && k' != k
  {
    if r == [] then []
    else if r[0].key == k then Remove(r[1..], k)
    else [r[0]] + Remove(r[1..], k)
  }

  /** The entries `Object.entries` lists for a value that passed `v && typeof v === 'object'`;
      the empty list for every other value. */
  function Entries(v: Value): (r: Record)
    ensures v.Obj? ==> r == v.fields
    ensures !IsObjectLike(v) ==> r == []
  {
    match v
    case Obj(fs) => fs
    case Arr(items) => seq(|items|, i requires 0 <= i < |items| => Field(NatToString(i), items[i]))
    case _ => []
  }

  /** `v.k` on a value that is not `null` or `undefined`; on those it throws a TypeError. */
  function Prop(v: Value, k: string): (r: Result<Value>)
    ensures r.Err? <==> Nullish(v)
    ensures v.Obj? ==> r == Ok(Get(v.fields, k))
  {
    match v
    case Undef => Err("TypeError: Cannot read properties of undefined")
    case Null => Err("TypeError: Cannot read properties of null")
    case Obj(fs) => Ok(Get(fs, k))
    case _ => Ok(Undef)
  }

  /** `v?.k` */
  function OptProp(v: Value, k: string): (r: Value)
    ensures Nullish(v) ==> r == Undef
    ensures !Nullish(v) ==> Prop(v, k) == Ok(r)
  {
    if Nullish(v) then Undef else Prop(v, k).value
  }

  // ---------------------------------------------------------------- digits

  /** Digit value of `c` in bases up to 36; 36 for a character that is no digit. */
  function CharDigit(c: char): nat {
    if IsDigit(c) then c as nat - '0' as nat
    else if 'a' <= c <= 'z' then c as nat - 'a' as nat + 10
    else if 'A' <= c <= 'Z' then c as nat - 'A' as nat + 10
    else 36
  }

  predicate AllRadix(s: string, radix: nat) {
    forall i :: 0 <= i < |s| ==> CharDigit(s[i]) < radix
  }

  /** The number a string of base-`radix` digits denotes. */
  function RadixValue(s: string, radix: nat): nat {
    if s == [] then 0 else RadixValue(s[..|s| - 1], radix) * radix + CharDigit(s[|s| - 1])
  }

  function DigitChar(d: nat): (c: char)
    requires d < 10
    ensures IsDigit(c) && CharDigit(c) == d
  {
    ('0' as nat + d) as char
  }

  /** The decimal numeral of `n`, without leading zeros. */
  function NatToString(n: nat): (s: string)
    ensures s != [] && AllRadix(s, 10)
    ensures IsDigit(s[0]) && (s[0] == '0' ==> n == 0)
  {
    if n < 10 then [DigitChar(n)] else NatToString(n / 10) + [DigitChar(n % 10)]
  }

  lemma {:induction false} NatToStringValue(n: nat)
    ensures RadixValue(NatToString(n), 10) == n
  {
    if n >= 10 {
      var s := NatToString(n);
      assert s[..|s| - 1] == NatToString(n / 10);
      NatToStringValue(n / 10);
    }
  }

  function Pow10(k: nat): (p: nat)
    ensures p >= 1
  {
    if k == 0 then 1 else 10 * Pow10(k - 1)
  }

  /** `10 ** e` for a signed exponent. */
  function Pow10Int(e: int): (p: real)
    ensures p > 0.0
  {
    if e >= 0 then Pow10(e) as real else 1.0 / Pow10(-e) as real
  }

  // ---------------------------------------------------------------- String(number)

  /** At most `k` decimal digits of a fraction in [0, 1), stopping once it is exhausted. */
  function FracDigits(f: real, k: nat): (s: string)
    requires 0.0 <= f < 1.0
    ensures AllRadix(s, 10)
    ensures s != [] ==> s[|s| - 1] != '0' || k == |s|
    decreases k
  {
    if f == 0.0 || k == 0 then []
    else
      var d := (f * 10.0).Floor;
      assert 0 <= d < 10;
      [DigitChar(d)] + FracDigits(f * 10.0 - d as real, k - 1)
  }

  /** `String(x)` for a finite number, in plain decimal notation (no exponent), with
      up to 20 fraction digits. */
  function NumberToString(x: real): (s: string)
    ensures s != [] && IsDigit(s[|s| - 1])
    ensures x >= 0.0 && x.Floor as real == x ==> s == NatToString(x.Floor)
  {
    var a := if x < 0.0 then -x else x;
    var whole := a.Floor;
    var frac := FracDigits(a - whole as real, 20);
    (if x < 0.0 then "-" else "") + NatToString(whole) + (if frac == [] then "" else "." + frac)
  }

  // ---------------------------------------------------------------- Number(string)

  /** Index of the first `e` or `E`, or the length when there is none. */
  function ExponentMark(s: string): (i: nat)
    ensures i <= |s|
    ensures forall j :: 0 <= j < i ==> s[j] != 'e' && s[j] != 'E'
    ensures i < |s| ==> s[i] == 'e' || s[i] == 'E'
  {
    if s == [] then 0 else if s[0] == 'e' || s[0] == 'E' then 0 else 1 + ExponentMark(s[1..])
  }

  /** Digits with at most one point and at least one digit. */
  function ParseMantissa(m: string): Option<real> {
    if '.' in m then
      var j := IndexOf(m, '.');
      var a, b := m[..j], m[j + 1..];
      if AllRadix(a, 10) && AllRadix(b, 10) && |a| + |b| > 0
      then Some(RadixValue(a, 10) as real + RadixValue(b, 10) as real / Pow10(|b|) as real)
      else None
    else if m != [] && AllRadix(m, 10) then Some(RadixValue(m, 10) as real)
    else None
  }

  /** A signed run of decimal digits. */
  function ParseExponent(e: string): Option<int> {
    var neg := e != [] && e[0] == '-';
    var ds := if e != [] && (e[0] == '-' || e[0] == '+') then e[1..] else e;
    if ds != [] && AllRadix(ds, 10) then
      Some(if neg then -(RadixValue(ds, 10) as int) else RadixValue(ds, 10) as int)
    else None
  }

  /** A StrDecimalLiteral: optional sign, mantissa, optional exponent. */
  function ParseDecimal(t: string): Option<real> {
    var neg := t != [] && t[0] == '-';
    var body := if t != [] && (t[0] == '-' || t[0] == '+') then t[1..] else t;
    var i := ExponentMark(body);
    var m := ParseMantissa(body[..i]);
    var e := if i < |body| then ParseExponent(body[i + 1..]) else Some(0);
    if m.Some? && e.Some? then
      var v := m.value * Pow10Int(e.value);
      Some(if neg then -v else v)
    else None
  }

  /** `Number(s)`: `None` when the result is `NaN` or infinite. */
  function StringToNumber(s: string): (r: Option<real>)
    ensures AllSpace(s) ==> r == Some(0.0)
  {
    var t := Trim(s);
    TrimEmptyIffAllSpace(s);
    if t == "" then Some(0.0)
    else if |t| > 2 && t[0] == '0' && (t[1] == 'x' || t[1] == 'X') then
      (if AllRadix(t[2..], 16) then Some(RadixValue(t[2..], 16) as real) else None)
    else if |t| > 2 && t[0] == '0' && (t[1] == 'o' || t[1] == 'O') then
      (if AllRadix(t[2..], 8) then Some(RadixValue(t[2..], 8) as real) else None)
    else if |t| > 2 && t[0] == '0' && (t[1] == 'b' || t[1] == 'B') then
      (if AllRadix(t[2..], 2) then Some(RadixValue(t[2..], 2) as real) else None)
    else ParseDecimal(t)
  }

  // ---------------------------------------------------------------- conversions

  /** `String(v)` */
  function ToStr(v: Value): string {
    match v
    case Undef => "undefined"
    case Null => "null"
    case Bool(b) => if b then "true" else "false"
    case Num(n) => NumberToString(n)
    case Str(s) => s
    case Date(_, _, text) => text
    case Arr(items) =>
      // `Array.prototype.join` renders null and undefined elements as empty strings
      Join(seq(|items|, i requires 0 <= i < |items| => if Nullish(items[i]) then "" else ToStr(items[i])), ",")
    case Obj(_) => "[object Object]"
  }

  /** `Number(v)`: `None` when the result is `NaN` or infinite. */
  function ToNumber(v: Value): (r: Option<real>)
    ensures v.Num? ==> r == Some(v.n)
    ensures v.Null? ==> r == Some(0.0)
    ensures v.Undef? || v.Obj? ==> r == None
  {
    match v
    case Undef => None
    case Null => Some(0.0)
    case Bool(b) => Some(if b then 1.0 else 0.0)
    case Num(n) => Some(n)
    case Str(s) => StringToNumber(s)
    case Date(ms, _, _) => Some(ms as real)
    case Arr(_) => StringToNumber(ToStr(v))
    case Obj(_) => None
  }

  /** Length of the longest prefix of `s` made of decimal digits. */
  function DigitPrefix(s: string): (n: nat)
    ensures n <= |s| && AllRadix(s[..n], 10)
    ensures n < |s| ==> !IsDigit(s[n])
  {
    if s == [] || !IsDigit(s[0]) then 0
    else
      var n := 1 + DigitPrefix(s[1..]);
      assert s[..n] == [s[0]] + s[1..][..n - 1];
      n
  }

  /** `Number.parseInt(s, 10)`: `None` when it yields `NaN`. */
  function ParseInt(s: string): (r: Option<int>)
    ensures r.Some? ==> exists i :: 0 <= i < |s| && IsDigit(s[i])
  {
    var t := TrimStart(s);
    var neg := t != [] && t[0] == '-';
    var body := if t != [] && (t[0] == '-' || t[0] == '+') then t[1..] else t;
    var n := DigitPrefix(body);
    if n == 0 then None
    else
      assert IsDigit(s[|s| - |t| + (|t| - |body|)]);
      var v := RadixValue(body[..n], 10) as int;
      Some(if neg then -v else v)
  }

  lemma DecimalDigitIsDigit(s: string)
    requires AllRadix(s, 10)
    ensures forall i :: 0 <= i < |s| ==> IsDigit(s[i])
  {
    forall i | 0 <= i < |s| ensures IsDigit(s[i]) {
      assert CharDigit(s[i]) < 10;
    }
  }

  lemma DigitPrefixWhole(s: string)
    requires forall i :: 0 <= i < |s| ==> IsDigit(s[i])
    ensures DigitPrefix(s) == |s|
  {
  }

  /** `parseInt` reads a plain numeral as its value. */
  lemma ParseIntOfNumeral(s: string)
    requires s != [] && AllRadix(s, 10)
    ensures ParseInt(s) == Some(RadixValue(s, 10) as int)
  {
    DecimalDigitIsDigit(s);
    assert !IsSpace(s[0]) && s[0] != '-' && s[0] != '+' by {
      assert IsDigit(s[0]);
    }
    assert TrimStart(s) == s;
    DigitPrefixWhole(s);
    assert s[..|s|] == s;
  }

  /** A numeral printed by `NatToString` is read back by `parseInt`. */
  lemma ParseIntNatToString(n: nat)
    ensures ParseInt(NatToString(n)) == Some(n)
  {
    ParseIntOfNumeral(NatToString(n));
    NatToStringValue(n);
  }

  /** A numeral printed by `NatToString` is read back by `Number`. */
  lemma StringToNumberNatToString(n: nat)
    ensures StringToNumber(NatToString(n)) == Some(n as real)
  {
    var s := NatToString(n);
    NoSpaceTrim(s);
    assert |s| > 1 ==> s[0] != '0';
    DecimalDigits(s);
    NatToStringValue(n);
  }

  /** A plain run of decimal digits is read as the number it denotes. */
  lemma DecimalDigits(s: string)
    requires s != [] && AllRadix(s, 10)
    ensures ParseDecimal(s) == Some(RadixValue(s, 10) as real)
  {
    assert s[0] != '-' && s[0] != '+' by { assert CharDigit(s[0]) < 10; }
    assert forall j :: 0 <= j < |s| ==> s[j] != 'e' && s[j] != 'E' && s[j] != '.' by {
      forall j | 0 <= j < |s| ensures s[j] != 'e' && s[j] != 'E' && s[j] != '.' { assert CharDigit(s[j]) < 10; }
    }
    assert ExponentMark(s) == |s|;
    assert s[..|s|] == s;
    assert ParseMantissa(s) == Some(RadixValue(s, 10) as real);
    assert Pow10Int(0) == 1.0 by { assert Pow10(0) == 1; }
  }

  /** A string that neither starts nor ends with a blank is its own trim. */
  lemma NoSpaceTrim(s: string)
    requires s != [] && !IsSpace(s[0]) && !IsSpace(s[|s| - 1])
    ensures Trim(s) == s
  {
    assert TrimStart(s) == s;
  }
}
