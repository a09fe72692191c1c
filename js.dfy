/**
 * The small part of JavaScript's semantics that the settings transforms rely on:
 * plain values, truthiness, property access on values that may be undefined,
 * object spread and assignment, and the string builtins the sources call
 * (`trim`, `substring`, `indexOf`, `toString(radix)`, `toUpperCase`, the
 * default `sort` order).
 *
 * `undefined` is a missing key of an object, or `None` for a lone value. A
 * property assigned `undefined` is the same as a missing property, which is
 * what the persisted settings (plain JSON) keep of it.
 */
module Js {
  import opened Wrappers

  /** A plain JavaScript value as found in settings and form state. */
  datatype Value =
    | Str(s: string)
    | Num(n: int)
    | Bool(b: bool)
    | List(items: seq<Value>)
    | Obj(fields: map<string, Value>)

  /** A plain JavaScript object: its own enumerable properties. */
  type Object = map<string, Value>

  /** JavaScript truthiness; `undefined`, `""`, `0` and `false` are falsy. */
  predicate Truthy(v: Option<Value>)
    ensures Truthy(v) <==> v.Some? && v.value != Str("") && v.value != Num(0) && v.value != Bool(false)
  {
    match v
    case None => false
    case Some(Str(s)) => s != ""
    case Some(Num(n)) => n != 0
    case Some(Bool(b)) => b
    case Some(_) => true
  }

  /** `o.k` on an object. */
  function Get(o: Object, k: string): (r: Option<Value>)
    ensures r.Some? <==> k in o
    ensures r.Some? ==> r.value == o[k]
  {
    if k in o then Some(o[k]) else None
  }

  /** `(v || {}).k`: a property of a value that may be undefined; only objects have the named properties read here. */
  function Prop(v: Option<Value>, k: string): (r: Option<Value>)
    ensures r.Some? ==> v.Some? && v.value.Obj? && k in v.value.fields && r.value == v.value.fields[k]
    ensures v.Some? && v.value.Obj? && k in v.value.fields ==> r == Some(v.value.fields[k])
  {
    if v.Some? && v.value.Obj? then Get(v.value.fields, k) else None
  }

  /** The properties `{...v}` copies out of `v` when `v` is an object; for anything else, none. */
  function Fields(v: Option<Value>): (r: Object)
    ensures v.Some? && v.value.Obj? ==> r == v.value.fields
    ensures !(v.Some? && v.value.Obj?) ==> r == map[]
  {
    if v.Some? && v.value.Obj? then v.value.fields else map[]
  }

  /** `o.k = v` (or `{...o, k: v}`); assigning `undefined` leaves no property. */
  function Assign(o: Object, k: string, v: Option<Value>): (r: Object)
    ensures Get(r, k) == v
    ensures forall j :: j != k ==> Get(r, j) == Get(o, j)
  {
    if v.Some? then o[k := v.value] else o - {k}
  }

  /** Two objects that agree on every property are equal. */
  lemma SameObject(a: Object, b: Object)
    requires forall k :: Get(a, k) == Get(b, k)
    ensures a == b
  {
    forall k ensures k in a <==> k in b {
      assert Get(a, k) == Get(b, k);
    }
    forall k | k in a ensures a[k] == b[k] {
      assert Get(a, k) == Get(b, k);
    }
  }

  /** `if (v) o.k = v`: only a truthy value is written. */
  function SetIfTruthy(o: Object, k: string, v: Option<Value>): (r: Object)
    ensures forall j :: Get(r, j) == if j == k && Truthy(v) then v else Get(o, j)
  {
    if Truthy(v) then o[k := v.value] else o
  }

  /** `v || d`. */
  function Or(v: Option<Value>, d: Value): (r: Value)
    ensures Truthy(v) ==> r == v.value
    ensures !Truthy(v) ==> r == d
  {
    if Truthy(v) then v.value else d
  }

  /** A value that `v || ''` turns into a string without a type error. */
  predicate IsStringOrFalsy(v: Option<Value>)
  {
    !Truthy(v) || v.value.Str?
  }

  /** `v || ''` for such a value. */
  function StringOr(v: Option<Value>): (r: string)
    requires IsStringOrFalsy(v)
    ensures Truthy(v) ==> r == v.value.s
    ensures !Truthy(v) ==> r == ""
  {
    if Truthy(v) then v.value.s else ""
  }

  /** `v.length` where it is a number: arrays and strings, and objects that store a numeric `length`. */
  function Length(v: Option<Value>): (r: Option<int>)
    ensures v.Some? && v.value.List? ==> r == Some(|v.value.items|)
    ensures v.Some? && v.value.Str? ==> r == Some(|v.value.s|)
  {
    match v
    case Some(List(xs)) => Some(|xs|)
    case Some(Str(s)) => Some(|s|)
    case Some(Obj(f)) => if "length" in f && f["length"].Num? then Some(f["length"].n) else None
    case _ => None
  }

  /** `!v.length`: an empty array or string, or a value without a truthy length. */
  predicate LengthFalsy(v: Value)
  {
    match v
    case List(xs) => xs == []
    case Str(s) => s == ""
    case Obj(f) => !Truthy(Get(f, "length"))
    case _ => true
  }

  /** The characters `String.prototype.trim` removes (WhiteSpace and LineTerminator). */
  predicate IsWhiteSpace(c: char)
  {
    c == '\t' || c == '\n' || c == '\U{B}' || c == '\U{C}' || c == '\r' || c == ' '
    || c == '\U{A0}' || c == '\U{1680}' || ('\U{2000}' <= c <= '\U{200A}')
    || c == '\U{2028}' || c == '\U{2029}' || c == '\U{202F}' || c == '\U{205F}'
    || c == '\U{3000}' || c == '\U{FEFF}'
  }

  ghost predicate AllWhiteSpace(s: string)
  {
    forall i :: 0 <= i < |s| ==> IsWhiteSpace(s[i])
  }

  function TrimStart(s: string): (r: string)
    ensures |r| <= |s| && r == s[|s| - |r|..]
    ensures r != [] ==> !IsWhiteSpace(r[0])
    ensures forall i :: 0 <= i < |s| - |r| ==> IsWhiteSpace(s[i])
    decreases |s|
  {
    if |s| > 0 && IsWhiteSpace(s[0]) then TrimStart(s[1..]) else s
  }

  function TrimEnd(s: string): (r: string)
    ensures |r| <= |s| && r == s[..|r|]
    ensures r != [] ==> !IsWhiteSpace(r[|r| - 1])
    ensures forall i :: |r| <= i < |s| ==> IsWhiteSpace(s[i])
    decreases |s|
  {
    if |s| > 0 && IsWhiteSpace(s[|s| - 1]) then TrimEnd(s[..|s| - 1]) else s
  }

  /** `s.trim()`: the input without its leading and trailing white space. */
  function Trim(s: string): (r: string)
    ensures |r| <= |s|
    ensures r != [] ==> !IsWhiteSpace(r[0]) && !IsWhiteSpace(r[|r| - 1])
    ensures r == [] <==> AllWhiteSpace(s)
  {
    var t := TrimStart(s);
    var r := TrimEnd(t);
    r
  }

  /** A string that neither starts nor ends with white space is its own trim. */
  lemma TrimOfTrimmed(s: string)
    requires s != [] ==> !IsWhiteSpace(s[0]) && !IsWhiteSpace(s[|s| - 1])
    ensures Trim(s) == s
  {
  }

  /** `s.substring(start)`: a negative start counts as 0, one past the end gives "". */
  function SubstringFrom(s: string, start: int): (r: string)
    ensures |r| <= |s|
    ensures 0 <= start <= |s| ==> r == s[start..]
    ensures start <= 0 ==> r == s
  {
    if start <= 0 then s else if start >= |s| then "" else s[start..]
  }

  /** `s.indexOf(p) === 0`. */
  predicate StartsWith(s: string, p: string)
    ensures StartsWith(s, p) <==> |p| <= |s| && forall i :: 0 <= i < |p| ==> s[i] == p[i]
  {
    |p| <= |s| && s[..|p|] == p
  }

  /** The digit character of `d` in `Number.prototype.toString(radix)` (lower case). */
  function Digit(d: nat): (c: char)
    requires d < 36
    ensures IsLowerAlnum(c)
  {
    if d < 10 then (48 + d) as char else (87 + d) as char
  }

  predicate IsLowerAlnum(c: char)
  {
    ('0' <= c <= '9') || ('a' <= c <= 'z')
  }

  /** `n.toString(radix)` for a non-negative integer. */
  function NatToString(n: nat, radix: nat): (r: string)
    requires 2 <= radix <= 36
    ensures |r| >= 1
    ensures forall i :: 0 <= i < |r| ==> IsLowerAlnum(r[i])
    ensures n < radix ==> r == [Digit(n)]
    decreases n
  {
    if n < radix then [Digit(n)]
    else
      DivModOf(n, radix);
      NatToString(n / radix, radix) + [Digit(n % radix)]
  }

  /** `n.toString(radix)` for an integer: a minus sign, then the digits of |n|. */
  function IntToString(n: int, radix: nat): (r: string)
    requires 2 <= radix <= 36
    ensures n >= 0 ==> r == NatToString(n, radix)
    ensures n < 0 ==> r == "-" + NatToString(-n, radix)
  {
    if n < 0 then "-" + NatToString(-n, radix) else NatToString(n, radix)
  }

  /** Distinct digits are distinct characters. */
  lemma DigitInjective(a: nat, b: nat)
    requires a < 36 && b < 36 && Digit(a) == Digit(b)
    ensures a == b
  {
  }

  /** Euclidean division splits a number into quotient and remainder, and shrinks it. */
  lemma DivModOf(a: nat, radix: nat)
    requires 2 <= radix <= a
    ensures a == radix * (a / radix) + a % radix
    ensures a / radix < a
  {
    AtLeastDouble(a / radix, radix);
  }

  lemma {:induction false} AtLeastDouble(q: nat, r: nat)
    requires r >= 2
    ensures q * r >= 2 * q
    decreases r
  {
    if r > 2 {
      AtLeastDouble(q, r - 1);
      assert q * r == q * (r - 1) + q;
    }
  }

  /** Distinct numbers have distinct decimal (or other radix) representations. */
  lemma {:induction false} NatToStringInjective(a: nat, b: nat, radix: nat)
    requires 2 <= radix <= 36
    requires NatToString(a, radix) == NatToString(b, radix)
    ensures a == b
    decreases a
  {
    if a < radix && b < radix {
      DigitInjective(a, b);
    } else if a >= radix && b >= radix {
      DivModOf(a, radix);
      DivModOf(b, radix);
      var ra, rb := NatToString(a, radix), NatToString(b, radix);
      var pa, pb := NatToString(a / radix, radix), NatToString(b / radix, radix);
      assert a % radix == b % radix by {
        assert ra[|ra| - 1] == Digit(a % radix) && rb[|rb| - 1] == Digit(b % radix);
        DigitInjective(a % radix, b % radix);
      }
      assert a / radix == b / radix by {
        assert pa == ra[..|ra| - 1] && pb == rb[..|rb| - 1];
        NatToStringInjective(a / radix, b / radix, radix);
      }
    }
  }

  /** `v[i]`: the element of an array, the property named by the index of an object, or the character of a string. */
  function Index(v: Option<Value>, i: nat): (r: Option<Value>)
    ensures v.Some? && v.value.List? ==> r == if i < |v.value.items| then Some(v.value.items[i]) else None
    ensures v.None? ==> r == None
  {
    match v
    case Some(List(xs)) => if i < |xs| then Some(xs[i]) else None
    case Some(Obj(f)) => Get(f, NatToString(i, 10))
    case Some(Str(s)) => if i < |s| then Some(Str([s[i]])) else None
    case _ => None
  }

  /** The upper-case form of a character; only ASCII letters change (the only letters these sources produce). */
  function UpperChar(c: char): (u: char)
    ensures 'a' <= c <= 'z' ==> u as int == c as int - 32
    ensures !('a' <= c <= 'z') ==> u == c
  {
    if 'a' <= c <= 'z' then (c as int - 32) as char else c
  }

  /** `s.toUpperCase()`. */
  function ToUpperCase(s: string): (r: string)
    ensures |r| == |s|
    ensures forall i :: 0 <= i < |s| ==> r[i] == UpperChar(s[i])
  {
    seq(|s|, i requires 0 <= i < |s| => UpperChar(s[i]))
  }

  /** The order of `Array.prototype.sort` without a comparator on strings: lexicographic by character. */
  predicate Less(a: string, b: string)
    decreases |a|
  {
    if |a| == 0 then |b| > 0
    else if |b| == 0 then false
    else a[0] < b[0] || (a[0] == b[0] && Less(a[1..], b[1..]))
  }

  lemma {:induction false} LessIrreflexive(a: string)
    ensures !Less(a, a)
    decreases |a|
  {
    if |a| > 0 {
      LessIrreflexive(a[1..]);
    }
  }

  lemma {:induction false} LessTransitive(a: string, b: string, c: string)
    requires Less(a, b) && Less(b, c)
    ensures Less(a, c)
    decreases |a|
  {
    if |a| > 0 && a[0] == b[0] && b[0] == c[0] {
      LessTransitive(a[1..], b[1..], c[1..]);
    }
  }

  lemma {:induction false} LessTotal(a: string, b: string)
    requires a != b
    ensures Less(a, b) || Less(b, a)
    decreases |a|
  {
    if |a| > 0 && |b| > 0 && a[0] == b[0] {
      assert a == [a[0]] + a[1..] && b == [b[0]] + b[1..];
      LessTotal(a[1..], b[1..]);
    }
  }

  lemma {:induction false} LessAsymmetric(a: string, b: string)
    requires Less(a, b)
    ensures !Less(b, a)
    decreases |a|
  {
    if |a| > 0 && |b| > 0 && a[0] == b[0] {
      LessAsymmetric(a[1..], b[1..]);
    }
  }

  /** The least of a set of strings in the sort order. */
  predicate IsLeast(m: string, keys: set<string>)
  {
    m in keys && forall k :: k in keys && k != m ==> Less(m, k)
  }

  /** Every non-empty set of strings has a least element. */
  lemma {:induction false} HasLeast(keys: set<string>)
    requires keys != {}
    ensures exists m :: IsLeast(m, keys)
    decreases |keys|
  {
    var x :| x in keys;
    if keys != {x} {
      var rest := keys - {x};
      HasLeast(rest);
      var m :| IsLeast(m, rest);
      if Less(x, m) {
        forall k | k in keys && k != x ensures Less(x, k) {
          if k != m {
            LessTransitive(x, m, k);
          }
        }
        assert IsLeast(x, keys);
      } else {
        LessTotal(x, m);
        assert IsLeast(m, keys);
      }
    } else {
      assert IsLeast(x, keys);
    }
  }

  /** The least element is unique. */
  lemma LeastUnique(keys: set<string>)
    ensures forall m, n :: IsLeast(m, keys) && IsLeast(n, keys) ==> m == n
  {
    forall m, n | IsLeast(m, keys) && IsLeast(n, keys) ensures m == n {
      if m != n {
        LessAsymmetric(m, n);
      }
    }
  }

  /** Each string sorts strictly before every later one: sorted and without duplicates. */
  predicate StrictlyIncreasing(r: seq<string>)
  {
    forall i, j :: 0 <= i < j < |r| ==> Less(r[i], r[j])
  }

  /** `Object.keys(o).sort()`: the property names, each once, in ascending order. */
  function SortedKeys(keys: set<string>): (r: seq<string>)
    ensures |r| == |keys|
    ensures forall k :: k in r <==> k in keys
    ensures StrictlyIncreasing(r)
    decreases |keys|
  {
    if keys == {} then []
    else
      HasLeast(keys);
      LeastUnique(keys);
      var m :| IsLeast(m, keys);
      var rest := SortedKeys(keys - {m});
      LeastFirst(m, keys, rest);
      [m] + rest
  }

  /** The least key followed by the others in increasing order is an increasing sequence of all of them. */
  lemma LeastFirst(m: string, keys: set<string>, rest: seq<string>)
    requires IsLeast(m, keys) && StrictlyIncreasing(rest)
    requires |rest| == |keys - {m}|
    requires forall k :: k in rest <==> k in keys - {m}
    ensures |[m] + rest| == |keys|
    ensures forall k :: k in [m] + rest <==> k in keys
    ensures StrictlyIncreasing([m] + rest)
  {
    var r := [m] + rest;
    forall i, j | 0 <= i < j < |r| ensures Less(r[i], r[j]) {
      assert r[j] == rest[j - 1];
      if i > 0 {
        assert r[i] == rest[i - 1];
      } else {
        assert rest[j - 1] in keys - {m};
      }
    }
  }

  /** The first of an increasing sequence of exactly these keys is their least. */
  lemma FirstIsLeast(keys: set<string>, r: seq<string>)
    requires r != [] && StrictlyIncreasing(r)
    requires forall k :: k in r <==> k in keys
    ensures IsLeast(r[0], keys)
  {
    forall k | k in keys && k != r[0] ensures Less(r[0], k) {
      var j :| 0 <= j < |r| && r[j] == k;
    }
  }

  /** Past the first, an increasing sequence of exactly these keys holds the others. */
  lemma TailKeys(keys: set<string>, r: seq<string>)
    requires r != [] && StrictlyIncreasing(r)
    requires forall k :: k in r <==> k in keys
    ensures StrictlyIncreasing(r[1..])
    ensures forall k :: k in r[1..] <==> k in keys - {r[0]}
  {
    forall k ensures k in r[1..] <==> k in keys - {r[0]} {
      if k in r[1..] {
        var j :| 1 <= j < |r| && r[j] == k;
        LessIrreflexive(r[0]);
      }
      if k in keys - {r[0]} {
        var j :| 0 <= j < |r| && r[j] == k;
        assert r[1..][j - 1] == k;
      }
    }
  }

  lemma NonEmptyHasFirst(r: seq<string>)
    ensures r != [] ==> r[0] in r
  {
  }

  /** The sort is determined by its result's properties: any increasing sequence of exactly these keys is it. */
  lemma {:induction false} SortedKeysUnique(keys: set<string>, r: seq<string>)
    requires StrictlyIncreasing(r)
    requires forall k :: k in r <==> k in keys
    ensures r == SortedKeys(keys)
    decreases |keys|
  {
    if keys == {} {
      NonEmptyHasFirst(r);
    } else {
      assert r != [] by {
        var k :| k in keys;
        assert k in r;
      }
      var m := r[0];
      assert SortedKeys(keys) == [m] + SortedKeys(keys - {m}) by {
        var s := SortedKeys(keys);
        FirstIsLeast(keys, r);
        FirstIsLeast(keys, s);
        if m != s[0] {
          LessAsymmetric(m, s[0]);
        }
      }
      assert r[1..] == SortedKeys(keys - {m}) by {
        TailKeys(keys, r);
        SortedKeysUnique(keys - {m}, r[1..]);
      }
      assert r == [m] + r[1..];
    }
  }
}
