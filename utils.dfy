/**
 * Loosely typed values as they arrive in records, their coercions, and the
 * lookup and permission helpers of utils.js.
 */
module Utils {

  datatype Option<+T> = None | Some(value: T)

  /** A flag field: a genuine boolean, any other value seen through its
      `String(...)` form, or absent (undefined / null). */
  datatype Flag = Unset | Bool(b: bool) | Text(s: string)

  /** A numeric field before `parseFloat`: absent, null, a value that does not
      parse (text such as "" or "abc"), or a finite number. */
  datatype Number = Undefined | Null | NaN | Finite(value: real)

  /** `parseFloat(x) || 0`: NaN and 0 both become 0. */
  function OrZero(n: Number): real
  {
    if n.Finite? then n.value else 0.0
  }

  function AsciiUpper(c: char): char
  {
    if 'a' <= c <= 'z' then (c as int - 32) as char else c
  }

  /** `toUpperCase` restricted to the ASCII letters. */
  function Upper(s: string): (u: string)
    ensures |u| == |s|
  {
    seq(|s|, i requires 0 <= i < |s| => AsciiUpper(s[i]))
  }

  /** `x === true || String(x).toUpperCase() === 'TRUE'` (utils.js:25, calculations.js:25 and 29). */
  predicate IsTrue(f: Flag)
  {
    match f
    case Unset => false
    case Bool(b) => b
    case Text(s) => Upper(s) == "TRUE"
  }

  /** Independent reading of "spells true in any letter case". */
  predicate SpellsTrue(s: string)
  {
    && |s| == 4
    && (s[0] == 't' || s[0] == 'T')
    && (s[1] == 'r' || s[1] == 'R')
    && (s[2] == 'u' || s[2] == 'U')
    && (s[3] == 'e' || s[3] == 'E')
  }

  /** Independent reading of the coercion: the boolean `true`, or a text
      spelling "true". */
  predicate Affirmed(f: Flag)
  {
    f == Bool(true) || (f.Text? && SpellsTrue(f.s))
  }

  lemma {:induction false} UpperCharIs(c: char, lower: char)
    requires 'a' <= lower <= 'z'
    ensures AsciiUpper(c) == AsciiUpper(lower) <==> c == lower || c == AsciiUpper(lower)
  {
  }

  /** The coercion accepts exactly the boolean `true` and the texts spelling
      "true" in any mix of cases; nothing else. */
  lemma {:induction false} IsTrueExactly(f: Flag)
    ensures IsTrue(f) <==> Affirmed(f)
  {
    if f.Text? {
      var s := f.s;
      if |s| == 4 {
        UpperCharIs(s[0], 't');
        UpperCharIs(s[1], 'r');
        UpperCharIs(s[2], 'u');
        UpperCharIs(s[3], 'e');
        if SpellsTrue(s) {
          assert Upper(s) == "TRUE";
        }
        if Upper(s) == "TRUE" {
          assert Upper(s)[0] == 'T' && Upper(s)[1] == 'R' && Upper(s)[2] == 'U' && Upper(s)[3] == 'E';
        }
      } else {
        assert |Upper(s)| != |"TRUE"|;
      }
    }
  }

  /** The first argument of `findByKey`: not an array, or an array whose
      entries may be empty (null / undefined). */
  datatype JsArray<T> = NotArray | Array(elements: seq<Option<T>>)

  /** What `findByKey` returns: `null`, `undefined`, or the element. */
  datatype Lookup<T> = NullResult | NotFound | Found(value: T) {
    function ToOption(): Option<T>
    {
      if Found? then Some(value) else None
    }
  }

  /** `el && String(el[key]) === String(value)`; keys are already strings. */
  predicate Matches<T>(e: Option<T>, key: T -> string, value: string)
  {
    e.Some? && key(e.value) == value
  }

  /** Index of the first matching entry, or |es| when none matches. */
  function FirstMatch<T>(es: seq<Option<T>>, key: T -> string, value: string): (i: nat)
    ensures i <= |es|
    ensures i < |es| ==> Matches(es[i], key, value)
    ensures forall j | 0 <= j < i :: !Matches(es[j], key, value)
  {
    if es == [] then 0
    else if Matches(es[0], key, value) then 0
    else 1 + FirstMatch(es[1..], key, value)
  }

  /** `findByKey` (utils.js:61-64). */
  function FindByKey<T>(arg: JsArray<T>, key: T -> string, value: string): (r: Lookup<T>)
    ensures r.NullResult? <==> arg.NotArray?
    ensures r.Found? ==> exists i | 0 <= i < |arg.elements| ::
              arg.elements[i] == Some(r.value) && key(r.value) == value
              && forall j | 0 <= j < i :: !Matches(arg.elements[j], key, value)
    ensures r.NotFound? ==> forall i | 0 <= i < |arg.elements| :: !Matches(arg.elements[i], key, value)
  {
    match arg
    case NotArray => NullResult
    case Array(es) =>
      var i := FirstMatch(es, key, value);
      if i < |es| then Found(es[i].value) else NotFound
  }

  function Present<T>(xs: seq<T>): (es: seq<Option<T>>)
    ensures |es| == |xs| && forall i | 0 <= i < |xs| :: es[i] == Some(xs[i])
  {
    seq(|xs|, i requires 0 <= i < |xs| => Some(xs[i]))
  }

  lemma NoMatchInPresent<T>(xs: seq<T>, key: T -> string, value: string)
    ensures (forall i | 0 <= i < |xs| :: !Matches(Present(xs)[i], key, value))
            ==> forall x | x in xs :: key(x) != value
  {
    if forall i | 0 <= i < |xs| :: !Matches(Present(xs)[i], key, value) {
      forall x | x in xs ensures key(x) != value {
        var i :| 0 <= i < |xs| && xs[i] == x;
        assert !Matches(Present(xs)[i], key, value);
      }
    }
  }

  /** A master-data lookup over one of the state's lists, with `null` and
      `undefined` both read as "not found", as every caller does. */
  function Find<T>(xs: seq<T>, key: T -> string, value: string): (r: Option<T>)
    ensures r.Some? ==> r.value in xs && key(r.value) == value
    ensures r.Some? ==> exists i | 0 <= i < |xs| :: xs[i] == r.value && forall j | 0 <= j < i :: key(xs[j]) != value
    ensures r.None? <==> forall x | x in xs :: key(x) != value
  {
    var r := FindByKey(Array(Present(xs)), key, value);
    NoMatchInPresent(xs, key, value);
    r.ToOption()
  }

  /** The signed-in user: its permissions object may be missing. */
  datatype User = User(permissions: Option<map<string, Flag>>)

  /** `userCan` (utils.js:22-26): a missing user or permissions object denies;
      a missing permission reads as undefined. */
  function UserCan(user: Option<User>, permission: string): (r: bool)
    ensures user.None? || user.value.permissions.None? ==> !r
    ensures user.Some? && user.value.permissions.Some? ==>
              var perms := user.value.permissions.value;
              (r <==> permission in perms && Affirmed(perms[permission]))
  {
    if user.None? || user.value.permissions.None? then false
    else
      var perms := user.value.permissions.value;
      var p := if permission in perms then perms[permission] else Unset;
      IsTrueExactly(p);
      IsTrue(p)
  }
}
