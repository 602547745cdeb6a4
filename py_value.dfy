/**
 * Python values as the core sees them: what `json.loads` produces, plus
 * tuples. A dict is an insertion-ordered list of entries, as Python's dicts
 * are; lookups find the first entry with the key, and assignment replaces
 * that entry's value in place or appends a new entry at the end.
 */
module PyValue {
  import opened Wrappers
  import opened PyText

  datatype Value =
    | VNull
    | VBool(b: bool)
    | VInt(i: int)
    | VStr(s: string)
    | VList(items: seq<Value>)
    | VTuple(elems: seq<Value>)
    | VDict(entries: seq<Entry>)

  datatype Entry = Entry(key: string, val: Value)

  /** The Python exceptions the modelled code can raise. */
  datatype PyError =
    | KeyError
    | TypeError
    | AttributeError
    | ValueError(message: string)
    | JSONDecodeError
    | Raised(details: string)  // an exception from the model client, with its `str(e)`

  /** Python truthiness: `None`, `False`, `0` and empty containers are false. */
  predicate Truthy(v: Value) {
    match v
    case VNull => false
    case VBool(b) => b
    case VInt(i) => i != 0
    case VStr(s) => s != ""
    case VList(xs) => xs != []
    case VTuple(xs) => xs != []
    case VDict(es) => es != []
  }

  /** The keys of a dict, in insertion order. */
  function Keys(es: seq<Entry>): (ks: seq<string>)
    ensures |ks| == |es|
    ensures forall i :: 0 <= i < |es| ==> ks[i] == es[i].key
  {
    if es == [] then [] else [es[0].key] + Keys(es[1..])
  }

  /** `d.get(k)`: the value of the first entry with key `k`. */
  function Lookup(es: seq<Entry>, k: string): (r: Option<Value>)
    ensures r.Some? <==> k in Keys(es)
    ensures r.Some? ==> exists i :: 0 <= i < |es| && es[i] == Entry(k, r.value)
  {
    if es == [] then None
    else if es[0].key == k then Some(es[0].val)
    else Lookup(es[1..], k)
  }

  /** `k in d`. */
  predicate HasKey(es: seq<Entry>, k: string) {
    k in Keys(es)
  }

  /** `d[k] = v`: replaces the value of the entry with key `k` in place, or appends. */
  function Put(es: seq<Entry>, k: string, v: Value): (r: seq<Entry>)
    ensures k in Keys(es) ==> Keys(r) == Keys(es)
    ensures k !in Keys(es) ==> Keys(r) == Keys(es) + [k]
  {
    if es == [] then [Entry(k, v)]
    else if es[0].key == k then [Entry(k, v)] + es[1..]
    else [es[0]] + Put(es[1..], k, v)
  }

  /**
   * Python's `==`: `True == 1` and `False == 0`; lists and tuples compare
   * element by element and never equal each other; two dicts are equal when
   * they hold the same keys with equal values, in whatever order.
   */
  predicate PyEq(a: Value, b: Value)
    decreases a
  {
    match a
    case VNull => b.VNull?
    case VBool(x) => (b.VBool? && b.b == x) || (b.VInt? && b.i == (if x then 1 else 0))
    case VInt(n) => (b.VInt? && b.i == n) || (b.VBool? && n == (if b.b then 1 else 0))
    case VStr(s) => b.VStr? && b.s == s
    case VList(xs) =>
      b.VList? && |xs| == |b.items| && forall i :: 0 <= i < |xs| ==> PyEq(xs[i], b.items[i])
    case VTuple(xs) =>
      b.VTuple? && |xs| == |b.elems| && forall i :: 0 <= i < |xs| ==> PyEq(xs[i], b.elems[i])
    case VDict(es) =>
      && b.VDict?
      && (forall i :: 0 <= i < |es| ==> HasKey(b.entries, es[i].key))
      && (forall j :: 0 <= j < |b.entries| ==> HasKey(es, b.entries[j].key))
      && forall i :: 0 <= i < |es| && Lookup(es, es[i].key) == Some(es[i].val) ==>
           PyEq(es[i].val, Lookup(b.entries, es[i].key).value)
  }

  /** Every value equals itself. */
  lemma {:induction false} PyEqRefl(v: Value)
    ensures PyEq(v, v)
    decreases v
  {
    match v
    case VList(xs) =>
      forall i | 0 <= i < |xs| ensures PyEq(xs[i], xs[i]) { PyEqRefl(xs[i]); }
    case VTuple(xs) =>
      forall i | 0 <= i < |xs| ensures PyEq(xs[i], xs[i]) { PyEqRefl(xs[i]); }
    case VDict(es) =>
      forall i | 0 <= i < |es| && Lookup(es, es[i].key) == Some(es[i].val)
        ensures PyEq(es[i].val, Lookup(es, es[i].key).value)
      {
        PyEqRefl(es[i].val);
      }
    case _ =>
  }

  /** A dict-valued `Value` with the given entries, keyed lookup on any value. */
  function Get(d: Value, k: string): Option<Value> {
    if d.VDict? then Lookup(d.entries, k) else None
  }

  /** `v[k]` with a string key: a dict lookup, `KeyError` when absent, `TypeError` on a non-dict. */
  function Subscript(v: Value, k: string): (r: Result<Value, PyError>)
    ensures r.Ok? <==> v.VDict? && HasKey(v.entries, k)
    ensures r.Ok? ==> Lookup(v.entries, k) == Some(r.value)
    ensures r.Err? ==> r.error == (if v.VDict? then KeyError else TypeError)
  {
    if !v.VDict? then Err(TypeError)
    else match Lookup(v.entries, k)
      case Some(x) => Ok(x)
      case None => Err(KeyError)
  }

  /** `v.get(k, default)`: only dicts have the method, anything else raises `AttributeError`. */
  function GetOr(v: Value, k: string, default: Value): (r: Result<Value, PyError>)
    ensures r.Ok? <==> v.VDict?
    ensures r.Ok? ==> r.value == Lookup(v.entries, k).GetOr(default)
    ensures r.Err? ==> r.error == AttributeError
  {
    if v.VDict? then Ok(Lookup(v.entries, k).GetOr(default)) else Err(AttributeError)
  }

  /** The characters of a string as one-character strings, as iterating a `str` yields them. */
  function Chars(s: string): (r: seq<Value>)
    ensures |r| == |s|
    ensures forall i :: 0 <= i < |s| ==> r[i] == VStr([s[i]])
  {
    if s == [] then [] else [VStr([s[0]])] + Chars(s[1..])
  }

  /** The dict's keys as values, as iterating a `dict` yields them. */
  function KeyValues(es: seq<Entry>): (r: seq<Value>)
    ensures |r| == |es|
    ensures forall i :: 0 <= i < |es| ==> r[i] == VStr(es[i].key)
  {
    if es == [] then [] else [VStr(es[0].key)] + KeyValues(es[1..])
  }

  /** What a `for` loop over `v` visits; `TypeError` when `v` is not iterable. */
  function Iter(v: Value): (r: Result<seq<Value>, PyError>)
    ensures r.Err? <==> v.VNull? || v.VBool? || v.VInt?
    ensures r.Err? ==> r.error == TypeError
    ensures v.VList? ==> r == Ok(v.items)
  {
    match v
    case VList(xs) => Ok(xs)
    case VTuple(xs) => Ok(xs)
    case VStr(s) => Ok(Chars(s))
    case VDict(es) => Ok(KeyValues(es))
    case _ => Err(TypeError)
  }

  /** Whether `v` can be a dict key or a set element: lists and dicts cannot. */
  predicate Hashable(v: Value)
    decreases v
  {
    match v
    case VList(_) => false
    case VDict(_) => false
    case VTuple(xs) => forall i :: 0 <= i < |xs| ==> Hashable(xs[i])
    case _ => true
  }

  /** `str(v)`. */
  function Str(v: Value): string {
    match v
    case VStr(s) => s
    case _ => Repr(v)
  }

  /** A list of strings as a value. */
  function StrList(ss: seq<string>): (v: Value)
    ensures v.VList? && |v.items| == |ss|
    ensures forall i :: 0 <= i < |ss| ==> v.items[i] == VStr(ss[i])
  {
    VList(seq(|ss|, i requires 0 <= i < |ss| => VStr(ss[i])))
  }

  /** `repr(v)`; strings are quoted with single quotes and otherwise not escaped. */
  function Repr(v: Value): string
    decreases v
  {
    match v
    case VNull => "None"
    case VBool(b) => if b then "True" else "False"
    case VInt(i) => IntToString(i)
    case VStr(s) => "'" + s + "'"
    case VList(xs) => "[" + ReprItems(xs) + "]"
    case VTuple(xs) => "(" + ReprItems(xs) + (if |xs| == 1 then ",)" else ")")
    case VDict(es) => "{" + ReprEntries(es) + "}"
  }

  function ReprItems(xs: seq<Value>): string
    decreases xs
  {
    if xs == [] then ""
    else if |xs| == 1 then Repr(xs[0])
    else Repr(xs[0]) + ", " + ReprItems(xs[1..])
  }

  function ReprEntries(es: seq<Entry>): string
    decreases es
  {
    if es == [] then ""
    else
      var e := "'" + es[0].key + "': " + Repr(es[0].val);
      if |es| == 1 then e else e + ", " + ReprEntries(es[1..])
  }

  // ----- dict laws -----

  lemma {:induction false} LookupPut(es: seq<Entry>, k: string, v: Value, k': string)
    ensures Lookup(Put(es, k, v), k') == if k' == k then Some(v) else Lookup(es, k')
  {
    if es != [] && es[0].key != k {
      LookupPut(es[1..], k, v, k');
    }
  }

  /** Assigning a key twice is the same as assigning it the second value. */
  lemma {:induction false} PutPut(es: seq<Entry>, k: string, a: Value, b: Value)
    ensures Put(Put(es, k, a), k, b) == Put(es, k, b)
  {
    if es != [] && es[0].key != k {
      PutPut(es[1..], k, a, b);
    }
  }

  /** Assignment leaves every entry with another key where and as it was. */
  lemma {:induction false} PutOthers(es: seq<Entry>, k: string, v: Value, i: nat)
    requires i < |es| && es[i].key != k
    ensures |Put(es, k, v)| >= |es| && Put(es, k, v)[i] == es[i]
  {
    if es[0].key != k && i > 0 {
      PutOthers(es[1..], k, v, i - 1);
    }
  }

  /** In a dict literal, a key's value is that of its first entry. */
  lemma {:induction false} LookupIndex(es: seq<Entry>, i: nat)
    requires i < |es| && forall j :: 0 <= j < i ==> es[j].key != es[i].key
    ensures Lookup(es, es[i].key) == Some(es[i].val)
  {
    if i > 0 {
      assert es[1..][i - 1] == es[i];
      LookupIndex(es[1..], i - 1);
    }
  }

  /** In a dict literal with distinct keys, every key finds its own entry. */
  lemma LookupDistinct(es: seq<Entry>)
    requires forall i, j :: 0 <= i < j < |es| ==> es[i].key != es[j].key
    ensures forall i :: 0 <= i < |es| ==> Lookup(es, es[i].key) == Some(es[i].val)
  {
    forall i | 0 <= i < |es| ensures Lookup(es, es[i].key) == Some(es[i].val) {
      LookupIndex(es, i);
    }
  }

  /** The keys of two dicts' entries placed one after the other. */
  lemma {:induction false} KeysConcat(a: seq<Entry>, b: seq<Entry>)
    ensures Keys(a + b) == Keys(a) + Keys(b)
  {
  }

  /** A lookup in two runs of entries finds the first run's binding first. */
  lemma {:induction false} LookupConcat(a: seq<Entry>, b: seq<Entry>, k: string)
    ensures Lookup(a + b, k) == if k in Keys(a) then Lookup(a, k) else Lookup(b, k)
  {
    if a != [] {
      assert (a + b)[1..] == a[1..] + b;
      LookupConcat(a[1..], b, k);
    } else {
      assert a + b == b;
    }
  }

  /** Assigning a new key appends its entry. */
  lemma {:induction false} PutAbsent(es: seq<Entry>, k: string, v: Value)
    requires k !in Keys(es)
    ensures Put(es, k, v) == es + [Entry(k, v)]
  {
    if es != [] {
      assert Keys(es[1..]) == Keys(es)[1..];
      PutAbsent(es[1..], k, v);
      assert es == [es[0]] + es[1..];
    }
  }
}
