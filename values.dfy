/** Dynamic values, records and tables shared by every stage of the pipeline.
  * A JSON payload, a DataFrame cell and a Python object attribute are all a `Value`;
  * a record is a map from column name to `Value`, and a DataFrame is a sequence of records. */
module Values {

  datatype Option<T> = None | Some(value: T)

  /** The outcome of a call that may raise: `Err` carries the exception's message text. */
  datatype Result<T> = Ok(value: T) | Err(error: string)

  /** A dynamically typed value. `Null` stands for Python's None and for pandas' NaN/NaT. */
  datatype Value =
    | Null
    | Bool(b: bool)
    | Int(i: int)
    | Real(r: real)
    | Str(s: string)
    | Time(t: int)
    | List(items: seq<Value>)
    | Obj(fields: map<string, Value>)

  type Row = map<string, Value>

  /** A DataFrame: rows in order; its columns are the keys used by any row. */
  type Table = seq<Row>

  /** Python truthiness (`if v:`). */
  predicate Truthy(v: Value)
  {
    match v
    case Null => false
    case Bool(b) => b
    case Int(i) => i != 0
    case Real(r) => r != 0.0
    case Str(s) => s != []
    case Time(_) => true
    case List(xs) => xs != []
    case Obj(m) => m != map[]
  }

  /** Python's `v == 0`: an integer or float zero, or `False`. */
  predicate EqualsZero(v: Value)
  {
    v == Int(0) || v == Real(0.0) || v == Bool(false)
  }

  /** `str(n)` for an integer. */
  function IntText(n: int): (s: string)
    ensures s != []
  {
    if n < 0 then "-" + NatText(-n) else NatText(n)
  }

  function NatText(n: nat): (s: string)
    ensures s != [] && forall c :: c in s ==> '0' <= c <= '9'
    decreases n
  {
    if n < 10 then ["0123456789"[n]] else NatText(n / 10) + ["0123456789"[n % 10]]
  }

  /** A cell: a key a row does not have reads as NaN, as when pandas builds a frame from dicts. */
  function Get(r: Row, k: string): Value
  {
    if k in r then r[k] else Null
  }

  /** Python `d.get(k, default)` on a value: None when `d` is not a dict (the call would raise). */
  function DictGet(d: Value, k: string, default: Value): Option<Value>
  {
    match d
    case Obj(m) => Some(if k in m then m[k] else default)
    case _ => None
  }

  /** The columns of a frame built from a list of dicts: every key of every row. */
  function Columns(t: Table): (cs: set<string>)
    ensures forall i, k :: 0 <= i < |t| && k in t[i] ==> k in cs
    ensures forall k :: k in cs ==> exists i :: 0 <= i < |t| && k in t[i]
  {
    if |t| == 0 then {} else t[0].Keys + Columns(t[1..])
  }

  /** pandas `df.empty`: no rows, or no columns. */
  predicate IsEmptyFrame(t: Table)
  {
    Columns(t) == {}
  }

  /** The identity Python's `hash` and `==` give a hashable value, which is how pandas'
    * `nunique` groups cells: `True`, `1` and `1.0` are one number, and a timestamp equals
    * no number or string. */
  datatype HashKey = NumKey(x: real) | StrKey(s: string) | TimeKey(t: int)

  /** Lists and dicts are unhashable: hashing one raises `TypeError`. */
  predicate Hashable(v: Value)
  {
    !v.List? && !v.Obj?
  }

  /** The key of a non-null hashable value; None for null and for an unhashable value. */
  function PyKey(v: Value): (r: Option<HashKey>)
    ensures r.Some? <==> v != Null && Hashable(v)
  {
    match v
    case Bool(b) => Some(NumKey(if b then 1.0 else 0.0))
    case Int(i) => Some(NumKey(i as real))
    case Real(x) => Some(NumKey(x))
    case Str(s) => Some(StrKey(s))
    case Time(t) => Some(TimeKey(t))
    case _ => None
  }

  /** The distinct keys of the non-null hashable cells of column `c`. */
  function ColumnKeys(t: Table, c: string): set<HashKey>
  {
    if |t| == 0 then {}
    else
      ColumnKeys(t[..|t| - 1], c) + match PyKey(Get(t[|t| - 1], c)) { case Some(k) => {k} case None => {} }
  }

  predicate HashableColumn(t: Table, c: string)
  {
    forall i :: 0 <= i < |t| ==> Hashable(Get(t[i], c))
  }

  /** `df[c].nunique()`: the number of distinct non-null cells under Python equality; None
    * where hashing a list or dict cell raises. */
  function NUnique(t: Table, c: string): (r: Option<nat>)
    ensures r.Some? <==> HashableColumn(t, c)
    ensures r.Some? ==> r.value <= |t|
  {
    if HashableColumn(t, c) then
      ColumnKeysBound(t, c);
      Some(|ColumnKeys(t, c)|)
    else None
  }

  lemma {:induction false} ColumnKeysBound(t: Table, c: string)
    ensures |ColumnKeys(t, c)| <= |t|
  {
    if |t| > 0 {
      ColumnKeysBound(t[..|t| - 1], c);
    }
  }

  lemma {:induction false} ColumnKeysAppend(t: Table, u: Table, c: string)
    ensures ColumnKeys(t + u, c) == ColumnKeys(t, c) + ColumnKeys(u, c)
  {
    if |u| > 0 {
      var init := u[..|u| - 1];
      assert (t + u)[..|t + u| - 1] == t + init;
      ColumnKeysAppend(t, init, c);
    } else {
      assert t + u == t;
    }
  }

  lemma HashableColumnAppend(t: Table, u: Table, c: string)
    ensures HashableColumn(t + u, c) <==> HashableColumn(t, c) && HashableColumn(u, c)
  {
    if HashableColumn(t + u, c) {
      forall i | 0 <= i < |t| ensures Hashable(Get(t[i], c)) {
        assert (t + u)[i] == t[i];
      }
      forall i | 0 <= i < |u| ensures Hashable(Get(u[i], c)) {
        assert (t + u)[|t| + i] == u[i];
      }
    }
    if HashableColumn(t, c) && HashableColumn(u, c) {
      forall i | 0 <= i < |t + u| ensures Hashable(Get((t + u)[i], c)) {
        if i < |t| {
          assert (t + u)[i] == t[i];
        } else {
          assert (t + u)[i] == u[i - |t|];
        }
      }
    }
  }

  lemma ConstantColumnHashable(t: Table, c: string, v: Value)
    requires |t| > 0 && forall i :: 0 <= i < |t| ==> Get(t[i], c) == v
    ensures HashableColumn(t, c) <==> Hashable(v)
  {
    assert Get(t[0], c) == v;
  }

  /** Cells that differ as values but are equal in Python are one unique value: `1`, `1.0` and
    * `True` in one column give `nunique() == 1`. */
  lemma NumericCellsCountOnce(c: string)
    ensures NUnique([map[c := Int(1)], map[c := Real(1.0)], map[c := Bool(true)]], c) == Some(1)
  {
    var t := [map[c := Int(1)], map[c := Real(1.0)], map[c := Bool(true)]];
    assert t[..2][..1] == [t[0]] && t[..2] == [t[0], t[1]] && [t[0]][..0] == [];
    assert ColumnKeys([t[0]], c) == {NumKey(1.0)};
    assert ColumnKeys(t[..2], c) == {NumKey(1.0)};
    assert ColumnKeys(t, c) == {NumKey(1.0)};
  }

  /** A list or dict cell makes `nunique` raise. */
  lemma UnhashableCellRaises(t: Table, c: string, i: nat)
    requires i < |t| && !Hashable(Get(t[i], c))
    ensures NUnique(t, c).None?
  {
  }

  /** `k` begins with `p`. */
  predicate StartsWith(k: string, p: string)
  {
    |p| <= |k| && k[..|p|] == p
  }

  /** Python's `sub in s` on strings. */
  predicate ContainsText(s: string, sub: string)
  {
    exists i :: 0 <= i <= |s| && StartsWith(s[i..], sub)
  }

  /** `{f"{p}{k}": v for k, v in r.items()}` */
  function Prefixed(p: string, r: Row): (m: Row)
    ensures forall k {:trigger p + k} :: k in r ==> p + k in m && m[p + k] == r[k]
  {
    assert forall k :: (p + k)[|p|..] == k;
    map k | k in r :: p + k := r[k]
  }

  /** Every key of `Prefixed(p, r)` is `p` followed by a key of `r`. */
  lemma PrefixedKeyStarts(p: string, r: Row, k: string)
    requires k in Prefixed(p, r)
    ensures StartsWith(k, p) && k[|p|..] in r
  {
  }

  lemma PrefixStarts(p: string, k: string)
    ensures StartsWith(p + k, p)
  {
    assert (p + k)[..|p|] == p;
  }

  function Sum(xs: seq<int>): int
  {
    if |xs| == 0 then 0 else Sum(xs[..|xs| - 1]) + xs[|xs| - 1]
  }

  /** Concatenation of a sequence of sequences. */
  function Concat<T>(xss: seq<seq<T>>): seq<T>
  {
    if |xss| == 0 then [] else Concat(xss[..|xss| - 1]) + xss[|xss| - 1]
  }

  lemma {:induction false} ConcatAppend<T>(xss: seq<seq<T>>, ys: seq<T>)
    ensures Concat(xss + [ys]) == Concat(xss) + ys
  {
    assert (xss + [ys])[..|xss|] == xss;
  }

  lemma {:induction false} ConcatCons<T>(xs: seq<T>, xss: seq<seq<T>>)
    ensures Concat([xs] + xss) == xs + Concat(xss)
    decreases |xss|
  {
    if |xss| > 0 {
      var init := xss[..|xss| - 1];
      assert ([xs] + xss)[..|xss|] == [xs] + init;
      ConcatCons(xs, init);
    } else {
      assert [xs] + xss == [xs];
      assert [xs][..0] == [];
    }
  }

  /** When `a + b` is a prefix of `w`, `b` sits in `w` right after `a`. */
  lemma SliceOfPrefix<T>(a: seq<T>, b: seq<T>, w: seq<T>)
    requires a + b <= w
    ensures |a| + |b| <= |w| && w[|a|..|a| + |b|] == b
  {
    assert w[..|a| + |b|] == a + b;
  }

  lemma DropSplit<T>(s: seq<T>, i: nat, j: nat)
    requires i <= j <= |s|
    ensures s[i..] == s[i..j] + s[j..]
  {
  }

  /** A union of maps with disjoint keys keeps every entry of both. */
  lemma DisjointUnion<K, V>(a: map<K, V>, b: map<K, V>)
    requires forall k :: k in a ==> k !in b
    ensures forall k :: k in a ==> k in a + b && (a + b)[k] == a[k]
    ensures forall k :: k in b ==> k in a + b && (a + b)[k] == b[k]
  {
  }

  lemma SliceEnds<T>(s: seq<T>, n: nat)
    requires n <= |s|
    ensures s[0..] == s && s[0..n] == s[..n] && s[..0] == []
  {
  }

  lemma EmptyAppend<T>(s: seq<T>)
    ensures [] + s == s
  {
  }

  lemma TakeAppend<T>(a: seq<T>, b: seq<T>)
    ensures (a + b)[..|a|] == a
  {
  }

  /** Taking n and then dropping the head is dropping the head and then taking n - 1. */
  lemma DropOneTake<T>(xs: seq<T>, n: nat)
    requires 1 <= n <= |xs|
    ensures xs[..n][1..] == xs[1..][..n - 1] && xs[..n][0] == xs[0] && xs[1..][n - 1..] == xs[n..]
  {
  }

  lemma AppendAssoc<T>(a: seq<T>, b: seq<T>, c: seq<T>)
    ensures (a + b) + c == a + (b + c)
  {
  }

  lemma TakeAll<T>(s: seq<T>)
    ensures s[..|s|] == s
  {
  }

  lemma TakeOfTake<T>(s: seq<T>, m: nat, n: nat)
    requires m <= n <= |s|
    ensures s[..n][..m] == s[..m]
  {
  }

  lemma TakeSnoc<T>(a: seq<T>, s: seq<T>, j: nat)
    requires j < |s|
    ensures a + s[..j + 1] == (a + s[..j]) + [s[j]]
  {
    assert s[..j + 1] == s[..j] + [s[j]];
  }

  /** A dict whose insertion order matters, as a list of (key, value) entries. */
  type Assoc = seq<(string, Value)>

  /** `d.get(k)` on an entry list: the first entry with key `k`. */
  function AssocGet(d: Assoc, k: string): Option<Value>
  {
    if |d| == 0 then None
    else if d[0].0 == k then Some(d[0].1)
    else AssocGet(d[1..], k)
  }

  /** No entry has key `k`. */
  lemma {:induction false} AssocGetAbsent(d: Assoc, k: string)
    requires forall i :: 0 <= i < |d| ==> d[i].0 != k
    ensures AssocGet(d, k) == None
  {
    if |d| > 0 {
      assert forall i :: 0 <= i < |d[1..]| ==> d[1..][i] == d[i + 1];
      AssocGetAbsent(d[1..], k);
    }
  }

  /** Entry `i` is the first with key `k`. */
  lemma {:induction false} AssocGetFirst(d: Assoc, k: string, i: nat)
    requires i < |d| && d[i].0 == k && forall j :: 0 <= j < i ==> d[j].0 != k
    ensures AssocGet(d, k) == Some(d[i].1)
  {
    if i > 0 {
      assert forall j :: 0 <= j < i - 1 ==> d[1..][j] == d[j + 1];
      AssocGetFirst(d[1..], k, i - 1);
    }
  }

  /** `d[k] = v`: an existing key keeps its position and takes the new value; a new key goes last. */
  function AssocPut(d: Assoc, k: string, v: Value): (r: Assoc)
    ensures AssocGet(r, k) == Some(v)
    ensures forall j :: j != k ==> AssocGet(r, j) == AssocGet(d, j)
    ensures AssocGet(d, k).Some? ==> |r| == |d|
    ensures AssocGet(d, k).None? ==> r == d + [(k, v)]
  {
    if |d| == 0 then [(k, v)]
    else if d[0].0 == k then [(k, v)] + d[1..]
    else [d[0]] + AssocPut(d[1..], k, v)
  }

  /** `d.update(e)` */
  function AssocUpdate(d: Assoc, e: Assoc): (r: Assoc)
    ensures e == [] ==> r == d
  {
    if |e| == 0 then d else AssocPut(AssocUpdate(d, e[..|e| - 1]), e[|e| - 1].0, e[|e| - 1].1)
  }

  /** `sep.join(xs)` */
  function Join(sep: string, xs: seq<string>): string
  {
    if |xs| == 0 then ""
    else if |xs| == 1 then xs[0]
    else Join(sep, xs[..|xs| - 1]) + sep + xs[|xs| - 1]
  }

  lemma JoinTwo(sep: string, a: string, b: string)
    ensures Join(sep, [a, b]) == a + sep + b
  {
    assert [a, b][..1] == [a];
  }

  function Min(a: int, b: int): int
  {
    if a <= b then a else b
  }

  /** `prefix + k` is injective in `k`. */
  lemma PrefixInjective(p: string, a: string, b: string)
    requires p + a == p + b
    ensures a == b
  {
    assert a == (p + a)[|p|..];
    assert b == (p + b)[|p|..];
  }
}
