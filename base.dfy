/** Value types shared by the whole model: optional values, results that carry the
    exception a Python operation would raise, and Python's insertion-ordered dict. */
module Base {

  datatype Option<+T> = None | Some(value: T)

  datatype Result<+T, +E> = Ok(value: T) | Err(error: E)

  /** One key/value pair of a dictionary. */
  datatype Entry<+V> = Entry(key: string, value: V)

  /** A Python dict with string keys: its entries in insertion order. */
  type Dict<V> = seq<Entry<V>>

  /** No key occurs twice: what every dict built by Put satisfies. */
  ghost predicate DistinctKeys<V>(d: Dict<V>)
  {
    forall i, j :: 0 <= i < j < |d| ==> d[i].key != d[j].key
  }

  /** Position of key `k` in `d`, if it is there. */
  function Find<V>(d: Dict<V>, k: string): (r: Option<nat>)
    ensures r.Some? ==> r.value < |d| && d[r.value].key == k
    ensures forall i :: 0 <= i < |d| && (r.None? || i < r.value) ==> d[i].key != k
  {
    if d == [] then None
    else if d[0].key == k then Some(0)
    else match Find(d[1..], k)
      case None => None
      case Some(i) => Some(i + 1)
  }

  /** `d.get(k)`. */
  function Get<V>(d: Dict<V>, k: string): Option<V>
  {
    match Find(d, k)
    case None => None
    case Some(i) => Some(d[i].value)
  }

  predicate HasKey<V>(d: Dict<V>, k: string)
  {
    Find(d, k).Some?
  }

  /** `d[k] = v`: an existing key keeps its place and takes the new value, a new key
      goes to the end. */
  function Put<V>(d: Dict<V>, k: string, v: V): (r: Dict<V>)
    ensures Get(r, k) == Some(v)
    ensures forall j :: j != k ==> Get(r, j) == Get(d, j)
    ensures HasKey(d, k) ==> |r| == |d| && forall i :: 0 <= i < |d| ==> r[i].key == d[i].key
    ensures !HasKey(d, k) ==> r == d + [Entry(k, v)]
    ensures DistinctKeys(d) ==> DistinctKeys(r)
    ensures forall i :: 0 <= i < |r| ==> r[i] in d || r[i] == Entry(k, v)
  {
    match Find(d, k)
    case Some(i) =>
      var r := d[i := Entry(k, v)];
      assert forall j :: j != k ==> Find(r, j) == Find(d, j) by {
        forall j | j != k ensures Find(r, j) == Find(d, j) {
          FindSameKeys(d, r, j);
        }
      }
      assert Find(r, k) == Some(i) by { FindSameKeys(d, r, k); }
      r
    case None =>
      var r := d + [Entry(k, v)];
      assert forall j :: j != k ==> Find(r, j) == Find(d, j) by {
        forall j | j != k ensures Find(r, j) == Find(d, j) {
          FindAppend(d, Entry(k, v), j);
        }
      }
      assert Find(r, k) == Some(|d|) by { FindAppend(d, Entry(k, v), k); }
      r
  }

  /** Find depends only on the sequence of keys. */
  lemma FindSameKeys<V>(d: Dict<V>, e: Dict<V>, k: string)
    requires |d| == |e| && forall i :: 0 <= i < |d| ==> d[i].key == e[i].key
    ensures Find(d, k) == Find(e, k)
  {
    var a, b := Find(d, k), Find(e, k);
    if a.Some? && b.Some? {
      assert !(a.value < b.value) && !(b.value < a.value);
    }
  }

  /** Appending an entry does not move the keys already there. */
  lemma FindAppend<V>(d: Dict<V>, x: Entry<V>, k: string)
    ensures Find(d + [x], k) == if HasKey(d, k) then Find(d, k)
                                 else if x.key == k then Some(|d|) else None
  {
    var a, b := Find(d, k), Find(d + [x], k);
    assert forall i :: 0 <= i < |d| ==> (d + [x])[i] == d[i];
    assert (d + [x])[|d|] == x;
    if a.Some? {
      assert b.Some? && !(a.value < b.value) && !(b.value < a.value);
    } else if x.key == k {
      assert b.Some? && b.value == |d|;
    }
  }

  /** Every entry of `d` satisfies `p`. */
  ghost predicate AllEntries<V>(d: Dict<V>, p: Entry<V> -> bool)
  {
    forall i :: 0 <= i < |d| ==> p(d[i])
  }

  /** Assignment keeps a property every entry has, when the new entry has it too. */
  lemma PutKeepsAll<V>(d: Dict<V>, k: string, v: V, p: Entry<V> -> bool)
    requires AllEntries(d, p) && p(Entry(k, v))
    ensures AllEntries(Put(d, k, v), p)
  {
    var r := Put(d, k, v);
    forall i | 0 <= i < |r| ensures p(r[i]) {
      assert r[i] in d || r[i] == Entry(k, v);
    }
  }

  /** Some subset of `s` with exactly `n` elements; which one is left open. */
  ghost function SubsetOfSize<T>(s: set<T>, n: nat): (t: set<T>)
    requires n <= |s|
    ensures t <= s && |t| == n
  {
    if n == 0 then {}
    else
      var x :| x in s;
      SubsetOfSize(s - {x}, n - 1) + {x}
  }

  /** The value of an optional, or a default. */
  function GetOr<T>(o: Option<T>, default: T): T
  {
    match o
    case Some(v) => v
    case None => default
  }

  /** `os.getenv(name)`: the variable's value, if it is set. */
  function Lookup(env: map<string, string>, name: string): Option<string>
  {
    if name in env then Some(env[name]) else None
  }
}
