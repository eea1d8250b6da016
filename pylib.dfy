/** The Python values the integration-test harness works with: `str.replace`,
    `in` on strings, dictionaries (insertion-ordered, as in Python 3.7+) and
    the two exceptions the harness can raise. */
module PyLib {

  import opened Wrappers

  // ---------------------------------------------------------------------------
  // Strings

  /** `pat in s`: `pat` occurs somewhere in `s`. */
  predicate Occurs(pat: string, s: string) {
    |pat| <= |s| && (s[..|pat|] == pat || Occurs(pat, s[1..]))
  }

  /** `s.replace(pat, rep)`: every non-overlapping occurrence of `pat`, scanning
      from the left, is replaced by `rep`. Every call in the harness passes a
      non-empty `pat` (it always contains the characters `${` or `}`).
      Replacing a pattern that does not occur changes nothing; removing a
      pattern never lengthens a string, and shortens it when it occurs. */
  function ReplaceAll(s: string, pat: string, rep: string): (r: string)
    requires |pat| > 0
    ensures !Occurs(pat, s) ==> r == s
    ensures rep == "" ==> |r| <= |s|
    ensures rep == "" && Occurs(pat, s) ==> |r| < |s|
  {
    if |s| < |pat| then s
    else if s[..|pat|] == pat then rep + ReplaceAll(s[|pat|..], pat, rep)
    else
      assert [s[0]] + s[1..] == s;
      [s[0]] + ReplaceAll(s[1..], pat, rep)
  }

  // ---------------------------------------------------------------------------
  // Dictionaries: a list of entries, keys in insertion order

  type Dict<V> = seq<(string, V)>

  /** `list(d)`: the keys, in insertion order. */
  function Keys<V>(d: Dict<V>): seq<string> {
    seq(|d|, i requires 0 <= i < |d| => d[i].0)
  }

  /** The position of the first entry with key `k`. */
  function Find<V>(d: Dict<V>, k: string): (i: nat)
    requires k in Keys(d)
    ensures i < |d| && d[i].0 == k
    ensures forall j :: 0 <= j < i ==> d[j].0 != k
  {
    if d[0].0 == k then 0 else
      assert k in Keys(d[1..]) by { var j :| 0 <= j < |d| && Keys(d)[j] == k; assert Keys(d[1..])[j - 1] == k; }
      1 + Find(d[1..], k)
  }

  /** The first entry with key `k` is the one `Find` names. */
  lemma FindFirst<V>(d: Dict<V>, k: string, i: nat)
    requires i < |d| && d[i].0 == k && forall j :: 0 <= j < i ==> d[j].0 != k
    ensures k in Keys(d) && Find(d, k) == i
  {
    assert Keys(d)[i] == k;
  }

  /** `d[k]` (`None` where Python raises `KeyError`). */
  function Get<V>(d: Dict<V>, k: string): (r: Option<V>)
    ensures r.None? <==> k !in Keys(d)
  {
    if k in Keys(d) then Some(d[Find(d, k)].1) else None
  }

  /** `d[k] = v`: an existing key keeps its place, a new key goes last. */
  function Put<V>(d: Dict<V>, k: string, v: V): (r: Dict<V>)
    ensures Get(r, k) == Some(v)
    ensures k !in Keys(d) ==> r == d + [(k, v)]
    ensures k in Keys(d) ==> Keys(r) == Keys(d)
  {
    if k in Keys(d) then
      var r := d[Find(d, k) := (k, v)];
      assert Keys(r) == Keys(d);
      FindFirst(r, k, Find(d, k));
      r
    else
      var r := d + [(k, v)];
      assert forall j :: 0 <= j < |d| ==> r[j].0 != k by {
        forall j | 0 <= j < |d| ensures r[j].0 != k { assert Keys(d)[j] == d[j].0; }
      }
      FindFirst(r, k, |d|);
      r
  }

  /** Writing one key leaves every other key's value as it was. */
  lemma PutOther<V>(d: Dict<V>, k: string, v: V, k': string)
    requires k' != k
    ensures Get(Put(d, k, v), k') == Get(d, k')
  {
    var r := Put(d, k, v);
    if k' in Keys(d) {
      var i := Find(d, k');
      assert r[i] == d[i];
      FindFirst(r, k', i);
    } else if k !in Keys(d) {
      assert Keys(r) == Keys(d) + [k];
    }
  }

  /** The keys after a write are the keys before it and the written one. */
  lemma PutKeys<V>(d: Dict<V>, k: string, v: V, k': string)
    ensures k' in Keys(Put(d, k, v)) <==> k' in Keys(d) || k' == k
  {
    if k' != k {
      PutOther(d, k, v, k');
    }
  }

  /** No key appears twice, as in every Python dictionary. */
  predicate DistinctKeys<V>(d: Dict<V>) {
    forall i, j :: 0 <= i < j < |d| ==> d[i].0 != d[j].0
  }

  // ---------------------------------------------------------------------------
  // Exceptions

  datatype Exception = KeyError(key: string) | JSONDecodeError

  /** A value, or the exception that ended the computation. */
  datatype Result<+T> = Ok(value: T) | Raised(exc: Exception)
}
