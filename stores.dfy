/**
 * The data store: a Python dict from endpoint name to DataFrame. A dict
 * keeps insertion order, and assigning to a key it already holds keeps
 * that key where it was, so the store is a sequence of entries with
 * unique keys.
 */
module Stores {
  import opened Common
  import opened Tables

  datatype Entry = Entry(endpoint: string, table: Table)

  type Store = seq<Entry>

  /** One sheet of the exported workbook. */
  datatype Sheet = Sheet(name: string, table: Table)

  /** The names of a workbook's sheets, in order. */
  function SheetNames(plan: seq<Sheet>): seq<string> {
    seq(|plan|, i requires 0 <= i < |plan| => plan[i].name)
  }

  /** What `save_to_excel` writes: the target file and its sheets in order. */
  datatype Export = Export(path: string, sheets: seq<Sheet>)

  /** The keys of the store in insertion order. */
  function Keys(s: Store): seq<string> {
    seq(|s|, i requires 0 <= i < |s| => s[i].endpoint)
  }

  /** Every key once, and every table well-formed. */
  predicate Valid(s: Store) {
    && Distinct(Keys(s))
    && forall i :: 0 <= i < |s| ==> WellFormed(s[i].table)
  }

  lemma KeysCons(e: Entry, s: Store)
    ensures Keys([e] + s) == [e.endpoint] + Keys(s)
  {
  }

  /** `store.get(k)`. */
  function Lookup(s: Store, k: string): (r: Option<Table>)
    ensures r.Some? <==> k in Keys(s)
    ensures forall i :: 0 <= i < |s| && s[i].endpoint == k && Distinct(Keys(s)) ==> r == Some(s[i].table)
  {
    if s == [] then None
    else
      KeysCons(s[0], s[1..]);
      assert [s[0]] + s[1..] == s;
      assert Distinct(Keys(s)) ==> Distinct(Keys(s[1..])) by {
        if Distinct(Keys(s)) {
          DistinctTail(Keys(s));
        }
      }
      if s[0].endpoint == k then
        assert Keys(s)[0] == k;
        assert forall i :: 0 < i < |s| && Distinct(Keys(s)) ==> s[i].endpoint == Keys(s)[i] != Keys(s)[0];
        Some(s[0].table)
      else Lookup(s[1..], k)
  }

  /**
   * `store[k] = t`: the entry for `k` becomes `t`; a key already present
   * keeps its position, a new key goes last; every other entry is kept.
   */
  function Put(s: Store, k: string, t: Table): (r: Store)
    ensures Keys(r) == if k in Keys(s) then Keys(s) else Keys(s) + [k]
    ensures Lookup(r, k) == Some(t)
    ensures forall k' :: k' != k ==> Lookup(r, k') == Lookup(s, k')
    ensures forall i :: 0 <= i < |r| && r[i].endpoint != k ==> r[i] in s
  {
    if s == [] then [Entry(k, t)]
    else
      KeysCons(s[0], s[1..]);
      assert [s[0]] + s[1..] == s;
      if s[0].endpoint == k then
        KeysCons(Entry(k, t), s[1..]);
        [Entry(k, t)] + s[1..]
      else
        var rest := Put(s[1..], k, t);
        KeysCons(s[0], rest);
        [s[0]] + rest
  }

  /** Putting a new key or a well-formed table keeps the store valid. */
  lemma PutValid(s: Store, k: string, t: Table)
    requires Valid(s) && WellFormed(t)
    ensures Valid(Put(s, k, t))
  {
    var r := Put(s, k, t);
    if k !in Keys(s) {
      forall a, b | 0 <= a < b < |Keys(r)| ensures Keys(r)[a] != Keys(r)[b] {
        if b == |Keys(s)| {
          assert Keys(r)[a] in Keys(s);
        } else {
          assert Keys(s)[a] != Keys(s)[b];
        }
      }
    }
    forall i | 0 <= i < |r| ensures WellFormed(r[i].table) {
      if r[i].endpoint == k {
        assert Keys(r)[i] == k;
        assert Lookup(r, k) == Some(r[i].table);
      } else {
        var j :| 0 <= j < |s| && s[j] == r[i];
      }
    }
  }
}
