/**
 * String-keyed records and the object spread `{ ...lower, ...upper }` the page
 * uses for every record update: merging a device with its SSH profile, laying
 * the edit buffer over the fetched record, and writing one field of the modal
 * or of the settings change map.
 */
module Records {
  import opened Wrappers
  import opened Values

  type Record = map<string, Value>

  /** Property access `r[k]`: an absent key reads as undefined. */
  function Get(r: Record, k: string): Value {
    if k in r then r[k] else Null
  }

  /** `{ ...lower, ...upper }`: right-biased union of two records. */
  function Merge<V>(lower: map<string, V>, upper: map<string, V>): (r: map<string, V>)
    ensures r.Keys == lower.Keys + upper.Keys
    ensures forall k :: k in upper ==> r[k] == upper[k]
    ensures forall k :: k in lower && k !in upper ==> r[k] == lower[k]
  {
    lower + upper
  }

  /** `{ ...m, [k]: v }`: one field write. Only key `k` changes. */
  lemma SetFieldOnlyTouchesKey<V>(m: map<string, V>, k: string, v: V)
    ensures Merge(m, map[k := v]).Keys == m.Keys + {k}
    ensures Merge(m, map[k := v])[k] == v
    ensures forall j :: j in m && j != k ==> Merge(m, map[k := v])[j] == m[j]
  {
  }

  /** A sequence of field writes `{ ...m, [k]: v }`, applied in order. */
  function ApplyEdits<V>(m: map<string, V>, edits: seq<(string, V)>): map<string, V>
    decreases |edits|
  {
    if edits == [] then m
    else ApplyEdits(Merge(m, map[edits[0].0 := edits[0].1]), edits[1..])
  }

  /** The last value written to `k` in `edits`, if any. */
  function LastWrite<V>(edits: seq<(string, V)>, k: string): Option<V>
    decreases |edits|
  {
    if edits == [] then None
    else
      var later := LastWrite(edits[1..], k);
      if later.Some? then later
      else if edits[0].0 == k then Some(edits[0].1)
      else None
  }

  /**
   * After a session of field writes, a key holds the last value written to it,
   * or its original value if it was never written; a key is present iff it was
   * present before or was written.
   */
  lemma {:induction false} ApplyEditsLastWriteWins<V>(m: map<string, V>, edits: seq<(string, V)>, k: string)
    ensures k in ApplyEdits(m, edits) <==> k in m || LastWrite(edits, k).Some?
    ensures LastWrite(edits, k).Some? ==> ApplyEdits(m, edits)[k] == LastWrite(edits, k).value
    ensures LastWrite(edits, k).None? && k in m ==> ApplyEdits(m, edits)[k] == m[k]
    decreases |edits|
  {
    if edits != [] {
      ApplyEditsLastWriteWins(Merge(m, map[edits[0].0 := edits[0].1]), edits[1..], k);
    }
  }

  /** The first key written in a non-empty session is present afterwards. */
  lemma EditsLeaveNonEmpty<V>(m: map<string, V>, edits: seq<(string, V)>)
    requires edits != []
    ensures ApplyEdits(m, edits) != map[]
  {
    var k := edits[0].0;
    ApplyEditsLastWriteWins(m, edits, k);
    assert k in ApplyEdits(m, edits);
  }
}
