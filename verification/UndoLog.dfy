/** Undo logs over a table of settings: each record keeps the values its write replaced. */
module UndoLog {

  /** The values a last-in-first-out undo leaves: of two records for one key, the earlier one wins. */
  function Merge<K(!new), V>(log: seq<map<K, V>>): map<K, V>
  {
    if |log| == 0 then map[] else Merge(log[1..]) + log[0]
  }

  lemma MergeIsAssociative<K, V>(a: map<K, V>, b: map<K, V>, c: map<K, V>)
    ensures (a + b) + c == a + (b + c)
  {
  }

  lemma {:induction false} MergeAppend<K(!new), V>(log: seq<map<K, V>>, last: map<K, V>)
    ensures Merge(log + [last]) == last + Merge(log)
  {
    if |log| == 0 {
      assert Merge([last]) == Merge<K, V>([]) + last;
    } else {
      assert (log + [last])[1..] == log[1..] + [last];
      MergeAppend(log[1..], last);
      MergeIsAssociative(last, Merge(log[1..]), log[0]);
    }
  }

  lemma {:induction false} MergeConcat<K(!new), V>(log: seq<map<K, V>>, more: seq<map<K, V>>)
    ensures Merge(log + more) == Merge(more) + Merge(log)
  {
    if |log| == 0 {
      assert log + more == more;
      assert Merge(more) + map[] == Merge(more);
    } else {
      assert (log + more)[1..] == log[1..] + more;
      MergeConcat(log[1..], more);
      MergeIsAssociative(Merge(more), Merge(log[1..]), log[0]);
    }
  }

  /** The table differs from `t` only in keys the log holds. */
  ghost predicate AgreesOutside<K(!new), V>(t: map<K, V>, u: map<K, V>, keys: set<K>) {
    && u.Keys == t.Keys
    && forall k :: k in t && k !in keys ==> u[k] == t[k]
  }

  /** Undoing does not depend on how far an earlier undo came, or on what it left in the logged keys. */
  lemma UndoAbsorbs<K(!new), V>(log: seq<map<K, V>>, t: map<K, V>, u: map<K, V>)
    requires AgreesOutside(t, u, Merge(log).Keys)
    ensures u + Merge(log) == t + Merge(log)
  {
  }

  /** Recording what a write replaced makes the longer log undo the write as well. */
  lemma RecordThenUndo<K(!new), V>(log: seq<map<K, V>>, t: map<K, V>, u: map<K, V>, originals: map<K, V>)
    requires AgreesOutside(t, u, originals.Keys)
    requires forall k :: k in originals ==> k in t && originals[k] == t[k]
    ensures u + Merge(log + [originals]) == t + Merge(log)
  {
    MergeAppend(log, originals);
    assert u + originals == t;
    MergeIsAssociative(u, originals, Merge(log));
  }

  /** A write that is not recorded yet spoils the undo in the keys it wrote and nowhere else. */
  lemma UnrecordedWrite<K(!new), V>(log: seq<map<K, V>>, t: map<K, V>, u: map<K, V>, written: set<K>)
    requires AgreesOutside(t, u, written)
    ensures AgreesOutside(t + Merge(log), u + Merge(log), written)
  {
  }
}
