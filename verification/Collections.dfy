/** What several modules need of sequences and sets. */
module Collections {
  datatype Option<T> = None | Some(value: T)

  /** The parts of a list, one behind the other. */
  function Joined<T>(parts: seq<seq<T>>): seq<T> {
    if parts == [] then [] else parts[0] + Joined(parts[1..])
  }

  lemma Regroup<T>(a: seq<T>, b: seq<T>, c: seq<T>)
    ensures a + (b + c) == a + b + c
  {
  }

  lemma {:induction false} JoinedAdd<T>(parts: seq<seq<T>>, p: seq<T>)
    ensures Joined(parts + [p]) == Joined(parts) + p
  {
    if parts != [] {
      JoinedAdd(parts[1..], p);
      assert (parts + [p])[1..] == parts[1..] + [p];
      Regroup(parts[0], Joined(parts[1..]), p);
    } else {
      assert (parts + [p])[1..] == [];
    }
  }

  lemma SubsetSize<T>(a: set<T>, b: set<T>)
    requires a <= b
    ensures |a| <= |b|
  {
    assert b == a + (b - a);
  }
}
