/** Small vocabulary shared by every component of the model. */
module Prelude {
  newtype byte = b: int | 0 <= b < 256

  type Bytes = seq<byte>

  datatype Option<+T> = None | Some(value: T)

  /** The source's `Result`: a value, or an error that ends the call. */
  datatype Result<+T> = Ok(value: T) | Err {
    predicate IsFailure() {
      Err?
    }

    function PropagateFailure<U>(): Result<U>
      requires IsFailure()
    {
      Err
    }

    function Extract(): T
      requires !IsFailure()
    {
      value
    }
  }

  function Lookup<K, V>(m: map<K, V>, k: K): Option<V> {
    if k in m then Some(m[k]) else None
  }

  /** Sha-256 as an ideal, collision-free function: a digest remembers its preimage. */
  datatype Digest = Sha256(preimage: Bytes)

  /** Hash of a whole file. */
  function ContentHash(bytes: Bytes): Digest {
    Sha256(bytes)
  }

  lemma SameLookups<K, V>(a: map<K, V>, b: map<K, V>)
    requires forall k :: Lookup(a, k) == Lookup(b, k)
    ensures a == b
  {
    forall k ensures k in a <==> k in b { assert Lookup(a, k) == Lookup(b, k); }
    forall k | k in a ensures a[k] == b[k] { assert Lookup(a, k) == Lookup(b, k); }
  }

  /** A loop over `all` stands with `todo` ahead of it and `done` behind it. */
  predicate Halves<T>(all: set<T>, todo: set<T>, done: set<T>) {
    todo !! done && todo + done == all
  }

  lemma OneMoreDone<T>(all: set<T>, todo: set<T>, done: set<T>, x: T)
    requires Halves(all, todo, done) && x in todo
    ensures Halves(all, todo - {x}, done + {x})
    ensures x in all && x !in done && done <= all && |todo - {x}| < |todo|
  {
  }

  lemma LoopEnds<T>(all: set<T>)
    ensures Halves(all, all, {})
    ensures forall done :: Halves(all, {}, done) ==> done == all
  {
  }
}
