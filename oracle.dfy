/**
  Values shared by the oracle broker and the oracle subscriber contracts:
  the host's opaque values, the request envelope, and what a contract call
  leaves behind.

  Every public entry point of both contracts runs as one unit of work on the
  contract's instance storage. A panic (a failed `assert!`, an `unwrap` of a
  missing entry, a missing authorisation, a rejected token transfer) makes
  the host discard every write of that call. A call is therefore modelled as
  a `Transition`: a result, and the storage after the call, which is the
  storage before it whenever the result is an error.
 */
module Oracle {

  /** Soroban `Bytes`: topics and published data, compared only for equality. */
  type Bytes = seq<bv8>

  /** Soroban `Address`: an account or a contract, compared only for equality. */
  datatype Address = Address(strkey: string)

  /** One subscriber request: who asked, and through which broker. */
  datatype Envelope = Envelope(subscriber: Address, broker: Address)

  datatype Option<T> = None | Some(value: T)

  /** The reason a call panics. */
  datatype Error =
    | AdminAlreadySet                   // `assert!` that no admin is stored
    | AdminNotSet                       // `unwrap` of the missing admin entry
    | NotAuthorized(who: Address)       // `require_auth` without that principal's authorisation
    | NotWhitelisted(who: Address)      // `unwrap` of a missing whitelist entry
    | FeeNotTransferred                 // the fee token contract rejected the transfer
    | NoPendingEnvelopes                // `unwrap` of a topic's missing envelope queue

  datatype Result<T> = Ok(value: T) | Err(error: Error)

  /** The result of one contract call and the instance storage it leaves. */
  datatype Transition<S, T> = Transition(result: Result<T>, next: S)

  /** A failed call leaves the storage exactly as it found it. */
  predicate Reverts<S(==), T>(before: S, t: Transition<S, T>) {
    t.result.Err? ==> t.next == before
  }

  /** Storage `get`: the value stored under `k`, if any. */
  function Lookup<K, V>(m: map<K, V>, k: K): (r: Option<V>)
    ensures r.Some? <==> k in m
    ensures r.Some? ==> r.value == m[k]
  {
    if k in m then Some(m[k]) else None
  }
}
