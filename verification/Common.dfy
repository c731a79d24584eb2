/** Vocabulary shared by the models of the service functions. */
module Common {

  datatype Option<+T> = None | Some(value: T)

  /** An instant, in microseconds since an arbitrary origin: the resolution of the stored timestamps. */
  type Time = int

  const SECOND: Time := 1_000_000

  /** The `BACKOFF_SECONDS` table that the webhook inbox and the automation ledger both declare. */
  const BACKOFF_SECONDS: seq<int> := [5, 30, 120, 600, 1800]

  datatype Value = Number(n: int) | Text(s: string) | Truth(b: bool)

  /** A JSON object; `a + b` is `{**a, **b}`. */
  type Entry = map<string, Value>

  /** Who wrote a message. */
  datatype Author = Contact | User | Ai | Automation | System

  /** A digest stands for its input: collisions are left out. */
  datatype Digest<T> = Sha256(preimage: T)

  /** A counter that starts at zero. */
  function Count<K>(counts: map<K, nat>, k: K): nat {
    if k in counts then counts[k] else 0
  }
}
