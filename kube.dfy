/** The pieces of the Kubernetes client library that every check shares. */
module Kube {
  import opened Wrappers

  /** `ObjectMeta`, reduced to the one field the checks read. */
  datatype ObjectMeta = ObjectMeta(name: Option<string>)

  /** chrono's `DateTime<Utc>`: an instant, never inspected by the checks, only rendered. */
  datatype DateTime = DateTime(unixNanos: int)

  /** `k8s_openapi`'s `Time`, a newtype around a `DateTime<Utc>` (second precision on the wire). */
  datatype Time = Time(instant: DateTime)

  /** `k8s_openapi`'s `MicroTime`, a newtype around a `DateTime<Utc>` (microsecond precision on the wire). */
  datatype MicroTime = MicroTime(instant: DateTime)

  /** Why a list call failed (transport, authorisation or decoding); the checks never look inside. */
  datatype ListError = ListError(description: string)

  /** What `Api::list(..).await` hands back: the listed items, or the error that `?` propagates. */
  type Listing<T> = Result<seq<T>, ListError>
}
