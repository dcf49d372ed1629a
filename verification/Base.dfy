// Vocabulary shared by every module: options, timestamps and identifiers.
module Base {

  datatype Option<+T> = None | Some(value: T)

  // Instants and durations are exact counts of nanoseconds, as `chrono` and `std::time` keep them.
  type Time = int

  const SECOND: int := 1_000_000_000

  // The name of a versioned object (a ReplicaSet or a Knative Configuration).
  type Name = string

  // A deployment id as Restate mints it.
  type DeploymentId = string

  type Service = string

  function Min(a: int, b: int): int {
    if a <= b then a else b
  }

  function Max(a: int, b: int): int {
    if a >= b then a else b
  }
}
