/** Machines, batch identifiers and the configured shape of the deployment. */
module Topology {

  /** A machine is named by its region, its replica in the region and its partition in the replica. */
  datatype Machine = Machine(region: nat, replica: nat, partition: nat)

  /** A batch is named by the machine that built it and by that machine's batch counter. */
  datatype BatchId = BatchId(counter: nat, machine: Machine)

  /** The part of a transaction that the ordering pipeline looks at. */
  datatype Txn = Txn(id: nat, regions: seq<nat>)

  datatype Batch = Batch(id: BatchId, txns: seq<Txn>)

  /** An operation that the source may leave by throwing. */
  datatype Result<+T> = Success(value: T) | Failure(error: string)

  datatype Option<+T> = None | Some(value: T)

  predicate Distinct<T(==)>(xs: seq<T>) {
    forall i, j :: 0 <= i < j < |xs| ==> xs[i] != xs[j]
  }
}
