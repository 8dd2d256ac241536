/** Journal records and the queries made over a journal. */
module Journal {
  import opened Wrappers
  import opened TxPhases
  import opened Strategies

  type TxId = string
  type DeviceId = string

  datatype Record = Record(phase: TxPhase, devices: seq<DeviceId>, strategy: Option<Strategy>)

  predicate Unresolved(journal: map<TxId, Record>, tx: TxId) {
    tx in journal && RequiresRecovery(journal[tx].phase)
  }

  /** Some transaction still needing recovery names the device. */
  predicate Blocks(journal: map<TxId, Record>, device: DeviceId) {
    exists tx :: tx in journal && RequiresRecovery(journal[tx].phase) && device in journal[tx].devices
  }
}
