/** Names for the processes of the service under test. */
module SutTypes {

  type ProcId = nat

  /** A reference to a process that was spawned, as a field of the manager holds it. */
  datatype Ref = Nil | Of(id: ProcId)
}
