/**
 * The parts of the SDK's assembled circuit object (a "qobj") that the
 * backend reads: each experiment's name, its number of classical memory
 * slots and the names of its instructions.
 */
module Qobj {

  /** An instruction; only its name (`op.name`) is read. */
  datatype Instruction = Instruction(name: string)

  /** An experiment: `header.name`, `config.memory_slots` and `instructions`. */
  datatype Experiment = Experiment(name: string, memorySlots: int, instructions: seq<Instruction>)

  datatype QasmQobj = QasmQobj(experiments: seq<Experiment>)
}
