/**
 * The JVM instructions the detector looks at. The opcode numbers are those of
 * chapter 7 ("Opcode Mnemonics by Opcode") of the Java Virtual Machine
 * Specification; their meaning is given in chapter 6.
 */
module Opcodes {

  /** An opcode is one unsigned byte. */
  type Opcode = x: int | 0 <= x < 256

  const POP: Opcode := 87
  const POP2: Opcode := 88
  const DUP: Opcode := 89
  const RETURN: Opcode := 177
  const INVOKEVIRTUAL: Opcode := 182
  const INVOKESPECIAL: Opcode := 183
  const INVOKESTATIC: Opcode := 184
  const INVOKEINTERFACE: Opcode := 185

  /**
   * One decoded instruction as the scanning visitor exposes it while the
   * detector's callback runs: the opcode, its program counter (getPC) and,
   * for a method invocation, the resolved constant-pool operands: the owner
   * class in dotted form (getDottedClassConstantOperand), the member name
   * (getNameConstantOperand) and the descriptor (getSigConstantOperand).
   * For instructions without a member-reference operand these are unused.
   */
  datatype Instruction = Instruction(
    opcode: Opcode,
    pc: nat,
    classOperand: string,
    nameOperand: string,
    sigOperand: string)
}
