/** The ways one step of the machine can fail. In the Python program each of
    these is an exception that ends the process; here they are values. */
module Faults {

  /** Which list an out-of-range index was used on. */
  datatype Bank = Ram | Registers

  datatype Fault =
    /** Python's `IndexError`: `index` is outside `-len..len-1` of the list. */
    | IndexError(bank: Bank, index: int)
    /** Python's `KeyError` from the dispatch table: the byte at `address` has
        an operand class the loop dispatches on but no handler. */
    | IllegalOpcode(address: int, opcode: int)
    /** `incrementPC` refusing a width. */
    | UnsupportedIncrement(width: int)
}
