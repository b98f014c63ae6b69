/** The exceptions the parsers and the random helpers can raise; each aborts what it interrupts. */
module Failures {
  datatype Failure =
    | Malformed          // ConfigurationException
    | IllegalArgument    // IllegalArgumentException (unknown target word, empty random range)
    | NumberFormat       // NumberFormatException from Integer.parseInt
    | IndexOutOfBounds   // ArrayIndexOutOfBoundsException from reading a missing token
    | NullPointer        // NullPointerException from dereferencing a null monster
}
