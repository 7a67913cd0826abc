/**
  Fixed-width integer types and status constants of the host program.
  `uint8` is `unsigned char` / `uint8_t`, `uint32` is OpenCL's `cl_uint`.
 */
module CTypes {

  newtype uint8 = x: int | 0 <= x < 0x100
  newtype uint32 = x: int | 0 <= x < 0x1_0000_0000

  /** CL_SUCCESS: the status an OpenCL call returns when it worked. */
  const ClSuccess: int := 0

  /** The C library's EXIT_SUCCESS and EXIT_FAILURE. */
  const ExitSuccess: int := 0
  const ExitFailure: int := 1
}
