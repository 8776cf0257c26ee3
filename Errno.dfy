/**
 * Error codes the firmware returns.  The numeric values are those of
 * Zephyr's minimal C library `errno.h`, of FatFs' `FRESULT` and of the
 * Cirrus Logic driver's status codes; none of those headers is part of
 * this model, and no proof depends on a value beyond the codes being
 * distinct from each other and from zero.
 */
module Errno {
  const EPERM: int := 1
  const EIO: int := 5
  const ENXIO: int := 6
  const ENOMEM: int := 12
  const EBUSY: int := 16
  const ENODEV: int := 19
  const EINVAL: int := 22
  const ENOMSG: int := 35
  const EALREADY: int := 120
  const ECANCELED: int := 140

  /** FatFs `FR_INVALID_NAME`; sd_card.c returns it negated. */
  const FR_INVALID_NAME: int := 6

  /** `nrfx_err_t` success value; nrfx error codes are offsets from it. */
  const NRFX_ERROR_BASE_NUM: int := 0x0BAD_0000
}
