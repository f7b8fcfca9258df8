/** The protocol constants of common.h and keep_track.c. */
module Common {
  const MAX_PAYLOAD_SIZE: nat := 1484
  const MAX_PACKET_PER_CHUNK: nat := 354
  const BT_CHUNK_SIZE: nat := 512 * 1024
  /** How many timeouts without a word from the other side end a transfer. */
  const ABORT_COEFF: nat := 4
}
