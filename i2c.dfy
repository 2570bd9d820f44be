/** The byte type (uint8_t) and the I2C message bound shared by the tasks. */
module I2c {
  /** An unsigned 8-bit value (uint8_t). */
  type byte = x: int | 0 <= x < 256

  /** Largest I2C message, and the size of every receive buffer (i2cMAX_MSG_LENGTH). */
  const MaxMsgLength: nat := 32
}
