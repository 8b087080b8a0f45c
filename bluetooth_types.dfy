/** Value types shared by the Android adapter and characteristic code. */
module BluetoothTypes {

  /** A 128-bit Bluetooth UUID. */
  newtype Uuid = x: int | 0 <= x < 0x1_0000_0000_0000_0000_0000_0000_0000_0000

  /** `u8`, `u16` and `i16`. */
  newtype byte = x: int | 0 <= x < 0x100
  newtype u16 = x: int | 0 <= x < 0x1_0000
  newtype i16 = x: int | -0x8000 <= x < 0x8000
}
