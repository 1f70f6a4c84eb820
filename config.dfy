/** The fixed configuration of the application, as immutable constants. */
module Config {

  /** I2C address of the TCA9548A bus multiplexer. */
  const MuxAddr: int := 0x70
  /** I2C address of every ADXL345 accelerometer. */
  const AdxlAddr: int := 0x53

  /** Multiplexer channels of the three accelerometers. */
  const ChAdxl1: int := 1
  const ChAdxl2: int := 2
  const ChAdxl3: int := 4

  /** Sampling period of the acquisition loop, in microseconds (about 500 Hz). */
  const IntervalUs: int := 2000

  /** Number of points kept in each dashboard series. */
  const MaxSamples: int := 200

  /** The three accelerometer channels exist on an eight-channel multiplexer and are distinct. */
  lemma ChannelsInRange()
    ensures 0 <= ChAdxl1 <= 7 && 0 <= ChAdxl2 <= 7 && 0 <= ChAdxl3 <= 7
    ensures ChAdxl1 != ChAdxl2 && ChAdxl2 != ChAdxl3 && ChAdxl1 != ChAdxl3
  {
  }
}
