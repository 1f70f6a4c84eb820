/** Value types shared by the acquisition loop, the sender and the dashboard. */
module Records {

  datatype Option<+T> = None | Some(value: T)

  /** One calibrated accelerometer round: the Z value of each of the three devices. */
  datatype Triple = Triple(z1: int, z2: int, z3: int)

  /** One environmental record as the dashboard hands it to the sender once per second.
      Measured values are the raw Modbus register values (tenths of a unit for
      temperature, humidity and wind speed); the wind direction is in whole degrees. */
  datatype Reading = Reading(
    timeLocal: string,
    tempC: Option<int>,
    humPct: Option<int>,
    windDirDeg: Option<int>,
    windDirTxt: string,
    windSpdMs: Option<int>)

  /** The smaller of two integers, Python's two-argument `min`. */
  function Min(a: int, b: int): (m: int)
    ensures m <= a && m <= b && (m == a || m == b)
  {
    if a <= b then a else b
  }
}
