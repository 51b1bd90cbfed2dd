// A device's four counters (internal/stats/stats.go).

module DeviceCounters {
  datatype Field = Tx | Rx | Total | Active

  datatype Counters = Counters(tx: int, rx: int, total: int, active: int)

  const ZERO := Counters(0, 0, 0, 0)

  function Get(c: Counters, f: Field): int {
    match f
    case Tx => c.tx
    case Rx => c.rx
    case Total => c.total
    case Active => c.active
  }

  function Add(c: Counters, f: Field, d: int): Counters {
    match f
    case Tx => c.(tx := c.tx + d)
    case Rx => c.(rx := c.rx + d)
    case Total => c.(total := c.total + d)
    case Active => c.(active := c.active + d)
  }
}
