/** Why a provider refused a request (internal/gateway/fault.go, temperature.go). */
module Faults {
  datatype Fault = Terminal | RateLimit | Account | Degraded | Refused

  /** `exhausted`: the body carries one of the account phrases. */
  function Classify(status: int, exhausted: bool): Fault {
    match status
    case 503 => Degraded
    case 429 => if exhausted then Account else RateLimit
    case 400 => if exhausted then Account else Terminal
    case 422 => if exhausted then Account else Terminal
    case 401 => Refused
    case 403 => Refused
    case 404 => Refused
    case _ => Terminal
  }

  /** `named`: the body names the temperature field as the problem. */
  predicate RejectsTemperature(status: int, named: bool) { (status == 400 || status == 422) && named }
}
