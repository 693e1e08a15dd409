/** Fixed parameters of the ticket-booking scenario. */
module Scenario {

  /** Number of users expected during the peak window. */
  const PeakUsers: nat := 500

  /** Time one request holds a server once it gets one. */
  const ProcessingTime: real := 0.2

  /** Length of one run: no event at or after this instant takes effect. */
  const SimulationTime: real := 10.0

  /** Mean arrivals per time unit; the arrival instants themselves are an input of the model. */
  const ArrivalRate: real := PeakUsers as real / SimulationTime

  /** A new arrival is turned away when this many requests already wait for a server. */
  const MaxQueueSize: nat := 100

  /** A request granted a server after waiting longer than this gives up without service. */
  const Patience: real := 1.0
}
