# Ticket-booking queue simulator, modelled in Dafny

This project models the queueing core of a simulator for a web ticket-booking
system. A fixed pool of identical servers takes requests from a FIFO waiting
line. Requests that find the line full are turned away when they arrive.
Requests that have waited longer than one time unit by the time they get a
server give it back unserved. All other requests hold a server for a fixed
processing time. After a fixed horizon, one run reports three numbers: the
average response time, a utilization percentage and the number of dropped
requests.

Files:

- `scenario.dfy` (module `Scenario`): the constants of `project.py:14-18`,
  plus the abandonment threshold `Patience`, the literal `1` at `project.py:33`.
- `measures.dfy` (module `Measures`): the metrics derived after a run. The
  mean of the response times is `Mean(v)`, or `NoData` when nothing was
  served; `NoData` stands for the source's `float('inf')` sentinel. The
  utilization is the source's literal formula.
- `booking.dfy` (module `Booking`):
  - `Grant`, a pure function giving what happens at one instant when free
    servers meet the waiting line;
  - `State` and `Run`, the reference definition of a run on values: `Run`
    applies arrivals and service completions in time order, a completion
    first on a tie, until no event is left before the horizon;
  - the class `Simulation`, holding one run's mutable state: clock, waiting
    line, requests in service, drop counter, response-time list and request
    counter;
  - `Fire` and `Drive`, the event loop that feeds arrivals and service
    completions to the class one at a time, proved to end in the state `Run`
    gives;
  - `RunSimulation`, one run from a fresh object to its report.

How the engine is modelled:

- Time is `real`.
- The randomly drawn arrival instants are an input: a non-decreasing
  sequence of non-negative instants.
- The discrete-event engine is replaced by explicit events, handled one at
  a time. An arrival is `Simulation.Arrive`. The end of a service is
  `Simulation.Complete`.
- Granting a freed server is atomic with the abandonment check on the
  request that gets it. A request that gives up frees the server within
  the same instant, so the next head of the line is tried at once
  (`Simulation.GrantWaiting`).
- `Simulation.Valid` is the invariant every event preserves:
  - requests holding a server never outnumber `servers`;
  - a request waits only while every server is busy;
  - the waiting line never holds more than `MaxQueueSize`;
  - services end in grant order, within one `ProcessingTime` of the clock;
  - every recorded response time lies in `[ProcessingTime, Patience + ProcessingTime]` = `[0.2, 1.2]`;
  - conservation: every arrival so far is dropped for a full line, dropped
    for a timeout, served, waiting, or in service, each exactly once. The
    two kinds of drop are ghost counters that add up to the source's
    single counter.

Two behaviours of the code worth stating:

- The horizon. `env.run(until=SIMULATION_TIME)` (`project.py:65`) stops the
  engine before any event scheduled at the horizon itself. An event
  scheduled exactly at `SimulationTime`, such as a service that would end
  there, never takes effect. The model handles only events strictly before
  `SimulationTime`.
- The server count. `run_simulation` (`project.py:57-62`) passes it straight
  to `simpy.Resource`, which raises an error for a capacity below 1 before
  the run starts. The model requires `servers >= 1`, which the division at
  `project.py:68` also needs.

## Model

| member | source | states |
|---|---|---|
| `Booking.GrantCounts` | project.py:29-35 | For `Grant`: every request handed to the dispatcher ends up still waiting, granted a server, or timed out. At most `free` requests are granted. Only a tail of the line is left waiting, and only once all `free` servers went to the requests ahead of it. A timed-out request does not use up a server. The wait test is made only at a grant: with no server free, nothing leaves the line. With a server free, the head leaves. When some request is still left waiting, the last request to leave got a server rather than timing out. |
| `Booking.GrantSizes` | project.py:29-35 | The counting part of `GrantCounts`: waiting plus timed out plus granted is the line's length, at most `free` are granted, requests wait only once all `free` were granted, and with a server free the line gets shorter. |
| `Booking.GrantSuffix` | project.py:29-30 | What `Grant` leaves waiting is a tail of the line, in line order. |
| `Booking.GrantLastServed` | project.py:32-35 | When some request is still left waiting and some left the line, the last one to leave waited at most `Patience` and so got a server. |
| `Booking.GrantIsFifo` | project.py:29-33 | For `Grant`: servers go to requests in FIFO order. Of the requests that leave the front of the line, exactly those that waited at most `Patience` get servers, in line order. |
| `Booking.GrantTimesOut` | project.py:32-37 | For `Grant`: every request that leaves the line without a server waited more than `Patience` and is counted as timed out. Every granted request finishes exactly `ProcessingTime` after the grant. |
| `Booking.Simulation.constructor` | project.py:57-62 | A run starts with an empty response list, a drop count of 0, request counter 0, no request waiting or in service, and the clock at 0. |
| `Booking.Simulation.GrantHead` | project.py:29-37 | The head of the line leaves it. It is dropped with the counter up by 1, holding no server, when it waited more than `Patience`. Otherwise it holds a server until `now + ProcessingTime`. Nothing else changes. |
| `Booking.Simulation.GrantWaiting` | project.py:29-35 | Free servers go to the waiting line exactly as `Grant` says. Afterwards no request waits while a server is free. The response list, clock and request counter are unchanged. |
| `Booking.Simulation.Arrive` | project.py:45-54 | An arrival with `MaxQueueSize` or more requests already waiting adds exactly 1 to the drop count and creates no request. Otherwise the request counter goes up by 1 with no drop. The new request gets a server at once if one is free, else it joins the back of the line. Only the waiting line is tested, not the requests holding servers. |
| `Booking.Simulation.Complete` | project.py:37-40 | The earliest service ends. The clock moves to its end and `end - arrival` is appended to the response list. The one freed server goes to the line as `Grant` with one free server says. The drop count rises only by the requests that time out there. |
| `Booking.Simulation.Metrics` | project.py:67-72 | The average is `NoData` exactly when no response was recorded, and otherwise lies in `[0.2, 1.2]`. Utilization is non-negative and at most `1.2 × served × 100 / (servers × 10)` (`UtilizationBounded`, stated with the division multiplied out). The reported drop count is the counter. |
| `Booking.RunDropFree` | project.py:45-54 | For `Run`: when the servers outnumber, or equal, the requests in service plus every arrival still to come, and nobody waits, nobody ever waits and the drop count never rises: no arrival finds a full line and no request times out. |
| `Booking.ArrivalAgrees` | project.py:45-54 | For the reference step `Arrival`, in a state where nobody waits while a server is free: a full line turns the arrival away with the drop count up by 1; otherwise the request counter rises by 1 and the request gets a server at once if one is free, else joins the back of the line. |
| `Booking.CompletionAgrees` | project.py:37-40 | For the reference step `Completion`, in the same kind of state: the clock moves to the end of the first service, its response time is appended, and exactly one server goes to the waiting line as `Grant` with one free server says. |
| `Booking.ReachesNext` | project.py:63-65 | Applying the event `Run` would apply next, the end of a service when it comes first and otherwise the next arrival, leaves a run that ends in the same final state. |
| `Booking.Fire` | project.py:29-54 | One event on the run object. When the first service ends before the horizon and no earlier arrival is due, it completes and the object's new state is `Completion` of the old one. Otherwise the next arrival, which lies before the horizon, takes effect and the new state is `Arrival` of the old one. `Valid` is kept and the clock stays before the horizon. |
| `Booking.RunSimulation` | project.py:57-72 | A fresh run, fed through `Drive`. Its drop count, recorded response times (`times`), services still running (`left`), pending requests and last event instant (`clock`) are those of `Run` from the start state. With no more arrivals than servers, nothing is dropped. `handled` is the number of arrivals before the horizon, and no later arrival takes effect. The last event took effect before `SimulationTime` (`clock`). Every service still running (`left`) ends at or after `SimulationTime`, so every completion before the horizon was recorded. Drops plus served requests plus those still pending equal `handled`, and the pending requests number at most `servers + MaxQueueSize`. Every recorded response time lies in `[0.2, 1.2]`. The report is the mean (or `NoData`) and the utilization of exactly those times, with the same bounds as `Metrics`. |
| `Booking.Drive` | project.py:63-65 | The event loop of one run. On return the object's state is exactly the final state `Run` gives for the start state and these arrivals. The run's invariant `Valid` holds and `handled` equals the number of arrivals consumed. Every consumed arrival lay before `SimulationTime`, and the next arrival, if there is one, does not. The earliest service still running ends at or after `SimulationTime`. The clock is before `SimulationTime`. |
| `Measures.AverageResponseTime` | project.py:67 | The result is `NoData` exactly when the list is empty. Otherwise the mean times the number of entries equals their sum. |
| `Measures.AverageWithin` | project.py:67 | The mean lies within any bounds that every recorded time lies within. |
| `Measures.SumBounds` | project.py:68 | The sum of `n` values each in `[lo, hi]` lies in `[lo·n, hi·n]`. |
| `Measures.UtilizationPercent` | project.py:68 | The percentage times the total server-time `servers × 10` equals the summed response time times 100. |
| `Measures.UtilizationWithin` | project.py:68 | With non-negative times, utilization is non-negative. It is at most the largest response time times their number times 100, divided by `servers × 10`. |
| `Measures.UtilizationAboveFull` | project.py:68 | The percentage is not clamped. It exceeds 100 exactly when the summed response time exceeds `servers × 10`. |

## Left out

- Console input, the results table, the printed observations and the bar chart (`project.py:74-130`): input and presentation.
- The exponential inter-arrival sampling (`project.py:46`): the arrival instants are an input sequence. No distributional or statistical claim is made, such as fewer drops in expectation with more servers, or seeded determinism.
- `ArrivalRate` (`project.py:17`) is kept as a constant only. It parameterises that sampling and nothing else.
- The engine's event heap, coroutine resumption and the resource's internals. Only their observable effect is modelled, as deterministic event steps.
- Simultaneous events. When an arrival and the end of a service fall on the same instant, the model handles the end of service first. The engine orders such events by when they were scheduled, which the model does not track. The engine also splits a completion into steps. The finished request gives up its server at once, but the head of the line takes that server only when a separate release event fires, scheduled at the same instant. An arrival at that instant can therefore find that head still in the line. The model does the release, the grant and the abandonment check of the request receiving the server as one step.
- Floating-point rounding, `statistics.mean` precision and the `:.3f`/`:.2f` output formatting: arithmetic is on `real`.
- The dictionaries keyed by server count (`project.py:21-23`, `utilization_rates` at line 70): one run's state is the fields of one `Simulation` object, made fresh per run.
- The error for a server count below 1: `simpy.Resource` (`project.py:62`) raises it before the run starts. The model states `servers >= 1` as a precondition instead of modelling that error.
- `request_id` is passed to `handle_request` but not used there. The model keeps only the counter.
