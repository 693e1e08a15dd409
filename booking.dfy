/**
 * The queueing policy of the booking simulator: a fixed pool of identical
 * servers, a FIFO waiting line checked for length at arrival, abandonment
 * checked at grant, fixed-length service, and the run that drives arrivals
 * and completions in time order up to the horizon.
 */
module Booking {
  import opened Scenario
  import opened Measures

  /** A request holding a server: when it arrived and when its service ends. */
  datatype Job = Job(arrival: real, done: real)

  /** What handing free servers to the waiting line at one instant leaves behind. */
  datatype Allocation = Allocation(waiting: seq<real>, timedOut: nat, granted: seq<Job>)

  /** The three numbers one run reports. */
  datatype Report = Report(average: Average, utilization: real, dropped: nat)

  /**
   * At instant `t`, with `free` servers available, the head of the waiting
   * line is granted a server until no server or no request is left. A head
   * that has waited longer than Patience gives its server straight back and
   * is counted as timed out; any other head holds it for ProcessingTime.
   */
  function Grant(line: seq<real>, t: real, free: nat): Allocation
    decreases |line|
  {
    if free == 0 || line == [] then Allocation(line, 0, [])
    else if t - line[0] > Patience then
      var rest := Grant(line[1..], t, free);
      rest.(timedOut := rest.timedOut + 1)
    else
      var rest := Grant(line[1..], t, free - 1);
      rest.(granted := [Job(line[0], t + ProcessingTime)] + rest.granted)
  }

  /** One step of Grant: the head either times out or takes one of the free servers. */
  lemma GrantStep(line: seq<real>, t: real, free: nat)
    requires line != [] && free > 0
    ensures t - line[0] > Patience ==>
              var g, rest := Grant(line, t, free), Grant(line[1..], t, free);
              g.waiting == rest.waiting && g.timedOut == rest.timedOut + 1 &&
              g.granted == rest.granted
    ensures t - line[0] <= Patience ==>
              var g, rest := Grant(line, t, free), Grant(line[1..], t, free - 1);
              g.waiting == rest.waiting && g.timedOut == rest.timedOut &&
              g.granted == [Job(line[0], t + ProcessingTime)] + rest.granted
  {
  }

  /**
   * Counting for Grant: every request handed to the dispatcher is still
   * waiting, granted or timed out; at most `free` are granted, requests are
   * left waiting only once all `free` went to those ahead, and with a server
   * free the head always leaves.
   */
  lemma {:induction false} GrantSizes(line: seq<real>, t: real, free: nat)
    ensures var g := Grant(line, t, free);
            |g.waiting| + g.timedOut + |g.granted| == |line| &&
            |g.granted| <= free &&
            (g.waiting != [] ==> |g.granted| == free) &&
            (free > 0 && line != [] ==> |g.waiting| < |line|)
    decreases |line|
  {
    if free != 0 && line != [] {
      if t - line[0] > Patience {
        GrantSizes(line[1..], t, free);
      } else {
        GrantSizes(line[1..], t, free - 1);
      }
    }
  }

  /** What Grant leaves waiting is a tail of the line, in line order. */
  lemma {:induction false} GrantSuffix(line: seq<real>, t: real, free: nat)
    ensures var g := Grant(line, t, free);
            |g.waiting| <= |line| && g.waiting == line[|line| - |g.waiting|..]
    decreases |line|
  {
    if free != 0 && line != [] {
      var f := if t - line[0] > Patience then free else free - 1;
      GrantSuffix(line[1..], t, f);
      var w := Grant(line[1..], t, f).waiting;
      assert line[1..][|line[1..]| - |w|..] == line[|line| - |w|..];
    }
  }

  /** While some request is still left waiting, the last one to leave got a server. */
  lemma {:induction false} GrantLastServed(line: seq<real>, t: real, free: nat)
    ensures var g := Grant(line, t, free);
            |g.waiting| <= |line| &&
            (0 < |g.waiting| < |line| ==> t - line[|line| - |g.waiting| - 1] <= Patience)
    decreases |line|
  {
    if free != 0 && line != [] {
      var f := if t - line[0] > Patience then free else free - 1;
      GrantLastServed(line[1..], t, f);
      GrantSizes(line[1..], t, f);
      var w := Grant(line[1..], t, f).waiting;
      if 0 < |w| < |line| - 1 {
        assert line[1..][|line[1..]| - |w| - 1] == line[|line| - |w| - 1];
      }
    }
  }

  /**
   * Every request handed to the dispatcher is still waiting, granted or timed
   * out; at most `free` are granted, and a request is left waiting only when
   * all `free` servers went to those ahead of it. The wait test is made only
   * at a grant: with no server free nothing leaves the line, with one free the
   * head leaves, and while some request is still left waiting the last one
   * to leave is one that got a server.
   */
  lemma GrantCounts(line: seq<real>, t: real, free: nat)
    ensures var g := Grant(line, t, free);
            |g.waiting| + g.timedOut + |g.granted| == |line| &&
            g.waiting == line[|line| - |g.waiting|..] &&
            |g.granted| <= free &&
            (g.waiting != [] ==> |g.granted| == free) &&
            (free == 0 ==> g.waiting == line) &&
            (free > 0 && line != [] ==> |g.waiting| < |line|) &&
            (0 < |g.waiting| < |line| ==> t - line[|line| - |g.waiting| - 1] <= Patience)
  {
    GrantSizes(line, t, free);
    GrantSuffix(line, t, free);
    GrantLastServed(line, t, free);
  }

  /** The entries of `line` that have waited at most Patience at instant `t`, in line order. */
  function Patient(line: seq<real>, t: real): seq<real>
  {
    if line == [] then []
    else (if t - line[0] <= Patience then [line[0]] else []) + Patient(line[1..], t)
  }

  function Arrivals(jobs: seq<Job>): seq<real>
  {
    if jobs == [] then [] else [jobs[0].arrival] + Arrivals(jobs[1..])
  }

  /**
   * Grants are made in FIFO order: of the requests that leave the front of
   * the line, exactly those still within Patience get servers, in line order.
   */
  lemma {:induction false} GrantIsFifo(line: seq<real>, t: real, free: nat)
    ensures var g := Grant(line, t, free);
            |g.waiting| <= |line| &&
            Arrivals(g.granted) == Patient(line[..|line| - |g.waiting|], t)
    decreases |line|
  {
    GrantSizes(line, t, free);
    if free != 0 && line != [] {
      var g := Grant(line, t, free);
      var n := |line| - |g.waiting|;
      assert line[..n] == [line[0]] + line[1..][..n - 1];
      assert line[..n][1..] == line[1..][..n - 1];
      if t - line[0] > Patience {
        GrantIsFifo(line[1..], t, free);
      } else {
        var rest := Grant(line[1..], t, free - 1);
        GrantIsFifo(line[1..], t, free - 1);
        assert g.granted[1..] == rest.granted;
      }
    }
  }

  /**
   * The requests that leave the front of the line and are not granted are
   * the ones counted as timed out; every granted one ends service one
   * ProcessingTime after the grant.
   */
  lemma {:induction false} GrantTimesOut(line: seq<real>, t: real, free: nat)
    ensures var g := Grant(line, t, free);
            |g.waiting| <= |line| &&
            g.timedOut + |Patient(line[..|line| - |g.waiting|], t)| == |line| - |g.waiting| &&
            forall j :: j in g.granted ==> j.done == t + ProcessingTime
    decreases |line|
  {
    GrantSizes(line, t, free);
    if free != 0 && line != [] {
      var g := Grant(line, t, free);
      var n := |line| - |g.waiting|;
      assert line[..n][1..] == line[1..][..n - 1];
      if t - line[0] > Patience {
        GrantTimesOut(line[1..], t, free);
      } else {
        GrantTimesOut(line[1..], t, free - 1);
      }
    }
  }

  /** A request arriving to an empty line while a server is free gets it at once. */
  lemma GrantLone(t: real, free: nat)
    requires free > 0
    ensures Grant([t], t, free) == Allocation([], 0, [Job(t, t + ProcessingTime)])
  {
    assert [t][1..] == [];
  }

  /** With no server free, Grant leaves the line as it is. */
  lemma GrantNone(line: seq<real>, t: real)
    ensures Grant(line, t, 0) == Allocation(line, 0, [])
  {
  }

  /**
   * `target` is what Grant gives the whole line: `k` timeouts and the grants
   * `soFar` already made, followed by what Grant gives what is left of it.
   */
  ghost predicate GrantRemains(target: Allocation, line: seq<real>, t: real, free: nat,
                               k: nat, soFar: seq<Job>)
  {
    var g := Grant(line, t, free);
    target.waiting == g.waiting && target.timedOut == k + g.timedOut &&
    target.granted == soFar + g.granted
  }

  /**
   * Handing out one more server, or timing out one more head, keeps
   * GrantRemains: `line'`, `free'`, `k'` and `soFar'` are the values after
   * that step.
   */
  lemma GrantRemainsStep(target: Allocation, line: seq<real>, t: real, free: nat,
                         k: nat, soFar: seq<Job>,
                         line': seq<real>, free': nat, k': nat, soFar': seq<Job>)
    requires GrantRemains(target, line, t, free, k, soFar) && line != [] && free > 0
    requires line' == line[1..]
    requires t - line[0] > Patience ==> free' == free && k' == k + 1 && soFar' == soFar
    requires t - line[0] <= Patience ==>
               free' == free - 1 && k' == k && soFar' == soFar + [Job(line[0], t + ProcessingTime)]
    ensures GrantRemains(target, line', t, free', k', soFar')
  {
    GrantStep(line, t, free);
    if t - line[0] <= Patience {
      var rest := Grant(line[1..], t, free - 1);
      assert target.granted == (soFar + [Job(line[0], t + ProcessingTime)]) + rest.granted;
    }
  }

  /** Once no server or no request is left, GrantRemains says the work is done. */
  lemma GrantRemainsDone(target: Allocation, line: seq<real>, t: real, free: nat,
                         k: nat, soFar: seq<Job>)
    requires GrantRemains(target, line, t, free, k, soFar) && (line == [] || free == 0)
    ensures target == Allocation(line, k, soFar)
  {
  }

  /** No arrival instant in the waiting line lies in the future. */
  ghost predicate LineBefore(line: seq<real>, now: real)
  {
    forall i :: 0 <= i < |line| ==> line[i] <= now
  }

  /**
   * Requests in service end in the order they were granted, each within one
   * service time from now, after a wait of at most Patience.
   */
  ghost predicate ServiceOrdered(jobs: seq<Job>, now: real)
  {
    (forall i, j :: 0 <= i < j < |jobs| ==> jobs[i].done <= jobs[j].done) &&
    (forall i :: 0 <= i < |jobs| ==> now <= jobs[i].done <= now + ProcessingTime) &&
    (forall i :: 0 <= i < |jobs| ==>
       ProcessingTime <= jobs[i].done - jobs[i].arrival <= Patience + ProcessingTime)
  }

  /** Moving the clock to an arrival that no completion precedes keeps both orders. */
  lemma AdvanceToArrival(line: seq<real>, jobs: seq<Job>, now: real, t: real)
    requires LineBefore(line, now) && ServiceOrdered(jobs, now)
    requires now <= t && (jobs != [] ==> t <= jobs[0].done)
    ensures LineBefore(line + [t], t) && ServiceOrdered(jobs, t)
  {
  }

  /** Moving the clock to the first completion keeps both orders for what is left. */
  lemma AdvanceToCompletion(line: seq<real>, jobs: seq<Job>, now: real)
    requires LineBefore(line, now) && ServiceOrdered(jobs, now) && jobs != []
    ensures LineBefore(line, jobs[0].done) && ServiceOrdered(jobs[1..], jobs[0].done)
    ensures ProcessingTime <= jobs[0].done - jobs[0].arrival <= Patience + ProcessingTime
  {
  }

  /** When the first service to end does so at or after `h`, all of them do. */
  lemma ServiceBeyond(jobs: seq<Job>, now: real, h: real)
    requires ServiceOrdered(jobs, now) && (jobs != [] ==> h <= jobs[0].done)
    ensures forall j :: j in jobs ==> h <= j.done
  {
  }

  /** In a non-decreasing sequence, everything from the first instant at or after `h` on is too. */
  lemma ArrivalsBeyond(arrivals: seq<real>, i: nat, h: real)
    requires forall a, b :: 0 <= a < b < |arrivals| ==> arrivals[a] <= arrivals[b]
    requires i <= |arrivals| && (i < |arrivals| ==> h <= arrivals[i])
    ensures forall k :: i <= k < |arrivals| ==> h <= arrivals[k]
  {
  }

  /** One run's state as a value: the fields the run object holds at an instant. */
  datatype State = State(now: real, queue: seq<real>, inService: seq<Job>, dropped: nat,
                         responseTimes: seq<real>, requestId: nat)

  /** The state a run starts in: idle servers, nobody waiting, nothing recorded. */
  const Start := State(0.0, [], [], 0, [], 0)

  /** How many of `servers` no request holds in `s`. */
  function Idle(s: State, servers: nat): nat
  {
    if |s.inService| < servers then servers - |s.inService| else 0
  }

  /**
   * An arrival at `t`: turned away when MaxQueueSize requests already wait;
   * otherwise a new request joins the back of the line and the free servers
   * go to the line.
   */
  function Arrival(s: State, servers: nat, t: real): State
  {
    if |s.queue| >= MaxQueueSize then s.(now := t, dropped := s.dropped + 1)
    else
      var g := Grant(s.queue + [t], t, Idle(s, servers));
      State(t, g.waiting, s.inService + g.granted, s.dropped + g.timedOut,
            s.responseTimes, s.requestId + 1)
  }

  /**
   * The end of the first service: the clock moves to it, its response time
   * is recorded, and the free servers go to the line.
   */
  function Completion(s: State, servers: nat): State
    requires s.inService != []
  {
    var job := s.inService[0];
    var g := Grant(s.queue, job.done, Idle(s.(inService := s.inService[1..]), servers));
    State(job.done, g.waiting, s.inService[1..] + g.granted, s.dropped + g.timedOut,
          s.responseTimes + [job.done - job.arrival], s.requestId)
  }

  /**
   * The next event of a run in state `s`, with `arrivals[i..]` still to come,
   * is the end of the first service: it ends before SimulationTime and no
   * arrival is due before it. On a tie the completion comes first.
   */
  predicate CompletesFirst(s: State, arrivals: seq<real>, i: nat)
  {
    s.inService != [] && s.inService[0].done < SimulationTime &&
    (i >= |arrivals| || s.inService[0].done <= arrivals[i])
  }

  /**
   * The events of a run from `s` on, fed the arrival instants `arrivals`: the
   * first service to end completes when it comes first; otherwise the next
   * arrival before SimulationTime takes effect; when neither is left, the
   * run is over.
   */
  function Run(s: State, servers: nat, arrivals: seq<real>): State
    decreases 2 * |arrivals| + |s.queue| + |s.inService|
  {
    if CompletesFirst(s, arrivals, 0) then
      GrantSizes(s.queue, s.inService[0].done, Idle(s.(inService := s.inService[1..]), servers));
      Run(Completion(s, servers), servers, arrivals)
    else if arrivals != [] && arrivals[0] < SimulationTime then
      GrantSizes(s.queue + [arrivals[0]], arrivals[0], Idle(s, servers));
      Run(Arrival(s, servers, arrivals[0]), servers, arrivals[1..])
    else s
  }

  /** Run's step when a service ends first. */
  lemma RunCompletes(s: State, servers: nat, arrivals: seq<real>, i: nat)
    requires i <= |arrivals| && CompletesFirst(s, arrivals, i)
    ensures Run(s, servers, arrivals[i..]) == Run(Completion(s, servers), servers, arrivals[i..])
  {
    assert CompletesFirst(s, arrivals[i..], 0);
  }

  /** Run's step when the next arrival comes first. */
  lemma RunArrives(s: State, servers: nat, arrivals: seq<real>, i: nat)
    requires i < |arrivals| && arrivals[i] < SimulationTime && !CompletesFirst(s, arrivals, i)
    ensures Run(s, servers, arrivals[i..])
            == Run(Arrival(s, servers, arrivals[i]), servers, arrivals[i + 1..])
  {
    assert !CompletesFirst(s, arrivals[i..], 0);
    assert arrivals[i..][1..] == arrivals[i + 1..];
  }

  /** Run stops when no event is left before SimulationTime. */
  lemma RunStops(s: State, servers: nat, arrivals: seq<real>, i: nat)
    requires i <= |arrivals| && !(i < |arrivals| && arrivals[i] < SimulationTime)
    requires !(s.inService != [] && s.inService[0].done < SimulationTime)
    ensures Run(s, servers, arrivals[i..]) == s
  {
  }

  /** From state `s`, with `arrivals[i..]` still to come, the run ends in `final`. */
  ghost predicate Reaches(s: State, servers: nat, arrivals: seq<real>, i: nat, final: State)
  {
    i <= |arrivals| && Run(s, servers, arrivals[i..]) == final
  }

  /** Firing the next event of a run keeps the state on its way to the same end. */
  lemma ReachesNext(s: State, next: State, servers: nat, arrivals: seq<real>, i: nat, j: nat,
                    final: State)
    requires Reaches(s, servers, arrivals, i, final)
    requires CompletesFirst(s, arrivals, i) ==> j == i && next == Completion(s, servers)
    requires !CompletesFirst(s, arrivals, i) ==>
               j == i + 1 && i < |arrivals| && arrivals[i] < SimulationTime &&
               next == Arrival(s, servers, arrivals[i])
    ensures Reaches(next, servers, arrivals, j, final)
  {
    if CompletesFirst(s, arrivals, i) {
      RunCompletes(s, servers, arrivals, i);
    } else {
      RunArrives(s, servers, arrivals, i);
    }
  }

  /**
   * With servers enough for every request in service and every arrival
   * still to come, nobody ever waits and nobody is turned away or times out.
   */
  lemma {:induction false} RunDropFree(s: State, servers: nat, arrivals: seq<real>)
    requires s.queue == [] && |s.inService| + |arrivals| <= servers
    ensures Run(s, servers, arrivals).queue == []
    ensures Run(s, servers, arrivals).dropped == s.dropped
    decreases 2 * |arrivals| + |s.queue| + |s.inService|
  {
    if CompletesFirst(s, arrivals, 0) {
      var g := Grant(s.queue, s.inService[0].done, Idle(s.(inService := s.inService[1..]), servers));
      assert g == Allocation([], 0, []);
      RunDropFree(Completion(s, servers), servers, arrivals);
    } else if arrivals != [] && arrivals[0] < SimulationTime {
      var t := arrivals[0];
      assert s.queue + [t] == [t];
      GrantLone(t, Idle(s, servers));
      RunDropFree(Arrival(s, servers, t), servers, arrivals[1..]);
    }
  }

  /**
   * In a state where nobody waits while a server is free, an arrival is
   * turned away at a full line, gets a server at once when one is free, and
   * otherwise joins the back of the line.
   */
  lemma ArrivalAgrees(s: State, servers: nat, t: real)
    requires |s.inService| <= servers && (s.queue != [] ==> |s.inService| == servers)
    ensures |s.queue| >= MaxQueueSize ==> Arrival(s, servers, t) == s.(now := t, dropped := s.dropped + 1)
    ensures |s.queue| < MaxQueueSize && |s.inService| < servers ==>
              Arrival(s, servers, t)
              == s.(now := t, queue := [], inService := s.inService + [Job(t, t + ProcessingTime)],
                    requestId := s.requestId + 1)
    ensures |s.queue| < MaxQueueSize && |s.inService| == servers ==>
              Arrival(s, servers, t) == s.(now := t, queue := s.queue + [t], requestId := s.requestId + 1)
  {
    if |s.queue| < MaxQueueSize {
      if |s.inService| < servers {
        assert s.queue + [t] == [t];
        GrantLone(t, Idle(s, servers));
      } else {
        GrantNone(s.queue + [t], t);
      }
    }
  }

  /**
   * In a state where nobody waits while a server is free, the end of a
   * service frees exactly one server for the line.
   */
  lemma CompletionAgrees(s: State, servers: nat)
    requires s.inService != [] && |s.inService| <= servers
    requires s.queue != [] ==> |s.inService| == servers
    ensures var job, g := s.inService[0], Grant(s.queue, s.inService[0].done, 1);
            Completion(s, servers)
            == State(job.done, g.waiting, s.inService[1..] + g.granted, s.dropped + g.timedOut,
                     s.responseTimes + [job.done - job.arrival], s.requestId)
  {
  }

  /** The state of one run: the server pool, its waiting line and the accumulated metrics. */
  class Simulation {
    const servers: nat
    var now: real
    /** Arrival instants of admitted requests still waiting for a server, front first. */
    var queue: seq<real>
    /** Requests holding a server, in the order their service ends. */
    var inService: seq<Job>
    var dropped: nat
    var responseTimes: seq<real>
    var requestId: nat
    /** Arrivals seen so far, and the two kinds of drop the single counter adds up. */
    ghost var handled: nat
    ghost var droppedFull: nat
    ghost var droppedTimeout: nat

    /** Everything but the rule that nobody waits while a server is free. */
    ghost predicate Consistent()
      reads this
    {
      1 <= servers &&
      |inService| <= servers &&
      |queue| <= MaxQueueSize &&
      LineBefore(queue, now) &&
      ServiceOrdered(inService, now) &&
      (forall i :: 0 <= i < |responseTimes| ==>
         ProcessingTime <= responseTimes[i] <= Patience + ProcessingTime) &&
      dropped == droppedFull + droppedTimeout &&
      requestId + droppedFull == handled &&
      handled == droppedFull + droppedTimeout + |responseTimes| + |queue| + |inService|
    }

    /** The run's state as a value. */
    function Snap(): State
      reads this
    {
      State(now, queue, inService, dropped, responseTimes, requestId)
    }

    /** The fields no grant touches. */
    ghost function Untouched(): (real, seq<real>, nat, nat, nat)
      reads this
    {
      (now, responseTimes, requestId, handled, droppedFull)
    }

    ghost predicate Valid()
      reads this
    {
      Consistent() && (queue != [] ==> |inService| == servers)
    }

    /** A fresh run: idle servers, nobody waiting, nothing recorded. */
    constructor (servers: nat)
      requires servers >= 1
      ensures Valid() && this.servers == servers
      ensures now == 0.0 && queue == [] && inService == []
      ensures responseTimes == [] && dropped == 0 && requestId == 0 && handled == 0
    {
      this.servers := servers;
      now := 0.0;
      queue := [];
      inService := [];
      dropped := 0;
      responseTimes := [];
      requestId := 0;
      handled := 0;
      droppedFull := 0;
      droppedTimeout := 0;
    }

    /** The head of the waiting line gets a server now, or gives it up after waiting too long. */
    method GrantHead()
      requires Consistent() && queue != [] && |inService| < servers
      modifies this
      ensures Consistent()
      ensures queue == old(queue[1..])
      ensures old(now - queue[0]) > Patience ==>
                inService == old(inService) && dropped == old(dropped) + 1 &&
                droppedTimeout == old(droppedTimeout) + 1
      ensures old(now - queue[0]) <= Patience ==>
                inService == old(inService) + [Job(old(queue[0]), now + ProcessingTime)] &&
                dropped == old(dropped) && droppedTimeout == old(droppedTimeout)
      ensures now == old(now) && responseTimes == old(responseTimes)
      ensures requestId == old(requestId) && handled == old(handled) && droppedFull == old(droppedFull)
    {
      var a := queue[0];
      queue := queue[1..];
      if now - a > Patience {
        dropped := dropped + 1;
        droppedTimeout := droppedTimeout + 1;
      } else {
        inService := inService + [Job(a, now + ProcessingTime)];
      }
    }

    /** Hands free servers to the head of the waiting line, as Grant describes. */
    method GrantWaiting()
      requires Consistent()
      modifies this
      ensures Valid()
      ensures var g := Grant(old(queue), now, servers - old(|inService|));
              queue == g.waiting && inService == old(inService) + g.granted &&
              dropped == old(dropped) + g.timedOut &&
              droppedTimeout == old(droppedTimeout) + g.timedOut
      ensures now == old(now) && responseTimes == old(responseTimes)
      ensures requestId == old(requestId) && handled == old(handled) && droppedFull == old(droppedFull)
    {
      ghost var k: nat := 0;
      ghost var soFar: seq<Job> := [];
      ghost var target := Grant(queue, now, servers - |inService|);
      while queue != [] && |inService| < servers
        invariant Consistent()
        invariant Untouched() == old(Untouched())
        invariant inService == old(inService) + soFar
        invariant dropped == old(dropped) + k && droppedTimeout == old(droppedTimeout) + k
        invariant GrantRemains(target, queue, now, servers - |inService|, k, soFar)
        decreases |queue|
      {
        ghost var line, free, k0, soFar0 := queue, servers - |inService|, k, soFar;
        GrantHead();
        if now - line[0] > Patience {
          k := k + 1;
        } else {
          soFar := soFar + [Job(line[0], now + ProcessingTime)];
        }
        GrantRemainsStep(target, line, now, free, k0, soFar0,
                         queue, servers - |inService|, k, soFar);
      }
      GrantRemainsDone(target, queue, now, servers - |inService|, k, soFar);
    }

    /**
     * An arrival at instant `t`. With MaxQueueSize requests already waiting it
     * is dropped; otherwise it becomes a request, joins the line, and gets a
     * server at once when one is free.
     */
    method Arrive(t: real)
      requires Valid()
      requires now <= t && (inService != [] ==> t <= inService[0].done)
      modifies this
      ensures Valid()
      ensures now == t && handled == old(handled) + 1 && responseTimes == old(responseTimes)
      ensures old(|queue|) >= MaxQueueSize ==>
                dropped == old(dropped) + 1 && requestId == old(requestId) &&
                queue == old(queue) && inService == old(inService)
      ensures old(|queue|) < MaxQueueSize ==>
                dropped == old(dropped) && requestId == old(requestId) + 1 &&
                if old(|inService|) < servers
                then queue == [] && inService == old(inService) + [Job(t, t + ProcessingTime)]
                else queue == old(queue) + [t] && inService == old(inService)
      ensures |queue| + |inService| <= old(|queue| + |inService|) + 1
    {
      AdvanceToArrival(queue, inService, now, t);
      now := t;
      handled := handled + 1;
      if |queue| >= MaxQueueSize {
        dropped := dropped + 1;
        droppedFull := droppedFull + 1;
      } else {
        ghost var free := servers - |inService|;
        queue := queue + [t];
        requestId := requestId + 1;
        if free > 0 {
          assert queue == [t];
          GrantLone(t, free);
        } else {
          GrantNone(queue, t);
        }
        GrantWaiting();
      }
    }

    /**
     * The service that ends first completes: its response time is recorded,
     * and the one server it frees goes to the head of the waiting line.
     */
    method Complete()
      requires Valid() && inService != []
      modifies this
      ensures Valid()
      ensures now == old(inService[0].done)
      ensures responseTimes == old(responseTimes) + [old(inService[0].done - inService[0].arrival)]
      ensures var g := Grant(old(queue), now, 1);
              queue == g.waiting && inService == old(inService[1..]) + g.granted &&
              dropped == old(dropped) + g.timedOut
      ensures requestId == old(requestId) && handled == old(handled)
      ensures |queue| + |inService| < old(|queue| + |inService|)
    {
      var job := inService[0];
      ghost var line := queue;
      AdvanceToCompletion(queue, inService, now);
      now := job.done;
      inService := inService[1..];
      responseTimes := responseTimes + [job.done - job.arrival];
      ghost var free := servers - |inService|;
      GrantWaiting();
      if line == [] {
        assert Grant(line, now, free) == Grant(line, now, 1);
      }
    }

    /** The summary of the run so far. */
    function Metrics(): (m: Report)
      reads this
      requires Valid()
      ensures m.average.NoData? <==> responseTimes == []
      ensures m.average.Mean? ==> ProcessingTime <= m.average.value <= Patience + ProcessingTime
      ensures UtilizationBounded(m.utilization, |responseTimes|, servers, Patience + ProcessingTime)
      ensures m.dropped == dropped
    {
      AverageWithin(responseTimes, ProcessingTime, Patience + ProcessingTime);
      UtilizationWithin(responseTimes, servers, ProcessingTime, Patience + ProcessingTime);
      Report(AverageResponseTime(responseTimes), UtilizationPercent(responseTimes, servers), dropped)
    }
  }

  /**
   * One event of the loop: the first service to end completes when it comes
   * first; otherwise the next arrival takes effect. Returns how many
   * arrivals have been consumed.
   */
  method Fire(sim: Simulation, arrivals: seq<real>, i: nat) returns (j: nat)
    requires sim.Valid() && i <= |arrivals| && sim.handled == i
    requires forall a, b :: 0 <= a < b < |arrivals| ==> arrivals[a] <= arrivals[b]
    requires i < |arrivals| ==> sim.now <= arrivals[i]
    requires (i < |arrivals| && arrivals[i] < SimulationTime) ||
             (sim.inService != [] && sim.inService[0].done < SimulationTime)
    modifies sim
    ensures sim.Valid() && j <= |arrivals| && sim.handled == j
    ensures CompletesFirst(old(sim.Snap()), arrivals, i) ==>
              j == i && sim.Snap() == Completion(old(sim.Snap()), sim.servers)
    ensures !CompletesFirst(old(sim.Snap()), arrivals, i) ==>
              j == i + 1 && arrivals[i] < SimulationTime &&
              sim.Snap() == Arrival(old(sim.Snap()), sim.servers, arrivals[i])
    ensures j < |arrivals| ==> sim.now <= arrivals[j]
    ensures sim.now < SimulationTime
    ensures 2 * (|arrivals| - j) + |sim.queue| + |sim.inService|
            < 2 * (|arrivals| - i) + old(|sim.queue| + |sim.inService|)
  {
    ghost var s0 := sim.Snap();
    if sim.inService != [] && sim.inService[0].done < SimulationTime &&
       (i == |arrivals| || sim.inService[0].done <= arrivals[i]) {
      sim.Complete();
      CompletionAgrees(s0, sim.servers);
      j := i;
    } else {
      sim.Arrive(arrivals[i]);
      ArrivalAgrees(s0, sim.servers, arrivals[i]);
      j := i + 1;
    }
  }

  /**
   * The event loop: fires arrivals and service completions in time order, a
   * completion first on a tie, until neither lies before SimulationTime, so
   * the run ends in the state Run gives. Returns how many arrivals it consumed.
   */
  method Drive(sim: Simulation, arrivals: seq<real>) returns (i: nat)
    requires sim.Valid() && sim.Snap() == Start && sim.handled == 0
    requires forall k :: 0 <= k < |arrivals| ==> 0.0 <= arrivals[k]
    requires forall a, b :: 0 <= a < b < |arrivals| ==> arrivals[a] <= arrivals[b]
    modifies sim
    ensures sim.Valid()
    ensures sim.Snap() == Run(Start, sim.servers, arrivals)
    ensures i <= |arrivals| && sim.handled == i
    ensures forall k :: 0 <= k < i ==> arrivals[k] < SimulationTime
    ensures forall k :: i <= k < |arrivals| ==> SimulationTime <= arrivals[k]
    ensures forall j :: j in sim.inService ==> SimulationTime <= j.done
    ensures sim.now < SimulationTime
  {
    i := 0;
    while (i < |arrivals| && arrivals[i] < SimulationTime) ||
          (sim.inService != [] && sim.inService[0].done < SimulationTime)
      invariant sim.Valid() && i <= |arrivals| && sim.handled == i
      invariant Reaches(sim.Snap(), sim.servers, arrivals, i, Run(Start, sim.servers, arrivals))
      invariant forall k :: 0 <= k < i ==> arrivals[k] < SimulationTime
      invariant i < |arrivals| ==> sim.now <= arrivals[i]
      invariant sim.now < SimulationTime
      decreases 2 * (|arrivals| - i) + |sim.queue| + |sim.inService|
    {
      ghost var s0, i0 := sim.Snap(), i;
      i := Fire(sim, arrivals, i);
      ReachesNext(s0, sim.Snap(), sim.servers, arrivals, i0, i, Run(Start, sim.servers, arrivals));
    }
    RunStops(sim.Snap(), sim.servers, arrivals, i);
    ServiceBeyond(sim.inService, sim.now, SimulationTime);
    ArrivalsBeyond(arrivals, i, SimulationTime);
  }

  /**
   * One run with `servers` servers, fed the arrival instants `arrivals`
   * (non-decreasing): its outcome is the one Run gives from the start state.
   * `handled` is the number of arrivals before the horizon, `times` the
   * recorded response times, `pending` the requests still waiting or in
   * service at the end, `left` the services still running, and `clock` the
   * instant of the last event.
   */
  method RunSimulation(servers: nat, arrivals: seq<real>)
    returns (report: Report, ghost handled: nat, ghost times: seq<real>, ghost pending: nat,
             ghost left: seq<Job>, ghost clock: real)
    requires servers >= 1
    requires forall i :: 0 <= i < |arrivals| ==> 0.0 <= arrivals[i]
    requires forall i, j :: 0 <= i < j < |arrivals| ==> arrivals[i] <= arrivals[j]
    ensures var r := Run(Start, servers, arrivals);
            report.dropped == r.dropped && times == r.responseTimes && left == r.inService &&
            pending == |r.queue| + |r.inService| && clock == r.now
    ensures handled <= |arrivals|
    ensures forall k :: 0 <= k < handled ==> arrivals[k] < SimulationTime
    ensures forall k :: handled <= k < |arrivals| ==> SimulationTime <= arrivals[k]
    ensures clock < SimulationTime
    ensures |left| <= pending && forall j :: j in left ==> SimulationTime <= j.done
    ensures |arrivals| <= servers ==> report.dropped == 0
    ensures report.dropped + |times| + pending == handled
    ensures pending <= servers + MaxQueueSize
    ensures forall k :: 0 <= k < |times| ==> ProcessingTime <= times[k] <= Patience + ProcessingTime
    ensures report.average == AverageResponseTime(times)
    ensures report.utilization == UtilizationPercent(times, servers)
    ensures report.average.Mean? ==> ProcessingTime <= report.average.value <= Patience + ProcessingTime
    ensures UtilizationBounded(report.utilization, |times|, servers, Patience + ProcessingTime)
  {
    var sim := new Simulation(servers);
    var i := Drive(sim, arrivals);
    assert sim.servers == servers;
    if |arrivals| <= servers {
      RunDropFree(Start, servers, arrivals);
    }
    report := sim.Metrics();
    handled := sim.handled;
    times := sim.responseTimes;
    pending := |sim.queue| + |sim.inService|;
    left := sim.inService;
    clock := sim.now;
  }
}
