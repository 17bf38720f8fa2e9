/** The per-CPU scheduler clocks under every interleaving (sched_time.c:142-217, 241-259).

    Any number of callers run on each of N CPUs; one step of one caller is one read, one write or
    one compare-and-set of shared memory, in the order of the source.  cputime_ns and systime_ns
    return whatever the move says.  Times are integers; WordsAgree below says when the 64-bit words
    of the source compute the same. */
module Clock {
  import WrapTime

  function Min(a: int, b: int): int {
    if a < b then a else b
  }

  function Max(a: int, b: int): int {
    if a > b then a else b
  }

  // ---------- state ----------

  /** What sched_time_local was called for: to return its value, before a remote read, or in a tick. */
  datatype Use = Own | Before(remote: nat) | InTick

  /** Where a caller is, with its local variables. */
  datatype Pc =
    | Idle
    | TickBegun(sysNow: int)                                  // systime_ns read
    | TickRead(sysNow: int, cpuNow: int)                      // cputime_ns read
    | TickHalf(sysNow: int)                                   // tick_cpu_time written
    | Again(use: Use)                                         // sched_time_local, label again
    | HasNow(use: Use, now: int)
    | HasDelta(use: Use, delta: int)
    | HasOld(use: Use, delta: int, seen: int)
    | HasTime(use: Use, time: int, seen: int)
    | HasMin(use: Use, time: int, seen: int, min: int)
    | Cas(use: Use, seen: int, next: int)
    | RemoteAgain(remote: nat)                                // sched_time_remote, label again
    | HasLocal(remote: nat, localTime: int)
    | RemoteCas(remote: nat, localTime: int, remoteTime: int)

  /** A caller on `cpu`.  For the proof: which clock it was asked for, when, and what that clock
      showed then. */
  datatype Caller = Caller(cpu: nat, pc: Pc, target: nat, begun: nat, floor: int)

  /** A completed sched_time_cpu(target) by a caller on `reader`. */
  datatype Return = Return(target: nat, reader: nat, value: int, begun: nat, ended: nat)

  /** `peak` is the largest tick_sys_time + tick_ns so far, `step` counts steps, `log` is the history. */
  datatype State = State(tickNs: nat, tickCpu: seq<int>, tickSys: seq<int>, time: seq<int>,
                         callers: seq<Caller>, peak: int, step: nat, log: seq<Return>)

  /** One step: caller i moves.  The other fields are read only where the step needs them. */
  datatype Move = Move(i: nat, cpu: nat, target: nat, tick: bool, cpuNow: int, sysNow: int)

  ghost predicate Sized(s: State) {
    var n := |s.time|;
    && |s.tickCpu| == |s.tickSys| == n
    && (forall i :: 0 <= i < |s.callers| ==> CallerSized(s.callers[i], n))
  }

  predicate CallerSized(c: Caller, n: nat) {
    && c.cpu < n && c.target < n
    && (c.pc.RemoteAgain? || c.pc.HasLocal? || c.pc.RemoteCas? ==> c.pc.remote == c.target && c.target != c.cpu)
    && (InLocal(c.pc) ==>
          && (c.pc.use.Before? ==> c.pc.use.remote == c.target && c.target != c.cpu)
          && (c.pc.use.Own? ==> c.target == c.cpu))
  }

  predicate InLocal(pc: Pc) {
    pc.Again? || pc.HasNow? || pc.HasDelta? || pc.HasOld? || pc.HasTime? || pc.HasMin? || pc.Cas?
  }

  predicate Fits(s: State, mv: Move) {
    mv.i < |s.callers| && mv.cpu < |s.time| && mv.target < |s.time|
  }

  // ---------- steps ----------

  function At(s: State, i: nat, pc: Pc): State
    requires i < |s.callers|
  {
    s.(callers := s.callers[i := s.callers[i].(pc := pc)])
  }

  /** A call begins: sched_time_tick, or sched_time_cpu of its own or of another CPU. */
  function Begin(s: State, mv: Move): State
    requires Fits(s, mv)
  {
    var pc := if mv.tick then TickBegun(mv.sysNow)
              else if mv.target == mv.cpu then Again(Own) else Again(Before(mv.target));
    s.(callers := s.callers[mv.i := Caller(mv.cpu, pc, mv.target, s.step, s.time[mv.target])])
  }

  /** The call returns `value`. */
  function Finish(s: State, i: nat, value: int): State
    requires i < |s.callers|
  {
    var c := s.callers[i];
    At(s, i, Idle).(log := s.log + [Return(c.target, c.cpu, value, c.begun, s.step + 1)])
  }

  /** A step of sched_time_local (sched_time.c:142-171). */
  function LocalStep(s: State, i: nat, cpuNow: int): State
    requires Sized(s) && i < |s.callers| && InLocal(s.callers[i].pc)
  {
    var c := s.callers[i];
    var k := c.cpu;
    match c.pc
    case Again(use) => At(s, i, HasNow(use, cpuNow))
    case HasNow(use, now) => At(s, i, HasDelta(use, Max(now - s.tickCpu[k], 0)))
    case HasDelta(use, delta) => At(s, i, HasOld(use, delta, s.time[k]))
    case HasOld(use, delta, seen) => At(s, i, HasTime(use, s.tickSys[k] + delta, seen))
    case HasTime(use, time, seen) => At(s, i, HasMin(use, time, seen, Max(s.tickSys[k], seen)))
    case HasMin(use, time, seen, min) => At(s, i, Cas(use, seen, Min(Max(time, min), Max(seen, s.tickSys[k] + s.tickNs))))
    case Cas(use, seen, next) =>
      if s.time[k] != seen then At(s, i, Again(use))
      else
        var s1 := s.(time := s.time[k := next]);
        match use
        case Own => Finish(s1, i, next)
        case Before(remote) => At(s1, i, RemoteAgain(remote))
        case InTick => At(s1, i, Idle)
  }

  /** A step of the loop of sched_time_remote (sched_time.c:190-217). */
  function RemoteStep(s: State, i: nat): State
    requires Sized(s) && i < |s.callers|
  {
    var c := s.callers[i];
    var k := c.cpu;
    match c.pc
    case RemoteAgain(remote) => At(s, i, HasLocal(remote, s.time[k]))
    case HasLocal(remote, localTime) => At(s, i, RemoteCas(remote, localTime, s.time[remote]))
    case RemoteCas(remote, localTime, remoteTime) =>
      if remoteTime < localTime then
        if s.time[remote] != remoteTime then At(s, i, RemoteAgain(remote))
        else Finish(s.(time := s.time[remote := localTime]), i, localTime)
      else
        if s.time[k] != localTime then At(s, i, RemoteAgain(remote))
        else Finish(s.(time := s.time[k := remoteTime]), i, remoteTime)
    case _ => s
  }

  /** A step of sched_time_tick before its call of sched_time_local (sched_time.c:252-257). */
  function TickStep(s: State, i: nat, cpuNow: int): State
    requires Sized(s) && i < |s.callers|
  {
    var c := s.callers[i];
    var k := c.cpu;
    match c.pc
    case TickBegun(sysNow) => At(s, i, TickRead(sysNow, cpuNow))
    case TickRead(sysNow, now) => At(s, i, TickHalf(sysNow)).(tickCpu := s.tickCpu[k := now])
    case TickHalf(sysNow) =>
      At(s, i, Again(InTick)).(tickSys := s.tickSys[k := sysNow], peak := Max(s.peak, sysNow + s.tickNs))
    case _ => s
  }

  function Step(s: State, mv: Move): State
    requires Sized(s) && Fits(s, mv)
  {
    var c := s.callers[mv.i];
    var r := if c.pc.Idle? then Begin(s, mv)
             else if InLocal(c.pc) then LocalStep(s, mv.i, mv.cpuNow)
             else if c.pc.TickBegun? || c.pc.TickRead? || c.pc.TickHalf? then TickStep(s, mv.i, mv.cpuNow)
             else RemoteStep(s, mv.i);
    r.(step := s.step + 1)
  }

  // ---------- invariant ----------

  /** What a caller has read is still a lower bound of what it will write. */
  ghost predicate CallerOk(s: State, c: Caller)
    requires Sized(s) && CallerSized(c, |s.time|)
  {
    && c.begun <= s.step
    && (!c.pc.Idle? ==> c.floor <= s.time[c.target])
    && (c.pc.HasOld? || c.pc.HasTime? || c.pc.HasMin? || c.pc.Cas? ==>
          c.pc.seen <= s.time[c.cpu] && c.pc.seen <= s.peak && (c.pc.use.Own? ==> c.floor <= c.pc.seen))
    && (c.pc.HasMin? ==> c.pc.seen <= c.pc.min)
    && (c.pc.Cas? ==> c.pc.seen <= c.pc.next <= s.peak)
    && (c.pc.HasLocal? || c.pc.RemoteCas? ==> c.pc.localTime <= s.time[c.cpu] && c.pc.localTime <= s.peak)
    && (c.pc.RemoteCas? ==> c.floor <= c.pc.remoteTime <= s.time[c.target] && c.pc.remoteTime <= s.peak)
  }

  /** A returned value is still below both clocks, and below what a later call saw when it began. */
  ghost predicate ReturnOk(s: State, r: Return) {
    && r.target < |s.time| && r.reader < |s.time| && r.begun <= r.ended <= s.step
    && r.value <= s.time[r.target] && r.value <= s.time[r.reader]
    && (forall i :: 0 <= i < |s.callers| && !s.callers[i].pc.Idle? && s.callers[i].target == r.target && r.ended <= s.callers[i].begun ==>
          r.value <= s.callers[i].floor)
  }

  /** Calls of one clock that do not overlap return values in order. */
  ghost predicate Ordered(log: seq<Return>) {
    forall a, b :: 0 <= a < |log| && 0 <= b < |log| && log[a].target == log[b].target && log[a].ended <= log[b].begun ==>
      log[a].value <= log[b].value
  }

  ghost predicate Inv(s: State) {
    && Sized(s)
    && (forall k :: 0 <= k < |s.time| ==> s.time[k] <= s.peak && s.tickSys[k] + s.tickNs <= s.peak)
    && (forall i :: 0 <= i < |s.callers| ==> CallerOk(s, s.callers[i]))
    && (forall a :: 0 <= a < |s.log| ==> ReturnOk(s, s.log[a]))
    && Ordered(s.log)
  }

  /** No clock, no peak and no step count goes back. */
  ghost predicate Onward(s: State, r: State) {
    && |r.time| == |s.time| && r.tickNs == s.tickNs && r.peak >= s.peak && r.step >= s.step
    && (forall k :: 0 <= k < |s.time| ==> r.time[k] >= s.time[k])
  }

  // ---------- preservation ----------

  /** Callers that do not move keep their invariant while clocks advance. */
  lemma CallerStays(s: State, r: State, c: Caller)
    requires Sized(s) && Sized(r) && Onward(s, r) && CallerSized(c, |s.time|) && CallerOk(s, c)
    ensures CallerOk(r, c)
  {
  }

  /** One caller has moved and possibly one clock with it. */
  lemma MoveKeeps(s: State, r: State, i: nat, c: Caller)
    requires Inv(s) && i < |s.callers| && Onward(s, r) && r.callers == s.callers[i := c] && r.log == s.log
    requires |r.tickCpu| == |r.tickSys| == |s.time| && CallerSized(c, |s.time|)
    requires forall k :: 0 <= k < |r.time| ==> r.time[k] <= r.peak && r.tickSys[k] + r.tickNs <= r.peak
    requires !c.pc.Idle? ==>
               (!s.callers[i].pc.Idle? && c.begun == s.callers[i].begun && c.floor == s.callers[i].floor && c.target == s.callers[i].target)
               || (c.begun == s.step && c.floor == s.time[c.target])
    requires Sized(r) ==> CallerOk(r, c)
    ensures Inv(r)
  {
    forall j | 0 <= j < |r.callers| ensures CallerSized(r.callers[j], |r.time|) {
      assert j != i ==> CallerSized(s.callers[j], |s.time|);
    }
    forall j | 0 <= j < |r.callers| ensures CallerOk(r, r.callers[j]) {
      if j != i {
        CallerStays(s, r, s.callers[j]);
      }
    }
    forall a | 0 <= a < |r.log| ensures ReturnOk(r, r.log[a]) {
      assert ReturnOk(s, s.log[a]);
    }
  }

  lemma BeginKeeps(s: State, mv: Move)
    requires Inv(s) && Fits(s, mv) && s.callers[mv.i].pc.Idle?
    ensures var r := Begin(s, mv); Inv(r) && Onward(s, r)
  {
    MoveKeeps(s, Begin(s, mv), mv.i, Begin(s, mv).callers[mv.i]);
  }

  /** A call that returns at least what its clock showed when it began, and at most what the clocks
      show now, extends the history in order. */
  lemma FinishKeeps(s: State, i: nat, value: int)
    requires Inv(s) && i < |s.callers| && !s.callers[i].pc.Idle?
    requires s.callers[i].floor <= value <= s.time[s.callers[i].target] && value <= s.time[s.callers[i].cpu]
    ensures Inv(Finish(s, i, value).(step := s.step + 1))
  {
    var c := s.callers[i];
    var s1 := At(s, i, Idle).(step := s.step + 1);
    MoveKeeps(s, s1, i, c.(pc := Idle));
    var r := Finish(s, i, value).(step := s.step + 1);
    var next := Return(c.target, c.cpu, value, c.begun, s.step + 1);
    assert r.log == s1.log + [next];
    forall a | 0 <= a < |r.log| ensures ReturnOk(r, r.log[a]) {
      if a < |s.log| {
        assert ReturnOk(s1, s1.log[a]);
      } else {
        assert r.log[a] == next;
        assert forall j :: 0 <= j < |r.callers| && !r.callers[j].pc.Idle? ==> CallerOk(s1, r.callers[j]) && r.callers[j].begun <= s.step;
      }
    }
    forall a, b | 0 <= a < |r.log| && 0 <= b < |r.log| && r.log[a].target == r.log[b].target && r.log[a].ended <= r.log[b].begun
      ensures r.log[a].value <= r.log[b].value
    {
      if a < |s.log| {
        assert ReturnOk(s, s.log[a]);
        assert b == |s.log| ==> s.callers[i] == c;
      }
      if b < |s.log| {
        assert ReturnOk(s, s.log[b]);
      }
    }
  }

  lemma Bump(s: State)
    requires Inv(s)
    ensures Inv(s.(step := s.step + 1))
  {
    var r := s.(step := s.step + 1);
    forall i | 0 <= i < |r.callers| ensures CallerSized(r.callers[i], |r.time|) && CallerOk(r, r.callers[i]) {
      assert CallerSized(s.callers[i], |s.time|);
      CallerStays(s, r, s.callers[i]);
    }
    forall a | 0 <= a < |r.log| ensures ReturnOk(r, r.log[a]) {
      assert ReturnOk(s, s.log[a]);
    }
  }

  /** A clock is moved forward, not past the peak. */
  lemma RaiseKeeps(s: State, k: nat, value: int)
    requires Inv(s) && k < |s.time| && s.time[k] <= value <= s.peak
    ensures var r := s.(time := s.time[k := value]); Inv(r) && Onward(s, r)
  {
    var r := s.(time := s.time[k := value]);
    forall i | 0 <= i < |r.callers| ensures CallerSized(r.callers[i], |r.time|) && CallerOk(r, r.callers[i]) {
      assert CallerSized(s.callers[i], |s.time|);
      CallerStays(s, r, s.callers[i]);
    }
    forall a | 0 <= a < |r.log| ensures ReturnOk(r, r.log[a]) {
      assert ReturnOk(s, s.log[a]);
    }
  }

  lemma InvCaller(s: State, i: nat)
    requires Inv(s) && i < |s.callers|
    ensures Sized(s) && CallerSized(s.callers[i], |s.time|) && CallerOk(s, s.callers[i])
    ensures forall k :: 0 <= k < |s.time| ==> s.time[k] <= s.peak && s.tickSys[k] + s.tickNs <= s.peak
  {
  }

  /** A caller goes on to pc without writing shared memory. */
  lemma GoOn(s: State, i: nat, pc: Pc)
    requires Inv(s) && i < |s.callers| && !s.callers[i].pc.Idle?
    requires CallerSized(s.callers[i].(pc := pc), |s.time|) && CallerOk(s, s.callers[i].(pc := pc))
    ensures var r := At(s, i, pc).(step := s.step + 1); Inv(r) && Onward(s, r)
  {
    hide CallerOk, Ordered, CallerSized;
    InvCaller(s, i);
    var r := At(s, i, pc);
    assert Sized(r) ==> CallerOk(r, s.callers[i].(pc := pc)) by {
      if Sized(r) {
        CallerStays(s, r, s.callers[i].(pc := pc));
      }
    }
    MoveKeeps(s, r, i, s.callers[i].(pc := pc));
    Bump(r);
  }

  /** The compare-and-set of sched_time_local. */
  lemma CasKeeps(s: State, i: nat, cpuNow: int)
    requires Inv(s) && i < |s.callers| && s.callers[i].pc.Cas?
    ensures var r := LocalStep(s, i, cpuNow).(step := s.step + 1); Inv(r) && Onward(s, r)
  {
    hide Inv, Sized;
    InvCaller(s, i);
    var c := s.callers[i];
    if s.time[c.cpu] != c.pc.seen {
      GoOn(s, i, Again(c.pc.use));
    } else {
      RaiseKeeps(s, c.cpu, c.pc.next);
      var s1 := s.(time := s.time[c.cpu := c.pc.next]);
      InvCaller(s1, i);
      match c.pc.use
      case Own => FinishKeeps(s1, i, c.pc.next);
      case Before(remote) => GoOn(s1, i, RemoteAgain(remote));
      case InTick => GoOn(s1, i, Idle);
    }
  }

  lemma LocalKeeps(s: State, i: nat, cpuNow: int)
    requires Inv(s) && i < |s.callers| && InLocal(s.callers[i].pc)
    ensures var r := LocalStep(s, i, cpuNow).(step := s.step + 1); Inv(r) && Onward(s, r)
  {
    hide Inv, Sized, Onward;
    InvCaller(s, i);
    if s.callers[i].pc.Cas? {
      CasKeeps(s, i, cpuNow);
    } else {
      var pc := LocalStep(s, i, cpuNow).callers[i].pc;
      assert LocalStep(s, i, cpuNow) == At(s, i, pc);
      GoOn(s, i, pc);
    }
  }

  lemma RemoteKeeps(s: State, i: nat)
    requires Inv(s) && i < |s.callers|
    requires s.callers[i].pc.RemoteAgain? || s.callers[i].pc.HasLocal? || s.callers[i].pc.RemoteCas?
    ensures var r := RemoteStep(s, i).(step := s.step + 1); Inv(r) && Onward(s, r)
  {
    hide Inv, Sized;
    InvCaller(s, i);
    var c := s.callers[i];
    match c.pc
    case RemoteAgain(remote) => GoOn(s, i, HasLocal(remote, s.time[c.cpu]));
    case HasLocal(remote, localTime) => GoOn(s, i, RemoteCas(remote, localTime, s.time[remote]));
    case RemoteCas(remote, localTime, remoteTime) =>
      var k, seen, value := if remoteTime < localTime then remote else c.cpu, Min(localTime, remoteTime), Max(localTime, remoteTime);
      if s.time[k] != seen {
        GoOn(s, i, RemoteAgain(remote));
      } else {
        RaiseKeeps(s, k, value);
        InvCaller(s.(time := s.time[k := value]), i);
        FinishKeeps(s.(time := s.time[k := value]), i, value);
      }
  }

  /** The tick's own fields may change as long as the peak covers them. */
  lemma TickFieldsKeep(s: State, tickCpu: seq<int>, tickSys: seq<int>, peak: int)
    requires Inv(s) && |tickCpu| == |tickSys| == |s.time| && peak >= s.peak
    requires forall k :: 0 <= k < |s.time| ==> tickSys[k] + s.tickNs <= peak
    ensures var r := s.(tickCpu := tickCpu, tickSys := tickSys, peak := peak); Inv(r) && Onward(s, r)
  {
    var r := s.(tickCpu := tickCpu, tickSys := tickSys, peak := peak);
    forall i | 0 <= i < |r.callers| ensures CallerSized(r.callers[i], |r.time|) && CallerOk(r, r.callers[i]) {
      assert CallerSized(s.callers[i], |s.time|);
      CallerStays(s, r, s.callers[i]);
    }
    forall a | 0 <= a < |r.log| ensures ReturnOk(r, r.log[a]) {
      assert ReturnOk(s, s.log[a]);
    }
  }

  lemma TickKeeps(s: State, i: nat, cpuNow: int)
    requires Inv(s) && i < |s.callers|
    requires s.callers[i].pc.TickBegun? || s.callers[i].pc.TickRead? || s.callers[i].pc.TickHalf?
    ensures var r := TickStep(s, i, cpuNow).(step := s.step + 1); Inv(r) && Onward(s, r)
  {
    hide Inv;
    InvCaller(s, i);
    var k := s.callers[i].cpu;
    match s.callers[i].pc
    case TickBegun(sysNow) => GoOn(s, i, TickRead(sysNow, cpuNow));
    case TickRead(sysNow, now) =>
      TickFieldsKeep(s, s.tickCpu[k := now], s.tickSys, s.peak);
      var s1 := s.(tickCpu := s.tickCpu[k := now]);
      InvCaller(s1, i);
      GoOn(s1, i, TickHalf(sysNow));
    case TickHalf(sysNow) =>
      var tickSys, peak := s.tickSys[k := sysNow], Max(s.peak, sysNow + s.tickNs);
      TickFieldsKeep(s, s.tickCpu, tickSys, peak);
      var s1 := s.(tickSys := tickSys, peak := peak);
      InvCaller(s1, i);
      GoOn(s1, i, Again(InTick));
  }

  /** Every step of every caller keeps the invariant, and no clock goes back in it. */
  lemma StepKeeps(s: State, mv: Move)
    requires Inv(s) && Fits(s, mv)
    ensures Inv(Step(s, mv)) && Onward(s, Step(s, mv))
  {
    hide Inv, CallerOk, Onward, LocalStep, RemoteStep, TickStep;
    InvCaller(s, mv.i);
    var c := s.callers[mv.i];
    if c.pc.Idle? {
      BeginKeeps(s, mv);
      Bump(Begin(s, mv));
      OnwardBump(s, Begin(s, mv));
    } else if InLocal(c.pc) {
      LocalKeeps(s, mv.i, mv.cpuNow);
    } else if c.pc.TickBegun? || c.pc.TickRead? || c.pc.TickHalf? {
      TickKeeps(s, mv.i, mv.cpuNow);
    } else {
      RemoteKeeps(s, mv.i);
    }
  }

  lemma OnwardBump(s: State, r: State)
    requires Onward(s, r)
    ensures Onward(s, r.(step := r.step + 1))
  {
  }

  // ---------- runs ----------

  ghost predicate Runs(s: State, moves: seq<Move>)
    requires Inv(s)
    decreases |moves|
  {
    moves == [] || (Fits(s, moves[0]) && (StepKeeps(s, moves[0]); Runs(Step(s, moves[0]), moves[1..])))
  }

  ghost function After(s: State, moves: seq<Move>): State
    requires Inv(s) && Runs(s, moves)
    decreases |moves|
  {
    if moves == [] then s else StepKeeps(s, moves[0]); After(Step(s, moves[0]), moves[1..])
  }

  /** In every reachable state, however the callers interleave: each clock is at least what it was,
      none has passed the largest tick_sys_time + tick_ns, and two calls of the same clock that do
      not overlap have returned values in order. */
  lemma {:induction false} ClockSafety(s: State, moves: seq<Move>)
    requires Inv(s) && Runs(s, moves)
    ensures var r := After(s, moves);
            && Inv(r) && Onward(s, r)
            && (forall k :: 0 <= k < |r.time| ==> r.time[k] >= s.time[k] && r.time[k] <= r.peak)
            && Ordered(r.log)
    decreases |moves|
  {
    hide Step;
    if moves != [] {
      StepKeeps(s, moves[0]);
      ClockSafety(Step(s, moves[0]), moves[1..]);
    }
  }

  /** sched_time_init (sched_time.c:117-140): all clocks show the system time and nobody is at work. */
  ghost predicate Boot(s: State) {
    && Sized(s) && s.log == []
    && (forall k :: 0 <= k < |s.time| ==> s.time[k] == s.tickSys[k] && s.tickSys[k] + s.tickNs <= s.peak)
    && (forall i :: 0 <= i < |s.callers| ==> s.callers[i].pc.Idle? && s.callers[i].begun == 0)
  }

  lemma BootKeeps(s: State)
    requires Boot(s)
    ensures Inv(s)
  {
  }

  /** A remote read that returns leaves both clocks at or above the value it returns, which is the
      larger of the two it read. */
  lemma RemoteReturn(s: State, mv: Move)
    requires Inv(s) && Fits(s, mv) && s.callers[mv.i].pc.RemoteCas? && Step(s, mv).callers[mv.i].pc.Idle?
    ensures var r, c := Step(s, mv), s.callers[mv.i];
            var v := r.log[|s.log|].value;
            && |r.log| == |s.log| + 1 && v == Max(c.pc.localTime, c.pc.remoteTime)
            && r.time[c.cpu] >= v && r.time[c.target] >= v
            && (forall k :: 0 <= k < |s.time| && k != c.cpu && k != c.target ==> r.time[k] == s.time[k])
  {
    assert CallerOk(s, s.callers[mv.i]) && CallerSized(s.callers[mv.i], |s.time|);
  }

  /** What sched_time_local stores: never back, not before the last tick's system time unless it was
      there already, and at most one tick past it. */
  function Clamped(tickSys: int, delta: nat, seen: int, tickNs: nat): (next: int)
    ensures next >= seen && next >= tickSys
    ensures next <= Max(seen, tickSys + tickNs)
    ensures seen <= tickSys + delta <= tickSys + tickNs ==> next == tickSys + delta
    ensures delta >= tickNs ==> next == Max(seen, tickSys + tickNs)
    ensures seen >= tickSys + delta ==> next == seen
  {
    Min(Max(tickSys + delta, Max(tickSys, seen)), Max(seen, tickSys + tickNs))
  }

  /** Caller i goes on in sched_time_local; `nows` are the values of the CPU's own clock at its steps. */
  function LocalRun(s: State, i: nat, nows: seq<int>): State
    requires Sized(s) && i < |s.callers|
    decreases |nows|
  {
    if nows == [] || !InLocal(s.callers[i].pc) then s
    else
      LocalSized(s, i, nows[0]);
      LocalRun(LocalStep(s, i, nows[0]), i, nows[1..])
  }

  lemma LocalSized(s: State, i: nat, cpuNow: int)
    requires Sized(s) && i < |s.callers| && InLocal(s.callers[i].pc)
    ensures var r := LocalStep(s, i, cpuNow);
            Sized(r) && |r.callers| == |s.callers| && |r.time| == |s.time| && r.callers[i].cpu == s.callers[i].cpu
    ensures LocalStep(s, i, cpuNow).callers[i].(pc := Idle) == s.callers[i].(pc := Idle)
  {
    var r := LocalStep(s, i, cpuNow);
    assert CallerSized(s.callers[i], |s.time|);
    forall j | 0 <= j < |r.callers| ensures CallerSized(r.callers[j], |r.time|) {
      assert CallerSized(s.callers[j], |s.time|);
    }
  }

  /** One step that only moves the caller on. */
  lemma LocalOnce(s: State, i: nat, pc: Pc, nows: seq<int>, pc': Pc)
    requires Sized(s) && i < |s.callers| && CallerSized(s.callers[i].(pc := pc), |s.time|) && InLocal(pc) && nows != []
    requires Sized(At(s, i, pc)) && LocalStep(At(s, i, pc), i, nows[0]).callers[i].pc == pc' && !pc.Cas?
    ensures Sized(At(s, i, pc')) && LocalRun(At(s, i, pc), i, nows) == LocalRun(At(s, i, pc'), i, nows[1..])
  {
    LocalSized(At(s, i, pc), i, nows[0]);
    assert LocalStep(At(s, i, pc), i, nows[0]) == At(s, i, pc');
  }

  lemma LocalReads(s: State, i: nat, use: Use, nows: seq<int>)
    requires Sized(s) && i < |s.callers| && s.callers[i].pc == Again(use) && |nows| >= 3
    ensures s.callers[i].cpu < |s.time| == |s.tickSys| == |s.tickCpu|
    ensures var k := s.callers[i].cpu;
            var s3 := At(s, i, HasOld(use, Max(nows[0] - s.tickCpu[k], 0), s.time[k]));
            Sized(s3) && CallerSized(s3.callers[i], |s.time|) && LocalRun(s, i, nows) == LocalRun(s3, i, nows[3..])
  {
    hide LocalRun;
    assert CallerSized(s.callers[i], |s.time|);
    hide Sized;
    assert At(s, i, Again(use)) == s;
    var k := s.callers[i].cpu;
    var delta := Max(nows[0] - s.tickCpu[k], 0);
    LocalOnce(s, i, Again(use), nows, HasNow(use, nows[0]));
    LocalOnce(s, i, HasNow(use, nows[0]), nows[1..], HasDelta(use, delta));
    LocalOnce(s, i, HasDelta(use, delta), nows[2..], HasOld(use, delta, s.time[k]));
    assert nows[1..][1..] == nows[2..] && nows[2..][1..] == nows[3..];
  }

  lemma LocalClamps(s: State, i: nat, use: Use, delta: nat, seen: int, nows: seq<int>)
    requires i < |s.callers| && Sized(s) && s.callers[i].cpu < |s.tickSys| && |nows| >= 3
    requires CallerSized(s.callers[i].(pc := HasOld(use, delta, seen)), |s.time|) && Sized(At(s, i, HasOld(use, delta, seen)))
    ensures var s3 := At(s, i, Cas(use, seen, Clamped(s.tickSys[s.callers[i].cpu], delta, seen, s.tickNs)));
            Sized(s3) && LocalRun(At(s, i, HasOld(use, delta, seen)), i, nows) == LocalRun(s3, i, nows[3..])
  {
    hide LocalRun, Sized;
    var sys := s.tickSys[s.callers[i].cpu];
    LocalOnce(s, i, HasOld(use, delta, seen), nows, HasTime(use, sys + delta, seen));
    LocalOnce(s, i, HasTime(use, sys + delta, seen), nows[1..], HasMin(use, sys + delta, seen, Max(sys, seen)));
    LocalOnce(s, i, HasMin(use, sys + delta, seen, Max(sys, seen)), nows[2..], Cas(use, seen, Clamped(sys, delta, seen, s.tickNs)));
    assert nows[1..][1..] == nows[2..] && nows[2..][1..] == nows[3..];
  }

  /** Where a caller is when sched_time_local has returned to it. */
  function Returned(use: Use): Pc {
    if use.Before? then RemoteAgain(use.remote) else Idle
  }

  /** Only clock k and the step of caller i have changed; a read of its own clock has been logged. */
  ghost predicate Stored(s: State, r: State, i: nat, k: nat, use: Use, value: int)
    requires i < |s.callers| && k < |s.time|
  {
    && r == s.(time := s.time[k := value], callers := r.callers, log := r.log)
    && r.callers == s.callers[i := s.callers[i].(pc := Returned(use))]
    && (if use.Own? then |r.log| == |s.log| + 1 && r.log[..|s.log|] == s.log && r.log[|s.log|].value == value else r.log == s.log)
  }

  /** Undisturbed, the steps of sched_time_local store exactly the clamped time, and return it if
      that is what it was called for. */
  lemma LocalAlone(s: State, i: nat, use: Use, nows: seq<int>)
    requires Sized(s) && i < |s.callers| && s.callers[i].pc == Again(use) && |nows| >= 7
    ensures s.callers[i].cpu < |s.time| == |s.tickSys| == |s.tickCpu|
    ensures var k := s.callers[i].cpu;
            Stored(s, LocalRun(s, i, nows), i, k, use,
                   Clamped(s.tickSys[k], Max(nows[0] - s.tickCpu[k], 0), s.time[k], s.tickNs))
  {
    hide Sized, CallerSized, Clamped, LocalRun, LocalStep, Stored;
    LocalReads(s, i, use, nows);
    var k := s.callers[i].cpu;
    var delta := Max(nows[0] - s.tickCpu[k], 0);
    LocalClamps(s, i, use, delta, s.time[k], nows[3..]);
    LocalLast(s, i, use, s.time[k], Clamped(s.tickSys[k], delta, s.time[k], s.tickNs), nows[6..]);
    assert nows[3..][3..] == nows[6..];
  }

  /** The compare-and-set that nobody has disturbed. */
  lemma LocalLast(s: State, i: nat, use: Use, seen: int, next: int, nows: seq<int>)
    requires Sized(s) && i < |s.callers| && nows != [] && s.callers[i].cpu < |s.time| && seen == s.time[s.callers[i].cpu]
    requires Sized(At(s, i, Cas(use, seen, next)))
    ensures Stored(s, LocalRun(At(s, i, Cas(use, seen, next)), i, nows), i, s.callers[i].cpu, use, next)
  {
    var s1 := At(s, i, Cas(use, seen, next));
    LocalSized(s1, i, nows[0]);
    var r := LocalStep(s1, i, nows[0]);
    assert LocalRun(r, i, nows[1..]) == r;
  }

  // ---------- a tick, alone ----------

  predicate InTickFields(pc: Pc) {
    pc.TickBegun? || pc.TickRead? || pc.TickHalf?
  }

  /** Caller i goes on in sched_time_tick, and in the sched_time_local that it ends with. */
  function TickRun(s: State, i: nat, nows: seq<int>): State
    requires Sized(s) && i < |s.callers|
    decreases |nows|
  {
    if nows == [] then s
    else if InTickFields(s.callers[i].pc) then
      TickSized(s, i, nows[0]);
      TickRun(TickStep(s, i, nows[0]), i, nows[1..])
    else LocalRun(s, i, nows)
  }

  lemma TickSized(s: State, i: nat, cpuNow: int)
    requires Sized(s) && i < |s.callers| && InTickFields(s.callers[i].pc)
    ensures var r := TickStep(s, i, cpuNow); Sized(r) && |r.callers| == |s.callers|
  {
    var r := TickStep(s, i, cpuNow);
    assert CallerSized(s.callers[i], |s.time|);
    forall j | 0 <= j < |r.callers| ensures CallerSized(r.callers[j], |r.time|) {
      assert CallerSized(s.callers[j], |s.time|);
    }
  }

  /** The state when the tick has written its two readings. */
  function Ticked(s: State, i: nat, cpuNow: int, sysNow: int): State
    requires Sized(s) && i < |s.callers|
  {
    var k := s.callers[i].cpu;
    At(s, i, Again(InTick)).(tickCpu := s.tickCpu[k := cpuNow], tickSys := s.tickSys[k := sysNow],
                             peak := Max(s.peak, sysNow + s.tickNs))
  }

  lemma TickWrites(s: State, i: nat, sysNow: int, nows: seq<int>)
    requires Sized(s) && i < |s.callers| && s.callers[i].pc == TickBegun(sysNow) && |nows| > 3
    ensures var r := Ticked(s, i, nows[0], sysNow); Sized(r) && TickRun(s, i, nows) == LocalRun(r, i, nows[3..])
  {
    hide LocalRun;
    TickSized(s, i, nows[0]);
    var s1 := TickStep(s, i, nows[0]);
    TickSized(s1, i, nows[1]);
    var s2 := TickStep(s1, i, nows[1]);
    TickSized(s2, i, nows[2]);
    var s3 := TickStep(s2, i, nows[2]);
    assert s3 == Ticked(s, i, nows[0], sysNow);
    assert nows[1..][1..] == nows[2..] && nows[2..][1..] == nows[3..] && nows[1..][0] == nows[1] && nows[2..][0] == nows[2];
    assert TickRun(s3, i, nows[3..]) == LocalRun(s3, i, nows[3..]);
    assert TickRun(s2, i, nows[2..]) == TickRun(s3, i, nows[3..]);
    assert TickRun(s1, i, nows[1..]) == TickRun(s2, i, nows[2..]);
  }

  /** An undisturbed tick leaves its two readings as its CPU's base, and that CPU's clock at the time
      that follows from them: not before the system time it has read. */
  lemma TickAlone(s: State, i: nat, sysNow: int, nows: seq<int>)
    requires Sized(s) && i < |s.callers| && s.callers[i].pc == TickBegun(sysNow) && |nows| >= 10
    ensures s.callers[i].cpu < |s.time| == |s.tickSys| == |s.tickCpu|
    ensures var k, r := s.callers[i].cpu, TickRun(s, i, nows);
            && r.tickCpu == s.tickCpu[k := nows[0]] && r.tickSys == s.tickSys[k := sysNow]
            && r.time == s.time[k := Clamped(sysNow, Max(nows[3] - nows[0], 0), s.time[k], s.tickNs)]
            && r.time[k] >= sysNow
            && r.callers == s.callers[i := s.callers[i].(pc := Idle)] && r.log == s.log && r.tickNs == s.tickNs
  {
    hide LocalRun, TickRun, Sized;
    SizedMeans(s, i);
    TickWrites(s, i, sysNow, nows);
    LocalAlone(Ticked(s, i, nows[0], sysNow), i, InTick, nows[3..]);
  }

  lemma SizedMeans(s: State, i: nat)
    requires Sized(s) && i < |s.callers|
    ensures s.callers[i].cpu < |s.time| == |s.tickSys| == |s.tickCpu|
  {
    assert CallerSized(s.callers[i], |s.time|);
  }

  /** Caller j reads the clock of its own CPU k, undisturbed. */
  ghost function ReadOwn(s: State, j: nat, k: nat, nows: seq<int>): State
    requires Sized(s) && j < |s.callers| && k < |s.time| && s.callers[j].pc.Idle?
  {
    BeginSized(s, j, k);
    LocalRun(Begin(s, Move(j, k, k, false, 0, 0)), j, nows)
  }

  lemma BeginSized(s: State, j: nat, k: nat)
    requires Sized(s) && j < |s.callers| && k < |s.time|
    ensures Sized(Begin(s, Move(j, k, k, false, 0, 0)))
  {
    var r := Begin(s, Move(j, k, k, false, 0, 0));
    forall x | 0 <= x < |r.callers| ensures CallerSized(r.callers[x], |r.time|) {
      assert x != j ==> CallerSized(s.callers[x], |s.time|);
    }
  }

  /** Between two ticks a CPU's clock runs with the CPU's own time: a read within one tick of an
      undisturbed tick returns the system time of the tick and what has passed since, unless the clock
      is already ahead of that. */
  lemma ReadAfterTick(s: State, i: nat, sysNow: int, nows: seq<int>, j: nat, later: seq<int>)
    requires Sized(s) && i < |s.callers| && s.callers[i].pc == TickBegun(sysNow) && |nows| >= 10 && |later| >= 7
    requires j < |s.callers| && (s.callers[j].pc.Idle? || j == i)
    requires nows[0] <= nows[3] <= later[0] <= nows[0] + s.tickNs
    requires s.callers[i].cpu < |s.time|
    requires s.time[s.callers[i].cpu] <= sysNow + (later[0] - nows[0])
    ensures var k, r := s.callers[i].cpu, TickRun(s, i, nows);
            && Sized(r) && j < |r.callers| && r.callers[j].pc.Idle? && k < |r.time|
            && var v := sysNow + (later[0] - nows[0]);
               var r2 := ReadOwn(r, j, k, later);
               r2.time == r.time[k := v] && |r2.log| == |r.log| + 1 && r2.log[|r.log|].value == v
  {
    hide LocalRun, TickRun, Sized;
    TickAlone(s, i, sysNow, nows);
    var k, r := s.callers[i].cpu, TickRun(s, i, nows);
    TickedSized(s, i, r);
    BeginSized(r, j, k);
    LocalAlone(Begin(r, Move(j, k, k, false, 0, 0)), j, Own, later);
  }

  lemma TickedSized(s: State, i: nat, r: State)
    requires Sized(s) && i < |s.callers| && |r.time| == |r.tickCpu| == |r.tickSys| == |s.time|
    requires r.callers == s.callers[i := s.callers[i].(pc := Idle)]
    ensures Sized(r)
  {
    forall x | 0 <= x < |r.callers| ensures CallerSized(r.callers[x], |r.time|) {
      assert CallerSized(s.callers[x], |s.time|);
    }
  }

  // ---------- a remote read, alone ----------

  /** Three undisturbed steps of sched_time_remote bring both clocks to the larger of the two and
      return it. */
  lemma RemoteAlone(s: State, i: nat, remote: nat)
    requires Sized(s) && i < |s.callers| && s.callers[i].pc == RemoteAgain(remote)
    ensures s.callers[i].cpu < |s.time| && remote < |s.time| && s.callers[i].cpu != remote
    ensures var k := s.callers[i].cpu;
            var s1 := RemoteStep(s, i);
            && Sized(s1) && |s1.callers| == |s.callers|
            && var s2 := RemoteStep(s1, i);
               && Sized(s2) && |s2.callers| == |s.callers|
               && var r, v := RemoteStep(s2, i), Max(s.time[k], s.time[remote]);
                  && r.time == s.time[k := v][remote := v] && r.callers[i].pc.Idle?
                  && |r.log| == |s.log| + 1 && r.log[|s.log|].value == v
  {
    assert CallerSized(s.callers[i], |s.time|);
    var s1 := RemoteStep(s, i);
    RemoteSized(s, i);
    var s2 := RemoteStep(s1, i);
    RemoteSized(s1, i);
    var k := s.callers[i].cpu;
    assert s.time[k := s.time[k]] == s.time && s.time[remote := s.time[remote]] == s.time;
  }

  lemma RemoteSized(s: State, i: nat)
    requires Sized(s) && i < |s.callers| && (s.callers[i].pc.RemoteAgain? || s.callers[i].pc.HasLocal?)
    ensures var r := RemoteStep(s, i); Sized(r) && |r.callers| == |s.callers|
  {
    var r := RemoteStep(s, i);
    forall x | 0 <= x < |r.callers| ensures CallerSized(r.callers[x], |r.time|) {
      assert CallerSized(s.callers[x], |s.time|);
    }
  }

  /** A compare-and-set that finds the clock changed stores nothing and returns nothing: the caller reads
      everything again. */
  lemma Retries(s: State, mv: Move)
    requires Sized(s) && Fits(s, mv) && (s.callers[mv.i].pc.Cas? || s.callers[mv.i].pc.RemoteCas?)
    ensures s.callers[mv.i].cpu < |s.time| && s.callers[mv.i].target < |s.time|
    ensures var r, c := Step(s, mv), s.callers[mv.i];
            var disturbed := if c.pc.Cas? then s.time[c.cpu] != c.pc.seen
                             else if c.pc.remoteTime < c.pc.localTime then s.time[c.target] != c.pc.remoteTime
                             else s.time[c.cpu] != c.pc.localTime;
            if disturbed then
              && r.time == s.time && r.log == s.log && mv.i < |r.callers|
              && r.callers[mv.i].pc == if c.pc.Cas? then Again(c.pc.use) else RemoteAgain(c.target)
            else
              mv.i < |r.callers| && !r.callers[mv.i].pc.Again? && (r.callers[mv.i].pc.RemoteAgain? ==> c.pc.Cas? && c.pc.use.Before?)
  {
    assert CallerSized(s.callers[mv.i], |s.time|);
  }

  // ---------- rq->clock ----------

  /** update_rq_clock (sched.c:1275-1283): both clocks of the run queue move by the same amount. */
  function RqClock(clock: int, thread: int, read: int): (int, int) {
    var delta := read - clock;
    (clock + delta, thread + delta)
  }

  /** Of two updates of one run queue, under its lock, the later never moves its clocks back. */
  lemma RqClockAdvances(s: State, a: nat, b: nat, clock: int, thread: int)
    requires Inv(s) && a < |s.log| && b < |s.log| && s.log[a].target == s.log[b].target && s.log[a].ended <= s.log[b].begun
    ensures var (c1, t1) := RqClock(clock, thread, s.log[a].value);
            var (c2, t2) := RqClock(c1, t1, s.log[b].value);
            c1 == s.log[a].value && c2 == s.log[b].value && c2 >= c1 && t2 >= t1 && t2 - c2 == thread - clock
  {
  }

  // ---------- words ----------

  /** The source's arithmetic on 64-bit words. */
  function ClampedWord(tickSys: WrapTime.Word, delta: WrapTime.Word, seen: WrapTime.Word, tickNs: WrapTime.Word): WrapTime.Word {
    var time := WrapTime.Add(tickSys, delta);
    var minTime := WrapTime.WrapMax64(tickSys, seen);
    var maxTime := WrapTime.WrapMax64(seen, WrapTime.Add(tickSys, tickNs));
    WrapTime.WrapMin64(WrapTime.WrapMax64(time, minTime), maxTime)
  }

  /** All the times one call compares lie within half the range of each other. */
  predicate Window(tickSys: int, delta: nat, seen: int, tickNs: nat) {
    && delta < WrapTime.TWO_63 && tickNs < WrapTime.TWO_63
    && -WrapTime.TWO_63 < tickSys - seen && tickSys + delta - seen < WrapTime.TWO_63 && tickSys + tickNs - seen < WrapTime.TWO_63
  }

  /** Inside that window the words are the integers. */
  lemma WordsClamp(tickSys: int, delta: nat, seen: int, tickNs: nat)
    requires Window(tickSys, delta, seen, tickNs)
    ensures ClampedWord(WrapTime.Wrap(tickSys), WrapTime.Wrap(delta), WrapTime.Wrap(seen), WrapTime.Wrap(tickNs)) ==
              WrapTime.Wrap(Clamped(tickSys, delta, seen, tickNs))
  {
    hide WrapTime.Wrap, WrapTime.WrapMin64, WrapTime.WrapMax64, WrapTime.Add;
    WrapTime.WrapAdd(tickSys, delta);
    WrapTime.WrapAdd(tickSys, tickNs);
    WrapTime.WordsAgree(tickSys, seen);
    WrapTime.WordsAgree(seen, tickSys + tickNs);
    var time, min, max := tickSys + delta, Max(tickSys, seen), Max(seen, tickSys + tickNs);
    WrapTime.WordsAgree(time, min);
    WrapTime.WordsAgree(Max(time, min), max);
  }
}
