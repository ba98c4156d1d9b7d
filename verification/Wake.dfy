/**
 How producers wake the reactor (src/wake.rs, src/fiber.rs,
 ruby/fiber_runner.rb).

 A producer appends to the command channel, or to `Wakeups`, and then writes one
 byte to a bounded socket, taking a full one as success. A pass of the reactor
 takes the wakeups, reads the socket empty, and then receives commands until
 there are none. Each of these is a step, and a run is any sequence of steps.
 */
module Wake {
  import opened Basics

  datatype Command = Call(id: nat) | Admin(id: nat) | Drain | Shutdown

  datatype ReactorPc =
    /** In `wait_readable`, until a byte arrives or the heartbeat deadline passes. */
    | Waiting
    /** About to take the wakeups. */
    | Resolving
    /** Reading the socket until it would block. */
    | Reading
    /** Receiving commands until the channel is empty. */
    | Receiving
    | Stopped

  datatype State = State(
    /** The channel, each command with its place in the order of sending. */
    channel: seq<(nat, Command)>,
    /** Places of the commands whose sender has not yet written its byte. */
    unsignalled: set<nat>,
    /** Unread bytes, and how many the socket holds. */
    unread: nat,
    bound: nat,
    /** Streams on `Wakeups`, and the places of those put there whose byte is not yet written. */
    wakeups: seq<nat>,
    unsignalledWakeups: set<nat>,
    /** Places of the wakeups whose byte was written while the reactor was reading; bytes written since it last was. */
    readEarly: set<nat>,
    since: nat,
    reactor: ReactorPc,
    /** Everything sent, received, owed and resolved so far; completed calls of `resolve_wakeups`. */
    sent: seq<Command>,
    received: seq<Command>,
    owed: seq<nat>,
    resolved: seq<nat>,
    /** Of each wakeup owed so far, whether the reactor was reading when it was put on. */
    whileReading: seq<bool>,
    passes: nat)

  datatype Step =
    | Send(command: Command)
    | SignalCommand(place: nat)
    | Owe(stream: nat)
    | SignalWakeup(place: nat)
    /** The wait is over: a byte is there, or `heartbeat` seconds have passed. */
    | WaitEnds(heartbeat: bool)
    | ResolveWakeups
    /** One read of the socket, which may be short. */
    | ReadBytes(count: nat)
    | Receive

  /** The size of the buffer `drain` reads into. */
  const READ_BYTES: nat := 256

  function Signalled(s: State): State {
    s.(unread := Min(s.unread + 1, s.bound), since := s.since + 1)
  }

  /** The wakeup owed at this place is still on the list. */
  predicate OnList(s: State, place: nat) {
    |s.resolved| <= place < |s.owed|
  }

  function Commands(channel: seq<(nat, Command)>): seq<Command> {
    seq(|channel|, i requires 0 <= i < |channel| => channel[i].1)
  }

  // ---------------------------------------------------------------- invariant

  /** Commands arrive in the order they were sent, each once. */
  predicate Fifo(s: State) {
    && s.received + Commands(s.channel) == s.sent
    && (forall i :: 0 <= i < |s.channel| ==> s.channel[i].0 == |s.received| + i)
    && s.resolved + s.wakeups == s.owed
  }

  /** Unless the reactor is past reading the bytes, each command has a byte behind it or one to come. */
  predicate Announced(s: State) {
    && s.bound > 0
    && (s.reactor in {Waiting, Resolving} ==>
          forall i :: 0 <= i < |s.channel| ==> s.unread > 0 || s.channel[i].0 in s.unsignalled)
  }

  /** What is known of the wakeups owed since they were last taken. */
  predicate WakeupsLogged(s: State) {
    && |s.whileReading| == |s.owed|
    && (forall p :: p in s.unsignalledWakeups ==> p < |s.owed| && p !in s.readEarly)
    && (forall p :: p in s.readEarly ==> p < |s.owed|)
    && (forall p :: |s.resolved| <= p < |s.owed| && (s.reactor == Reading || p in s.readEarly) ==> s.whileReading[p])
  }

  /** Each wakeup has a byte to come, had one that was read too early, or has one of those written since. */
  ghost predicate WakeupsAnnounced(s: State) {
    && (forall p: nat :: OnList(s, p) ==>
          p in s.unsignalledWakeups || p in s.readEarly || (s.since > 0 && s.reactor != Reading))
    && (s.reactor in {Waiting, Resolving, Receiving} ==> s.unread == Min(s.since, s.bound))
  }

  ghost predicate Inv(s: State) {
    Fifo(s) && Announced(s) && WakeupsLogged(s) && WakeupsAnnounced(s)
  }

  // --------------------------------------------------------------------- steps

  function Sends(s: State, command: Command): State {
    s.(channel := s.channel + [(|s.sent|, command)], unsignalled := s.unsignalled + {|s.sent|}, sent := s.sent + [command])
  }

  function SignalsCommand(s: State, place: nat): State {
    if place !in s.unsignalled then s else Signalled(s.(unsignalled := s.unsignalled - {place}))
  }

  function Owes(s: State, stream: nat): State {
    s.(wakeups := s.wakeups + [stream], owed := s.owed + [stream],
       unsignalledWakeups := s.unsignalledWakeups + {|s.owed|}, whileReading := s.whileReading + [s.reactor == Reading])
  }

  function SignalsWakeup(s: State, place: nat): State {
    if place !in s.unsignalledWakeups then s
    else
      Signalled(s.(unsignalledWakeups := s.unsignalledWakeups - {place},
                   readEarly := if s.reactor == Reading then s.readEarly + {place} else s.readEarly))
  }

  function TakesWakeups(s: State): State {
    if s.reactor != Resolving then s
    else s.(resolved := s.resolved + s.wakeups, wakeups := [], passes := s.passes + 1, reactor := Reading)
  }

  function Receives(s: State): State {
    if s.reactor != Receiving then s
    else if s.channel == [] then s.(reactor := Waiting)
    else
      var command := s.channel[0].1;
      s.(channel := s.channel[1..], received := s.received + [command],
         reactor := if command == Shutdown then Stopped else Receiving)
  }

  function Apply(s: State, step: Step): State {
    match step
    case Send(command) => Sends(s, command)
    case SignalCommand(place) => SignalsCommand(s, place)
    case Owe(stream) => Owes(s, stream)
    case SignalWakeup(place) => SignalsWakeup(s, place)
    case WaitEnds(heartbeat) =>
      if s.reactor != Waiting || (s.unread == 0 && !heartbeat) then s else s.(reactor := Resolving)
    case ResolveWakeups => TakesWakeups(s)
    case ReadBytes(count) =>
      if s.reactor != Reading then s
      else if s.unread == 0 then s.(reactor := Receiving, since := 0)
      else s.(unread := s.unread - Min(Max(Min(count, READ_BYTES), 1), s.unread))
    case Receive => Receives(s)
  }

  function Init(bound: nat): State {
    State([], {}, 0, Max(bound, 1), [], {}, {}, 0, Waiting, [], [], [], [], [], 0)
  }

  function Run(bound: nat, steps: seq<Step>): State {
    if steps == [] then Init(bound) else Apply(Run(bound, Front(steps)), Last(steps))
  }

  lemma SendKeeps(s: State, command: Command)
    requires Inv(s)
    ensures Inv(Sends(s, command))
  {
    assert Commands(Sends(s, command).channel) == Commands(s.channel) + [command];
    ConcatIsAssociative(s.received, Commands(s.channel), [command]);
  }

  lemma SignalKeeps(s: State, place: nat)
    requires Inv(s)
    ensures Inv(SignalsCommand(s, place)) && Inv(SignalsWakeup(s, place))
  {
  }

  lemma OweKeeps(s: State, stream: nat)
    requires Inv(s)
    ensures Inv(Owes(s, stream))
  {
    ConcatIsAssociative(s.resolved, s.wakeups, [stream]);
  }

  lemma ReactorKeeps(s: State, step: Step)
    requires Inv(s) && (step.WaitEnds? || step.ResolveWakeups? || step.ReadBytes?)
    ensures Inv(Apply(s, step))
  {
  }

  lemma ReceiveKeeps(s: State)
    requires Inv(s)
    ensures Inv(Receives(s))
  {
    if s.channel != [] {
      CommandsCons(s.channel);
      ConcatIsAssociative(s.received, [s.channel[0].1], Commands(s.channel[1..]));
    }
  }

  lemma StepKeepsInv(s: State, step: Step)
    requires Inv(s)
    ensures Inv(Apply(s, step))
  {
    match step
    case Send(command) => SendKeeps(s, command);
    case SignalCommand(place) => SignalKeeps(s, place);
    case Owe(stream) => OweKeeps(s, stream);
    case SignalWakeup(place) => SignalKeeps(s, place);
    case Receive => ReceiveKeeps(s);
    case _ => ReactorKeeps(s, step);
  }

  lemma {:induction false} Invariant(bound: nat, steps: seq<Step>)
    ensures Inv(Run(bound, steps))
  {
    if steps != [] {
      Invariant(bound, Front(steps));
      StepKeepsInv(Run(bound, Front(steps)), Last(steps));
    }
  }

  // ----------------------------------------------------------------- theorems

  /**
   No command sleeps: whenever the reactor is at its wait, every command in the
   channel has an unread byte behind it or a sender that has yet to write one,
   however small the socket.
   */
  lemma NoCommandSleeps(bound: nat, steps: seq<Step>)
    ensures var s := Run(bound, steps);
            s.reactor == Waiting ==>
              forall i :: 0 <= i < |s.channel| ==> s.unread > 0 || s.channel[i].0 in s.unsignalled
  {
    Invariant(bound, steps);
  }

  /** Until shutdown, commands are received in the order they were sent, each exactly once. */
  lemma CommandsInOrderOnce(bound: nat, steps: seq<Step>)
    ensures var s := Run(bound, steps);
            s.received <= s.sent && (s.channel == [] ==> s.received == s.sent)
  {
    Invariant(bound, steps);
  }

  /** A command that is sent joins the channel, and its byte is there afterwards. */
  lemma SendIsHeard(bound: nat, steps: seq<Step>, command: Command)
    ensures var s := Run(bound, steps);
            var t := Run(bound, steps + [Send(command)] + [SignalCommand(|s.sent|)]);
            && t.sent == s.sent + [command] && t.channel == s.channel + [(|s.sent|, command)]
            && t.unread > 0 && t.reactor == s.reactor
  {
    Invariant(bound, steps);
    var one, t := Extend(bound, steps, Send(command));
    one, t := Extend(bound, one, SignalCommand(|Run(bound, steps).sent|));
  }

  /** So does a stream that is owed, and so is its byte. */
  lemma OweIsHeard(bound: nat, steps: seq<Step>, stream: nat)
    ensures var s := Run(bound, steps);
            var t := Run(bound, steps + [Owe(stream)] + [SignalWakeup(|s.owed|)]);
            && t.owed == s.owed + [stream] && t.wakeups == s.wakeups + [stream]
            && t.unread > 0 && t.reactor == s.reactor
  {
    Invariant(bound, steps);
    var one, t := Extend(bound, steps, Owe(stream));
    one, t := Extend(bound, one, SignalWakeup(|Run(bound, steps).owed|));
  }

  /** What the logs hold never changes, and the passes only count up. */
  predicate Extends(s: State, t: State) {
    && s.owed <= t.owed && s.resolved <= t.resolved && s.passes <= t.passes
    && (s.passes < t.passes ==> s.owed <= t.resolved)
  }

  lemma StepExtends(s: State, step: Step)
    requires Inv(s)
    ensures Extends(s, Apply(s, step))
  {
  }

  /**
   Every owed wakeup is taken by the next pass: once the reactor has resolved
   wakeups again, all that was owed before has been resolved, in order.
   */
  lemma {:induction false} OwedTakenByNextPass(bound: nat, before: seq<Step>, after: seq<Step>)
    ensures Extends(Run(bound, before), Run(bound, before + after))
  {
    if after == [] {
      assert before + after == before;
    } else {
      OwedTakenByNextPass(bound, before, Front(after));
      FrontOfConcat(before, after);
      var m := Run(bound, before + Front(after));
      Invariant(bound, before + Front(after));
      StepExtends(m, Last(after));
    }
  }

  /** A wakeup is put on, and its byte written, after the wakeups were taken and before the bytes are read. */
  lemma PutOnWhileReading(bound: nat) returns (steps: seq<Step>)
    ensures Run(bound, steps)
         == Init(bound).(reactor := Reading, passes := 1, wakeups := [7], owed := [7], whileReading := [true],
                         unread := 1, since := 1, readEarly := {0})
  {
    var s: State;
    steps, s := Extend(bound, [], WaitEnds(true));
    steps, s := Extend(bound, steps, ResolveWakeups);
    assert s == Init(bound).(reactor := Reading, passes := 1);
    steps, s := Extend(bound, steps, Owe(7));
    assert s.unsignalledWakeups == {0};
    steps, s := Extend(bound, steps, SignalWakeup(0));
  }

  lemma ItsByteIsRead(bound: nat) returns (steps: seq<Step>)
    ensures Run(bound, steps)
         == Init(bound).(reactor := Reading, passes := 1, wakeups := [7], owed := [7], whileReading := [true],
                         unread := 0, since := 1, readEarly := {0})
  {
    var s: State;
    steps := PutOnWhileReading(bound);
    steps, s := Extend(bound, steps, ReadBytes(1));
  }

  /**
   A wakeup, unlike a command, may have no byte behind it: the pass that read
   its byte had taken the wakeups before. Only the heartbeat brings the next one.
   */
  lemma OwedWithoutAByte(bound: nat) returns (steps: seq<Step>)
    ensures var s := Run(bound, steps);
            s.reactor == Waiting && s.wakeups != [] && OnlyTheHeartbeat(s)
  {
    var s: State;
    steps := ItsByteIsRead(bound);
    steps, s := Extend(bound, steps, ReadBytes(1));
    assert s.reactor == Receiving && s.channel == [] && s.wakeups == [7];
    steps, s := Extend(bound, steps, Receive);
  }

  /** No sender, of a command or of a wakeup, has a byte still to write. */
  predicate NoByteToCome(s: State) {
    s.unsignalled == {} && s.unsignalledWakeups == {}
  }

  /** Nothing will end the wait but the heartbeat. */
  predicate OnlyTheHeartbeat(s: State) {
    s.unread == 0 && NoByteToCome(s)
  }

  /** Every byte behind the wakeups on the list was read before they could be taken, and none came since or is to come. */
  ghost predicate ReadTooEarly(s: State) {
    s.since == 0 && NoByteToCome(s) && forall p: nat :: OnList(s, p) ==> p in s.readEarly
  }

  /**
   When that happens exactly: at the wait, only the heartbeat will bring the
   reactor to the owed wakeups if and only if each one's byte was written while
   the reactor was reading, and nobody has written one since or is about to.
   */
  lemma OnlyTheHeartbeatExactlyWhenReadTooEarly(bound: nat, steps: seq<Step>)
    ensures var s := Run(bound, steps);
            s.reactor == Waiting && s.wakeups != [] ==> (OnlyTheHeartbeat(s) <==> ReadTooEarly(s))
  {
    Invariant(bound, steps);
  }

  /** A wakeup put on at any moment but while the reactor reads has a byte or a sender behind it at the wait. */
  lemma OtherWakeupsHaveAByte(bound: nat, steps: seq<Step>, place: nat)
    ensures var s := Run(bound, steps);
            s.reactor == Waiting && OnList(s, place) ==>
              && place < |s.whileReading|
              && (!s.whileReading[place] ==> s.unread > 0 || place in s.unsignalledWakeups)
  {
    Invariant(bound, steps);
  }

  lemma Extend(bound: nat, steps: seq<Step>, step: Step) returns (longer: seq<Step>, t: State)
    ensures longer == steps + [step] && t == Run(bound, longer) == Apply(Run(bound, steps), step)
  {
    longer := steps + [step];
    assert Front(longer) == steps;
    t := Run(bound, longer);
  }

  // ---------------------------------------------------------------- the socket

  /** What the reader leaves in the socket before an attempt to write, and whether a signal interrupts it. */
  datatype Attempt = Attempt(unread: nat, interrupted: bool)

  /** The non-blocking pair a runtime waits on. */
  class WakeSocket {
    var unread: nat
    const bound: nat

    constructor (bound: nat)
      ensures unread == 0 && this.bound == Max(bound, 1)
    {
      unread := 0;
      this.bound := Max(bound, 1);
    }

    /**
     Tries again when interrupted, while the reader goes on; afterwards a byte is
     there, whether or not this one fitted: `seen` were there at the last attempt.
     */
    method Signal(attempts: seq<Attempt>) returns (ghost seen: nat)
      requires 0 < bound && unread <= bound
      requires forall i :: 0 <= i < |attempts| ==> attempts[i].unread <= bound
      modifies this`unread
      ensures seen <= bound && unread == Min(seen + 1, bound) && unread > 0
      ensures seen == old(unread) || exists i :: 0 <= i < |attempts| && attempts[i].unread == seen
    {
      seen := unread;
      var turn := 0;
      while true
        invariant 0 <= turn <= |attempts| && unread == seen <= bound
        invariant seen == old(unread) || exists i :: 0 <= i < |attempts| && attempts[i].unread == seen
        decreases |attempts| - turn
      {
        var interrupted := false;
        if turn < |attempts| {
          unread, interrupted := attempts[turn].unread, attempts[turn].interrupted;
          seen := unread;
          turn := turn + 1;
        }
        if interrupted {
          continue;
        }
        if unread < bound {
          unread := unread + 1;
        }
        return;
      }
    }

    /** Reads until it would block; of the reads some may be short, and those of nothing are interrupted. */
    method DrainBytes(counts: seq<nat>) returns (rounds: nat)
      modifies this`unread
      ensures unread == 0
      ensures rounds * READ_BYTES >= old(unread) && rounds <= |counts| + old(unread)
    {
      rounds := 0;
      while unread > 0
        invariant unread <= old(unread) <= unread + rounds * READ_BYTES
        invariant rounds <= |counts| + old(unread) - unread
        decreases SaturatingSub(|counts|, rounds), unread
      {
        var count := if rounds < |counts| then counts[rounds] else READ_BYTES;
        unread := unread - Min(Min(count, READ_BYTES), unread);
        rounds := rounds + 1;
      }
    }
  }

  // --------------------------------------------------------------- the reactor

  /** The calls, or the admin requests, among some commands. */
  function CallsIn(commands: seq<Command>): seq<nat> {
    if commands == [] then []
    else CallsIn(Front(commands)) + if Last(commands).Call? then [Last(commands).id] else []
  }

  function AdminsIn(commands: seq<Command>): seq<nat> {
    if commands == [] then []
    else AdminsIn(Front(commands)) + if Last(commands).Admin? then [Last(commands).id] else []
  }

  /** The calls are the ids of the `Call` commands, and the admin requests those of the `Admin` commands, in order. */
  lemma {:induction false} SortedByKind(commands: seq<Command>, more: seq<Command>, id: nat)
    ensures CallsIn(commands + more) == CallsIn(commands) + CallsIn(more)
    ensures AdminsIn(commands + more) == AdminsIn(commands) + AdminsIn(more)
    ensures CallsIn([Call(id)]) == [id] == AdminsIn([Admin(id)])
    ensures CallsIn([Admin(id)]) == CallsIn([Drain]) == CallsIn([Shutdown]) == []
    ensures AdminsIn([Call(id)]) == AdminsIn([Drain]) == AdminsIn([Shutdown]) == []
  {
    if more == [] {
      assert commands + more == commands;
    } else {
      SortedByKind(commands, Front(more), id);
      FrontOfConcat(commands, more);
    }
  }

  /** What a pass hands to the reactor loop. */
  datatype Batch = Batch(calls: seq<nat>, admins: seq<nat>, draining: bool, shuttingDown: bool)
  {
    ghost predicate Of(commands: seq<Command>) {
      && calls == CallsIn(commands) && admins == AdminsIn(commands)
      && (draining <==> Drain in commands) && (shuttingDown <==> Shutdown in commands)
    }

    function With(command: Command): Batch {
      match command
      case Call(id) => this.(calls := calls + [id])
      case Admin(id) => this.(admins := admins + [id])
      case Drain => this.(draining := true)
      case Shutdown => this.(shuttingDown := true)
    }
  }

  lemma WithOne(batch: Batch, commands: seq<Command>, command: Command)
    requires batch.Of(commands)
    ensures batch.With(command).Of(commands + [command])
  {
    assert Front(commands + [command]) == commands;
  }

  /**
   The bridge as the reactor's thread uses it. Its methods are runs of the
   machine above, recorded step by step.
   */
  class FiberBridge {
    var channel: seq<(nat, Command)>
    var wakeups: seq<nat>
    const socket: WakeSocket
    const bound: nat

    ghost var history: seq<Step>

    ghost predicate At(pc: ReactorPc)
      reads this, socket
    {
      var s := Run(bound, history);
      s.channel == channel && s.wakeups == wakeups && s.unread == socket.unread && s.reactor == pc
    }

    ghost function Received(): seq<Command>
      reads this
    {
      Run(bound, history).received
    }

    constructor (bound: nat)
      ensures At(Waiting) && history == [] && fresh(socket)
    {
      socket := new WakeSocket(bound);
      channel, wakeups, this.bound := [], [], bound;
      history := [];
    }

    ghost method Record(step: Step)
      modifies this`history
      ensures Run(bound, history) == Apply(old(Run(bound, history)), step)
    {
      assert Front(history + [step]) == history;
      history := history + [step];
    }

    /** `wait_readable` returns: a byte is there, or the heartbeat is due. */
    method WaitReadable(heartbeat: bool) returns (ready: bool)
      requires At(Waiting)
      modifies this`history
      ensures ready == (socket.unread > 0 || heartbeat) && At(if ready then Resolving else Waiting)
      ensures Received() == old(Received())
    {
      ready := socket.unread > 0 || heartbeat;
      Record(WaitEnds(heartbeat));
    }

    /** The reads that empty the socket, and the one that finds it empty, as steps. */
    ghost method RecordReads()
      requires Run(bound, history).reactor == Reading
      modifies this`history
      ensures Run(bound, history) == old(Run(bound, history)).(unread := 0, since := 0, reactor := Receiving)
    {
      while Run(bound, history).unread > 0
        invariant Run(bound, history) == old(Run(bound, history)).(unread := Run(bound, history).unread)
        decreases Run(bound, history).unread
      {
        Record(ReadBytes(READ_BYTES));
      }
      Record(ReadBytes(READ_BYTES));
    }

    /** Another thread puts a stream on the list. */
    method OtherOwes(stream: nat)
      requires At(Reading)
      modifies this
      ensures At(Reading) && wakeups == old(wakeups) + [stream]
      ensures channel == old(channel) && Received() == old(Received())
    {
      wakeups := wakeups + [stream];
      Record(Owe(stream));
    }

    /** `drain` of the socket, while other threads put the streams `late` on the list. */
    method ReadSocket(counts: seq<nat>, late: seq<nat>)
      requires At(Reading)
      modifies this, socket
      ensures At(Receiving) && wakeups == old(wakeups) + late && socket.unread == 0
      ensures channel == old(channel) && Received() == old(Received())
    {
      var i := 0;
      while i < |late|
        invariant i <= |late| && At(Reading) && wakeups == old(wakeups) + late[..i]
        invariant channel == old(channel) && Received() == old(Received())
      {
        NextLate(old(wakeups), late, i);
        OtherOwes(late[i]);
        i := i + 1;
      }
      assert late[..i] == late;
      var rounds := socket.DrainBytes(counts);
      RecordReads();
    }

    method TakeWakeups() returns (resolved: seq<nat>)
      requires At(Resolving)
      modifies this
      ensures At(Reading) && resolved == old(wakeups) && wakeups == []
      ensures channel == old(channel) && Received() == old(Received())
    {
      resolved, wakeups := wakeups, [];
      Record(ResolveWakeups);
    }

    /** `resolve_wakeups`, and then the bytes: what is put on while they are read is left for the next pass. */
    method ResolveAndRead(counts: seq<nat>, late: seq<nat>) returns (resolved: seq<nat>)
      requires At(Resolving)
      modifies this, socket
      ensures At(Receiving) && resolved == old(wakeups) && wakeups == late && socket.unread == 0
      ensures channel == old(channel) && Received() == old(Received())
    {
      resolved := TakeWakeups();
      ReadSocket(counts, late);
      assert [] + late == late;
    }

    method ReceiveOne(batch: Batch, ghost got: seq<Command>) returns (next: Batch, ghost more: seq<Command>)
      requires At(Receiving) && channel != [] && batch.Of(got) && !batch.shuttingDown
      modifies this
      ensures next.Of(more) && more == got + [old(channel)[0].1] && Received() == old(Received()) + [old(channel)[0].1]
      ensures channel == old(channel)[1..] && wakeups == old(wakeups)
      ensures At(if next.shuttingDown then Stopped else Receiving)
    {
      var command := channel[0].1;
      WithOne(batch, got, command);
      next, more := batch.With(command), got + [command];
      channel := channel[1..];
      Record(Receive);
    }

    /**
     `drain`: one pass. It resolves what was owed when it began, reads the socket
     empty, and hands over every command up to a shutdown, by kind and in order;
     what others put on the list meanwhile stays there.
     */
    method DrainPass(counts: seq<nat>, late: seq<nat>) returns (batch: Batch, resolved: seq<nat>, ghost got: seq<Command>)
      requires At(Resolving)
      modifies this, socket
      ensures At(if batch.shuttingDown then Stopped else Waiting)
      ensures resolved == old(wakeups) && wakeups == late && socket.unread == 0
      ensures Received() == old(Received()) + got && batch.Of(got)
      ensures got + Commands(channel) == Commands(old(channel)) && (channel == [] || batch.shuttingDown)
    {
      resolved := ResolveAndRead(counts, late);
      batch, got := Batch([], [], false, false), [];
      while channel != [] && !batch.shuttingDown
        invariant At(if batch.shuttingDown then Stopped else Receiving) && wakeups == late && socket.unread == 0
        invariant Received() == old(Received()) + got && batch.Of(got)
        invariant got + Commands(channel) == Commands(old(channel))
        decreases |channel|
      {
        CommandsCons(channel);
        ConcatIsAssociative(got, [channel[0].1], Commands(channel[1..]));
        batch, got := ReceiveOne(batch, got);
      }
      if !batch.shuttingDown {
        Record(Receive);
      }
    }
  }

  lemma NextLate(before: seq<nat>, late: seq<nat>, i: nat)
    requires i < |late|
    ensures before + late[..i] + [late[i]] == before + late[..i + 1]
  {
  }

  lemma CommandsCons(channel: seq<(nat, Command)>)
    requires channel != []
    ensures Commands(channel) == [channel[0].1] + Commands(channel[1..])
  {
  }
}
