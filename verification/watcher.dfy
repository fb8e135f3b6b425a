/** The reconciliation task spawned by a successful construction
    (src/upower/gobject/mod.rs), and the object's life as seen by consumers.

    The task listens on UPower's "device added" and "device removed" signal
    streams. Every item from either stream runs one rebuild pass; the end of a
    stream marks it finished; the task exits once both are finished. Here the
    interleaving of stream deliveries and consumer reads is a finite trace of
    events, folded over the object's state one event at a time. */
module Watcher {
  import opened Results
  import opened DBus
  import opened Devices
  import opened UPowerObject

  datatype Stream = DeviceAdded | DeviceRemoved

  /** One thing that happens to the object: a stream delivers an item (and the
      bus answers the pass it triggers as `pass`), a stream ends, or a consumer
      reads the device list. */
  datatype Event =
    | Item(stream: Stream, pass: Pass)
    | Finished(stream: Stream)
    | Query

  /** The reconciliation task: never started (or returned before looping), or
      looping with a finished flag per stream. */
  datatype Task = NotRunning | Loop(addedFinished: bool, removedFinished: bool)

  /** The loop's coverage: both streams live, one of them lost, or both lost. */
  datatype Phase = Watching | AddedOnly | RemovedOnly | Halted

  function PhaseOf(t: Task): Phase
    requires t.Loop?
  {
    if t.addedFinished && t.removedFinished then Halted
    else if t.addedFinished then RemovedOnly
    else if t.removedFinished then AddedOnly
    else Watching
  }

  /** Replies to the two stream subscriptions the task makes before looping. */
  datatype Subscriptions = Subscriptions(added: Outcome<()>, removed: Outcome<()>)

  /** The object, its task, and everything observable it has done so far. */
  datatype Monitor = Monitor(obj: UPower, task: Task, log: seq<Effect>)

  predicate IsFinished(t: Task, s: Stream)
    requires t.Loop?
  {
    match s
    case DeviceAdded => t.addedFinished
    case DeviceRemoved => t.removedFinished
  }

  /** Stream `s` can still deliver to the task. Streams are fused, so a
      finished stream never yields again. */
  predicate Live(t: Task, s: Stream) {
    t.Loop? && !IsFinished(t, s)
  }

  /** The task is still looping: it has not exited and was started. */
  predicate Running(t: Task) {
    t.Loop? && !(t.addedFinished && t.removedFinished)
  }

  /** The object's standing invariants: a live object holds a connection (so the
      task's `expect` on it never fires), and an object that failed to come up is
      inert and has no task. */
  predicate Valid(m: Monitor) {
    && (m.obj.initSuccess ==> m.obj.connection.Some?)
    && (!m.obj.initSuccess ==> Inert(m.obj) && m.task.NotRunning?)
  }

  /** Construction followed by the spawned task's subscriptions: the loop starts,
      with both streams live, only when construction succeeded and both
      subscriptions did. */
  function Start(init: InitReplies, subs: Subscriptions): (m: Monitor)
    ensures Valid(m)
    ensures m.obj == New(init).obj && m.log == New(init).log
    ensures m.task.Loop? <==> New(init).obj.initSuccess && subs.added.Ok? && subs.removed.Ok?
    ensures m.task.Loop? ==> PhaseOf(m.task) == Watching
  {
    var c := New(init);
    var task :=
      if !c.spawned then NotRunning
      else match subs.added
        case Err(_) => NotRunning
        case Ok(_) =>
          match subs.removed
          case Err(_) => NotRunning
          case Ok(_) => Loop(false, false);
    Monitor(c.obj, task, c.log)
  }

  function Finish(t: Task, s: Stream): (t': Task)
    requires t.Loop?
  {
    match s
    case DeviceAdded => t.(addedFinished := true)
    case DeviceRemoved => t.(removedFinished := true)
  }

  /** One event. A delivered item replaces the whole list and emits once; the
      end of a live stream only marks it finished; a query appends a copy of the
      current list and changes nothing else. */
  function Step(m: Monitor, e: Event): (m': Monitor)
    requires Valid(m)
    ensures Valid(m')
    ensures m'.obj.initSuccess == m.obj.initSuccess && m'.obj.connection == m.obj.connection
    ensures e.Query? ==> m'.obj == m.obj && m'.task == m.task && m'.log == m.log + [Read(m.obj.devices)]
    ensures e.Item? && Live(m.task, e.stream) ==>
      && m'.task == m.task
      && m'.obj.devices == (if e.pass.enumerate.Ok? then ParseDevices(e.pass.enumerate.value, e.pass.bus) else [])
      && m'.log == m.log + [Stored(m'.obj.devices), Emitted(DevicesChanged)]
    ensures e.Item? && !Live(m.task, e.stream) ==> m' == m
    ensures e.Finished? ==> m'.obj == m.obj && m'.log == m.log
    ensures e.Finished? && Live(m.task, e.stream) ==>
      m'.task.Loop? && IsFinished(m'.task, e.stream) &&
      IsFinished(m'.task, Other(e.stream)) == IsFinished(m.task, Other(e.stream))
    ensures e.Finished? && !Live(m.task, e.stream) ==> m' == m
  {
    match e
    case Query => m.(log := m.log + [Read(GetDevices(m.obj))])
    case Item(s, pass) =>
      if Live(m.task, s) then
        var u := UpdateDevices(m.obj, pass);
        m.(obj := u.obj, log := m.log + u.effects)
      else
        m
    case Finished(s) =>
      if Live(m.task, s) then m.(task := Finish(m.task, s)) else m
  }

  function Other(s: Stream): Stream {
    match s
    case DeviceAdded => DeviceRemoved
    case DeviceRemoved => DeviceAdded
  }

  /** The object after every event of `trace`, in order. */
  function Run(m: Monitor, trace: seq<Event>): (r: Monitor)
    requires Valid(m)
    ensures Valid(r)
    ensures r.obj.initSuccess == m.obj.initSuccess && r.obj.connection == m.obj.connection
    ensures r.task.Loop? <==> m.task.Loop?
    decreases |trace|
  {
    if trace == [] then m else Run(Step(m, trace[0]), trace[1..])
  }

  /** The object's whole observable life: construction, subscription, then `trace`. */
  function Lifetime(init: InitReplies, subs: Subscriptions, trace: seq<Event>): Monitor {
    Run(Start(init, subs), trace)
  }

  // ------------------------------------------------------------ the log

  /** The list a reader sees after `log`: the last one stored, or the empty default. */
  function Latest(log: seq<Effect>): seq<Device>
    decreases |log|
  {
    if log == [] then Default().devices
    else if log[|log| - 1].Stored? then log[|log| - 1].devices
    else Latest(log[..|log| - 1])
  }

  /** Every read returned exactly the list stored last before it: a whole
      generation, never a mixture. */
  predicate ReadsSeeLatest(log: seq<Effect>) {
    forall i :: 0 <= i < |log| && log[i].Read? ==> log[i].devices == Latest(log[..i])
  }

  /** Every emission directly follows a replacement of the list. */
  predicate EmitsFollowStores(log: seq<Effect>) {
    forall i :: 0 <= i < |log| && log[i].Emitted? ==> 0 < i && log[i - 1].Stored?
  }

  /** Only declared, parameterless signals are emitted. */
  predicate EmitsDeclared(log: seq<Effect>) {
    forall i :: 0 <= i < |log| && log[i].Emitted? ==> SignalDecl(log[i].signal, []) in Signals()
  }

  predicate LogConsistent(m: Monitor) {
    && ReadsSeeLatest(m.log)
    && EmitsFollowStores(m.log)
    && EmitsDeclared(m.log)
    && Latest(m.log) == m.obj.devices
  }

  function CountEmits(log: seq<Effect>): nat {
    if log == [] then 0 else (if log[0].Emitted? then 1 else 0) + CountEmits(log[1..])
  }

  /** The items of `trace` that arrive on a stream still live for task `t`. */
  function CountLiveItems(t: Task, trace: seq<Event>): nat {
    if trace == [] then 0
    else (if trace[0].Item? && Live(t, trace[0].stream) then 1 else 0) + CountLiveItems(t, trace[1..])
  }

  /** Some event of `trace` is the end of stream `s`. */
  predicate EndsIn(trace: seq<Event>, s: Stream) {
    exists i :: 0 <= i < |trace| && trace[i].Finished? && trace[i].stream == s
  }

  // ------------------------------------------------------------ lemmas

  lemma CountEmitsAppend(a: seq<Effect>, b: seq<Effect>)
    ensures CountEmits(a + b) == CountEmits(a) + CountEmits(b)
    decreases |a|
  {
    if a == [] {
      assert a + b == b;
    } else {
      assert (a + b)[1..] == a[1..] + b;
      CountEmitsAppend(a[1..], b);
    }
  }

  /** Construction leaves a consistent log. */
  lemma StartLogConsistent(init: InitReplies, subs: Subscriptions)
    ensures LogConsistent(Start(init, subs))
  {
  }

  /** The three log properties together. */
  predicate WellFormedLog(log: seq<Effect>) {
    ReadsSeeLatest(log) && EmitsFollowStores(log) && EmitsDeclared(log)
  }

  /** Appending a read of the latest list keeps the log well formed. */
  lemma AppendRead(log: seq<Effect>)
    requires WellFormedLog(log)
    ensures WellFormedLog(log + [Read(Latest(log))])
    ensures Latest(log + [Read(Latest(log))]) == Latest(log)
  {
    var log' := log + [Read(Latest(log))];
    assert log'[..|log|] == log;
    forall i | 0 <= i < |log|
      ensures log'[..i] == log[..i]
    {
    }
  }

  /** Appending a replacement followed by its emission keeps the log well formed. */
  lemma AppendPass(log: seq<Effect>, ds: seq<Device>)
    requires WellFormedLog(log)
    ensures WellFormedLog(log + [Stored(ds), Emitted(DevicesChanged)])
    ensures Latest(log + [Stored(ds), Emitted(DevicesChanged)]) == ds
  {
    var log' := log + [Stored(ds), Emitted(DevicesChanged)];
    assert log'[..|log| + 1] == log + [Stored(ds)];
    forall i | 0 <= i < |log|
      ensures log'[..i] == log[..i]
    {
    }
  }

  /** One event keeps the log consistent. */
  lemma StepLogConsistent(m: Monitor, e: Event)
    requires Valid(m) && LogConsistent(m)
    ensures LogConsistent(Step(m, e))
  {
    var m' := Step(m, e);
    if e.Query? {
      AppendRead(m.log);
    } else if m'.log != m.log {
      AppendPass(m.log, m'.obj.devices);
    }
  }

  /** Any run keeps the log consistent: reads see whole stored lists, every
      emission follows a replacement and names the declared signal, and the
      object holds the list stored last. */
  lemma {:induction false} RunLogConsistent(m: Monitor, trace: seq<Event>)
    requires Valid(m) && LogConsistent(m)
    ensures LogConsistent(Run(m, trace))
    decreases |trace|
  {
    if trace != [] {
      StepLogConsistent(m, trace[0]);
      RunLogConsistent(Step(m, trace[0]), trace[1..]);
    }
  }

  /** Over the object's whole life, from construction on, the log stays consistent. */
  lemma LifetimeLogConsistent(init: InitReplies, subs: Subscriptions, trace: seq<Event>)
    ensures LogConsistent(Lifetime(init, subs, trace))
  {
    StartLogConsistent(init, subs);
    RunLogConsistent(Start(init, subs), trace);
  }

  /** Once the task is not running (never started, returned early, or exited
      after both streams ended) the stored list, the task and the emissions are
      frozen, and every later read returns the same list. */
  lemma {:induction false} FrozenWhenNotRunning(m: Monitor, trace: seq<Event>)
    requires Valid(m) && !Running(m.task)
    ensures Run(m, trace).obj == m.obj
    ensures Run(m, trace).task == m.task
    ensures |m.log| <= |Run(m, trace).log| && Run(m, trace).log[..|m.log|] == m.log
    ensures forall i :: |m.log| <= i < |Run(m, trace).log| ==> Run(m, trace).log[i] == Read(m.obj.devices)
    decreases |trace|
  {
    if trace != [] {
      var m1 := Step(m, trace[0]);
      assert m1.obj == m.obj && m1.task == m.task;
      assert m1.log == m.log || m1.log == m.log + [Read(m.obj.devices)];
      FrozenWhenNotRunning(m1, trace[1..]);
      var r := Run(m1, trace[1..]);
      assert r.log[..|m1.log|] == m1.log;
      assert r.log[..|m.log|] == m.log by {
        assert r.log[..|m.log|] == r.log[..|m1.log|][..|m.log|];
      }
    }
  }

  /** A stream counts as finished after a run exactly when it had finished before
      or the trace ends it; so the loop exits only once both streams have ended. */
  lemma {:induction false} FinishedIffEnded(m: Monitor, trace: seq<Event>, s: Stream)
    requires Valid(m) && m.task.Loop?
    ensures Run(m, trace).task.Loop?
    ensures IsFinished(Run(m, trace).task, s) <==> IsFinished(m.task, s) || EndsIn(trace, s)
    decreases |trace|
  {
    if trace != [] {
      var m1 := Step(m, trace[0]);
      FinishedIffEnded(m1, trace[1..], s);
      if EndsIn(trace[1..], s) {
        var i :| 0 <= i < |trace[1..]| && trace[1..][i].Finished? && trace[1..][i].stream == s;
        assert trace[i + 1] == trace[1..][i];
      }
      if EndsIn(trace, s) && !(trace[0].Finished? && trace[0].stream == s) {
        var i :| 0 <= i < |trace| && trace[i].Finished? && trace[i].stream == s;
        assert trace[1..][i - 1] == trace[i];
      }
    }
  }

  /** In any phase of the loop, while no stream ends, each item on a live stream
      runs exactly one pass: the run emits `devices-changed` once per such item;
      items on a finished stream and queries emit nothing. */
  lemma {:induction false} OneEmitPerItem(m: Monitor, trace: seq<Event>)
    requires Valid(m) && m.task.Loop?
    requires forall i :: 0 <= i < |trace| ==> !trace[i].Finished?
    ensures CountEmits(Run(m, trace).log) == CountEmits(m.log) + CountLiveItems(m.task, trace)
    decreases |trace|
  {
    if trace != [] {
      var m1 := Step(m, trace[0]);
      var extra := m1.log[|m.log|..];
      assert m1.log == m.log + extra;
      CountEmitsAppend(m.log, extra);
      if trace[0].Item? && Live(m.task, trace[0].stream) {
        assert extra == [Stored(m1.obj.devices), Emitted(DevicesChanged)];
        assert extra[1..] == [Emitted(DevicesChanged)];
        assert extra[1..][1..] == [];
        assert CountEmits(extra[1..]) == 1;
        assert CountEmits(extra) == 1;
      } else {
        if trace[0].Query? {
          assert extra == [Read(m.obj.devices)];
          assert extra[1..] == [];
        } else {
          assert extra == [];
        }
        assert CountEmits(extra) == 0;
      }
      assert m1.task == m.task;
      OneEmitPerItem(m1, trace[1..]);
    }
  }

  /** The phase changes of the loop: losing one stream leaves monitoring on the
      other, losing the second halts it, and items never change the phase. */
  lemma PhaseTransitions(m: Monitor, e: Event)
    requires Valid(m) && Running(m.task)
    ensures Step(m, e).task.Loop?
    ensures PhaseOf(m.task) == Watching && e.Finished? && e.stream == DeviceRemoved ==>
      PhaseOf(Step(m, e).task) == AddedOnly
    ensures PhaseOf(m.task) == Watching && e.Finished? && e.stream == DeviceAdded ==>
      PhaseOf(Step(m, e).task) == RemovedOnly
    ensures PhaseOf(m.task) == AddedOnly && e.Finished? && e.stream == DeviceAdded ==>
      PhaseOf(Step(m, e).task) == Halted
    ensures PhaseOf(m.task) == RemovedOnly && e.Finished? && e.stream == DeviceRemoved ==>
      PhaseOf(Step(m, e).task) == Halted
    ensures !e.Finished? ==> PhaseOf(Step(m, e).task) == PhaseOf(m.task)
  {
  }

  /** A failed connect, proxy creation or initial enumeration leaves the object
      inert for ever: whatever happens afterwards, it reports no monitoring and
      no devices, and every read returns the empty list. */
  lemma InitFailureIsPermanent(init: InitReplies, subs: Subscriptions, trace: seq<Event>)
    requires init.connect.Err? || init.proxy.Err? || init.enumerate.Err?
    ensures Inert(Lifetime(init, subs, trace).obj)
    ensures forall i :: 0 <= i < |Lifetime(init, subs, trace).log| ==>
      Lifetime(init, subs, trace).log[i] == Read([])
  {
    FrozenWhenNotRunning(Start(init, subs), trace);
  }

  /** If either subscription fails, no pass ever runs: the list stays the one
      construction stored. */
  lemma SubscriptionFailureFreezesSnapshot(init: InitReplies, subs: Subscriptions, trace: seq<Event>)
    requires subs.added.Err? || subs.removed.Err?
    ensures Lifetime(init, subs, trace).obj == New(init).obj
    ensures CountEmits(Lifetime(init, subs, trace).log) == 0
  {
    var m := Start(init, subs);
    FrozenWhenNotRunning(m, trace);
    var r := Run(m, trace);
    assert r.log == m.log + r.log[|m.log|..];
    CountEmitsAppend(m.log, r.log[|m.log|..]);
    assert CountEmits(m.log) == 0 by {
      if m.log != [] {
        assert m.log[1..] == [];
      }
    }
    var tail := r.log[|m.log|..];
    assert forall i :: 0 <= i < |tail| ==> tail[i] == Read(m.obj.devices);
    NoEmitsInReads(tail, m.obj.devices);
  }

  lemma NoEmitsInReads(log: seq<Effect>, ds: seq<Device>)
    requires forall i :: 0 <= i < |log| ==> log[i] == Read(ds)
    ensures CountEmits(log) == 0
    decreases |log|
  {
    if log != [] {
      NoEmitsInReads(log[1..], ds);
    }
  }

  /** After both streams have ended, repeated reads return the identical list. */
  lemma StableAfterHalt(m: Monitor, trace: seq<Event>)
    requires Valid(m) && m.task == Loop(true, true)
    ensures forall i, j :: |m.log| <= i < j < |Run(m, trace).log| ==>
      Run(m, trace).log[i] == Run(m, trace).log[j]
  {
    FrozenWhenNotRunning(m, trace);
  }

  /** Scenario: two devices are stored, a device is added, and re-enumeration now
      finds three paths that all build; afterwards three devices are stored and
      exactly one `devices-changed` was emitted. */
  lemma AddedDeviceScenario(m: Monitor, pass: Pass)
    requires Valid(m) && m.task == Loop(false, false) && |m.obj.devices| == 2
    requires pass.enumerate.Ok? && |pass.enumerate.value| == 3
    requires forall i :: 0 <= i < 3 ==> NewDevice(pass.enumerate.value[i], pass.bus).Ok?
    ensures |Step(m, Item(DeviceAdded, pass)).obj.devices| == 3
    ensures CountEmits(Step(m, Item(DeviceAdded, pass)).log) == CountEmits(m.log) + 1
  {
    ParseDevicesAllSucceed(pass.enumerate.value, pass.bus);
    OneEmitPerItem(m, [Item(DeviceAdded, pass)]);
    assert Run(Step(m, Item(DeviceAdded, pass)), []) == Step(m, Item(DeviceAdded, pass));
    assert CountLiveItems(m.task, [Item(DeviceAdded, pass)]) == 1 by {
      assert [Item(DeviceAdded, pass)][1..] == [];
    }
  }

  /** Scenario: re-enumeration fails during a pass; the stored list becomes empty
      rather than keeping the previous devices. */
  lemma EnumerationFailureEmptiesList(m: Monitor, s: Stream, pass: Pass)
    requires Valid(m) && Live(m.task, s) && pass.enumerate.Err?
    ensures Step(m, Item(s, pass)).obj.devices == []
    ensures Step(m, Item(s, pass)).log == m.log + [Stored([]), Emitted(DevicesChanged)]
  {
  }
}
