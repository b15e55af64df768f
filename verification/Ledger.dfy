/** Which streams the exit serves, and which of its tasks are still at work, read off what happened. */
module Ledger {
  import opened Common
  import opened Cells
  import opened Crypto
  import opened Pipeline
  import opened Relay
  import opened Exit
  import opened Client
  import opened Network
  import opened Sync
  import opened Runs
  import opened Streams
  import opened Pipes

  predicate IsEndOf(p: Plain, s: StreamId) {
    p.stream == s && p.command == End
  }

  /** Task `t` was started for a BEGIN of stream `s`, and no END of the stream was accepted since. */
  ghost predicate OpenSince(accepted: seq<Plain>, begun: seq<nat>, s: StreamId, t: nat) {
    && t < |begun| && begun[t] < |accepted| && accepted[begun[t]].stream == s
    && forall k {:trigger accepted[k]} :: begun[t] < k < |accepted| ==> !IsEndOf(accepted[k], s)
  }

  /** Every task belongs to the BEGIN that started it; the exit's table holds exactly the streams that were
      connected and not ended since, each with the last task that was started for it. */
  ghost predicate Kept(accepted: seq<Plain>, begun: seq<nat>, streams: map<StreamId, ExitStream>, tasks: seq<Task>) {
    && |begun| == |tasks|
    && (forall t {:trigger begun[t]} :: 0 <= t < |begun| ==>
          begun[t] < |accepted| && accepted[begun[t]].command == Begin && accepted[begun[t]].stream == tasks[t].stream)
    && (forall s, t: nat {:trigger OpenSince(accepted, begun, s, t)} ::
          OpenSince(accepted, begun, s, t) ==> s in streams && t <= streams[s].task)
    && (forall s {:trigger streams[s]} :: s in streams ==> OpenSince(accepted, begun, s, streams[s].task))
  }

  lemma {:induction false} OpenSnoc(accepted: seq<Plain>, begun: seq<nat>, p: Plain, s: StreamId, t: nat)
    requires t < |begun| ==> begun[t] < |accepted|
    ensures OpenSince(accepted + [p], begun, s, t) <==> OpenSince(accepted, begun, s, t) && !IsEndOf(p, s)
  {
    if OpenSince(accepted + [p], begun, s, t) {
      assert (accepted + [p])[|accepted|] == p;
      forall k | begun[t] < k < |accepted| ensures !IsEndOf(accepted[k], s) {
        assert (accepted + [p])[k] == accepted[k];
      }
    }
  }

  lemma {:induction false} OpenNew(accepted: seq<Plain>, begun: seq<nat>, p: Plain, s: StreamId, t: nat)
    requires t < |begun| ==> begun[t] < |accepted|
    ensures OpenSince(accepted + [p], begun + [|accepted|], s, t)
            <==> if t == |begun| then p.stream == s else OpenSince(accepted + [p], begun, s, t)
  {
    if t < |begun| {
      assert (begun + [|accepted|])[t] == begun[t];
    }
  }

  /** A connected BEGIN: its stream is in the table from now on, with the new task. */
  lemma {:induction false} KeptConnects(accepted: seq<Plain>, begun: seq<nat>, streams: map<StreamId, ExitStream>,
      tasks: seq<Task>, p: Plain, destination: seq<byte>, task: Task)
    requires Kept(accepted, begun, streams, tasks) && p.command == Begin && task.stream == p.stream
    ensures Kept(accepted + [p], begun + [|accepted|], streams[p.stream := ExitStream(destination, |tasks|)],
                 tasks + [task])
  {
    hide OpenSince;
    var a, b, streams' := accepted + [p], begun + [|accepted|], streams[p.stream := ExitStream(destination, |tasks|)];
    assert |b| == |tasks| + 1;
    forall s, t: nat ensures OpenSince(a, b, s, t) <==>
                        if t == |begun| then p.stream == s else OpenSince(accepted, begun, s, t)
    {
      OpenNew(accepted, begun, p, s, t);
      OpenSnoc(accepted, begun, p, s, t);
    }
    forall s, t: nat | OpenSince(a, b, s, t) ensures s in streams' && t <= streams'[s].task {
      OpenWithin(a, b, s, t);
    }
    forall s | s in streams' ensures OpenSince(a, b, s, streams'[s].task) {
      if s != p.stream {
        OpenWithin(accepted, begun, s, streams[s].task);
      }
    }
    forall t | 0 <= t < |b|
      ensures b[t] < |a| && a[b[t]].command == Begin && a[b[t]].stream == (tasks + [task])[t].stream
    {
      if t < |begun| {
        assert begun[t] < |accepted| && b[t] == begun[t];
      }
    }
  }

  lemma {:induction false} OpenWithin(accepted: seq<Plain>, begun: seq<nat>, s: StreamId, t: nat)
    requires OpenSince(accepted, begun, s, t)
    ensures t < |begun|
  {
  }

  /** Any other cell: only an END takes a stream out, and only its own. */
  lemma {:induction false} KeptGrows(accepted: seq<Plain>, begun: seq<nat>, streams: map<StreamId, ExitStream>,
      streams': map<StreamId, ExitStream>, tasks: seq<Task>, tasks': seq<Task>, p: Plain)
    requires Kept(accepted, begun, streams, tasks) && |tasks'| == |tasks|
    requires forall t {:trigger tasks'[t]} :: 0 <= t < |tasks| ==> tasks'[t].stream == tasks[t].stream
    requires streams' == if p.command == End then streams - {p.stream} else streams
    ensures Kept(accepted + [p], begun, streams', tasks')
  {
    hide OpenSince;
    var a := accepted + [p];
    forall s, t: nat ensures OpenSince(a, begun, s, t) <==> OpenSince(accepted, begun, s, t) && !IsEndOf(p, s) {
      OpenSnoc(accepted, begun, p, s, t);
    }
    forall t | 0 <= t < |begun|
      ensures begun[t] < |a| && a[begun[t]].command == Begin && a[begun[t]].stream == tasks'[t].stream
    {
      assert begun[t] < |accepted| && tasks'[t].stream == tasks[t].stream;
    }
  }

  lemma {:induction false} KeptStays(accepted: seq<Plain>, begun: seq<nat>, streams: map<StreamId, ExitStream>,
      tasks: seq<Task>, tasks': seq<Task>)
    requires Kept(accepted, begun, streams, tasks) && |tasks'| == |tasks|
    requires forall t {:trigger tasks'[t]} :: 0 <= t < |tasks| ==> tasks'[t].stream == tasks[t].stream
    ensures Kept(accepted, begun, streams, tasks')
  {
    hide OpenSince;
    forall t | 0 <= t < |begun|
      ensures begun[t] < |accepted| && accepted[begun[t]].command == Begin
              && accepted[begun[t]].stream == tasks'[t].stream
    {
      assert begun[t] < |accepted| && tasks'[t].stream == tasks[t].stream;
    }
  }

  ghost predicate Booked(w: World) {
    Kept(w.accepted, w.begun, w.exit.streams, w.exit.tasks)
  }

  /** What the exit's turn enters in the books. */
  lemma {:induction false} ExitBooks(x: Circ, w: World, dial: Dial, pairs: seq<Pair>)
    requires Lockstep(x, w, pairs) && CanExitTake(x, w, dial) && IsTraffic(w.up[|w.up| - 1][0])
    ensures |w.accepted| < |w.sent|
    ensures var w', p := ExitTakes(x, w, dial), w.sent[|w.accepted|];
            && w'.accepted == w.accepted + [p]
            && w'.exit.streams == Serve(w.exit, p, dial).streams && w'.exit.tasks == Serve(w.exit, p, dial).tasks
            && w'.begun == (if p.command == Begin && dial.Connects? then w.begun + [|w.accepted|] else w.begun)
            && (p.command == Begin || p.command == Data || p.command == End)
  {
    hide UpSync, DownSync, Tidy, Serve, Layer, Frame, Through;
    ShapeIs(x, w, pairs);
    ExitServes(x, w, dial, pairs);
    ExitKind(x, w, pairs);
    ExitOpens(x, w, pairs);
    hide ExitStep, ExitAnswer;
  }

  lemma {:induction false} BookedServes(w: World, p: Plain, dial: Dial)
    requires Booked(w) && (p.command == Begin || p.command == Data || p.command == End)
    ensures var s' := Serve(w.exit, p, dial);
            Kept(w.accepted + [p],
                 if p.command == Begin && dial.Connects? then w.begun + [|w.accepted|] else w.begun,
                 s'.streams, s'.tasks)
  {
    hide Kept;
    var s' := Serve(w.exit, p, dial);
    if p.command == Begin && dial.Connects? {
      KeptConnects(w.accepted, w.begun, w.exit.streams, w.exit.tasks, p, TrimNuls(p.data),
        Task(p.stream, true, [], [], [], []));
    } else {
      KeptGrows(w.accepted, w.begun, w.exit.streams, s'.streams, w.exit.tasks, s'.tasks, p);
    }
  }

  /** What ends a task: its destination closed or failed, or a write to it failed or found the channel closed. */
  predicate Stops(a: Action, t: nat) {
    (a.TaskEnd? && a.task == t) || (a.TaskWrite? && a.task == t && !a.alive)
  }

  /** What a step other than the exit's own does to the table and the tasks. */
  ghost predicate SameTable(w: World, w': World, a: Action) {
    && w'.exit.streams == w.exit.streams && w'.accepted == w.accepted && w'.begun == w.begun
    && |w'.exit.tasks| == |w.exit.tasks|
    && (forall t {:trigger w'.exit.tasks[t]} :: 0 <= t < |w.exit.tasks| ==>
          && w'.exit.tasks[t].stream == w.exit.tasks[t].stream
          && (w'.exit.tasks[t].live <==> w.exit.tasks[t].live && !Stops(a, t)))
  }

  lemma {:induction false} TableAtTask(x: Circ, w: World, a: Action)
    requires Enabled(x, w, a) && (a.FetchBytes? || a.TaskChunk? || a.TaskEnd? || a.TaskWrite?)
    ensures SameTable(w, Apply(x, w, a), a)
  {
    hide Seal;
  }

  lemma {:induction false} TableAtClient(x: Circ, w: World, a: Action)
    requires Enabled(x, w, a) && (a.SendBegin? || a.SendChunk? || a.SendEnd? || a.ClientTake?)
    ensures SameTable(w, Apply(x, w, a), a)
  {
    hide ClientSends;
    if a.ClientTake? {
      hide ClientTakes, Frame, ClientReceive;
      ReadsOnly(x, w);
    } else {
      SendTurns(x, w, a);
      SendsOnly(x, w, SentBy(w, a));
      hide Apply;
    }
  }

  lemma {:induction false} TableElsewhere(x: Circ, w: World, a: Action)
    requires Enabled(x, w, a) && !a.ExitTake?
    ensures SameTable(w, Apply(x, w, a), a)
  {
    hide SameTable, ClientSends, ClientTakes, ForwardStep, BackwardStep, Emit;
    if a.FetchBytes? || a.TaskChunk? || a.TaskEnd? || a.TaskWrite? {
      hide Apply, Enabled;
      TableAtTask(x, w, a);
    } else if a.SendBegin? || a.SendChunk? || a.SendEnd? || a.ClientTake? {
      hide Apply, Enabled;
      TableAtClient(x, w, a);
    } else {
      TableSame(w, Apply(x, w, a), a);
    }
  }

  lemma {:induction false} TableSame(w: World, w': World, a: Action)
    requires w'.exit == w.exit && w'.accepted == w.accepted && w'.begun == w.begun
    requires !a.TaskEnd? && !a.TaskWrite?
    ensures SameTable(w, w', a)
  {
  }

  lemma {:induction false} BookedStep(x: Circ, w: World, a: Action, pairs: seq<Pair>)
    requires Lockstep(x, w, pairs) && Booked(w) && Enabled(x, w, a)
    ensures Booked(Apply(x, w, a))
  {
    hide Lockstep, Kept;
    if a.ExitTake? {
      if IsTraffic(w.up[|w.up| - 1][0]) {
        ExitBooks(x, w, a.dial, pairs);
        BookedServes(w, w.sent[|w.accepted|], a.dial);
        hide Apply, ExitTakes;
        ExitApplies(x, w, a.dial);
      } else {
        ExitKeeps(x, w, a.dial, pairs);
      }
    } else {
      TableElsewhere(x, w, a);
      hide Apply;
      KeptStays(w.accepted, w.begun, w.exit.streams, w.exit.tasks, Apply(x, w, a).exit.tasks);
    }
  }

  lemma {:induction false} ExitApplies(x: Circ, w: World, dial: Dial)
    requires Enabled(x, w, ExitTake(dial))
    ensures Apply(x, w, ExitTake(dial)) == ExitTakes(x, w, dial)
  {
    hide ExitTakes;
  }

  lemma {:induction false} BookedRun(x: Circ, w: World, actions: seq<Action>, pairs: seq<Pair>)
    requires Lockstep(x, w, pairs) && Booked(w) && Run(x, w, actions).Some?
    ensures Booked(Run(x, w, actions).value)
    decreases |actions|
  {
    hide Lockstep, Booked, Enabled, Apply;
    if actions != [] {
      BookedStep(x, w, actions[0], pairs);
      LockstepStep(x, w, actions[0], pairs);
      BookedRun(x, Apply(x, w, actions[0]), actions[1..], pairs);
    }
  }

  /* What follows for every run. */

  lemma {:induction false} BuiltBooked(pairs: seq<Pair>)
    requires |pairs| >= 2
    ensures Booked(Built(pairs))
  {
  }

  /** In every state of every run, read off the log alone: the exit serves a stream if and only if a BEGIN of it
      was accepted and connected and no END of it was accepted since; with the last such BEGIN's task, where
      task `t` is that of the `t`-th connected BEGIN. */
  lemma {:induction false} ServedIffOpen(x: Circ, pairs: seq<Pair>, actions: seq<Action>, w: World, s: StreamId)
    requires |pairs| >= 2 && Run(x, Built(pairs), actions) == Some(w)
    ensures s in w.exit.streams <==>
            exists t: nat {:trigger OpenSince(w.accepted, w.begun, s, t)} :: OpenSince(w.accepted, w.begun, s, t)
    ensures s in w.exit.streams ==>
              && OpenSince(w.accepted, w.begun, s, w.exit.streams[s].task)
              && forall t: nat {:trigger OpenSince(w.accepted, w.begun, s, t)} ::
                   OpenSince(w.accepted, w.begun, s, t) ==> t <= w.exit.streams[s].task
    ensures |w.begun| == |w.exit.tasks|
    ensures forall t {:trigger w.begun[t]} :: 0 <= t < |w.begun| ==>
              && w.begun[t] < |w.accepted| && w.accepted[w.begun[t]].command == Begin
              && w.accepted[w.begun[t]].stream == w.exit.tasks[t].stream
  {
    hide Built, OpenSince, UpSync, DownSync, Tidy;
    BuiltLockstep(x, pairs);
    BuiltBooked(pairs);
    BookedRun(x, Built(pairs), actions, pairs);
  }

  lemma {:induction false} ServeStops(x: Circ, w: World, a: Action, pairs: seq<Pair>)
    requires Lockstep(x, w, pairs) && Enabled(x, w, a)
    ensures var tasks, tasks' := w.exit.tasks, Apply(x, w, a).exit.tasks;
            && |tasks| <= |tasks'|
            && (forall t {:trigger tasks'[t]} :: 0 <= t < |tasks'| ==>
                  (tasks'[t].live <==> (t < |tasks| ==> tasks[t].live && !Stops(a, t))))
  {
    hide Lockstep, Serve;
    if a.ExitTake? {
      ExitApplies(x, w, a.dial);
      hide Apply;
      ExitKeeps(x, w, a.dial, pairs);
      if IsTraffic(w.up[|w.up| - 1][0]) {
        ExitServes(x, w, a.dial, pairs);
        ServeLeavesAlone(w.exit, w.sent[|w.accepted|], a.dial);
      }
      hide ExitTakes;
    } else {
      hide Apply;
      TableElsewhere(x, w, a);
    }
  }

  lemma {:induction false} ServeLeavesAlone(s: ExitState, p: Plain, dial: Dial)
    ensures var tasks' := Serve(s, p, dial).tasks;
            && |s.tasks| <= |tasks'|
            && (forall t {:trigger tasks'[t]} ::
                  0 <= t < |tasks'| ==> (tasks'[t].live <==> (t < |s.tasks| ==> s.tasks[t].live)))
  {
  }

  /** A task that has not been started cannot be stopped. */
  lemma {:induction false} StopsWithin(x: Circ, w: World, a: Action, t: nat)
    requires Enabled(x, w, a) && Stops(a, t)
    ensures t < |w.exit.tasks|
  {
  }

  lemma {:induction false} LiveRun(x: Circ, w: World, actions: seq<Action>, pairs: seq<Pair>, t: nat)
    requires Lockstep(x, w, pairs) && Run(x, w, actions).Some?
    ensures var tasks, tasks' := w.exit.tasks, Run(x, w, actions).value.exit.tasks;
            && |tasks| <= |tasks'|
            && (t < |tasks'| ==>
                  (tasks'[t].live <==> (t < |tasks| ==> tasks[t].live) && forall a :: a in actions ==> !Stops(a, t)))
    decreases |actions|
  {
    hide Lockstep, Enabled, Apply, Stops;
    if actions != [] {
      var w1 := Apply(x, w, actions[0]);
      ServeStops(x, w, actions[0], pairs);
      if Stops(actions[0], t) {
        StopsWithin(x, w, actions[0], t);
      }
      LockstepStep(x, w, actions[0], pairs);
      LiveRun(x, w1, actions[1..], pairs, t);
      assert forall a :: a in actions <==> a == actions[0] || a in actions[1..];
    }
  }

  /** A task is at work exactly until one of these happens to it; no message of the client's ends it at once. */
  lemma {:induction false} LiveIffUnstopped(x: Circ, pairs: seq<Pair>, actions: seq<Action>, w: World, t: nat)
    requires |pairs| >= 2 && Run(x, Built(pairs), actions) == Some(w) && t < |w.exit.tasks|
    ensures w.exit.tasks[t].live <==> forall a :: a in actions ==> !Stops(a, t)
  {
    hide Lockstep, Run, Stops;
    BuiltLockstep(x, pairs);
    LiveRun(x, Built(pairs), actions, pairs, t);
  }

  /** A task of an open stream that is at work is the one its stream's bytes go to. */
  lemma {:induction false} OpenIsServed(x: Circ, pairs: seq<Pair>, actions: seq<Action>, w: World, t: nat)
    requires Reached(x, pairs, actions, w) && t < |w.exit.tasks| && w.exit.tasks[t].live
    requires OpenSince(w.accepted, w.begun, w.exit.tasks[t].stream, t)
    ensures var s := w.exit.tasks[t].stream;
            s in w.exit.streams && w.exit.streams[s].task == t && HasLiveTask(w.exit, s)
  {
    hide OpenSince, Run, Lockstep, Outward, Sending, FromExit, Current;
    var s := w.exit.tasks[t].stream;
    ServedIffOpen(x, pairs, actions, w, s);
    var b := ReachedIsPiped(x, pairs, actions, w, false);
    assert Served(w.exit.streams[s], s, w.exit.tasks, Current(w.local, w.exit.tasks), Of(b.accepted, s));
  }

  /** Once the wires up are drained: if the destination of a stream was connected, no END of the stream was
      accepted since and the destination has not stopped its task, it was handed, or is about to be handed, all
      that was read from the SOCKS client and is no longer pending. */
  lemma {:induction false} OpenStreamGetsAll(x: Circ, pairs: seq<Pair>, actions: seq<Action>, w: World, t: nat)
    requires Reached(x, pairs, actions, w) && w.accepted == w.sent && t < |w.begun|
    requires w.begun[t] < |w.accepted| && OpenSince(w.accepted, w.begun, w.accepted[w.begun[t]].stream, t)
    requires forall a :: a in actions ==> !Stops(a, t)
    ensures var s := w.accepted[w.begun[t]].stream;
            && t < |w.exit.tasks| && w.exit.tasks[t].live && s in w.local
            && (w.exit.tasks[t].written + w.exit.tasks[t].queue) + w.local[s].pending == w.local[s].read
  {
    hide OpenSince, Run, SpareIds, Stops;
    var s := w.accepted[w.begun[t]].stream;
    ServedIffOpen(x, pairs, actions, w, s);
    LiveIffUnstopped(x, pairs, actions, w, t);
    OpenIsServed(x, pairs, actions, w, t);
    DestinationGetsAll(x, pairs, actions, w, s);
  }

  /** What the exit makes of one accepted cell, told by the ledger: a BEGIN is answered by CONNECTED, or by an END
      that says why not; DATA for an open stream whose task is at work goes to that task and to no other, unanswered;
      DATA for a stream that was stopped or is not open changes no task and is answered by an END that says which;
      an END is answered by an END. */
  lemma {:induction false} EveryCellIsAnswered(x: Circ, w: World, dial: Dial, pairs: seq<Pair>)
    requires Lockstep(x, w, pairs) && Booked(w) && CanExitTake(x, w, dial) && IsTraffic(w.up[|w.up| - 1][0])
    ensures |w.accepted| < |w.sent|
    ensures var w', p := ExitTakes(x, w, dial), w.sent[|w.accepted|];
            var s, tasks, tasks' := p.stream, w.exit.tasks, w'.exit.tasks;
            && (p.command == Begin ==>
                  && !dial.NotUtf8?
                  && w'.emitted == w.emitted + [if dial.Connects? then Plain(s, Connected, [])
                                                else Plain(s, End, Ascii("Connection failed: ") + dial.reason)]
                  && tasks' == if dial.Connects? then tasks + [Task(s, true, [], [], [], [])] else tasks)
            && (p.command == End ==> w'.emitted == w.emitted + [Plain(s, End, [])] && tasks' == tasks)
            && (p.command == Data && s in w.exit.streams && w.exit.streams[s].task < |tasks|
                && tasks[w.exit.streams[s].task].live ==>
                  var t := w.exit.streams[s].task;
                  w'.emitted == w.emitted && tasks' == tasks[t := tasks[t].(queue := tasks[t].queue + p.data)])
            && (p.command == Data && s in w.exit.streams && w.exit.streams[s].task < |tasks|
                && !tasks[w.exit.streams[s].task].live ==>
                  w'.emitted == w.emitted + [Plain(s, End, Ascii("Destination closed"))] && tasks' == tasks)
            && (p.command == Data && s !in w.exit.streams ==>
                  w'.emitted == w.emitted + [Plain(s, End, Ascii("Stream not found"))] && tasks' == tasks)
  {
    hide Lockstep, Kept, ExitTakes;
    ExitBooks(x, w, dial, pairs);
    ExitServes(x, w, dial, pairs);
  }

  /* Which channels the client's reader has. */

  /** While the circuit is open, exactly those of the streams that are not over yet. */
  ghost predicate Enlisted(w: World) {
    w.client.status != Closed ==>
      forall s {:trigger s in w.client.senders} :: s in w.client.senders <==> s in w.local && w.local[s].phase != Gone
  }

  lemma {:induction false} EnlistedAtClient(x: Circ, w: World, a: Action)
    requires Enlisted(w) && Enabled(x, w, a) && (a.SendBegin? || a.SendChunk? || a.SendEnd? || a.ClientTake?)
    ensures Enlisted(Apply(x, w, a))
  {
    hide ClientSends;
    if a.ClientTake? {
      StatusStays(x, w);
      hide ClientTakes, Frame, ClientReceive;
      ReadsOnly(x, w);
    } else {
      SendTurns(x, w, a);
      SendsOnly(x, w, SentBy(w, a));
      SendKeepsStatus(x, w, SentBy(w, a));
      hide Apply;
    }
  }

  lemma {:induction false} StatusStays(x: Circ, w: World)
    requires Shape(w) && w.down[|w.down| - 1] != []
    ensures var w', event := ClientTakes(x, w), ClientReceive(x, w.client, w.down[|w.down| - 1][0]).1;
            w'.client.status == if event.Delivered? || event.Unclaimed? then w.client.status else Closed
  {
    hide Frame;
  }

  lemma {:induction false} SendKeepsStatus(x: Circ, w: World, p: Plain)
    requires Shape(w)
    ensures ClientSends(x, w, p).client.status == w.client.status
  {
  }

  lemma {:induction false} EnlistedStep(x: Circ, w: World, a: Action)
    requires Enlisted(w) && Enabled(x, w, a)
    ensures Enlisted(Apply(x, w, a))
  {
    if a.SendBegin? || a.SendChunk? || a.SendEnd? || a.ClientTake? {
      hide Apply, Enabled;
      EnlistedAtClient(x, w, a);
    } else {
      hide ClientSends, ClientTakes, ForwardStep, BackwardStep, ExitStep, Emit;
    }
  }

  /** In every state of every run, a stream's cells are passed on exactly from when it was opened until its handler
      is through, as long as the circuit is open. */
  lemma {:induction false} EnlistedRun(x: Circ, pairs: seq<Pair>, actions: seq<Action>, w: World, s: StreamId)
    requires |pairs| >= 2 && Run(x, Built(pairs), actions) == Some(w) && w.client.status != Closed
    ensures s in w.client.senders <==> s in w.local && w.local[s].phase != Gone
  {
    EnlistedFrom(x, Built(pairs), actions);
  }

  lemma {:induction false} EnlistedFrom(x: Circ, w: World, actions: seq<Action>)
    requires Enlisted(w) && Run(x, w, actions).Some?
    ensures Enlisted(Run(x, w, actions).value)
    decreases |actions|
  {
    hide Enlisted, Enabled, Apply;
    if actions != [] {
      EnlistedStep(x, w, actions[0]);
      EnlistedFrom(x, Apply(x, w, actions[0]), actions[1..]);
    }
  }
}
