/** What each party knows of the streams of a circuit, as relations between its state and the logs. */
module Streams {
  import opened Common
  import opened Cells
  import opened Pipeline
  import opened Exit
  import opened Network

  /** The cells of one stream. */
  function Of(log: seq<Plain>, s: StreamId): seq<Plain> {
    if log == [] then []
    else if log[|log| - 1].stream == s then Of(log[..|log| - 1], s) + [log[|log| - 1]]
    else Of(log[..|log| - 1], s)
  }

  /** The cells of all other streams. */
  function Without(log: seq<Plain>, s: StreamId): seq<Plain> {
    if log == [] then []
    else if log[|log| - 1].stream == s then Without(log[..|log| - 1], s)
    else Without(log[..|log| - 1], s) + [log[|log| - 1]]
  }

  /** The payload of the DATA cells. */
  function Bytes(cells: seq<Plain>): seq<byte> {
    if cells == [] then []
    else if cells[|cells| - 1].command == Data then Bytes(cells[..|cells| - 1]) + cells[|cells| - 1].data
    else Bytes(cells[..|cells| - 1])
  }

  lemma {:induction false} OfSnoc(log: seq<Plain>, p: Plain, s: StreamId)
    ensures Of(log + [p], s) == if p.stream == s then Of(log, s) + [p] else Of(log, s)
  {
    assert (log + [p])[..|log|] == log;
  }

  lemma {:induction false} WithoutSnoc(log: seq<Plain>, p: Plain, s: StreamId)
    ensures Without(log + [p], s) == if p.stream == s then Without(log, s) else Without(log, s) + [p]
  {
    assert (log + [p])[..|log|] == log;
  }

  lemma {:induction false} BytesSnoc(cells: seq<Plain>, p: Plain)
    ensures Bytes(cells + [p]) == if p.command == Data then Bytes(cells) + p.data else Bytes(cells)
  {
    assert (cells + [p])[..|cells|] == cells;
  }

  lemma {:induction false} OfAppend(a: seq<Plain>, b: seq<Plain>, s: StreamId)
    ensures Of(a + b, s) == Of(a, s) + Of(b, s)
  {
    if b == [] {
      assert a + b == a;
    } else {
      var last := |b| - 1;
      OfAppend(a, b[..last], s);
      assert a + b == (a + b[..last]) + [b[last]] && b == b[..last] + [b[last]];
      OfSnoc(a + b[..last], b[last], s);
      OfSnoc(b[..last], b[last], s);
    }
  }

  lemma {:induction false} BytesPrefix(a: seq<Plain>, b: seq<Plain>)
    requires a <= b
    ensures Bytes(a) <= Bytes(b)
    decreases |b|
  {
    if |a| < |b| {
      BytesPrefix(a, b[..|b| - 1]);
    } else {
      assert a == b;
    }
  }

  lemma {:induction false} OfWithout(log: seq<Plain>, s: StreamId, i: StreamId)
    ensures Of(Without(log, s), i) == if i == s then [] else Of(log, i)
  {
    if log != [] {
      var last := |log| - 1;
      OfWithout(log[..last], s, i);
      if log[last].stream != s {
        OfSnoc(Without(log[..last], s), log[last], i);
      }
    }
  }

  lemma {:induction false} WithoutAppend(a: seq<Plain>, b: seq<Plain>, s: StreamId)
    ensures Without(a + b, s) == Without(a, s) + Without(b, s)
  {
    if b == [] {
      assert a + b == a;
    } else {
      var last := |b| - 1;
      WithoutAppend(a, b[..last], s);
      assert a + b == (a + b[..last]) + [b[last]] && b == b[..last] + [b[last]];
      WithoutSnoc(a + b[..last], b[last], s);
      WithoutSnoc(b[..last], b[last], s);
    }
  }

  predicate Absent(log: seq<Plain>, s: StreamId) {
    forall k {:trigger log[k]} :: 0 <= k < |log| ==> log[k].stream != s
  }

  lemma {:induction false} WithoutAbsent(log: seq<Plain>, s: StreamId)
    requires Absent(log, s)
    ensures Without(log, s) == log && Of(log, s) == []
  {
    if log != [] {
      var init, p := log[..|log| - 1], log[|log| - 1];
      WithoutAbsent(init, s);
      assert p.stream != s && log == init + [p];
      OfSnoc(init, p, s);
      WithoutSnoc(init, p, s);
    }
  }

  predicate Inside(log: seq<Plain>, ids: set<StreamId>) {
    forall k {:trigger log[k]} :: 0 <= k < |log| ==> log[k].stream in ids
  }

  lemma {:induction false} WithoutInside(log: seq<Plain>, s: StreamId, ids: set<StreamId>)
    requires Inside(log, ids)
    ensures Inside(Without(log, s), ids)
  {
    if log != [] {
      WithoutInside(log[..|log| - 1], s, ids);
    }
  }

  /* The client's sending side. */

  /** BEGIN is the stream's first cell and names its destination; what was put into DATA cells and what
      is still to be put there make up what was read from the SOCKS client. */
  ghost predicate FromClient(l: Local, cells: seq<Plain>) {
    && Bytes(cells) + l.pending == l.read
    && (l.phase == Registered ==> l.read == [] && cells == [])
    && forall i {:trigger cells[i]} :: 0 <= i < |cells| && cells[i].command == Begin ==>
                                         i == 0 && cells[i].data == l.destination + [0]
  }

  ghost predicate Sending(local: map<StreamId, Local>, sent: seq<Plain>) {
    && Inside(sent, local.Keys)
    && forall s {:trigger FromClient(local[s], Of(sent, s))} :: s in local ==> FromClient(local[s], Of(sent, s))
  }

  lemma {:induction false} SendingOpens(local: map<StreamId, Local>, sent: seq<Plain>, s: StreamId, l: Local)
    requires Sending(local, sent) && l == Opening(l.destination, l.sealedBefore, l.tasksBefore)
    ensures Sending(local[s := l], Without(sent, s))
  {
    var local' := local[s := l];
    WithoutInside(sent, s, local.Keys);
    forall i | i in local' ensures FromClient(local'[i], Of(Without(sent, s), i)) {
      hide FromClient;
      OfWithout(sent, s, i);
      if i == s {
        NothingSent(l);
      } else {
        assert FromClient(local[i], Of(sent, i));
      }
    }
  }

  lemma {:induction false} NothingSent(l: Local)
    requires l == Opening(l.destination, l.sealedBefore, l.tasksBefore)
    ensures FromClient(l, [])
  {
  }

  lemma {:induction false} FromClientSends(was: Local, l: Local, cells: seq<Plain>, p: Plain)
    requires FromClient(was, cells) && l.phase != Registered && l.read == was.read && l.destination == was.destination
    requires was.pending == (if p.command == Data then p.data else []) + l.pending
    requires p.command == Begin ==> was.phase == Registered && p.data == l.destination + [0]
    ensures FromClient(l, cells + [p])
  {
    hide Bytes;
    BytesSnoc(cells, p);
    if p.command == Data {
      Regroup(Bytes(cells), p.data, l.pending);
    } else {
      assert was.pending == l.pending;
    }
  }

  /** A stream's own cell is sent; its local state moves on to match. */
  lemma {:induction false} SendingSends(local: map<StreamId, Local>, sent: seq<Plain>, p: Plain, l: Local)
    requires Sending(local, sent) && p.stream in local
    requires var was := local[p.stream];
             && l.destination == was.destination && l.read == was.read && l.phase != Registered
             && (p.command == Begin ==> was.phase == Registered && p.data == l.destination + [0])
             && was.pending == (if p.command == Data then p.data else []) + l.pending
    ensures Sending(local[p.stream := l], sent + [p])
  {
    hide FromClient, Of;
    var local', sent' := local[p.stream := l], sent + [p];
    forall s | s in local' ensures FromClient(local'[s], Of(sent', s)) {
      OfSnoc(sent, p, s);
      assert FromClient(local[s], Of(sent, s));
      if s == p.stream {
        FromClientSends(local[s], l, Of(sent, s), p);
      }
    }
  }

  /** Local state moves on without a cell. */
  lemma {:induction false} SendingStays(local: map<StreamId, Local>, sent: seq<Plain>, s: StreamId, l: Local,
      more: seq<byte>)
    requires Sending(local, sent) && s in local
    requires var was := local[s];
             && l.destination == was.destination && (l.phase == Registered ==> l == was.(inbox := l.inbox))
             && l.read == was.read + more && l.pending == was.pending + more
    ensures Sending(local[s := l], sent)
  {
    hide Of, Bytes;
    forall i | i in local[s := l] ensures FromClient(local[s := l][i], Of(sent, i)) {
      assert FromClient(local[i], Of(sent, i));
      if i == s {
        Regroup(Bytes(Of(sent, s)), local[s].pending, more);
      }
    }
  }

  /* The exit's receiving side. `current` are the tasks of the streams that hold their ids now. */

  ghost predicate FromExit(t: Task, cells: seq<Plain>) {
    t.written + t.queue <= Bytes(cells) && cells != []
  }

  ghost predicate Served(e: ExitStream, s: StreamId, tasks: seq<Task>, current: set<nat>, cells: seq<Plain>) {
    && e.task in current && e.task < |tasks| && tasks[e.task].stream == s
    && (tasks[e.task].live ==> tasks[e.task].written + tasks[e.task].queue == Bytes(cells))
    && cells != [] && cells[0].command == Begin && e.destination == TrimNuls(cells[0].data)
  }

  /** One task a stream; it hands its destination a prefix of the stream's bytes, and everything
      accepted for a registered stream with a live task is on its way there. */
  ghost predicate Serving(accepted: seq<Plain>, streams: map<StreamId, ExitStream>, tasks: seq<Task>,
      current: set<nat>) {
    && (forall t {:trigger t in current} :: t in current ==> t < |tasks|)
    && (forall t {:trigger FromExit(tasks[t], Of(accepted, tasks[t].stream))} ::
          t in current && t < |tasks| ==> FromExit(tasks[t], Of(accepted, tasks[t].stream)))
    && (forall t, t' {:trigger tasks[t], tasks[t']} ::
          t in current && t' in current && t != t' && t < |tasks| && t' < |tasks| ==>
            tasks[t].stream != tasks[t'].stream)
    && (forall t {:trigger tasks[t]} :: 0 <= t < |tasks| && tasks[t].live ==> t in current)
    && (forall s {:trigger Served(streams[s], s, tasks, current, Of(accepted, s))} ::
          s in streams ==> Served(streams[s], s, tasks, current, Of(accepted, s)))
  }

  /** The current tasks of all streams but one. */
  function TasksWithout(tasks: seq<Task>, current: set<nat>, s: StreamId): set<nat> {
    set t | t in current && t < |tasks| && tasks[t].stream != s
  }

  /** A stream that is quite over makes room for another with its id. */
  lemma {:induction false} ServingOpens(accepted: seq<Plain>, streams: map<StreamId, ExitStream>, tasks: seq<Task>,
                                        current: set<nat>, s: StreamId)
    requires Serving(accepted, streams, tasks, current) && s !in streams
    requires forall t {:trigger tasks[t]} :: 0 <= t < |tasks| && tasks[t].stream == s ==> !tasks[t].live
    ensures Serving(Without(accepted, s), streams, tasks, TasksWithout(tasks, current, s))
  {
    hide FromExit, Of;
    var current' := TasksWithout(tasks, current, s);
    forall t | t in current' && t < |tasks| ensures FromExit(tasks[t], Of(Without(accepted, s), tasks[t].stream)) {
      OfWithout(accepted, s, tasks[t].stream);
      assert FromExit(tasks[t], Of(accepted, tasks[t].stream));
    }
    forall i | i in streams ensures Served(streams[i], i, tasks, current', Of(Without(accepted, s), i)) {
      OfWithout(accepted, s, i);
      assert Served(streams[i], i, tasks, current, Of(accepted, i));
    }
  }

  lemma {:induction false} FromExitGrows(t: Task, cells: seq<Plain>, p: Plain)
    requires FromExit(t, cells)
    ensures FromExit(t, cells + [p])
  {
    BytesSnoc(cells, p);
  }

  /** A cell of another stream, or none with bytes, and perhaps a new task. */
  lemma {:induction false} ServedStays(e: ExitStream, s: StreamId, tasks: seq<Task>, more: seq<Task>, current: set<nat>,
                                       current': set<nat>, cells: seq<Plain>, p: Plain)
    requires Served(e, s, tasks, current, cells) && current <= current'
    ensures Served(e, s, tasks + more, current', cells)
    ensures p.command != Data ==> Served(e, s, tasks + more, current', cells + [p])
  {
    BytesSnoc(cells, p);
  }

  lemma {:induction false} BeginServed(p: Plain, tasks: seq<Task>, current: set<nat>)
    requires p.command == Begin
    ensures var tasks' := tasks + [Task(p.stream, true, [], [], [], [])];
            && Served(ExitStream(TrimNuls(p.data), |tasks|), p.stream, tasks', current + {|tasks|}, [p])
            && FromExit(tasks'[|tasks|], [p])
  {
    BytesSnoc([], p);
    assert [] + [p] == [p];
  }

  /** A refused BEGIN, or any other cell that changes no task. */
  lemma {:induction false} ServingIgnores(accepted: seq<Plain>, streams: map<StreamId, ExitStream>, tasks: seq<Task>,
                                          current: set<nat>, p: Plain)
    requires Serving(accepted, streams, tasks, current)
    requires p.command == Data && p.stream in streams ==>
               !(streams[p.stream].task < |tasks| && tasks[streams[p.stream].task].live)
    ensures Serving(accepted + [p], streams, tasks, current)
  {
    forall t | t in current && t < |tasks| ensures FromExit(tasks[t], Of(accepted + [p], tasks[t].stream)) {
      assert FromExit(tasks[t], Of(accepted, tasks[t].stream));
      OfSnoc(accepted, p, tasks[t].stream);
      FromExitGrows(tasks[t], Of(accepted, tasks[t].stream), p);
    }
    forall i | i in streams ensures Served(streams[i], i, tasks, current, Of(accepted + [p], i)) {
      assert Served(streams[i], i, tasks, current, Of(accepted, i));
      OfSnoc(accepted, p, i);
      BytesSnoc(Of(accepted, i), p);
    }
  }

  /** Tasks of other streams are not concerned. */
  lemma {:induction false} OtherTasks(accepted: seq<Plain>, streams: map<StreamId, ExitStream>, tasks: seq<Task>,
                                      current: set<nat>, p: Plain, t: nat)
    requires Serving(accepted, streams, tasks, current) && Of(accepted, p.stream) == [] && t in current
    ensures t < |tasks| && tasks[t].stream != p.stream && FromExit(tasks[t], Of(accepted + [p], tasks[t].stream))
  {
    hide Served;
    assert FromExit(tasks[t], Of(accepted, tasks[t].stream));
    OfSnoc(accepted, p, tasks[t].stream);
  }

  lemma {:induction false} OtherServed(accepted: seq<Plain>, streams: map<StreamId, ExitStream>, tasks: seq<Task>,
                                       current: set<nat>, p: Plain, i: StreamId, task: Task)
    requires Serving(accepted, streams, tasks, current) && i in streams && i != p.stream
    ensures Served(streams[i], i, tasks + [task], current + {|tasks|}, Of(accepted + [p], i))
  {
    hide FromExit;
    OfSnoc(accepted, p, i);
    assert Served(streams[i], i, tasks, current, Of(accepted, i));
    ServedStays(streams[i], i, tasks, [task], current, current + {|tasks|}, Of(accepted, i), p);
  }

  /** The destination answered: a new task for a stream none of whose cells came before. */
  lemma {:induction false} ServingConnects(accepted: seq<Plain>, streams: map<StreamId, ExitStream>, tasks: seq<Task>,
                                           current: set<nat>, p: Plain)
    requires Serving(accepted, streams, tasks, current) && p.command == Begin && Of(accepted, p.stream) == []
    ensures Serving(accepted + [p], streams[p.stream := ExitStream(TrimNuls(p.data), |tasks|)],
                    tasks + [Task(p.stream, true, [], [], [], [])], current + {|tasks|})
  {
    hide FromExit, Served, Of;
    var task := Task(p.stream, true, [], [], [], []);
    var tasks', current' := tasks + [task], current + {|tasks|};
    var streams' := streams[p.stream := ExitStream(TrimNuls(p.data), |tasks|)];
    OfSnoc(accepted, p, p.stream);
    assert [] + [p] == [p];
    BeginServed(p, tasks, current);
    forall t | t in current
      ensures t < |tasks| && tasks[t].stream != p.stream && FromExit(tasks[t], Of(accepted + [p], tasks[t].stream))
    {
      OtherTasks(accepted, streams, tasks, current, p, t);
    }
    forall t | t in current' && t < |tasks'| ensures FromExit(tasks'[t], Of(accepted + [p], tasks'[t].stream)) {
      assert t in current ==> FromExit(tasks[t], Of(accepted + [p], tasks[t].stream));
    }
    forall i | i in streams' ensures Served(streams'[i], i, tasks', current', Of(accepted + [p], i)) {
      if i != p.stream {
        OtherServed(accepted, streams, tasks, current, p, i, task);
      }
    }
  }

  /** A live task that takes a cell of its stream in is still exactly up to date. */
  lemma {:induction false} TaskQueues(t: Task, cells: seq<Plain>, p: Plain)
    requires p.command == Data && cells != [] && t.written + t.queue == Bytes(cells)
    ensures var t' := t.(queue := t.queue + p.data);
            FromExit(t', cells + [p]) && t'.written + t'.queue == Bytes(cells + [p])
  {
    BytesSnoc(cells, p);
    Regroup(t.written, t.queue, p.data);
  }

  /** What queueing for task `t0` leaves of every registered stream. */
  lemma {:induction false} ServedQueues(e: ExitStream, i: StreamId, tasks: seq<Task>, current: set<nat>,
                                        cells: seq<Plain>, t0: nat, p: Plain)
    requires Served(e, i, tasks, current, cells) && t0 < |tasks| && p.command == Data
    requires tasks[t0].stream == p.stream && (e.task == t0 <==> i == p.stream) && tasks[t0].live
    ensures Served(e, i, tasks[t0 := tasks[t0].(queue := tasks[t0].queue + p.data)], current,
                   if i == p.stream then cells + [p] else cells)
  {
    if i == p.stream {
      TaskQueues(tasks[t0], cells, p);
    }
  }

  lemma {:induction false} ServingQueues(accepted: seq<Plain>, s: ExitState, current: set<nat>, p: Plain)
    requires Serving(accepted, s.streams, s.tasks, current) && p.command == Data && HasLiveTask(s, p.stream)
    ensures Serving(accepted + [p], s.streams, Queue(s, p.stream, p.data).tasks, current)
  {
    hide Of, FromExit;
    var t0, tasks' := s.streams[p.stream].task, Queue(s, p.stream, p.data).tasks;
    var cells := Of(accepted, p.stream);
    assert Served(s.streams[p.stream], p.stream, s.tasks, current, cells);
    TaskQueues(s.tasks[t0], cells, p);
    forall t | t in current && t < |s.tasks| ensures FromExit(tasks'[t], Of(accepted + [p], tasks'[t].stream)) {
      assert FromExit(s.tasks[t], Of(accepted, s.tasks[t].stream));
      OfSnoc(accepted, p, s.tasks[t].stream);
      if t != t0 {
        assert s.tasks[t].stream != s.tasks[t0].stream;
      }
    }
    forall i | i in s.streams ensures Served(s.streams[i], i, tasks', current, Of(accepted + [p], i)) {
      assert Served(s.streams[i], i, s.tasks, current, Of(accepted, i));
      OfSnoc(accepted, p, i);
      hide Served;
      ServedQueues(s.streams[i], i, s.tasks, current, Of(accepted, i), t0, p);
    }
  }

  /** END: the stream is forgotten. */
  lemma {:induction false} ServingForgets(accepted: seq<Plain>, streams: map<StreamId, ExitStream>, tasks: seq<Task>,
                                          current: set<nat>, s: StreamId)
    requires Serving(accepted, streams, tasks, current)
    ensures Serving(accepted, streams - {s}, tasks, current)
  {
    hide FromExit, Served, Of;
    forall i | i in streams - {s} ensures Served((streams - {s})[i], i, tasks, current, Of(accepted, i)) {
      assert Served(streams[i], i, tasks, current, Of(accepted, i));
    }
  }

  /** A task works on what it has. */
  lemma {:induction false} ServingWorks(accepted: seq<Plain>, streams: map<StreamId, ExitStream>, tasks: seq<Task>,
                                        current: set<nat>, t: nat, task: Task)
    requires Serving(accepted, streams, tasks, current) && t < |tasks|
    requires task.stream == tasks[t].stream && task.written + task.queue == tasks[t].written + tasks[t].queue
    requires task.live ==> tasks[t].live
    ensures Serving(accepted, streams, tasks[t := task], current)
  {
    hide Of, Bytes;
    var tasks' := tasks[t := task];
    forall i | i in current && i < |tasks| ensures FromExit(tasks'[i], Of(accepted, tasks'[i].stream)) {
      assert FromExit(tasks[i], Of(accepted, tasks[i].stream));
    }
    forall s | s in streams ensures Served(streams[s], s, tasks', current, Of(accepted, s)) {
      assert Served(streams[s], s, tasks, current, Of(accepted, s));
    }
  }

  /* The exit's sending side. */

  ghost predicate ConnectedBy(s: StreamId, cells: seq<Plain>, n: nat) {
    exists j {:trigger cells[j]} :: 0 <= j < |cells| && j < n && cells[j] == Plain(s, Connected, [])
  }

  ghost predicate HasTask(tasks: seq<Task>, current: set<nat>, s: StreamId) {
    exists t {:trigger tasks[t]} :: t in current && 0 <= t < |tasks| && tasks[t].stream == s
  }

  /** What was put into DATA cells and what is still to be put there make up what was read from the destination. */
  ghost predicate Fetched(t: Task, cells: seq<Plain>) {
    Bytes(cells) + t.outbox == t.fetched && ConnectedBy(t.stream, cells, |cells|)
  }

  /** CONNECTED comes with a task, and DATA after it. */
  ghost predicate Orderly(s: StreamId, cells: seq<Plain>, plugged: bool) {
    forall i {:trigger cells[i]} :: 0 <= i < |cells| ==>
      && (cells[i].command == Connected || cells[i].command == Data ==> plugged)
      && (cells[i].command == Data ==> ConnectedBy(s, cells, i))
  }

  ghost predicate Emitting(emitted: seq<Plain>, tasks: seq<Task>, current: set<nat>) {
    && (forall t {:trigger Fetched(tasks[t], Of(emitted, tasks[t].stream))} ::
          t in current && t < |tasks| ==> Fetched(tasks[t], Of(emitted, tasks[t].stream)))
    && (forall s {:trigger Orderly(s, Of(emitted, s), HasTask(tasks, current, s))} ::
          Orderly(s, Of(emitted, s), HasTask(tasks, current, s)))
  }

  lemma {:induction false} ConnectedGrows(s: StreamId, cells: seq<Plain>, p: Plain, n: nat)
    requires ConnectedBy(s, cells, n)
    ensures ConnectedBy(s, cells + [p], n) && ConnectedBy(s, cells + [p], |cells| + 1)
  {
    var j :| 0 <= j < |cells| && j < n && cells[j] == Plain(s, Connected, []);
    assert (cells + [p])[j] == cells[j];
  }

  lemma {:induction false} FetchedGrows(t: Task, cells: seq<Plain>, p: Plain)
    requires Fetched(t, cells) && p.command != Data
    ensures Fetched(t, cells + [p])
  {
    BytesSnoc(cells, p);
    ConnectedGrows(t.stream, cells, p, |cells|);
  }

  lemma {:induction false} FetchedChunk(t: Task, cells: seq<Plain>, n: nat)
    requires Fetched(t, cells) && n <= |t.outbox|
    ensures Fetched(t.(outbox := t.outbox[n..]), cells + [Plain(t.stream, Data, t.outbox[..n])])
  {
    var p := Plain(t.stream, Data, t.outbox[..n]);
    BytesSnoc(cells, p);
    assert t.outbox == p.data + t.outbox[n..];
    Regroup(Bytes(cells), p.data, t.outbox[n..]);
    ConnectedGrows(t.stream, cells, p, |cells|);
  }

  lemma {:induction false} OrderlyGrows(s: StreamId, cells: seq<Plain>, p: Plain, was: bool, plugged: bool)
    requires Orderly(s, cells, was) && (was ==> plugged)
    requires p.command == Connected || p.command == Data ==> plugged
    requires p.command == Data ==> ConnectedBy(s, cells, |cells|)
    ensures Orderly(s, cells + [p], plugged)
  {
    forall i | 0 <= i < |cells + [p]| && (cells + [p])[i].command == Data ensures ConnectedBy(s, cells + [p], i) {
      if i < |cells| {
        assert cells[i].command == Data;
        ConnectedGrows(s, cells, p, i);
      } else {
        ConnectedGrows(s, cells, p, |cells|);
      }
    }
    forall i | 0 <= i < |cells + [p]| && ((cells + [p])[i].command == Connected || (cells + [p])[i].command == Data)
      ensures plugged
    {
      assert i < |cells| ==> (cells + [p])[i] == cells[i];
    }
  }

  lemma {:induction false} EmittingOpens(emitted: seq<Plain>, tasks: seq<Task>, current: set<nat>, s: StreamId)
    requires Emitting(emitted, tasks, current)
    ensures Emitting(Without(emitted, s), tasks, TasksWithout(tasks, current, s))
  {
    hide Fetched, Of;
    var current' := TasksWithout(tasks, current, s);
    forall t | t in current' && t < |tasks| ensures Fetched(tasks[t], Of(Without(emitted, s), tasks[t].stream)) {
      OfWithout(emitted, s, tasks[t].stream);
      assert Fetched(tasks[t], Of(emitted, tasks[t].stream));
    }
    forall i: StreamId ensures Orderly(i, Of(Without(emitted, s), i), HasTask(tasks, current', i)) {
      OfWithout(emitted, s, i);
      if i != s {
        assert Orderly(i, Of(emitted, i), HasTask(tasks, current, i));
        SameTasks(tasks, current, s, i);
      }
    }
  }

  lemma {:induction false} SameTasks(tasks: seq<Task>, current: set<nat>, s: StreamId, i: StreamId)
    requires i != s
    ensures HasTask(tasks, TasksWithout(tasks, current, s), i) == HasTask(tasks, current, i)
  {
    if HasTask(tasks, current, i) {
      var t :| t in current && 0 <= t < |tasks| && tasks[t].stream == i;
      assert t in TasksWithout(tasks, current, s);
    }
  }

  /** A cell that is neither DATA nor CONNECTED, such as every other answer of the exit to a message. */
  lemma {:induction false} EmittingAnswers(emitted: seq<Plain>, tasks: seq<Task>, current: set<nat>, p: Plain)
    requires Emitting(emitted, tasks, current) && p.command != Data && p.command != Connected
    ensures Emitting(emitted + [p], tasks, current)
  {
    hide Fetched, Of, HasTask, Orderly;
    forall t | t in current && t < |tasks| ensures Fetched(tasks[t], Of(emitted + [p], tasks[t].stream)) {
      assert Fetched(tasks[t], Of(emitted, tasks[t].stream));
      OfSnoc(emitted, p, tasks[t].stream);
      FetchedGrows(tasks[t], Of(emitted, tasks[t].stream), p);
    }
    forall s: StreamId ensures Orderly(s, Of(emitted + [p], s), HasTask(tasks, current, s)) {
      assert Orderly(s, Of(emitted, s), HasTask(tasks, current, s));
      OfSnoc(emitted, p, s);
      OrderlyGrows(s, Of(emitted, s), p, HasTask(tasks, current, s), HasTask(tasks, current, s));
    }
  }

  lemma {:induction false} SameStreams(tasks: seq<Task>, tasks': seq<Task>, current: set<nat>, current': set<nat>,
      s: StreamId)
    requires |tasks| <= |tasks'| && current <= current'
    requires forall t {:trigger tasks'[t]} :: 0 <= t < |tasks| ==> tasks'[t].stream == tasks[t].stream
    ensures HasTask(tasks, current, s) ==> HasTask(tasks', current', s)
  {
    if HasTask(tasks, current, s) {
      var t :| t in current && 0 <= t < |tasks| && tasks[t].stream == s;
      assert tasks'[t].stream == s;
    }
  }

  lemma {:induction false} OrderlyWeakens(s: StreamId, cells: seq<Plain>, was: bool, plugged: bool)
    requires Orderly(s, cells, was) && (was ==> plugged)
    ensures Orderly(s, cells, plugged)
  {
  }

  /** A task that has sent or read nothing else than it says. */
  lemma {:induction false} EmittingWorks(emitted: seq<Plain>, tasks: seq<Task>, current: set<nat>, t: nat, task: Task,
      more: seq<byte>)
    requires Emitting(emitted, tasks, current) && t < |tasks| && task.stream == tasks[t].stream
    requires task.outbox == tasks[t].outbox + more && task.fetched == tasks[t].fetched + more
    ensures Emitting(emitted, tasks[t := task], current)
  {
    hide Of, Bytes, HasTask, ConnectedBy, Orderly;
    var tasks' := tasks[t := task];
    forall i | i in current && i < |tasks| ensures Fetched(tasks'[i], Of(emitted, tasks'[i].stream)) {
      assert Fetched(tasks[i], Of(emitted, tasks[i].stream));
      if i == t {
        Regroup(Bytes(Of(emitted, task.stream)), tasks[t].outbox, more);
      }
    }
    forall s: StreamId ensures Orderly(s, Of(emitted, s), HasTask(tasks', current, s)) {
      assert Orderly(s, Of(emitted, s), HasTask(tasks, current, s));
      SameStreams(tasks, tasks', current, current, s);
      OrderlyWeakens(s, Of(emitted, s), HasTask(tasks, current, s), HasTask(tasks', current, s));
    }
  }

  lemma {:induction false} NoBytes(s: StreamId, cells: seq<Plain>, n: nat)
    requires Orderly(s, cells, false) && n <= |cells|
    ensures Bytes(cells[..n]) == []
  {
    if n > 0 {
      NoBytes(s, cells, n - 1);
      assert cells[..n] == cells[..n - 1] + [cells[n - 1]];
      BytesSnoc(cells[..n - 1], cells[n - 1]);
    }
  }

  lemma {:induction false} FetchedNew(s: StreamId, cells: seq<Plain>)
    requires Orderly(s, cells, false)
    ensures Fetched(Task(s, true, [], [], [], []), cells + [Plain(s, Connected, [])])
  {
    NoBytes(s, cells, |cells|);
    assert cells[..|cells|] == cells;
    BytesSnoc(cells, Plain(s, Connected, []));
    assert (cells + [Plain(s, Connected, [])])[|cells|] == Plain(s, Connected, []);
  }

  lemma {:induction false} OrderlyOf(emitted: seq<Plain>, tasks: seq<Task>, current: set<nat>, s: StreamId)
    requires Emitting(emitted, tasks, current)
    ensures Orderly(s, Of(emitted, s), HasTask(tasks, current, s))
  {
    hide Fetched, Of, HasTask, Orderly;
  }

  /** A new task, its CONNECTED sealed in the same step, for a stream that had none. */
  lemma {:induction false} EmittingConnects(emitted: seq<Plain>, tasks: seq<Task>, current: set<nat>, s: StreamId)
    requires Emitting(emitted, tasks, current) && !HasTask(tasks, current, s) && |tasks| !in current
    ensures Emitting(emitted + [Plain(s, Connected, [])], tasks + [Task(s, true, [], [], [], [])], current + {|tasks|})
  {
    hide Fetched, Of, Orderly;
    var p, tasks', current' := Plain(s, Connected, []), tasks + [Task(s, true, [], [], [], [])], current + {|tasks|};
    var emitted' := emitted + [p];
    OrderlyOf(emitted, tasks, current, s);
    FetchedNew(s, Of(emitted, s));
    OfSnoc(emitted, p, s);
    assert tasks'[|tasks|].stream == s;
    forall t | t in current' && t < |tasks'| ensures Fetched(tasks'[t], Of(emitted', tasks'[t].stream)) {
      if t in current && t < |tasks| {
        assert Fetched(tasks[t], Of(emitted, tasks[t].stream)) && tasks[t].stream != s;
        OfSnoc(emitted, p, tasks[t].stream);
      }
    }
    forall i: StreamId ensures Orderly(i, Of(emitted', i), HasTask(tasks', current', i)) {
      assert Orderly(i, Of(emitted, i), HasTask(tasks, current, i));
      OfSnoc(emitted, p, i);
      SameStreams(tasks, tasks', current, current', i);
      if i == s {
        OrderlyGrows(i, Of(emitted, i), p, HasTask(tasks, current, i), HasTask(tasks', current', i));
      } else {
        OrderlyWeakens(i, Of(emitted, i), HasTask(tasks, current, i), HasTask(tasks', current', i));
      }
    }
  }

  /** A task puts the front of its read in a DATA cell. */
  lemma {:induction false} EmittingChunk(emitted: seq<Plain>, tasks: seq<Task>, current: set<nat>, t: nat, n: nat)
    requires Emitting(emitted, tasks, current) && t < |tasks| && t in current && n <= |tasks[t].outbox|
    requires forall i, j {:trigger tasks[i], tasks[j]} ::
               i in current && j in current && i != j && i < |tasks| && j < |tasks| ==>
                 tasks[i].stream != tasks[j].stream
    ensures Emitting(emitted + [Plain(tasks[t].stream, Data, tasks[t].outbox[..n])],
                     tasks[t := tasks[t].(outbox := tasks[t].outbox[n..])], current)
  {
    hide Of, Bytes, HasTask, Orderly;
    var p := Plain(tasks[t].stream, Data, tasks[t].outbox[..n]);
    var emitted', tasks' := emitted + [p], tasks[t := tasks[t].(outbox := tasks[t].outbox[n..])];
    assert Fetched(tasks[t], Of(emitted, p.stream));
    FetchedChunk(tasks[t], Of(emitted, p.stream), n);
    OfSnoc(emitted, p, p.stream);
    forall i | i in current && i < |tasks| ensures Fetched(tasks'[i], Of(emitted', tasks'[i].stream)) {
      hide Fetched;
      if i != t {
        assert Fetched(tasks[i], Of(emitted, tasks[i].stream));
        assert tasks[i].stream != p.stream;
        OfSnoc(emitted, p, tasks[i].stream);
      }
    }
    TaskIsThere(tasks', current, t);
    forall s: StreamId ensures Orderly(s, Of(emitted', s), HasTask(tasks', current, s)) {
      assert Orderly(s, Of(emitted, s), HasTask(tasks, current, s));
      OfSnoc(emitted, p, s);
      SameStreams(tasks, tasks', current, current, s);
      if s == p.stream {
        OrderlyGrows(s, Of(emitted, s), p, HasTask(tasks, current, s), HasTask(tasks', current, s));
      } else {
        OrderlyWeakens(s, Of(emitted, s), HasTask(tasks, current, s), HasTask(tasks', current, s));
      }
    }
  }

  lemma {:induction false} TaskIsThere(tasks: seq<Task>, current: set<nat>, t: nat)
    requires t in current && t < |tasks|
    ensures HasTask(tasks, current, tasks[t].stream)
  {
  }

  /* The client's receiving side. */

  ghost predicate Received(l: Local, cells: seq<Plain>, registered: bool) {
    && l.inbox <= cells && (registered ==> l.inbox == cells)
    && l.cursor <= |l.inbox|
    && l.written <= Bytes(l.inbox[..l.cursor])
    && (l.phase == Registered || l.phase == Waiting ==> l.cursor == 0)
    && (l.phase == Relaying ==>
          && l.written == Bytes(l.inbox[..l.cursor]) && 0 < l.cursor && l.inbox[0].command == Connected
          && forall i {:trigger l.inbox[i]} :: 0 <= i < l.cursor ==> l.inbox[i].command != End)
  }

  /** A registered stream's channel was given every cell of the stream, any other a prefix of them. */
  ghost predicate Receiving(local: map<StreamId, Local>, senders: set<StreamId>, delivered: seq<Plain>) {
    && senders <= local.Keys
    && forall s {:trigger Received(local[s], Of(delivered, s), s in senders)} ::
         s in local ==> Received(local[s], Of(delivered, s), s in senders)
  }

  lemma {:induction false} ReceivingStays(local: map<StreamId, Local>, senders: set<StreamId>, delivered: seq<Plain>,
                                          s: StreamId, l: Local, senders': set<StreamId>)
    requires Receiving(local, senders, delivered) && senders' <= senders && s in local
    requires Received(l, Of(delivered, s), s in senders')
    ensures Receiving(local[s := l], senders', delivered)
  {
    forall i | i in local[s := l] ensures Received(local[s := l][i], Of(delivered, i), i in senders') {
      assert Received(local[i], Of(delivered, i), i in senders);
    }
  }

  lemma {:induction false} ReceivingOpens(local: map<StreamId, Local>, senders: set<StreamId>, delivered: seq<Plain>,
                                          s: StreamId, l: Local)
    requires Receiving(local, senders, delivered) && l == Opening(l.destination, l.sealedBefore, l.tasksBefore)
    ensures Receiving(local[s := l], senders + {s}, Without(delivered, s))
  {
    hide Of;
    var local' := local[s := l];
    forall i | i in local' ensures Received(local'[i], Of(Without(delivered, s), i), i in senders + {s}) {
      OfWithout(delivered, s, i);
      if i != s {
        assert Received(local[i], Of(delivered, i), i in senders);
      }
    }
  }

  /** Closing the circuit forgets every channel. */
  lemma {:induction false} ReceivingCloses(local: map<StreamId, Local>, senders: set<StreamId>, delivered: seq<Plain>)
    requires Receiving(local, senders, delivered)
    ensures Receiving(local, {}, delivered)
  {
    forall i | i in local ensures Received(local[i], Of(delivered, i), i in {}) {
      assert Received(local[i], Of(delivered, i), i in senders);
    }
  }

  /** A cell on its stream's channel, if the stream is known here. */
  function Handed(local: map<StreamId, Local>, p: Plain): map<StreamId, Local> {
    if p.stream in local then local[p.stream := local[p.stream].(inbox := local[p.stream].inbox + [p])] else local
  }

  /** The reader hands a cell to its stream's channel if there is one. */
  lemma {:induction false} ReceivingDelivers(local: map<StreamId, Local>, senders: set<StreamId>,
      delivered: seq<Plain>, p: Plain)
    requires Receiving(local, senders, delivered)
    ensures Receiving(if p.stream in senders then Handed(local, p) else local, senders, delivered + [p])
  {
    var local' := if p.stream in senders then Handed(local, p) else local;
    forall i | i in local' ensures Received(local'[i], Of(delivered + [p], i), i in senders) {
      var l := local[i];
      assert Received(l, Of(delivered, i), i in senders);
      OfSnoc(delivered, p, i);
      assert (l.inbox + [p])[..l.cursor] == l.inbox[..l.cursor];
    }
  }

  /** The first cell off the channel settles whether the handler relays. */
  lemma {:induction false} WaitingTakes(l: Local, cells: seq<Plain>, registered: bool)
    requires Received(l, cells, registered) && l.cursor < |l.inbox| && l.phase == Waiting
    ensures Received(TakeCell(l), cells, registered)
  {
    assert l.inbox[..0] == [] && l.inbox[..1] == [] + [l.inbox[0]];
    BytesSnoc([], l.inbox[0]);
  }

  lemma {:induction false} RelayingTakes(l: Local, cells: seq<Plain>, registered: bool)
    requires Received(l, cells, registered) && l.cursor < |l.inbox| && l.phase == Relaying
    ensures Received(TakeCell(l), cells, registered)
  {
    hide Bytes;
    assert l.inbox[..l.cursor + 1] == l.inbox[..l.cursor] + [l.inbox[l.cursor]];
    BytesSnoc(l.inbox[..l.cursor], l.inbox[l.cursor]);
  }

  /** The handler takes a cell off its channel. */
  lemma {:induction false} ReceivedTakes(l: Local, cells: seq<Plain>, registered: bool)
    requires Received(l, cells, registered) && l.cursor < |l.inbox| && (l.phase == Waiting || l.phase == Relaying)
    ensures Received(TakeCell(l), cells, registered)
  {
    hide Received, TakeCell;
    if l.phase == Waiting {
      WaitingTakes(l, cells, registered);
    } else {
      RelayingTakes(l, cells, registered);
    }
  }
}
