/** End to end: over every run, each stream is a pair of byte pipes. */
module Pipes {
  import opened Common
  import opened Cells
  import opened Crypto
  import opened Pipeline
  import opened Relay
  import opened Exit
  import opened Client
  import opened Network
  import opened Sync
  import opened Runs
  import opened Streams
  import opened Hearing

  /** The logs, but of every stream id only the cells of the stream that holds it now. */
  datatype Books = Books(accepted: seq<Plain>, emitted: seq<Plain>, delivered: seq<Plain>)

  /** The tasks of the streams that hold their ids now. */
  function Current(local: map<StreamId, Local>, tasks: seq<Task>): set<nat> {
    set t | 0 <= t < |tasks| && tasks[t].stream in local && local[tasks[t].stream].tasksBefore <= t
  }

  /** Of each stream the books hold exactly what was sealed for it since it was opened. */
  ghost predicate Dated(local: map<StreamId, Local>, all: seq<Plain>, emitted: seq<Plain>, tasks: seq<Task>) {
    && Inside(emitted, local.Keys)
    && forall s {:trigger local[s]} :: s in local ==>
         && local[s].tasksBefore <= |tasks| && local[s].sealedBefore <= |all|
         && Of(emitted, s) == Of(all[local[s].sealedBefore..], s)
  }

  ghost predicate Forward(w: World, b: Books) {
    && |w.accepted| <= |w.sent|
    && Sending(w.local, b.accepted + w.sent[|w.accepted|..])
    && Serving(b.accepted, w.exit.streams, w.exit.tasks, Current(w.local, w.exit.tasks))
  }

  ghost predicate Outward(w: World, b: Books) {
    && Emitting(b.emitted, w.exit.tasks, Current(w.local, w.exit.tasks))
    && Dated(w.local, w.emitted, b.emitted, w.exit.tasks)
  }

  ghost predicate Homeward(w: World, b: Books) {
    && |w.delivered| <= |w.emitted|
    && b.emitted == b.delivered + w.emitted[|w.delivered|..]
    && Receiving(w.local, w.client.senders, b.delivered)
  }

  /** The invariant on streams. What the client received is claimed only if it is known to accept a
      prefix of what was sealed (`ear`). */
  ghost predicate Piped(w: World, b: Books, ear: bool) {
    Forward(w, b) && Outward(w, b) && (ear ==> Homeward(w, b))
  }

  lemma {:induction false} BuiltPiped(pairs: seq<Pair>, ear: bool)
    requires |pairs| >= 2
    ensures Piped(Built(pairs), Books([], [], []), ear)
  {
  }

  /** The stream that held the id before is quite over: its handler has unregistered it, the exit serves
      it no more, and none of its cells is on the way. */
  ghost predicate Free(w: World, s: StreamId) {
    s in w.local ==>
      && w.local[s].phase == Gone
      && s !in w.exit.streams
      && (forall t {:trigger w.exit.tasks[t]} ::
            0 <= t < |w.exit.tasks| && w.exit.tasks[t].stream == s ==> !w.exit.tasks[t].live)
      && |w.accepted| <= |w.sent| && Absent(w.sent[|w.accepted|..], s)
      && (|w.delivered| <= |w.emitted| ==> Absent(w.emitted[|w.delivered|..], s))
  }

  /** Of a run: no id is handed out while the stream that held it before is not over. */
  ghost predicate SpareIds(x: Circ, w: World, actions: seq<Action>)
    decreases |actions|
  {
    actions != [] && Enabled(x, w, actions[0]) ==>
      && (actions[0].OpenStream? ==> Free(w, w.client.nextStream))
      && SpareIds(x, Apply(x, w, actions[0]), actions[1..])
  }

  /* Opening a stream. */

  function Cleared(b: Books, s: StreamId): Books {
    Books(Without(b.accepted, s), Without(b.emitted, s), Without(b.delivered, s))
  }

  lemma {:induction false} InsideAbsent(a: seq<Plain>, b: seq<Plain>, ids: set<StreamId>, s: StreamId)
    requires Inside(a + b, ids) && s !in ids
    ensures Absent(a, s) && Absent(b, s)
  {
    forall k | 0 <= k < |a| ensures a[k].stream != s {
      assert (a + b)[k].stream in ids;
    }
    forall k | 0 <= k < |b| ensures b[k].stream != s {
      assert (a + b)[|a| + k].stream in ids;
    }
  }

  /** The exit serves streams that are open. */
  lemma {:induction false} ServedIsOpen(w: World, b: Books, s: StreamId)
    requires Forward(w, b) && s in w.exit.streams
    ensures s in w.local
  {
    hide Sending, FromExit;
    assert Served(w.exit.streams[s], s, w.exit.tasks, Current(w.local, w.exit.tasks), Of(b.accepted, s));
  }

  /** Of the new holder of an id nothing is on the way, whether the id is new or free again. */
  lemma {:induction false} NothingAfoot(w: World, b: Books, s: StreamId)
    requires Forward(w, b) && Outward(w, b) && Free(w, s)
    ensures Absent(w.sent[|w.accepted|..], s)
    ensures s !in w.exit.streams
    ensures forall t {:trigger w.exit.tasks[t]} ::
              0 <= t < |w.exit.tasks| && w.exit.tasks[t].stream == s ==> !w.exit.tasks[t].live
  {
    if s !in w.local {
      InsideAbsent(b.accepted, w.sent[|w.accepted|..], w.local.Keys, s);
      if s in w.exit.streams {
        ServedIsOpen(w, b, s);
      }
      forall t | 0 <= t < |w.exit.tasks| && w.exit.tasks[t].stream == s ensures !w.exit.tasks[t].live {
        assert w.exit.tasks[t].live ==> t in Current(w.local, w.exit.tasks);
      }
    }
  }

  lemma {:induction false} CurrentOpens(local: map<StreamId, Local>, tasks: seq<Task>, s: StreamId, l: Local)
    requires l.tasksBefore == |tasks|
    ensures Current(local[s := l], tasks) == TasksWithout(tasks, Current(local, tasks), s)
  {
  }

  lemma {:induction false} DatedOpens(local: map<StreamId, Local>, all: seq<Plain>, emitted: seq<Plain>,
      tasks: seq<Task>, s: StreamId, l: Local)
    requires Dated(local, all, emitted, tasks) && l.tasksBefore == |tasks| && l.sealedBefore == |all|
    ensures Dated(local[s := l], all, Without(emitted, s), tasks)
  {
    WithoutInside(emitted, s, local.Keys);
    forall i | i in local[s := l] ensures Of(Without(emitted, s), i) == Of(all[local[s := l][i].sealedBefore..], i) {
      OfWithout(emitted, s, i);
      if i != s {
        assert Of(emitted, i) == Of(all[local[i].sealedBefore..], i);
      }
    }
  }

  lemma {:induction false} HomewardOpens(w: World, b: Books, s: StreamId, l: Local, ear: bool)
    requires Outward(w, b) && Homeward(w, b) && Free(w, s)
    requires l == Opening(l.destination, l.sealedBefore, l.tasksBefore)
    ensures var d := Cleared(b, s);
            && d.emitted == d.delivered + w.emitted[|w.delivered|..]
            && Receiving(w.local[s := l], w.client.senders + {s}, d.delivered)
  {
    hide Emitting, Receiving;
    var rest := w.emitted[|w.delivered|..];
    if s !in w.local {
      InsideAbsent(b.delivered, rest, w.local.Keys, s);
    }
    WithoutAppend(b.delivered, rest, s);
    WithoutAbsent(rest, s);
    ReceivingOpens(w.local, w.client.senders, b.delivered, s, l);
  }

  lemma {:induction false} PipedOpens(x: Circ, w: World, destination: seq<byte>, b: Books, ear: bool)
    requires Piped(w, b, ear) && Enabled(x, w, OpenStream(destination)) && Free(w, w.client.nextStream)
    ensures Piped(Apply(x, w, OpenStream(destination)), Cleared(b, w.client.nextStream), ear)
  {
    var s, l := w.client.nextStream, Opening(destination, |w.emitted|, |w.exit.tasks|);
    var rest := w.sent[|w.accepted|..];
    NothingAfoot(w, b, s);
    if ear {
      HomewardOpens(w, b, s, l, ear);
    }
    hide Sending, Serving, Emitting, Receiving, Dated, Current, Free;
    SendingOpens(w.local, b.accepted + rest, s, l);
    WithoutAppend(b.accepted, rest, s);
    WithoutAbsent(rest, s);
    ServingOpens(b.accepted, w.exit.streams, w.exit.tasks, Current(w.local, w.exit.tasks), s);
    EmittingOpens(b.emitted, w.exit.tasks, Current(w.local, w.exit.tasks), s);
    CurrentOpens(w.local, w.exit.tasks, s, l);
    DatedOpens(w.local, w.emitted, b.emitted, w.exit.tasks, s, l);
  }

  /* One stream's local state moves on. */

  lemma {:induction false} LocalKeeps(local: map<StreamId, Local>, all: seq<Plain>, emitted: seq<Plain>,
      tasks: seq<Task>, s: StreamId, l: Local)
    requires Dated(local, all, emitted, tasks) && s in local
    requires l.tasksBefore == local[s].tasksBefore && l.sealedBefore == local[s].sealedBefore
    ensures Dated(local[s := l], all, emitted, tasks) && Current(local[s := l], tasks) == Current(local, tasks)
  {
    hide Of;
    assert local[s := l].Keys == local.Keys;
    forall i | i in local[s := l] ensures Of(emitted, i) == Of(all[local[s := l][i].sealedBefore..], i) {
      assert Of(emitted, i) == Of(all[local[i].sealedBefore..], i);
    }
  }

  /** With its channel left alone. */
  lemma {:induction false} ReceivingMoves(local: map<StreamId, Local>, senders: set<StreamId>, delivered: seq<Plain>,
                                          s: StreamId, l: Local, senders': set<StreamId>)
    requires Receiving(local, senders, delivered) && s in local && senders' <= senders
    requires var was := local[s];
             && l.inbox == was.inbox && l.cursor == was.cursor && l.written == was.written
             && (l.phase == was.phase || (was.phase == Registered && l.phase == Waiting) || l.phase == Ending
                 || l.phase == Ended || l.phase == Gone)
    ensures Receiving(local[s := l], senders', delivered)
  {
    hide Of;
    assert Received(local[s], Of(delivered, s), s in senders);
    ReceivingStays(local, senders, delivered, s, l, senders');
  }

  lemma {:induction false} SendsOnly(x: Circ, w: World, p: Plain)
    requires Shape(w)
    ensures var w' := ClientSends(x, w, p);
            && w'.sent == w.sent + [p] && w'.client.nextStream == w.client.nextStream
            && w'.client.senders == w.client.senders && w'.streams == w.streams
            && w' == w.(client := w'.client, up := w'.up, sent := w'.sent)
  {
  }

  lemma {:induction false} PipedSends(x: Circ, w: World, a: Action, b: Books, ear: bool)
    requires Piped(w, b, ear) && Enabled(x, w, a) && (a.SendBegin? || a.SendChunk? || a.SendEnd?)
    ensures Piped(Apply(x, w, a), b, ear)
  {
    hide Sending, Serving, Emitting, Receiving, Dated, Current, ClientSends, Apply;
    SendTurns(x, w, a);
    hide Enabled;
    var s, w', p, rest := a.stream, Apply(x, w, a), SentBy(w, a), w.sent[|w.accepted|..];
    SendsOnly(x, w, p);
    SendingSends(w.local, b.accepted + rest, p, w'.local[s]);
    Regroup(b.accepted, rest, [p]);
    assert w'.sent[|w.accepted|..] == rest + [p];
    LocalKeeps(w.local, w.emitted, b.emitted, w.exit.tasks, s, w'.local[s]);
    if ear {
      ReceivingMoves(w.local, w.client.senders, b.delivered, s, w'.local[s], w.client.senders);
    }
  }

  lemma {:induction false} PipedLocal(x: Circ, w: World, a: Action, b: Books, ear: bool)
    requires Piped(w, b, ear) && Enabled(x, w, a) && (a.GiveUp? || a.ReadSocks? || a.TakeInbox? || a.Unregister?)
    ensures Piped(Apply(x, w, a), b, ear)
  {
    hide Sending, Serving, Emitting, Receiving, Dated, Current;
    var s, w' := a.stream, Apply(x, w, a);
    var was, l, more := w.local[s], w'.local[s], if a.ReadSocks? then a.bytes else [];
    assert l.read == was.read + more && l.pending == was.pending + more;
    SendingStays(w.local, b.accepted + w.sent[|w.accepted|..], s, l, more);
    LocalKeeps(w.local, w.emitted, b.emitted, w.exit.tasks, s, l);
    if ear {
      if a.TakeInbox? {
        TakesKeeps(w.local, w.client.senders, b.delivered, s);
      } else {
        ReceivingMoves(w.local, w.client.senders, b.delivered, s, l, w'.client.senders);
      }
    }
  }

  lemma {:induction false} TakesKeeps(local: map<StreamId, Local>, senders: set<StreamId>, delivered: seq<Plain>,
      s: StreamId)
    requires Receiving(local, senders, delivered) && s in local && local[s].cursor < |local[s].inbox|
    requires local[s].phase == Waiting || local[s].phase == Relaying
    ensures Receiving(local[s := TakeCell(local[s])], senders, delivered)
  {
    hide Received, TakeCell, Of;
    assert Received(local[s], Of(delivered, s), s in senders);
    ReceivedTakes(local[s], Of(delivered, s), s in senders);
    ReceivingStays(local, senders, delivered, s, TakeCell(local[s]), senders);
  }

  /* The exit's turn. */

  function AsSeq<T>(o: Option<T>): seq<T> {
    if o.Some? then [o.value] else []
  }

  /** The exit serves exactly the next cell the client sent. */
  lemma {:induction false} ExitServes(x: Circ, w: World, dial: Dial, pairs: seq<Pair>)
    requires Lockstep(x, w, pairs) && CanExitTake(x, w, dial) && IsTraffic(w.up[|w.up| - 1][0])
    ensures |w.accepted| < |w.sent| && w.accepted <= w.sent
    ensures var w', p := ExitTakes(x, w, dial), w.sent[|w.accepted|];
            && w'.accepted == w.accepted + [p]
            && w'.exit.streams == Serve(w.exit, p, dial).streams && w'.exit.tasks == Serve(w.exit, p, dial).tasks
            && w'.emitted == w.emitted + AsSeq(Answer(w.exit, p, dial))
            && !(p.command == Begin && dial.NotUtf8?)
  {
    hide InSync, DownSync, Transcript, Layer, Frame;
    AllUpTake(x, w.up, |w.up| - 1);
    ExitOpens(x, w, pairs);
    ExitEffect(x, w.exit, w.up[|w.up| - 1][0], dial);
  }

  /** What the exit's turn leaves alone; PADDING leaves everything. */
  lemma {:induction false} ExitKeeps(x: Circ, w: World, dial: Dial, pairs: seq<Pair>)
    requires Lockstep(x, w, pairs) && CanExitTake(x, w, dial)
    ensures var w' := ExitTakes(x, w, dial);
            && w'.local == w.local && w'.client == w.client && w'.sent == w.sent && w'.streams == w.streams
            && w'.delivered == w.delivered && w'.raced == w.raced
            && (!IsTraffic(w.up[|w.up| - 1][0]) ==>
                  w'.accepted == w.accepted && w'.begun == w.begun && w'.emitted == w.emitted && w'.exit == w.exit)
  {
    hide UpSync, DownSync, Open, Answer, Serve;
    AllUpTake(x, w.up, |w.up| - 1);
  }

  /** The next cell is of an open stream, and a BEGIN is the first of its stream. */
  lemma {:induction false} NextIsKnown(local: map<StreamId, Local>, accepted: seq<Plain>, p: Plain, rest: seq<Plain>)
    requires Sending(local, accepted + ([p] + rest))
    ensures p.stream in local && (p.command == Begin ==> Of(accepted, p.stream) == [])
  {
    var sent, s := accepted + ([p] + rest), p.stream;
    assert sent[|accepted|] == p;
    assert FromClient(local[s], Of(sent, s));
    OfAppend(accepted, [p] + rest, s);
    OfAppend([p], rest, s);
    OfSnoc([], p, s);
    assert [] + [p] == [p];
    assert Of(sent, s)[|Of(accepted, s)|] == p;
  }

  /** With no cell accepted for it, a stream has no task. */
  lemma {:induction false} NoTaskYet(accepted: seq<Plain>, streams: map<StreamId, ExitStream>, tasks: seq<Task>,
      current: set<nat>, s: StreamId)
    requires Serving(accepted, streams, tasks, current) && Of(accepted, s) == []
    ensures !HasTask(tasks, current, s) && |tasks| !in current
  {
    forall t | t in current && 0 <= t < |tasks| ensures tasks[t].stream != s {
      assert FromExit(tasks[t], Of(accepted, tasks[t].stream));
    }
  }

  lemma {:induction false} CurrentGrows(local: map<StreamId, Local>, tasks: seq<Task>, task: Task)
    requires task.stream in local && local[task.stream].tasksBefore <= |tasks|
    ensures Current(local, tasks + [task]) == Current(local, tasks) + {|tasks|}
  {
    var tasks' := tasks + [task];
    forall t | 0 <= t < |tasks'| ensures t in Current(local, tasks') <==> t in Current(local, tasks) + {|tasks|} {
      assert t < |tasks| ==> tasks'[t] == tasks[t];
    }
  }

  lemma {:induction false} CurrentSame(local: map<StreamId, Local>, tasks: seq<Task>, t: nat, task: Task)
    requires t < |tasks| && task.stream == tasks[t].stream
    ensures Current(local, tasks[t := task]) == Current(local, tasks)
  {
  }

  lemma {:induction false} ServingServes(accepted: seq<Plain>, s: ExitState, p: Plain, dial: Dial,
      local: map<StreamId, Local>)
    requires Serving(accepted, s.streams, s.tasks, Current(local, s.tasks))
    requires p.stream in local && local[p.stream].tasksBefore <= |s.tasks|
    requires p.command == Begin ==> Of(accepted, p.stream) == []
    ensures var s' := Serve(s, p, dial); Serving(accepted + [p], s'.streams, s'.tasks, Current(local, s'.tasks))
  {
    hide Serving, Current, Of;
    var current := Current(local, s.tasks);
    match p.command {
      case Begin =>
        if dial.Connects? {
          CurrentGrows(local, s.tasks, Task(p.stream, true, [], [], [], []));
          ServingConnects(accepted, s.streams, s.tasks, current, p);
        } else {
          ServingIgnores(accepted, s.streams, s.tasks, current, p);
        }
      case Data =>
        if HasLiveTask(s, p.stream) {
          var t := s.streams[p.stream].task;
          CurrentSame(local, s.tasks, t, s.tasks[t].(queue := s.tasks[t].queue + p.data));
          ServingQueues(accepted, s, current, p);
        } else {
          ServingIgnores(accepted, s.streams, s.tasks, current, p);
        }
      case _ =>
        ServingIgnores(accepted, s.streams, s.tasks, current, p);
        ServingForgets(accepted + [p], s.streams, s.tasks, current, p.stream);
    }
  }

  lemma {:induction false} EmittingServes(s: ExitState, p: Plain, dial: Dial, emitted: seq<Plain>,
      local: map<StreamId, Local>)
    requires Emitting(emitted, s.tasks, Current(local, s.tasks)) && !(p.command == Begin && dial.NotUtf8?)
    requires p.stream in local && local[p.stream].tasksBefore <= |s.tasks|
    requires p.command == Begin ==> !HasTask(s.tasks, Current(local, s.tasks), p.stream)
    ensures var s' := Serve(s, p, dial);
            Emitting(emitted + AsSeq(Answer(s, p, dial)), s'.tasks, Current(local, s'.tasks))
  {
    hide Emitting, HasTask;
    var answer, current := Answer(s, p, dial), Current(local, s.tasks);
    if p.command == Begin && dial.Connects? {
      CurrentGrows(local, s.tasks, Task(p.stream, true, [], [], [], []));
      hide Current;
      EmittingConnects(emitted, s.tasks, current, p.stream);
    } else if p.command == Data && HasLiveTask(s, p.stream) {
      var t := s.streams[p.stream].task;
      CurrentSame(local, s.tasks, t, s.tasks[t].(queue := s.tasks[t].queue + p.data));
      EmittingWorks(emitted, s.tasks, current, t, s.tasks[t].(queue := s.tasks[t].queue + p.data), []);
      assert emitted + [] == emitted;
    } else {
      EmittingAnswers(emitted, s.tasks, current, answer.value);
    }
  }

  /** A cell is sealed for a stream that is open. */
  lemma {:induction false} DatedGrows(local: map<StreamId, Local>, all: seq<Plain>, emitted: seq<Plain>,
      tasks: seq<Task>, tasks': seq<Task>, p: Plain)
    requires Dated(local, all, emitted, tasks) && p.stream in local && |tasks| <= |tasks'|
    ensures Dated(local, all + [p], emitted + [p], tasks')
  {
    hide Of;
    forall s | s in local ensures Of(emitted + [p], s) == Of((all + [p])[local[s].sealedBefore..], s) {
      assert Of(emitted, s) == Of(all[local[s].sealedBefore..], s);
      SinceGrows(all, emitted, p, local[s].sealedBefore, s);
    }
  }

  lemma {:induction false} SinceGrows(all: seq<Plain>, emitted: seq<Plain>, p: Plain, n: nat, s: StreamId)
    requires n <= |all| && Of(emitted, s) == Of(all[n..], s)
    ensures Of(emitted + [p], s) == Of((all + [p])[n..], s)
  {
    hide Of;
    assert (all + [p])[n..] == all[n..] + [p];
    OfSnoc(emitted, p, s);
    OfSnoc(all[n..], p, s);
  }

  lemma {:induction false} DatedTasks(local: map<StreamId, Local>, all: seq<Plain>, emitted: seq<Plain>,
      tasks: seq<Task>, tasks': seq<Task>)
    requires Dated(local, all, emitted, tasks) && |tasks| <= |tasks'|
    ensures Dated(local, all, emitted, tasks')
  {
  }

  /** Sealing leaves what the client has open to hear where it is. */
  lemma {:induction false} HomewardGrows(w: World, w': World, b: Books, more: seq<Plain>)
    requires Homeward(w, b) && w'.emitted == w.emitted + more
    requires w'.delivered == w.delivered && w'.local == w.local && w'.client == w.client
    ensures forall a :: Homeward(w', b.(emitted := b.emitted + more, accepted := a))
  {
    hide Receiving;
    Regroup(b.delivered, w.emitted[|w.delivered|..], more);
    assert w'.emitted[|w.delivered|..] == w.emitted[|w.delivered|..] + more;
  }

  lemma {:induction false} AnswersInLocal(s: ExitState, p: Plain, dial: Dial)
    ensures Answer(s, p, dial).Some? ==> Answer(s, p, dial).value.stream == p.stream
  {
  }

  /** The forward half of the exit's turn. */
  lemma {:induction false} ForwardServes(w: World, b: Books, p: Plain, dial: Dial)
    requires Forward(w, b) && Outward(w, b) && |w.accepted| < |w.sent| && p == w.sent[|w.accepted|]
    ensures p.stream in w.local && w.local[p.stream].tasksBefore <= |w.exit.tasks|
    ensures var s', a := Serve(w.exit, p, dial), b.accepted + [p];
            && Sending(w.local, a + w.sent[|w.accepted| + 1..])
            && Serving(a, s'.streams, s'.tasks, Current(w.local, s'.tasks))
    ensures p.command == Begin ==> !HasTask(w.exit.tasks, Current(w.local, w.exit.tasks), p.stream)
  {
    hide Sending, Serving, Emitting, Serve, HasTask, Current, Of;
    var rest := w.sent[|w.accepted| + 1..];
    assert w.sent[|w.accepted|..] == [p] + rest;
    Regroup(b.accepted, [p], rest);
    NextIsKnown(w.local, b.accepted, p, rest);
    assert w.local[p.stream].tasksBefore <= |w.exit.tasks|;
    ServingServes(b.accepted, w.exit, p, dial, w.local);
    if p.command == Begin {
      NoTaskYet(b.accepted, w.exit.streams, w.exit.tasks, Current(w.local, w.exit.tasks), p.stream);
    }
  }

  /** The backward half. */
  lemma {:induction false} OutwardServes(w: World, b: Books, p: Plain, dial: Dial)
    requires Outward(w, b) && !(p.command == Begin && dial.NotUtf8?)
    requires p.stream in w.local && w.local[p.stream].tasksBefore <= |w.exit.tasks|
    requires p.command == Begin ==> !HasTask(w.exit.tasks, Current(w.local, w.exit.tasks), p.stream)
    ensures var s', answer := Serve(w.exit, p, dial), AsSeq(Answer(w.exit, p, dial));
            && Emitting(b.emitted + answer, s'.tasks, Current(w.local, s'.tasks))
            && Dated(w.local, w.emitted + answer, b.emitted + answer, s'.tasks)
  {
    hide Emitting, Dated, Serve, Answer, HasTask, Current;
    EmittingServes(w.exit, p, dial, b.emitted, w.local);
    ServeKeepsTasks(w.exit, p, dial);
    AnswersInLocal(w.exit, p, dial);
    var tasks' := Serve(w.exit, p, dial).tasks;
    if Answer(w.exit, p, dial).Some? {
      DatedGrows(w.local, w.emitted, b.emitted, w.exit.tasks, tasks', Answer(w.exit, p, dial).value);
    } else {
      assert b.emitted + [] == b.emitted && w.emitted + [] == w.emitted;
      DatedTasks(w.local, w.emitted, b.emitted, w.exit.tasks, tasks');
    }
  }

  lemma {:induction false} PipedExit(x: Circ, w: World, dial: Dial, pairs: seq<Pair>, b: Books, ear: bool)
    returns (b': Books)
    requires Lockstep(x, w, pairs) && Piped(w, b, ear) && CanExitTake(x, w, dial)
    ensures Piped(ExitTakes(x, w, dial), b', ear)
  {
    hide Sending, Serving, Emitting, Receiving, Dated, Serve, Answer, HasTask, Current, UpSync, DownSync;
    var w' := ExitTakes(x, w, dial);
    ExitKeeps(x, w, dial, pairs);
    b' := b;
    if IsTraffic(w.up[|w.up| - 1][0]) {
      ExitServes(x, w, dial, pairs);
      hide ExitTakes, CanExitTake, Tidy;
      var p := w.sent[|w.accepted|];
      var answer := AsSeq(Answer(w.exit, p, dial));
      ForwardServes(w, b, p, dial);
      OutwardServes(w, b, p, dial);
      b' := b.(accepted := b.accepted + [p], emitted := b.emitted + answer);
      if ear {
        HomewardGrows(w, w', b, answer);
      }
    }
  }

  lemma {:induction false} ServeKeepsTasks(s: ExitState, p: Plain, dial: Dial)
    ensures |s.tasks| <= |Serve(s, p, dial).tasks|
  {
  }

  /* A task's turn. */

  lemma {:induction false} TaskTurns(x: Circ, w: World, a: Action)
    requires Enabled(x, w, a) && (a.FetchBytes? || a.TaskChunk? || a.TaskEnd? || a.TaskWrite?)
    ensures var t, w' := a.task, Apply(x, w, a);
            && t < |w.exit.tasks| == |w'.exit.tasks| && w'.exit.tasks == w.exit.tasks[t := w'.exit.tasks[t]]
            && w'.exit.streams == w.exit.streams && w.exit.tasks[t].live
            && (var task, task' := w.exit.tasks[t], w'.exit.tasks[t];
                && task'.stream == task.stream && task'.written + task'.queue == task.written + task.queue
                && (task'.live ==> task.live))
            && w'.accepted == w.accepted && w'.delivered == w.delivered && w'.client == w.client
            && w'.local == w.local && w'.sent == w.sent && w'.streams == w.streams
  {
    hide Seal;
    if a.TaskWrite? {
      var q := w.exit.tasks[a.task].queue;
      assert q == q[..a.count] + q[a.count..];
      Regroup(w.exit.tasks[a.task].written, q[..a.count], q[a.count..]);
    }
  }

  function TaskCells(x: Circ, w: World, a: Action): seq<Plain>
    requires Enabled(x, w, a)
  {
    match a
    case TaskChunk(t) => [EmitChunk(x, w.exit, t).1]
    case TaskEnd(t, text) => [EmitEnd(x, w.exit, t, text).1]
    case _ => []
  }

  /** What it makes of the exit's books. */
  lemma {:induction false} TaskEmits(x: Circ, w: World, a: Action, e: seq<Plain>, current: set<nat>)
    requires Enabled(x, w, a) && (a.FetchBytes? || a.TaskEnd? || a.TaskWrite?)
    requires Emitting(e, w.exit.tasks, current)
    ensures var w', cells := Apply(x, w, a), TaskCells(x, w, a);
            && w'.emitted == w.emitted + cells
            && Emitting(e + cells, w'.exit.tasks, current)
            && (forall p :: p in cells ==> p.stream == w.exit.tasks[a.task].stream)
  {
    hide Emitting, Seal;
    var t, w' := a.task, Apply(x, w, a);
    var task, task' := w.exit.tasks[t], w'.exit.tasks[t];
    EmittingWorks(e, w.exit.tasks, current, t, task', if a.FetchBytes? then a.bytes else []);
    if a.TaskEnd? {
      EmittingAnswers(e, w'.exit.tasks, current, Plain(task.stream, End, a.text));
    } else {
      assert e + [] == e && w.emitted + [] == w.emitted;
    }
  }

  lemma {:induction false} ChunkEmits(x: Circ, w: World, t: nat, e: seq<Plain>, current: set<nat>)
    requires Enabled(x, w, TaskChunk(t)) && Emitting(e, w.exit.tasks, current) && t in current
    requires forall i, j {:trigger w.exit.tasks[i], w.exit.tasks[j]} ::
               i in current && j in current && i != j && i < |w.exit.tasks| && j < |w.exit.tasks| ==>
                 w.exit.tasks[i].stream != w.exit.tasks[j].stream
    ensures var w', cells := Apply(x, w, TaskChunk(t)), TaskCells(x, w, TaskChunk(t));
            && w'.emitted == w.emitted + cells
            && Emitting(e + cells, w'.exit.tasks, current)
            && (forall p :: p in cells ==> p.stream == w.exit.tasks[t].stream)
  {
    hide Emitting, Seal;
    EmittingChunk(e, w.exit.tasks, current, t, Min(|w.exit.tasks[t].outbox|, MAX_PAYLOAD_SIZE));
  }

  /** A live task serves a stream that is open. */
  lemma {:induction false} LiveIsOpen(w: World, b: Books, t: nat)
    requires Forward(w, b) && t < |w.exit.tasks| && w.exit.tasks[t].live
    ensures t in Current(w.local, w.exit.tasks) && w.exit.tasks[t].stream in w.local
    ensures forall i, j {:trigger w.exit.tasks[i], w.exit.tasks[j]} ::
              (i in Current(w.local, w.exit.tasks) && j in Current(w.local, w.exit.tasks) && i != j
               && i < |w.exit.tasks| && j < |w.exit.tasks|) ==>
                w.exit.tasks[i].stream != w.exit.tasks[j].stream
  {
  }

  lemma {:induction false} PipedTask(x: Circ, w: World, a: Action, b: Books, ear: bool)
    requires Piped(w, b, ear) && Enabled(x, w, a)
    requires a.FetchBytes? || a.TaskChunk? || a.TaskEnd? || a.TaskWrite?
    ensures Piped(Apply(x, w, a), b.(emitted := b.emitted + TaskCells(x, w, a)), ear)
  {
    hide Sending, Serving, Emitting, Receiving, Dated, Current, Enabled, Apply, TaskCells;
    var t, w', cells := a.task, Apply(x, w, a), TaskCells(x, w, a);
    TaskTurns(x, w, a);
    LiveIsOpen(w, b, t);
    CurrentSame(w.local, w.exit.tasks, t, w'.exit.tasks[t]);
    ServingWorks(b.accepted, w.exit.streams, w.exit.tasks, Current(w.local, w.exit.tasks), t, w'.exit.tasks[t]);
    if a.TaskChunk? {
      ChunkEmits(x, w, t, b.emitted, Current(w.local, w.exit.tasks));
    } else {
      TaskEmits(x, w, a, b.emitted, Current(w.local, w.exit.tasks));
    }
    OneOrNone(x, w, a);
    if cells != [] {
      assert cells[0] in cells && cells == [cells[0]];
      DatedGrows(w.local, w.emitted, b.emitted, w.exit.tasks, w'.exit.tasks, cells[0]);
    } else {
      assert b.emitted + [] == b.emitted && w.emitted + [] == w.emitted;
      DatedTasks(w.local, w.emitted, b.emitted, w.exit.tasks, w'.exit.tasks);
    }
    if ear {
      HomewardGrows(w, w', b, cells);
    }
  }

  lemma {:induction false} OneOrNone(x: Circ, w: World, a: Action)
    requires Enabled(x, w, a)
    ensures |TaskCells(x, w, a)| <= 1
  {
  }

  /* The client's turn. */

  /** A cell handed to a channel changes nothing else of its stream. */
  lemma {:induction false} HandedKeeps(w: World, b: Books, p: Plain)
    requires Forward(w, b) && Outward(w, b)
    ensures var local := Handed(w.local, p);
            && Sending(local, b.accepted + w.sent[|w.accepted|..])
            && Dated(local, w.emitted, b.emitted, w.exit.tasks)
            && Current(local, w.exit.tasks) == Current(w.local, w.exit.tasks)
  {
    hide Serving, Emitting, Sending, Dated, Current;
    if p.stream in w.local {
      var l := w.local[p.stream];
      assert l.read == l.read + [] && l.pending == l.pending + [];
      SendingStays(w.local, b.accepted + w.sent[|w.accepted|..], p.stream, l.(inbox := l.inbox + [p]), []);
      LocalKeeps(w.local, w.emitted, b.emitted, w.exit.tasks, p.stream, l.(inbox := l.inbox + [p]));
    }
  }

  /** What the client's turn does to everything but ciphers and wires. */
  lemma {:induction false} ReadsOnly(x: Circ, w: World)
    requires Shape(w) && w.down[|w.down| - 1] != []
    ensures var w', event := ClientTakes(x, w), ClientReceive(x, w.client, w.down[|w.down| - 1][0]).1;
            && w'.sent == w.sent && w'.accepted == w.accepted && w'.emitted == w.emitted && w'.exit == w.exit
            && w'.begun == w.begun && w'.streams == w.streams && w'.client.nextStream == w.client.nextStream
            && match event
               case Delivered(p) =>
                 && p.stream in w.client.senders && w'.client.senders == w.client.senders
                 && w'.local == Handed(w.local, p) && w'.delivered == w.delivered + [p]
               case Unclaimed(p) =>
                 && p.stream !in w.client.senders && w'.client.senders == w.client.senders
                 && w'.local == w.local && w'.delivered == w.delivered + [p]
               case _ => w'.client.senders == {} && w'.local == w.local && w'.delivered == w.delivered
  {
    hide Frame;
  }

  lemma {:induction false} PipedReads(x: Circ, w: World, b: Books, ear: bool) returns (b': Books)
    requires Piped(w, b, ear) && Shape(w) && w.down[|w.down| - 1] != []
    requires ear ==> w.delivered <= w.emitted && ClientTakes(x, w).delivered <= w.emitted
    ensures Piped(ClientTakes(x, w), b', ear)
  {
    hide Serving, Emitting, Receiving, Sending, Dated, Current, ClientTakes, Handed;
    var w', event := ClientTakes(x, w), ClientReceive(x, w.client, w.down[|w.down| - 1][0]).1;
    ReadsOnly(x, w);
    b' := b;
    if event.Delivered? {
      HandedKeeps(w, b, event.cell);
    }
    if event.Delivered? || event.Unclaimed? {
      if ear {
        var p, k := event.cell, |w.delivered|;
        b' := b.(delivered := b.delivered + [p]);
        assert w'.delivered[k] == p == w.emitted[k];
        assert w.emitted[k..] == [p] + w.emitted[k + 1..];
        Regroup(b.delivered, [p], w.emitted[k + 1..]);
        ReceivingDelivers(w.local, w.client.senders, b.delivered, p);
      }
    } else if ear {
      ReceivingCloses(w.local, w.client.senders, b.delivered);
    }
  }

  /** Steps that no stream notices. */
  lemma {:induction false} PipedElsewhere(x: Circ, w: World, a: Action, b: Books, ear: bool)
    requires Piped(w, b, ear) && Enabled(x, w, a)
    requires a.SendPadding? || a.RelayUp? || a.WriteReply? || a.RelayDown? || a.TearDown? || a.LoseEntry?
    ensures Piped(Apply(x, w, a), b, ear)
  {
    hide Serving, Emitting, Receiving, Sending, Dated, Current, ForwardStep, BackwardStep;
    if a.LoseEntry? && ear {
      ReceivingCloses(w.local, w.client.senders, b.delivered);
    }
  }

  lemma {:induction false} PipedStep(x: Circ, w: World, a: Action, pairs: seq<Pair>, b: Books, ear: bool)
    returns (b': Books)
    requires Lockstep(x, w, pairs) && Piped(w, b, ear) && Enabled(x, w, a)
    requires a.OpenStream? ==> Free(w, w.client.nextStream)
    requires ear ==> w.delivered <= w.emitted && Apply(x, w, a).delivered <= Apply(x, w, a).emitted
    ensures Piped(Apply(x, w, a), b', ear)
  {
    hide Lockstep, Piped, Free, CanRelayUp, CanRelayDown, CanExitTake, RelayTakes, RelayReturns, ExitTakes, ClientTakes;
    b' := b;
    match a {
      case OpenStream(destination) =>
        PipedOpens(x, w, destination, b, ear);
        b' := Cleared(b, w.client.nextStream);
      case SendBegin(_) => PipedSends(x, w, a, b, ear);
      case SendChunk(_) => PipedSends(x, w, a, b, ear);
      case SendEnd(_) => PipedSends(x, w, a, b, ear);
      case GiveUp(_) => PipedLocal(x, w, a, b, ear);
      case ReadSocks(_, _) => PipedLocal(x, w, a, b, ear);
      case TakeInbox(_) => PipedLocal(x, w, a, b, ear);
      case Unregister(_) => PipedLocal(x, w, a, b, ear);
      case ExitTake(dial) => b' := PipedExit(x, w, dial, pairs, b, ear);
      case ClientTake =>
        ReadsOnly(x, w);
        b' := PipedReads(x, w, b, ear);
      case SendPadding(_) => PipedElsewhere(x, w, a, b, ear);
      case RelayUp(_) => PipedElsewhere(x, w, a, b, ear);
      case WriteReply => PipedElsewhere(x, w, a, b, ear);
      case RelayDown(_) => PipedElsewhere(x, w, a, b, ear);
      case TearDown(_) => PipedElsewhere(x, w, a, b, ear);
      case LoseEntry => PipedElsewhere(x, w, a, b, ear);
      case _ =>
        PipedTask(x, w, a, b, ear);
        b' := b.(emitted := b.emitted + TaskCells(x, w, a));
    }
  }

  /** In every run that hands no id out too early every stream stays in order. */
  lemma {:induction false} PipedRun(x: Circ, w: World, actions: seq<Action>, pairs: seq<Pair>, b: Books, ear: bool)
    returns (b': Books)
    requires Lockstep(x, w, pairs) && Piped(w, b, ear) && Run(x, w, actions).Some? && SpareIds(x, w, actions)
    requires ear ==> Truthful(x, w) && HearsClearly(x, w, actions)
    ensures Piped(Run(x, w, actions).value, b', ear)
    decreases |actions|
  {
    hide Lockstep, Piped, Enabled, Apply, Free, Copies, Clear;
    b' := b;
    if actions != [] {
      if ear {
        TruthfulStep(x, w, actions[0], pairs);
      }
      b' := PipedStep(x, w, actions[0], pairs, b, ear);
      LockstepStep(x, w, actions[0], pairs);
      b' := PipedRun(x, Apply(x, w, actions[0]), actions[1..], pairs, b', ear);
    }
  }

  /* Ids. */

  /** Which ids were handed out, and which comes next. */
  ghost predicate Ids(w: World) {
    && w.client.nextStream == StreamIdAt(w.streams)
    && forall s {:trigger s in w.local} :: s in w.local <==> 1 <= s as int <= Min(w.streams, 0xFFFF)
  }

  lemma {:induction false} NextIdAt(n: nat)
    ensures StreamIdAt(n + 1) == NextStreamId(StreamIdAt(n))
  {
  }

  lemma {:induction false} IdsOpen(x: Circ, w: World, destination: seq<byte>)
    requires Ids(w) && Enabled(x, w, OpenStream(destination))
    ensures Ids(Apply(x, w, OpenStream(destination)))
    ensures w.client.nextStream in w.local <==> w.streams >= 0xFFFF
  {
    hide StreamIdAt;
    StreamIdCycle(w.streams);
    NextIdAt(w.streams);
  }

  /** What concerns ids and the owners of tasks. */
  ghost predicate SameIds(w: World, w': World) {
    && w'.streams == w.streams && w'.client.nextStream == w.client.nextStream && w'.local.Keys == w.local.Keys
    && (forall s {:trigger w'.local[s]} :: s in w.local ==> w'.local[s].tasksBefore == w.local[s].tasksBefore)
  }

  lemma {:induction false} IdsAtClient(x: Circ, w: World, a: Action)
    requires Enabled(x, w, a)
    requires a.SendBegin? || a.SendChunk? || a.SendEnd?
    ensures SameIds(w, Apply(x, w, a))
  {
    hide ClientSends, Apply;
    SendTurns(x, w, a);
    SendsOnly(x, w, SentBy(w, a));
  }

  lemma {:induction false} IdsAtReader(x: Circ, w: World)
    requires Shape(w) && w.down[|w.down| - 1] != []
    ensures SameIds(w, ClientTakes(x, w))
  {
    hide ClientReceive, ClientTakes;
    ReadsOnly(x, w);
  }

  lemma {:induction false} IdsElsewhere(x: Circ, w: World, a: Action)
    requires Enabled(x, w, a) && !a.OpenStream?
    ensures SameIds(w, Apply(x, w, a))
  {
    hide Emit, ExitStep, ForwardStep, BackwardStep, ClientSends, ClientTakes;
    if a.SendBegin? || a.SendChunk? || a.SendEnd? {
      IdsAtClient(x, w, a);
    } else if a.ClientTake? {
      IdsAtReader(x, w);
    }
  }

  lemma {:induction false} IdsStep(x: Circ, w: World, a: Action)
    requires Ids(w) && Enabled(x, w, a)
    ensures Ids(Apply(x, w, a)) && w.streams <= Apply(x, w, a).streams
    ensures a.OpenStream? ==> w.streams < Apply(x, w, a).streams
    ensures a.OpenStream? && w.streams < 0xFFFF ==> w.client.nextStream !in w.local
  {
    if a.OpenStream? {
      IdsOpen(x, w, a.destination);
    } else {
      hide Apply, Enabled;
      IdsElsewhere(x, w, a);
      assert forall s {:trigger s in Apply(x, w, a).local} :: s in Apply(x, w, a).local <==> s in w.local.Keys;
    }
  }

  lemma {:induction false} IdsRun(x: Circ, w: World, actions: seq<Action>)
    requires Ids(w) && Run(x, w, actions).Some?
    ensures Ids(Run(x, w, actions).value) && w.streams <= Run(x, w, actions).value.streams
    decreases |actions|
  {
    hide Ids, Enabled, Apply;
    if actions != [] {
      IdsStep(x, w, actions[0]);
      IdsRun(x, Apply(x, w, actions[0]), actions[1..]);
    }
  }

  /** Up to 65535 streams no id is ever handed out a second time. */
  lemma {:induction false} FewStreamsSpareIds(x: Circ, w: World, actions: seq<Action>)
    requires Ids(w) && Run(x, w, actions).Some? && Run(x, w, actions).value.streams <= 0xFFFF
    ensures SpareIds(x, w, actions)
    decreases |actions|
  {
    hide Ids, Enabled, Apply;
    if actions != [] {
      IdsStep(x, w, actions[0]);
      IdsRun(x, Apply(x, w, actions[0]), actions[1..]);
      FewStreamsSpareIds(x, Apply(x, w, actions[0]), actions[1..]);
    }
  }

  lemma {:induction false} BuiltIds(pairs: seq<Pair>)
    requires |pairs| >= 2
    ensures Ids(Built(pairs))
  {
  }

  /** Over runs of any length: the id about to be handed out is 1 to 65535 in turn. It belongs to a stream
      opened before exactly from the 65536th stream on, and then differs from the ids of the 65534 streams
      opened last. */
  lemma {:induction false} IdsRunOut(x: Circ, pairs: seq<Pair>, actions: seq<Action>, w: World, more: seq<Action>,
      w': World)
    requires |pairs| >= 2 && Run(x, Built(pairs), actions) == Some(w) && Run(x, w, more) == Some(w')
    ensures w.client.nextStream as int == 1 + w.streams % 0xFFFF
    ensures w.client.nextStream in w.local <==> w.streams >= 0xFFFF
    ensures w.streams < w'.streams < w.streams + 0xFFFF ==> w.client.nextStream != w'.client.nextStream
  {
    hide Built, StreamIdAt, Ids;
    BuiltIds(pairs);
    IdsRun(x, Built(pairs), actions);
    IdsRun(x, w, more);
    IdsAre(w);
    IdsAre(w');
    if w.streams <= w'.streams {
      StreamIdsDistinct(w.streams, w'.streams);
    }
  }

  lemma {:induction false} IdsAre(w: World)
    requires Ids(w)
    ensures w.client.nextStream == StreamIdAt(w.streams) && w.client.nextStream as int == 1 + w.streams % 0xFFFF
    ensures w.client.nextStream in w.local <==> w.streams >= 0xFFFF
  {
    hide StreamIdAt;
    StreamIdCycle(w.streams);
  }

  /* What holds in every state. */

  /** A state some run of a circuit just built ends in, no id handed out before its last stream was over. */
  ghost predicate Reached(x: Circ, pairs: seq<Pair>, actions: seq<Action>, w: World) {
    |pairs| >= 2 && Run(x, Built(pairs), actions) == Some(w) && SpareIds(x, Built(pairs), actions)
  }

  lemma {:induction false} ReachedIsPiped(x: Circ, pairs: seq<Pair>, actions: seq<Action>, w: World, ear: bool)
    returns (b: Books)
    requires Reached(x, pairs, actions, w) && (ear ==> HearsClearly(x, Built(pairs), actions))
    ensures Lockstep(x, w, pairs) && Piped(w, b, ear) && w.accepted <= w.sent && (ear ==> w.delivered <= w.emitted)
  {
    hide Piped, Copies;
    BuiltLockstep(x, pairs);
    BuiltTruthful(x, pairs);
    BuiltPiped(pairs, ear);
    LockstepRun(x, Built(pairs), actions, pairs);
    if ear {
      TruthfulRun(x, Built(pairs), actions, pairs);
    }
    b := PipedRun(x, Built(pairs), actions, pairs, Books([], [], []), ear);
    SentIsPrefix(x, w, pairs);
  }

  lemma {:induction false} SentIsPrefix(x: Circ, w: World, pairs: seq<Pair>)
    requires Lockstep(x, w, pairs)
    ensures w.accepted <= w.sent
  {
    hide DownSync, Tidy;
  }

  ghost predicate AllCurrent(w: World) {
    forall t {:trigger w.exit.tasks[t]} :: 0 <= t < |w.exit.tasks| ==> t in Current(w.local, w.exit.tasks)
  }

  lemma {:induction false} ServeStarts(s: ExitState, p: Plain, dial: Dial)
    ensures var tasks' := Serve(s, p, dial).tasks;
            && |s.tasks| <= |tasks'|
            && (forall t {:trigger tasks'[t]} :: 0 <= t < |s.tasks| ==> tasks'[t].stream == s.tasks[t].stream)
            && (forall t {:trigger tasks'[t]} :: |s.tasks| <= t < |tasks'| ==> tasks'[t].live)
  {
  }

  /** No step changes whom a task belongs to, but for an id handed out again; a new task is live. */
  lemma {:induction false} TasksOnlyGrow(x: Circ, w: World, a: Action, pairs: seq<Pair>)
    requires Lockstep(x, w, pairs) && Enabled(x, w, a)
    ensures var tasks, tasks' := w.exit.tasks, Apply(x, w, a).exit.tasks;
            && |tasks| <= |tasks'|
            && (forall t {:trigger tasks'[t]} :: 0 <= t < |tasks| ==> tasks'[t].stream == tasks[t].stream)
            && (forall t {:trigger tasks'[t]} :: |tasks| <= t < |tasks'| ==> tasks'[t].live)
  {
    hide Lockstep, ExitTakes, Serve, Emit, ClientSend, ClientTakes, ForwardStep, BackwardStep;
    if a.ExitTake? {
      ExitKeeps(x, w, a.dial, pairs);
      if IsTraffic(w.up[|w.up| - 1][0]) {
        ExitServes(x, w, a.dial, pairs);
        ServeStarts(w.exit, w.sent[|w.accepted|], a.dial);
      }
    } else if a.ClientTake? {
      ReadsOnly(x, w);
    }
  }

  lemma {:induction false} LiveIsCurrent(w: World, b: Books)
    requires Forward(w, b)
    ensures forall t {:trigger w.exit.tasks[t]} ::
              0 <= t < |w.exit.tasks| && w.exit.tasks[t].live ==> t in Current(w.local, w.exit.tasks)
  {
    hide Sending, Served, FromExit;
  }

  lemma {:induction false} TasksStayCurrent(x: Circ, w: World, a: Action, pairs: seq<Pair>, b': Books)
    requires Lockstep(x, w, pairs) && Enabled(x, w, a) && Forward(Apply(x, w, a), b') && AllCurrent(w)
    requires a.OpenStream? ==> w.client.nextStream !in w.local
    ensures AllCurrent(Apply(x, w, a))
  {
    hide Lockstep, Forward;
    var w' := Apply(x, w, a);
    TasksOnlyGrow(x, w, a, pairs);
    LiveIsCurrent(w', b');
    if !a.OpenStream? {
      IdsElsewhere(x, w, a);
      hide Apply, Enabled;
    }
    forall t | 0 <= t < |w'.exit.tasks| ensures t in Current(w'.local, w'.exit.tasks) {
      if t < |w.exit.tasks| {
        assert t in Current(w.local, w.exit.tasks) && w'.exit.tasks[t].stream == w.exit.tasks[t].stream;
      } else {
        assert w'.exit.tasks[t].live;
      }
    }
  }

  /** With at most 65535 streams, every task belongs to the stream that holds its id; a live one always does. */
  lemma {:induction false} TasksAreCurrent(x: Circ, w: World, actions: seq<Action>, pairs: seq<Pair>, b: Books)
    requires Lockstep(x, w, pairs) && Piped(w, b, false) && Ids(w) && AllCurrent(w) && Run(x, w, actions).Some?
    requires Run(x, w, actions).value.streams <= 0xFFFF
    ensures AllCurrent(Run(x, w, actions).value)
    decreases |actions|
  {
    hide Lockstep, Forward, Outward, Ids, Enabled, Apply, AllCurrent;
    if actions != [] {
      var a, w' := actions[0], Apply(x, w, actions[0]);
      IdsStep(x, w, a);
      IdsRun(x, w', actions[1..]);
      var b' := PipedStep(x, w, a, pairs, b, false);
      LockstepStep(x, w, a, pairs);
      TasksStayCurrent(x, w, a, pairs, b');
      TasksAreCurrent(x, w', actions[1..], pairs, b');
    }
  }

  lemma {:induction false} EarlyTasksAreCurrent(x: Circ, pairs: seq<Pair>, actions: seq<Action>, w: World, t: nat)
    requires |pairs| >= 2 && Run(x, Built(pairs), actions) == Some(w) && w.streams <= 0xFFFF && t < |w.exit.tasks|
    ensures Reached(x, pairs, actions, w) && t in Current(w.local, w.exit.tasks)
  {
    hide Piped, Lockstep, Current;
    BuiltLockstep(x, pairs);
    BuiltPiped(pairs, false);
    BuiltIds(pairs);
    FewStreamsSpareIds(x, Built(pairs), actions);
    TasksAreCurrent(x, Built(pairs), actions, pairs, Books([], [], []));
    assert w.exit.tasks[t].stream == w.exit.tasks[t].stream;
  }

  lemma {:induction false} CurrentIsServed(w: World, b: Books, t: nat)
    requires Forward(w, b) && t in Current(w.local, w.exit.tasks)
    ensures t < |w.exit.tasks| && w.exit.tasks[t].stream in w.local
    ensures var task := w.exit.tasks[t]; task.written + task.queue <= Bytes(Of(b.accepted, task.stream))
  {
    hide Sending, Of, Bytes;
    assert FromExit(w.exit.tasks[t], Of(b.accepted, w.exit.tasks[t].stream));
  }

  lemma {:induction false} AcceptedIsRead(w: World, b: Books, s: StreamId)
    requires Forward(w, b) && s in w.local
    ensures Bytes(Of(b.accepted, s)) <= w.local[s].read
    ensures w.accepted == w.sent ==> Bytes(Of(b.accepted, s)) + w.local[s].pending == w.local[s].read
  {
    hide Serving;
    var rest := w.sent[|w.accepted|..];
    assert FromClient(w.local[s], Of(b.accepted + rest, s));
    OfAppend(b.accepted, rest, s);
    BytesPrefix(Of(b.accepted, s), Of(b.accepted + rest, s));
    assert w.accepted == w.sent ==> b.accepted + rest == b.accepted;
  }

  /** Forward: what a destination was handed, with what waits to be handed to it, is a prefix of what
      the stream's SOCKS client sent, whatever else the circuit did. Live tasks are current, and with
      at most 65535 streams all are. */
  lemma {:induction false} DestinationGetsPrefix(x: Circ, pairs: seq<Pair>, actions: seq<Action>, w: World, t: nat)
    requires Reached(x, pairs, actions, w)
    requires t < |w.exit.tasks| && (w.exit.tasks[t].live || t in Current(w.local, w.exit.tasks))
    ensures var task := w.exit.tasks[t];
            task.stream in w.local && task.written + task.queue <= w.local[task.stream].read
  {
    hide Outward, Lockstep, Current, Sending, Serving;
    var b := ReachedIsPiped(x, pairs, actions, w, false);
    if w.exit.tasks[t].live {
      LiveIsOpen(w, b, t);
    }
    CurrentIsServed(w, b, t);
    AcceptedIsRead(w, b, w.exit.tasks[t].stream);
  }

  /** Exactly the zeros at the end are cut off. */
  lemma {:induction false} TrimNulsExactly(s: seq<byte>)
    ensures var kept := TrimNuls(s);
            && kept <= s && (kept != [] ==> kept[|kept| - 1] != 0)
            && forall i {:trigger s[i]} :: |kept| <= i < |s| ==> s[i] == 0
  {
    if s != [] && s[|s| - 1] == 0 {
      TrimNulsExactly(s[..|s| - 1]);
      forall i | |TrimNuls(s)| <= i < |s| ensures s[i] == 0 {
        if i < |s| - 1 {
          assert s[..|s| - 1][i] == 0;
        }
      }
    }
  }

  lemma {:induction false} TrimNulsSnoc(s: seq<byte>)
    ensures TrimNuls(s + [0]) == TrimNuls(s)
  {
    assert (s + [0])[..|s|] == s;
  }

  /** The exit dials for a stream what its client asked for. */
  lemma {:induction false} DestinationIsAsked(x: Circ, pairs: seq<Pair>, actions: seq<Action>, w: World, s: StreamId)
    requires Reached(x, pairs, actions, w) && s in w.exit.streams
    ensures s in w.local && w.exit.streams[s].destination == TrimNuls(w.local[s].destination)
    ensures var asked := w.local[s].destination;
            asked != [] && asked[|asked| - 1] != 0 ==> w.exit.streams[s].destination == asked
  {
    hide Outward, Lockstep, TrimNuls, Bytes;
    var b := ReachedIsPiped(x, pairs, actions, w, false);
    ServedIsOpen(w, b, s);
    var rest := w.sent[|w.accepted|..];
    assert Served(w.exit.streams[s], s, w.exit.tasks, Current(w.local, w.exit.tasks), Of(b.accepted, s));
    assert FromClient(w.local[s], Of(b.accepted + rest, s));
    OfAppend(b.accepted, rest, s);
    assert Of(b.accepted + rest, s)[0] == Of(b.accepted, s)[0];
    TrimNulsSnoc(w.local[s].destination);
    TrimNulsExactly(w.local[s].destination);
  }

  /** Nothing is lost on the way: once the wires are drained, the destination of a stream that is
      still served was handed, or is about to be handed, all its client sent so far. */
  lemma {:induction false} DestinationGetsAll(x: Circ, pairs: seq<Pair>, actions: seq<Action>, w: World, s: StreamId)
    requires Reached(x, pairs, actions, w) && w.accepted == w.sent && HasLiveTask(w.exit, s)
    ensures s in w.local
    ensures var task := w.exit.tasks[w.exit.streams[s].task];
            (task.written + task.queue) + w.local[s].pending == w.local[s].read
  {
    hide Outward, Lockstep, Bytes, Current;
    var b := ReachedIsPiped(x, pairs, actions, w, false);
    ServedIsOpen(w, b, s);
    assert Served(w.exit.streams[s], s, w.exit.tasks, Current(w.local, w.exit.tasks), Of(b.accepted, s));
    AcceptedIsRead(w, b, s);
  }

  lemma {:induction false} HeardIsSealed(w: World, b: Books, s: StreamId)
    requires Outward(w, b) && Homeward(w, b) && s in w.local
    ensures Received(w.local[s], Of(b.delivered, s), s in w.client.senders)
    ensures w.local[s].sealedBefore <= |w.emitted|
    ensures Of(b.delivered, s) <= Of(b.emitted, s) == Of(w.emitted[w.local[s].sealedBefore..], s)
    ensures w.delivered == w.emitted ==> Of(b.delivered, s) == Of(b.emitted, s)
  {
    hide Emitting, Received;
    var rest := w.emitted[|w.delivered|..];
    OfAppend(b.delivered, rest, s);
    assert w.delivered == w.emitted ==> b.delivered + rest == b.delivered;
    assert Received(w.local[s], Of(b.delivered, s), s in w.client.senders);
  }

  /** Backward, as long as what the client compares does not collide after a cell overtook a reply: a
      stream's channel was given a prefix of the cells the exit sealed for it since it was opened, and
      no DATA before its CONNECTED. */
  lemma {:induction false} ChannelGetsPrefix(x: Circ, pairs: seq<Pair>, actions: seq<Action>, w: World, s: StreamId)
    requires Reached(x, pairs, actions, w) && HearsClearly(x, Built(pairs), actions) && s in w.local
    ensures w.local[s].sealedBefore <= |w.emitted|
    ensures w.local[s].inbox <= Of(w.emitted[w.local[s].sealedBefore..], s)
    ensures forall i {:trigger w.local[s].inbox[i]} ::
              0 <= i < |w.local[s].inbox| && w.local[s].inbox[i].command == Data ==>
              exists j {:trigger w.local[s].inbox[j]} :: 0 <= j < i && w.local[s].inbox[j] == Plain(s, Connected, [])
  {
    hide Forward, Lockstep, Of, HearsClearly;
    var b := ReachedIsPiped(x, pairs, actions, w, true);
    HeardIsSealed(w, b, s);
    var inbox, current := w.local[s].inbox, Current(w.local, w.exit.tasks);
    OrderlyOf(b.emitted, w.exit.tasks, current, s);
    forall i | 0 <= i < |inbox| && inbox[i].command == Data
      ensures exists j {:trigger inbox[j]} :: 0 <= j < i && inbox[j] == Plain(s, Connected, [])
    {
      var cells := Of(b.emitted, s);
      assert inbox[i] == cells[i];
      var j :| 0 <= j < |cells| && j < i && cells[j] == Plain(s, Connected, []);
      assert inbox[j] == cells[j];
    }
  }

  /** The SOCKS client is handed a prefix of what was read from its destination. */
  lemma {:induction false} SocksGetsPrefix(x: Circ, pairs: seq<Pair>, actions: seq<Action>, w: World, s: StreamId)
    requires Reached(x, pairs, actions, w) && HearsClearly(x, Built(pairs), actions) && s in w.local
    ensures w.local[s].written == []
            || exists t {:trigger w.exit.tasks[t]} ::
                 && 0 <= t < |w.exit.tasks| && w.exit.tasks[t].stream == s && w.local[s].tasksBefore <= t
                 && w.local[s].written <= w.exit.tasks[t].fetched
  {
    hide Forward, Lockstep, Of, HearsClearly;
    var b := ReachedIsPiped(x, pairs, actions, w, true);
    HeardIsSealed(w, b, s);
    var l, cells, current := w.local[s], Of(b.emitted, s), Current(w.local, w.exit.tasks);
    BytesPrefix(l.inbox[..l.cursor], cells);
    OrderlyOf(b.emitted, w.exit.tasks, current, s);
    if HasTask(w.exit.tasks, current, s) {
      var t :| t in current && 0 <= t < |w.exit.tasks| && w.exit.tasks[t].stream == s;
      assert Fetched(w.exit.tasks[t], Of(b.emitted, w.exit.tasks[t].stream));
    } else {
      NoBytes(s, cells, |cells|);
      assert cells[..|cells|] == cells;
    }
  }

  /** A stream's handler relays, and so sends DATA, only if the exit connected to its destination and no END was
      taken off its channel; and until then it has written all the bytes that it took off. */
  lemma {:induction false} RelaysOnlyConnected(x: Circ, pairs: seq<Pair>, actions: seq<Action>, w: World, s: StreamId)
    requires Reached(x, pairs, actions, w) && HearsClearly(x, Built(pairs), actions) && InPhase(w, s, Relaying)
    ensures HasTask(w.exit.tasks, Current(w.local, w.exit.tasks), s)
    ensures var l := w.local[s];
            && l.cursor <= |l.inbox| && l.written == Bytes(l.inbox[..l.cursor])
            && forall i {:trigger l.inbox[i]} :: 0 <= i < l.cursor ==> l.inbox[i].command != End
  {
    hide Forward, Lockstep, Of, Bytes, HasTask, Current, HearsClearly;
    var b := ReachedIsPiped(x, pairs, actions, w, true);
    HeardIsSealed(w, b, s);
    OrderlyOf(b.emitted, w.exit.tasks, Current(w.local, w.exit.tasks), s);
    assert w.local[s].inbox[0] == Of(b.emitted, s)[0];
  }

  /** Nothing is lost on the way back either, once the wires and the channel are drained. */
  lemma {:induction false} SocksGetsAll(x: Circ, pairs: seq<Pair>, actions: seq<Action>, w: World, t: nat)
    requires Reached(x, pairs, actions, w) && HearsClearly(x, Built(pairs), actions) && w.delivered == w.emitted
    requires t < |w.exit.tasks| && (w.exit.tasks[t].live || t in Current(w.local, w.exit.tasks))
    ensures var s := w.exit.tasks[t].stream;
            && s in w.local
            && (s in w.client.senders && w.local[s].phase == Relaying && w.local[s].cursor == |w.local[s].inbox| ==>
                  w.local[s].written + w.exit.tasks[t].outbox == w.exit.tasks[t].fetched)
  {
    hide Lockstep, Of, Bytes, Sending, HearsClearly;
    var b := ReachedIsPiped(x, pairs, actions, w, true);
    var s := w.exit.tasks[t].stream;
    if w.exit.tasks[t].live {
      LiveIsOpen(w, b, t);
    }
    CurrentIsServed(w, b, t);
    HeardIsSealed(w, b, s);
    var l := w.local[s];
    assert l.inbox[..|l.inbox|] == l.inbox;
    assert Fetched(w.exit.tasks[t], Of(b.emitted, s));
  }
}
