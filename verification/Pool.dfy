/** The client's pool of circuits: ageing, selection, replacement and the retry budget. */
module Pool {
  import opened Common
  import opened Cells
  import opened Client

  /** What the pool sees of a circuit: its status and how many streams it carries. */
  datatype Pooled = Pooled(status: Status, streams: nat)

  datatype PoolState = PoolState(
    circuits: map<CircuitId, Pooled>,
    nextId: CircuitId,
    ages: map<CircuitId, nat>,          // when each was built
    failures: map<CircuitId, nat>,
    abandoned: set<CircuitId>,
    maxAge: nat,
    maxAttempts: nat)

  function NewPool(maxAge: nat, maxAttempts: nat): PoolState {
    PoolState(map[], 1, map[], map[], {}, maxAge, maxAttempts)
  }

  /** `duration_since` is zero for an instant still to come. */
  function Age(built: nat, now: nat): nat {
    if built <= now then now - built else 0
  }

  predicate IsReady(s: PoolState, id: CircuitId) {
    id in s.circuits && s.circuits[id].status == Status.Ready
  }

  predicate AgedOut(s: PoolState, id: CircuitId, now: nat) {
    IsReady(s, id) && id in s.ages && Age(s.ages[id], now) >= s.maxAge
  }

  /** Every aged-out circuit turns Dirty and its age record goes. */
  function Expire(s: PoolState, now: nat): PoolState {
    s.(circuits := map id | id in s.circuits ::
         if AgedOut(s, id, now) then s.circuits[id].(status := Dirty) else s.circuits[id],
       ages := map id | id in s.ages && !AgedOut(s, id, now) :: s.ages[id])
  }

  /** An id is spent even if the path or the handshakes fail. */
  function Build(s: PoolState, ok: bool, now: nat): PoolState {
    var id := s.nextId;
    var s1 := s.(nextId := (id as int + 1) % 0x1_0000_0000);
    if ok then s1.(circuits := s1.circuits[id := Pooled(Status.Ready, 0)], ages := s1.ages[id := now]) else s1
  }

  function Failures(s: PoolState, id: CircuitId): nat {
    if id in s.failures then s.failures[id] else 0
  }

  /** The failed circuit goes first, then a new one is built; its age record stays behind. */
  function Replace(s: PoolState, failed: CircuitId, ok: bool, now: nat): PoolState {
    var s1 := Build(s.(circuits := s.circuits - {failed}), ok, now);
    if ok then s1.(failures := s1.failures - {failed})
    else
      var count := Failures(s, failed) + 1;
      s1.(failures := s1.failures[failed := count],
          abandoned := if count >= s.maxAttempts then s1.abandoned + {failed} else s1.abandoned)
  }

  datatype PoolAction =
    | ExpireAged(now: nat)
    | BuildOne(ok: bool, now: nat)
    | ReplaceOne(id: CircuitId, ok: bool, now: nat)
    | DropDirty(id: CircuitId)       // the monitor, once a Dirty circuit has no streams
    | CloseOne(id: CircuitId)        // the circuit's reader stopped
    | StreamsNow(id: CircuitId, streams: nat)

  function Do(s: PoolState, a: PoolAction): PoolState {
    match a
    case ExpireAged(now) => Expire(s, now)
    case BuildOne(ok, now) => Build(s, ok, now)
    case ReplaceOne(id, ok, now) => Replace(s, id, ok, now)
    case DropDirty(id) => s.(circuits := s.circuits - {id})
    case CloseOne(id) =>
      if id in s.circuits then s.(circuits := s.circuits[id := Pooled(Closed, 0)]) else s
    case StreamsNow(id, n) =>
      if id in s.circuits then s.(circuits := s.circuits[id := s.circuits[id].(streams := n)]) else s
  }

  function DoAll(s: PoolState, actions: seq<PoolAction>): PoolState
    decreases |actions|
  {
    if actions == [] then s else DoAll(Do(s, actions[0]), actions[1..])
  }

  /** How many ids a run may spend. */
  function Builds(actions: seq<PoolAction>): nat
    decreases |actions|
  {
    if actions == [] then 0
    else (if actions[0].BuildOne? || actions[0].ReplaceOne? then 1 else 0) + Builds(actions[1..])
  }

  /* Ageing. */

  /** Every pooled Ready circuit has an age record, and exhausted slots are abandoned. */
  ghost predicate Tended(s: PoolState) {
    && (forall id {:trigger id in s.ages} :: IsReady(s, id) ==> id in s.ages)
    && (forall id {:trigger s.failures[id]} ::
          id in s.failures && s.failures[id] >= s.maxAttempts ==> id in s.abandoned)
  }

  lemma {:induction false} DoIsTended(s: PoolState, a: PoolAction)
    requires Tended(s)
    ensures Tended(Do(s, a)) && Do(s, a).maxAttempts == s.maxAttempts && Do(s, a).maxAge == s.maxAge
    ensures s.abandoned <= Do(s, a).abandoned
  {
    var s' := Do(s, a);
    forall id | IsReady(s', id) ensures id in s'.ages {
      assert IsReady(s, id) ==> id in s.ages;
    }
  }

  /** In every run Ready circuits stay accounted for; a slot whose failures reached the
      budget is abandoned, and nothing is ever taken back. */
  lemma {:induction false} RunIsTended(s: PoolState, actions: seq<PoolAction>)
    requires Tended(s)
    ensures Tended(DoAll(s, actions)) && s.abandoned <= DoAll(s, actions).abandoned
    ensures DoAll(s, actions).maxAttempts == s.maxAttempts
    decreases |actions|
  {
    if actions != [] {
      DoIsTended(s, actions[0]);
      RunIsTended(Do(s, actions[0]), actions[1..]);
    }
  }

  /** So in every run of a pool from the start. */
  lemma {:induction false} PoolIsTended(maxAge: nat, maxAttempts: nat, actions: seq<PoolAction>, id: CircuitId)
    ensures var s := DoAll(NewPool(maxAge, maxAttempts), actions);
            && (IsReady(s, id) ==> id in s.ages)
            && (Failures(s, id) >= maxAttempts > 0 ==> id in s.abandoned)
  {
    var s := DoAll(NewPool(maxAge, maxAttempts), actions);
    RunIsTended(NewPool(maxAge, maxAttempts), actions);
    assert IsReady(s, id) ==> id in s.ages;
    assert id in s.failures && s.failures[id] >= s.maxAttempts ==> id in s.abandoned;
  }

  /** After expiry no Ready circuit is at or over the age limit, and only those that were have changed. */
  lemma {:induction false} ExpireLeavesNoneAged(s: PoolState, now: nat, id: CircuitId)
    requires Tended(s)
    ensures var s' := Expire(s, now);
            && (IsReady(s', id) <==> IsReady(s, id) && Age(s.ages[id], now) < s.maxAge)
            && (IsReady(s', id) ==>
                  id in s'.ages && Age(s'.ages[id], now) < s'.maxAge && s'.circuits[id] == s.circuits[id])
            && (id in s'.circuits <==> id in s.circuits)
            && (id in s.circuits ==> s'.circuits[id].streams == s.circuits[id].streams)
            && (id in s.circuits && !IsReady(s, id) ==> s'.circuits[id] == s.circuits[id])
            && (IsReady(s, id) && !IsReady(s', id) ==> s'.circuits[id].status == Dirty && id !in s'.ages)
  {
    assert IsReady(s, id) ==> id in s.ages;
  }

  /* The retry budget. */

  predicate Fails(a: PoolAction, id: CircuitId) {
    a.ReplaceOne? && a.id == id && !a.ok
  }

  /** Failed replacements of `id` in a row, a success starting over. */
  function Streak(n: nat, actions: seq<PoolAction>, id: CircuitId): nat
    decreases |actions|
  {
    if actions == [] then n
    else if Fails(actions[0], id) then Streak(n + 1, actions[1..], id)
    else if actions[0].ReplaceOne? && actions[0].id == id then Streak(0, actions[1..], id)
    else Streak(n, actions[1..], id)
  }

  lemma {:induction false} OneAttempt(s: PoolState, a: PoolAction, id: CircuitId)
    ensures var s', f := Do(s, a), Failures(s, id);
            && Failures(s', id) == (if Fails(a, id) then f + 1 else if a.ReplaceOne? && a.id == id then 0 else f)
            && Failures(s', id) == Streak(f, [a], id) && s'.maxAttempts == s.maxAttempts
            && (id in s'.abandoned <==> id in s.abandoned || (Fails(a, id) && f + 1 >= s.maxAttempts))
  {
    assert [a][1..] == [];
  }

  /** Exactly the slots that fail as often in a row as the budget says, at any time in the run, are
      abandoned, whatever happens afterwards. */
  lemma {:induction false} BudgetIsExact(s: PoolState, actions: seq<PoolAction>, id: CircuitId)
    ensures Failures(DoAll(s, actions), id) == Streak(Failures(s, id), actions, id)
    ensures id in DoAll(s, actions).abandoned <==>
            || id in s.abandoned
            || exists n {:trigger actions[..n]} ::
                 0 < n <= |actions| && Fails(actions[n - 1], id)
                     && Streak(Failures(s, id), actions[..n], id) >= s.maxAttempts
    decreases |actions|
  {
    if actions != [] {
      var a, rest, s1, f := actions[0], actions[1..], Do(s, actions[0]), Failures(s, id);
      hide Do, Failures;
      OneAttempt(s, a, id);
      BudgetIsExact(s1, rest, id);
      assert actions[..1] == [a];
      forall n | 0 < n <= |rest| ensures Streak(f, actions[..n + 1], id) == Streak(Failures(s1, id), rest[..n], id) {
        assert actions[..n + 1][0] == a && actions[..n + 1][1..] == rest[..n];
      }
      if n :| 0 < n <= |actions| && Fails(actions[n - 1], id) && Streak(f, actions[..n], id) >= s.maxAttempts {
        if n > 1 {
          assert Fails(rest[..n - 1][n - 2], id) && rest[n - 2] == actions[n - 1];
        }
      }
      if n :| 0 < n <= |rest| && Fails(rest[n - 1], id) && Streak(Failures(s1, id), rest[..n], id) >= s1.maxAttempts {
        assert actions[..n + 1][n] == rest[n - 1];
      }
    }
  }

  /** A replacement: the failed circuit is gone in any case; if it succeeds there is exactly one more, Ready and
      without streams, the failures are forgotten, and nobody is abandoned for it; otherwise none is added and
      one failure counts. No other circuit and no other slot is concerned. */
  lemma {:induction false} ReplacedExactly(s: PoolState, failed: CircuitId, ok: bool, now: nat, id: CircuitId)
    ensures var s' := Replace(s, failed, ok, now);
            && (ok ==> IsReady(s', s.nextId) && s'.circuits[s.nextId].streams == 0 && s'.ages[s.nextId] == now)
            && (!(ok && id == s.nextId) ==>
                  && (id in s'.circuits <==> id in s.circuits && id != failed)
                  && (id in s'.circuits ==> s'.circuits[id] == s.circuits[id]))
            && Failures(s', failed) == (if ok then 0 else Failures(s, failed) + 1)
            && (id != failed ==> Failures(s', id) == Failures(s, id))
            && (id in s'.abandoned <==>
                  id in s.abandoned || (!ok && id == failed && Failures(s, failed) + 1 >= s.maxAttempts))
  {
  }

  /** What the pool is told of a circuit's streams concerns only their number. */
  lemma {:induction false} CountsStreams(s: PoolState, id: CircuitId, n: nat, other: CircuitId)
    requires id in s.circuits
    ensures var s' := Do(s, StreamsNow(id, n));
            && s'.circuits.Keys == s.circuits.Keys && s' == s.(circuits := s'.circuits)
            && s'.circuits[id].streams == n && s'.circuits[id].status == s.circuits[id].status
            && (other in s.circuits && other != id ==> s'.circuits[other] == s.circuits[other])
  {
    assert Do(s, StreamsNow(id, n)).circuits.Keys == s.circuits.Keys;
  }

  /* The lifecycle of a circuit. */

  function Rank(status: Status): nat {
    match status
    case Building => 0
    case Ready => 1
    case Dirty => 2
    case Closing => 3
    case Closed => 4
  }

  /** No id has been used twice yet. */
  ghost predicate Numbered(s: PoolState, built: nat) {
    && built < 0xFFFF_FFFF && s.nextId == 1 + built
    && forall id {:trigger id in s.circuits} :: id in s.circuits ==> 1 <= id < s.nextId
  }

  /** What may become of circuit `id`: it moves on, or leaves for good. */
  ghost predicate MovesOn(s: PoolState, s': PoolState, id: CircuitId) {
    id in s'.circuits ==> id in s.circuits && Rank(s.circuits[id].status) <= Rank(s'.circuits[id].status)
  }

  lemma {:induction false} DoMovesOn(s: PoolState, a: PoolAction, built: nat, id: CircuitId)
    requires Numbered(s, built) && built + Builds([a]) < 0xFFFF_FFFF && id < s.nextId
    ensures Numbered(Do(s, a), built + Builds([a])) && MovesOn(s, Do(s, a), id) && s.nextId <= Do(s, a).nextId
  {
    assert [a][1..] == [];
    var s' := Do(s, a);
    forall i | i in s'.circuits ensures 1 <= i < s'.nextId {
      assert i in s.circuits ==> 1 <= i < s.nextId;
    }
  }

  /** Over any run that does not use up the 32-bit ids, a circuit only ever moves Ready, Dirty, Closed
      (it may skip Dirty), and once out of the pool it never comes back. */
  lemma {:induction false} RunMovesOn(s: PoolState, actions: seq<PoolAction>, built: nat, id: CircuitId)
    requires Numbered(s, built) && built + Builds(actions) < 0xFFFF_FFFF && id < s.nextId
    ensures Numbered(DoAll(s, actions), built + Builds(actions)) && MovesOn(s, DoAll(s, actions), id)
    decreases |actions|
  {
    if actions != [] {
      assert [actions[0]][1..] == [];
      DoMovesOn(s, actions[0], built, id);
      RunMovesOn(Do(s, actions[0]), actions[1..], built + Builds([actions[0]]), id);
    }
  }

  /** What takes a circuit out of service: it is replaced, dropped or closed. */
  predicate Leaves(a: PoolAction, id: CircuitId) {
    (a.ReplaceOne? && a.id == id) || (a.DropDirty? && a.id == id) || (a.CloseOne? && a.id == id)
  }

  predicate Ends(a: PoolAction, id: CircuitId, built: nat, maxAge: nat) {
    Leaves(a, id) || (a.ExpireAged? && (maxAge == 0 || a.now >= built + maxAge))
  }

  /** While the circuit is in service, its record says when it was built. */
  lemma {:induction false} StaysReady(s: PoolState, a: PoolAction, spent: nat, id: CircuitId, built: nat)
    requires Numbered(s, spent) && spent + Builds([a]) < 0xFFFF_FFFF && id < s.nextId
    ensures IsReady(s, id) && id in s.ages && s.ages[id] == built && !Ends(a, id, built, s.maxAge) ==>
              IsReady(Do(s, a), id) && id in Do(s, a).ages && Do(s, a).ages[id] == built
    ensures IsReady(s, id) && id in s.ages && s.ages[id] == built && Ends(a, id, built, s.maxAge) ==>
              !IsReady(Do(s, a), id)
    ensures !IsReady(s, id) ==> !IsReady(Do(s, a), id)
    ensures Do(s, a).maxAge == s.maxAge
  {
    assert [a][1..] == [];
  }

  lemma {:induction false} ReadyRun(s: PoolState, actions: seq<PoolAction>, spent: nat, id: CircuitId, built: nat)
    requires Numbered(s, spent) && spent + Builds(actions) < 0xFFFF_FFFF && id < s.nextId
    requires IsReady(s, id) ==> id in s.ages && s.ages[id] == built
    ensures IsReady(DoAll(s, actions), id) <==>
            IsReady(s, id) && forall a :: a in actions ==> !Ends(a, id, built, s.maxAge)
    decreases |actions|
  {
    hide Do, IsReady, Ends, Numbered;
    if actions != [] {
      var a := actions[0];
      assert [a][1..] == [];
      StaysReady(s, a, spent, id, built);
      DoMovesOn(s, a, spent, id);
      assert forall c :: c in actions <==> c == a || c in actions[1..];
      ReadyRun(Do(s, a), actions[1..], spent + Builds([a]), id, built);
    }
  }

  /** A circuit built at `built` is in service exactly until it is replaced, dropped or closed, or an expiry finds it
      at the age limit or over; other circuits' fortunes do not matter. It starts without streams. */
  lemma {:induction false} ServesUntilAged(s: PoolState, spent: nat, built: nat, actions: seq<PoolAction>)
    requires Numbered(s, spent) && spent + 1 + Builds(actions) < 0xFFFF_FFFF
    ensures var id, s' := s.nextId, Build(s, true, built);
            && IsReady(s', id) && s'.circuits[id].streams == 0
            && (IsReady(DoAll(s', actions), id) <==>
                  forall a :: a in actions ==>
                    && !(a.ReplaceOne? && a.id == id) && !(a.DropDirty? && a.id == id) && !(a.CloseOne? && a.id == id)
                    && (a.ExpireAged? ==> s.maxAge > 0 && a.now < built + s.maxAge))
  {
    var id, s' := s.nextId, Build(s, true, built);
    assert Numbered(s', spent + 1) by {
      assert [BuildOne(true, built)][1..] == [];
      DoMovesOn(s, BuildOne(true, built), spent, 0);
    }
    ReadyRun(s', actions, spent + 1, id, built);
  }

  /** Whenever the run replaces `id`, that circuit is in the pool at that moment. The monitor asks for
      circuits it saw in the pool some time before, and the SOCKS proxy for one it was given. */
  predicate ReplacedWhilePooled(s: PoolState, actions: seq<PoolAction>, id: CircuitId)
    decreases |actions|
  {
    actions != [] ==>
      && (actions[0].ReplaceOne? && actions[0].id == id ==> id in s.circuits)
      && ReplacedWhilePooled(Do(s, actions[0]), actions[1..], id)
  }

  /** A slot that failed is out of the pool. */
  ghost predicate FailedIsGone(s: PoolState, id: CircuitId) {
    Failures(s, id) <= 1 && (Failures(s, id) == 1 ==> id !in s.circuits && id < s.nextId)
  }

  lemma {:induction false} DoFailedIsGone(s: PoolState, a: PoolAction, built: nat, id: CircuitId)
    requires Numbered(s, built) && built + Builds([a]) < 0xFFFF_FFFF && FailedIsGone(s, id)
    requires a.ReplaceOne? && a.id == id ==> id in s.circuits
    ensures FailedIsGone(Do(s, a), id)
  {
    assert [a][1..] == [];
    assert a.ReplaceOne? && a.id == id ==> 1 <= id < s.nextId;
  }

  /** A replacement takes the failed id out of the pool before it builds, so a second failure of a slot
      needs a replacement of an id that is not in the pool. */
  lemma {:induction false} SecondFailureNeedsAbsence(s: PoolState, actions: seq<PoolAction>, built: nat, id: CircuitId)
    requires Numbered(s, built) && built + Builds(actions) < 0xFFFF_FFFF && FailedIsGone(s, id)
    ensures Failures(DoAll(s, actions), id) >= 2 ==> !ReplacedWhilePooled(s, actions, id)
    decreases |actions|
  {
    if actions != [] && ReplacedWhilePooled(s, actions, id) {
      assert [actions[0]][1..] == [];
      DoFailedIsGone(s, actions[0], built, id);
      DoMovesOn(s, actions[0], built, 0);
      SecondFailureNeedsAbsence(Do(s, actions[0]), actions[1..], built + Builds([actions[0]]), id);
    }
  }

  /* Backoff. */

  function Pow2(n: nat): (r: nat)
    ensures r >= 1
  {
    if n == 0 then 1 else 2 * Pow2(n - 1)
  }

  lemma {:induction false} Pow2Monotone(a: nat, b: nat)
    requires a <= b
    ensures Pow2(a) <= Pow2(b)
    decreases b
  {
    if a < b {
      Pow2Monotone(a, b - 1);
    }
  }

  lemma {:induction false} Pow2Add(a: nat, b: nat)
    ensures Pow2(a + b) == Pow2(a) * Pow2(b)
  {
    if a > 0 {
      Pow2Add(a - 1, b);
    }
  }

  lemma {:induction false} HighPowers()
    ensures Pow2(61) == 0x2000_0000_0000_0000 && Pow2(62) == 0x4000_0000_0000_0000 && Pow2(63) == 0x8000_0000_0000_0000
  {
    assert Pow2(15) == 0x8000;
    Pow2Add(15, 15);
    Pow2Add(30, 30);
    assert Pow2(60) == 0x1000_0000_0000_0000;
  }

  /** `(5u64 * (1u64 << failures)).min(60)` in a release build: the shift count is taken modulo 64 and
      the product wraps around. */
  function BackoffSeconds(failures: nat): nat {
    Min((5 * Pow2(failures % 64)) % 0x1_0000_0000_0000_0000, 60)
  }

  function Intended(failures: nat): nat {
    Min(5 * Pow2(failures), 60)
  }

  lemma {:induction false} ProductFitsIff(failures: nat)
    ensures 5 * Pow2(failures) < 0x1_0000_0000_0000_0000 <==> failures <= 61
  {
    HighPowers();
    if failures <= 61 {
      Pow2Monotone(failures, 61);
    } else {
      Pow2Monotone(62, failures);
    }
  }

  lemma {:induction false} IntendedIs(failures: nat)
    ensures Intended(failures) == [5, 10, 20, 40, 60][Min(failures, 4)]
  {
    assert Pow2(0) == 1 && Pow2(1) == 2 && Pow2(2) == 4 && Pow2(3) == 8 && Pow2(4) == 16;
    if failures >= 4 {
      Pow2Monotone(4, failures);
    }
  }

  lemma {:induction false} BackoffIs(failures: nat)
    ensures BackoffSeconds(failures) == Intended(failures % 64)
  {
    hide Pow2;
    var f := failures % 64;
    ProductFitsIff(f);
    if f > 61 {
      HighPowers();
      IntendedIs(f);
      assert f == 62 || f == 63;
    }
  }

  /** The wait is the intended one exactly up to 63 failures, and after that whenever the shift count's
      low bits happen to give a minute as well. */
  lemma {:induction false} BackoffIntendedIff(failures: nat)
    ensures BackoffSeconds(failures) == Intended(failures) <==> failures < 64 || failures % 64 >= 4
  {
    hide Pow2, Intended, BackoffSeconds;
    BackoffIs(failures);
    IntendedIs(failures % 64);
    IntendedIs(failures);
  }

  /** If nothing comes between the monitor's look at the abandoned slots and its look at the failures: a
      budget of at most 62 keeps the product within 64 bits, the wait between 5 and 60 seconds, and never
      shorter after one more failure. */
  lemma {:induction false} BackoffIsSafe(s: PoolState, id: CircuitId)
    requires Tended(s) && id !in s.abandoned && 1 <= s.maxAttempts <= 62
    ensures var f := Failures(s, id);
            && f <= 61 && 5 * Pow2(f) < 0x1_0000_0000_0000_0000
            && 5 <= BackoffSeconds(f) <= 60 && BackoffSeconds(f) == Intended(f)
            && forall g {:trigger BackoffSeconds(g)} :: 0 <= g <= f ==> BackoffSeconds(g) <= BackoffSeconds(f)
  {
    var f := Failures(s, id);
    assert id in s.failures ==> s.failures[id] < s.maxAttempts;
    ProductFitsIff(f);
    BackoffIntendedIff(f);
    IntendedIs(f);
    forall g | 0 <= g <= f ensures BackoffSeconds(g) <= BackoffSeconds(f) {
      BackoffIntendedIff(g);
      IntendedIs(g);
    }
  }

  /** Failed replacements of `id`, in a row or not. */
  function FailedTries(actions: seq<PoolAction>, id: CircuitId): nat
    decreases |actions|
  {
    if actions == [] then 0 else (if Fails(actions[0], id) then 1 else 0) + FailedTries(actions[1..], id)
  }

  lemma {:induction false} StreakBound(n: nat, actions: seq<PoolAction>, id: CircuitId)
    ensures Streak(n, actions, id) <= n + FailedTries(actions, id)
    decreases |actions|
  {
    if actions != [] {
      StreakBound(if Fails(actions[0], id) then n + 1
                  else if actions[0].ReplaceOne? && actions[0].id == id then 0 else n, actions[1..], id);
    }
  }

  /** The monitor looks at the abandoned slots and at the failures under two locks, and others may replace
      the same id in between. The product then fits exactly up to a streak of 61; so it does if the
      failures in between and the budget together are at most 62. */
  lemma {:induction false} LateFailures(s: PoolState, between: seq<PoolAction>, id: CircuitId)
    ensures var f, n := Failures(DoAll(s, between), id), Streak(Failures(s, id), between, id);
            && (5 * Pow2(f) < 0x1_0000_0000_0000_0000 <==> n <= 61)
            && (BackoffSeconds(f) == Intended(f) <==> n < 64 || n % 64 >= 4)
            && (n <= 61 ==> 5 <= BackoffSeconds(f) <= 60)
    ensures Tended(s) && id !in s.abandoned && 0 < s.maxAttempts && FailedTries(between, id) + s.maxAttempts <= 62 ==>
              5 * Pow2(Failures(DoAll(s, between), id)) < 0x1_0000_0000_0000_0000
  {
    hide Pow2, BackoffSeconds, Intended, DoAll;
    var f := Failures(DoAll(s, between), id);
    BudgetIsExact(s, between, id);
    ProductFitsIff(f);
    BackoffIntendedIff(f);
    IntendedIs(f);
    StreakBound(Failures(s, id), between, id);
    assert Tended(s) && id !in s.abandoned && id in s.failures ==> s.failures[id] < s.maxAttempts;
  }

  function FailOn(id: CircuitId, n: nat): (r: seq<PoolAction>)
    ensures |r| == n
  {
    seq(n, _ => ReplaceOne(id, false, 0))
  }

  lemma {:induction false} FailingOn(s: PoolState, id: CircuitId, n: nat)
    ensures var s' := DoAll(s, FailOn(id, n));
            && Failures(s', id) == Failures(s, id) + n && s'.maxAttempts == s.maxAttempts
            && (id !in s.abandoned && Failures(s, id) + n < s.maxAttempts ==> id !in s'.abandoned)
    decreases n
  {
    if n > 0 {
      assert FailOn(id, n)[1..] == FailOn(id, n - 1);
      FailingOn(Do(s, FailOn(id, n)[0]), id, n - 1);
    }
  }

  lemma {:induction false} FailedTriesAre(id: CircuitId, n: nat)
    ensures FailedTries(FailOn(id, n), id) == n
  {
    if n > 0 {
      assert FailOn(id, n)[1..] == FailOn(id, n - 1);
      FailedTriesAre(id, n - 1);
    }
  }

  /** And not beyond: whatever the budget, there is a slot that is not abandoned when the monitor looks, and
      for which one failure more than that in between makes the product overflow. */
  lemma {:induction false} LateFailuresOverflow(maxAge: nat, budget: nat, id: CircuitId)
    requires 1 <= budget <= 62
    ensures var s := DoAll(NewPool(maxAge, budget), FailOn(id, budget - 1));
            && Tended(s) && id !in s.abandoned && s.maxAttempts == budget
            && FailedTries(FailOn(id, 63 - budget), id) + budget == 63
            && 5 * Pow2(Failures(DoAll(s, FailOn(id, 63 - budget)), id)) >= 0x1_0000_0000_0000_0000
  {
    hide Pow2, DoAll;
    var start := NewPool(maxAge, budget);
    FailingOn(start, id, budget - 1);
    RunIsTended(start, FailOn(id, budget - 1));
    var s := DoAll(start, FailOn(id, budget - 1));
    FailingOn(s, id, 63 - budget);
    FailedTriesAre(id, 63 - budget);
    ProductFitsIff(62);
  }

  function Aged(s: PoolState, now: nat): set<CircuitId> {
    set id | id in s.circuits && AgedOut(s, id, now)
  }

  function Marked(circuits: map<CircuitId, Pooled>, out: set<CircuitId>): map<CircuitId, Pooled> {
    map id | id in circuits :: if id in out then circuits[id].(status := Dirty) else circuits[id]
  }

  function OldOnes(s: PoolState, now: nat): set<CircuitId> {
    set id | id in s.ages && Age(s.ages[id], now) >= s.maxAge
  }

  lemma {:induction false} AgedAreOld(s: PoolState, now: nat)
    ensures Aged(s, now) <= OldOnes(s, now)
    ensures Marked(s.circuits, {}) == s.circuits && s.ages - {} == s.ages
  {
  }

  lemma {:induction false} MarkNext(s: PoolState, out: set<CircuitId>, id: CircuitId, now: nat)
    requires id in OldOnes(s, now) && id !in out
    ensures var marked := Marked(s.circuits, out);
            && (id in marked && marked[id].status == Status.Ready <==> id in Aged(s, now))
            && (id in marked ==> marked[id := marked[id].(status := Dirty)] == Marked(s.circuits, out + {id}))
            && (s.ages - out) - {id} == s.ages - (out + {id})
  {
  }

  lemma {:induction false} ExpireMarks(s: PoolState, now: nat)
    ensures Expire(s, now) == s.(circuits := Marked(s.circuits, Aged(s, now)), ages := s.ages - Aged(s, now))
  {
    var s' := Expire(s, now);
    assert s'.circuits == Marked(s.circuits, Aged(s, now));
    assert s'.ages == s.ages - Aged(s, now);
  }

  class CircuitPool {
    var circuits: map<CircuitId, Pooled>
    var nextId: CircuitId
    var ages: map<CircuitId, nat>
    var failures: map<CircuitId, nat>
    var abandoned: set<CircuitId>
    const maxAge: nat
    const maxAttempts: nat

    function State(): PoolState
      reads this
    {
      PoolState(circuits, nextId, ages, failures, abandoned, maxAge, maxAttempts)
    }

    constructor (maxAge: nat, maxAttempts: nat)
      ensures State() == NewPool(maxAge, maxAttempts)
    {
      circuits, nextId, ages, failures, abandoned := map[], 1, map[], map[], {};
      this.maxAge := maxAge;
      this.maxAttempts := maxAttempts;
    }

    /** First the list of old records, then one circuit after the other. */
    method ExpireAgedCircuits(now: nat) returns (agedOut: set<CircuitId>)
      modifies this`circuits, this`ages
      ensures State() == Expire(old(State()), now)
      ensures agedOut == Aged(old(State()), now)
    {
      ghost var was := State();
      var toExpire := OldOnes(State(), now);
      agedOut := {};
      hide Aged, Marked, OldOnes, Expire;
      AgedAreOld(was, now);
      while toExpire != {}
        invariant toExpire <= OldOnes(was, now) && agedOut == Aged(was, now) - toExpire
        invariant circuits == Marked(was.circuits, agedOut) && ages == was.ages - agedOut
        decreases |toExpire|
      {
        var id :| id in toExpire;
        MarkNext(was, agedOut, id, now);
        toExpire := toExpire - {id};
        if id in circuits && circuits[id].status == Status.Ready {
          circuits := circuits[id := circuits[id].(status := Dirty)];
          ages := ages - {id};
          agedOut := agedOut + {id};
        }
      }
      ExpireMarks(was, now);
      assert agedOut == Aged(was, now);
    }

    /** `ok` and `now` stand for the directory, the handshakes and the clock. */
    method BuildCircuit(ok: bool, now: nat) returns (built: Option<CircuitId>)
      modifies this`circuits, this`ages, this`nextId
      ensures State() == Build(old(State()), ok, now)
      ensures built == if ok then Some(old(nextId)) else None
    {
      var id := nextId;
      nextId := if nextId == 0xFFFF_FFFF then 0 else nextId + 1;
      if !ok {
        return None;
      }
      circuits := circuits[id := Pooled(Status.Ready, 0)];
      ages := ages[id := now];
      built := Some(id);
    }

    method ReplaceCircuit(failed: CircuitId, ok: bool, now: nat) returns (built: Option<CircuitId>)
      modifies this
      ensures State() == Replace(old(State()), failed, ok, now)
      ensures built == if ok then Some(old(nextId)) else None
    {
      circuits := circuits - {failed};
      built := BuildCircuit(ok, now);
      if built.Some? {
        failures := failures - {failed};
      } else {
        var count := if failed in failures then failures[failed] + 1 else 1;
        failures := failures[failed := count];
        if count >= maxAttempts {
          abandoned := abandoned + {failed};
        }
      }
    }

    /** A Ready circuit with the fewest streams if there is any; else a new one, if that can be built. */
    method SelectCircuit(ok: bool, now: nat) returns (chosen: Option<CircuitId>)
      modifies this`circuits, this`ages, this`nextId
      ensures (exists id :: IsReady(old(State()), id)) ==>
                && State() == old(State()) && chosen.Some? && IsReady(State(), chosen.value)
                && forall id :: IsReady(State(), id) ==> circuits[chosen.value].streams <= circuits[id].streams
      ensures !(exists id :: IsReady(old(State()), id)) ==>
                && State() == Build(old(State()), ok, now)
                && (ok ==>
                      && chosen == Some(old(nextId)) && IsReady(State(), chosen.value)
                      && circuits[chosen.value].streams == 0)
                && (!ok ==> chosen == None)
    {
      var best: Option<CircuitId> := None;
      var todo := circuits.Keys;
      while todo != {}
        invariant todo <= circuits.Keys
        invariant best.None? ==> forall id :: IsReady(State(), id) ==> id in todo
        invariant best.Some? ==>
                    && IsReady(State(), best.value)
                    && forall id :: IsReady(State(), id) && id !in todo ==>
                         circuits[best.value].streams <= circuits[id].streams
        decreases |todo|
      {
        var id :| id in todo;
        todo := todo - {id};
        if circuits[id].status == Status.Ready
           && (best.None? || circuits[id].streams < circuits[best.value].streams) {
          best := Some(id);
        }
      }
      if best.Some? {
        return best;
      }
      chosen := BuildCircuit(ok, now);
    }
  }
}
