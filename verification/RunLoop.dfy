/**
 Which task queue a step of `run` launches, and how `start_operation` spreads tasks over the queues: one runner in the
 `concurrent` policy, on the sixteen remote buckets of io_uring_exec_internal.h.
 */
module RunLoop {
  import opened Bits
  import opened Lists

  type Task = nat

  const WAYS: nat := 16

  /** The attached queue, numbered after the buckets. */
  const ATTACHED: nat := WAYS

  /** `robin_access`: the step counter, a 64-bit number, picks the bucket. */
  function Robin(step: nat): (b: nat)
    ensures b < WAYS
  {
    step % WAYS
  }

  function Bump(counter: nat): nat {
    (counter + 1) % WORD_SIZE
  }

  function Advance(counter: nat, n: nat): nat {
    (counter + n) % WORD_SIZE
  }

  /** Wrapping around does not disturb the round robin, because the number of buckets divides 2^64. */
  lemma RobinAfter(counter: nat, n: nat)
    ensures Robin(Advance(counter, n)) == (counter + n) % WAYS
  {
    var x := counter + n;
    var q := x / WORD_SIZE;
    assert x == WORD_SIZE * q + x % WORD_SIZE && WORD_SIZE == WAYS * 0x1000_0000_0000_0000;
    MultipleVanishes(x % WORD_SIZE, 0x1000_0000_0000_0000 * q);
  }

  lemma MultipleVanishes(r: nat, m: nat)
    ensures (WAYS * m + r) % WAYS == r % WAYS
  {
  }

  /** Within sixteen steps, from any counter and across its wrapping around, every bucket has its turn. */
  lemma EveryBucketHasItsTurn(counter: nat, b: nat) returns (n: nat)
    requires b < WAYS
    ensures n < WAYS && Robin(Advance(counter, n)) == b
  {
    n := (b + WAYS - counter % WAYS) % WAYS;
    RobinAfter(counter, n);
  }

  lemma AdvanceOne(counter: nat, n: nat)
    ensures Bump(Advance(counter, n)) == Advance(counter, n + 1)
  {
  }

  /** How many of the first n operations, dealt out in turn from bucket zero, fell to bucket b. */
  function Share(n: nat, b: nat): nat
    requires b < WAYS
  {
    (n + WAYS - 1 - b) / WAYS
  }

  /** Tasks that are started on the remote buckets, and on the runner's own attached queue. */
  datatype Starts = Starts(remotely: seq<Task>, locally: seq<Task>)

  /** What a launched task starts. */
  type Callbacks = Task -> Starts

  /** Everything that was in these queues, but for one of them, still is. */
  ghost predicate Kept(before: seq<seq<Task>>, after: seq<seq<Task>>, but: nat) {
    && |before| == |after|
    && forall b, x {:trigger x in before[b]} :: 0 <= b < |before| && b != but && x in before[b] ==> x in after[b]
  }

  /** The task waits in one of these queues. */
  ghost predicate Waits(queues: seq<seq<Task>>, x: Task) {
    exists b {:trigger queues[b]} :: 0 <= b < |queues| && x in queues[b]
  }

  /** All that was to be started waits. */
  ghost predicate Started(st: Starts, queues: seq<seq<Task>>) {
    forall x {:trigger Waits(queues, x)} :: x in st.remotely || x in st.locally ==> Waits(queues, x)
  }

  /** A task that is started again whenever it is launched, as a restart is that finds the SQ full. */
  predicate Restarts(callbacks: Callbacks, x: Task) {
    x in callbacks(x).remotely
  }

  /** Such tasks do not get lost. */
  ghost predicate RestartsWait(before: seq<seq<Task>>, after: seq<seq<Task>>, callbacks: Callbacks) {
    forall x {:trigger Restarts(callbacks, x)} :: Restarts(callbacks, x) && Waits(before, x) ==> Waits(after, x)
  }

  lemma KeptWaits(before: seq<seq<Task>>, after: seq<seq<Task>>)
    requires Kept(before, after, |before|)
    ensures forall x :: Waits(before, x) ==> Waits(after, x)
  {
    forall x | Waits(before, x) ensures Waits(after, x) {
      var b :| 0 <= b < |before| && x in before[b];
      assert x in after[b];
    }
  }

  /** How often the task waits in these queues, all together. */
  function Total(queues: seq<seq<Task>>, x: Task): nat {
    if queues == [] then 0 else Count(queues[0], x) + Total(queues[1..], x)
  }

  lemma {:induction false} TotalUpdate(queues: seq<seq<Task>>, b: nat, q: seq<Task>, x: Task)
    requires b < |queues|
    ensures Total(queues[b := q], x) + Count(queues[b], x) == Total(queues, x) + Count(q, x)
  {
    if b == 0 {
      assert queues[b := q][1..] == queues[1..];
    } else {
      TotalUpdate(queues[1..], b - 1, q, x);
      assert queues[b := q][1..] == queues[1..][b - 1 := q];
    }
  }

  /** Nothing is lost and nothing doubled: these tasks have left the queues, and these have come. */
  ghost predicate Exchanged(before: seq<seq<Task>>, after: seq<seq<Task>>, left: seq<Task>, came: seq<Task>) {
    forall x {:trigger Total(after, x)} :: Total(after, x) + Count(left, x) == Total(before, x) + Count(came, x)
  }

  lemma ExchangedAt(queues: seq<seq<Task>>, b: nat, q: seq<Task>, came: seq<Task>)
    requires b < |queues| && q == came + queues[b]
    ensures Exchanged(queues, queues[b := q], [], came)
  {
    forall x ensures Total(queues[b := q], x) == Total(queues, x) + Count(came, x) {
      TotalUpdate(queues, b, q, x);
      CountConcat(came, queues[b], x);
    }
  }

  lemma ExchangedTwice(
    q0: seq<seq<Task>>, q1: seq<seq<Task>>, q2: seq<seq<Task>>,
    left1: seq<Task>, came1: seq<Task>, left2: seq<Task>, came2: seq<Task>)
    requires Exchanged(q0, q1, left1, came1) && Exchanged(q1, q2, left2, came2)
    ensures Exchanged(q0, q2, left1 + left2, came1 + came2)
  {
    forall x ensures Total(q2, x) + Count(left1 + left2, x) == Total(q0, x) + Count(came1 + came2, x) {
      assert Total(q1, x) + Count(left1, x) == Total(q0, x) + Count(came1, x);
      CountConcat(left1, left2, x);
      CountConcat(came1, came2, x);
    }
  }

  lemma {:induction false} CountReverse(s: seq<Task>, x: Task)
    ensures Count(Reverse(s), x) == Count(s, x)
  {
    if s != [] {
      CountReverse(s[1..], x);
      CountConcat(Reverse(s[1..]), [s[0]], x);
      assert s == [s[0]] + s[1..] && Reverse(s) == Reverse(s[1..]) + [s[0]];
    }
  }

  /** A queue is detached. */
  lemma Detached(queues: seq<seq<Task>>, b: nat)
    requires b < |queues|
    ensures Exchanged(queues, queues[b := []], Reverse(queues[b]), [])
  {
    forall x ensures Total(queues[b := []], x) + Count(Reverse(queues[b]), x) == Total(queues, x) {
      TotalUpdate(queues, b, [], x);
      CountReverse(queues[b], x);
    }
  }

  /** What the launched tasks start, one after the other. */
  function StartedBy(log: seq<Task>, callbacks: Callbacks): seq<Task> {
    if log == [] then []
    else
      var st := callbacks(log[|log| - 1]);
      StartedBy(log[..|log| - 1], callbacks) + (st.remotely + st.locally)
  }

  lemma {:induction false} StartedByBoth(log: seq<Task>, more: seq<Task>, callbacks: Callbacks)
    ensures StartedBy(log + more, callbacks) == StartedBy(log, callbacks) + StartedBy(more, callbacks)
  {
    if more == [] {
      assert log + more == log;
    } else {
      var n := |more| - 1;
      StartedByBoth(log, more[..n], callbacks);
      assert (log + more)[..|log + more| - 1] == log + more[..n];
    }
  }

  /** What they start on the attached queue, and how much on the buckets. */
  function LocallyBy(log: seq<Task>, callbacks: Callbacks): seq<Task> {
    if log == [] then [] else LocallyBy(log[..|log| - 1], callbacks) + callbacks(log[|log| - 1]).locally
  }

  function RemotelyBy(log: seq<Task>, callbacks: Callbacks): nat {
    if log == [] then 0 else RemotelyBy(log[..|log| - 1], callbacks) + |callbacks(log[|log| - 1]).remotely|
  }

  lemma OnTop(xs: seq<Task>, ys: seq<Task>, q: seq<Task>)
    ensures Reverse(ys) + (Reverse(xs) + q) == Reverse(xs + ys) + q
  {
    ReverseAppend(xs, ys);
  }

  lemma StartsOneMore(before: seq<seq<Task>>, mid: seq<seq<Task>>, after: seq<seq<Task>>, fifo: seq<Task>, i: nat, callbacks: Callbacks)
    requires i < |fifo| && Exchanged(before, mid, [], StartedBy(fifo[..i], callbacks))
    requires Exchanged(mid, after, [], callbacks(fifo[i]).remotely + callbacks(fifo[i]).locally)
    ensures Exchanged(before, after, [], StartedBy(fifo[..i + 1], callbacks))
  {
    var st := callbacks(fifo[i]);
    ExchangedTwice(before, mid, after, [], StartedBy(fifo[..i], callbacks), [], st.remotely + st.locally);
    assert fifo[..i + 1][..i] == fifo[..i];
  }

  /** The tasks launched in these steps, and what they and others started meanwhile. */
  function AllLaunched(log: seq<seq<Task>>): seq<Task> {
    if log == [] then [] else AllLaunched(log[..|log| - 1]) + log[|log| - 1]
  }

  function AllStarted(log: seq<seq<Task>>, callbacks: Callbacks, arrivals: nat -> Starts, first: nat): seq<Task> {
    if log == [] then []
    else
      var st := arrivals(first + |log| - 1);
      AllStarted(log[..|log| - 1], callbacks, arrivals, first) + (st.remotely + st.locally + StartedBy(log[|log| - 1], callbacks))
  }

  lemma ExchangedMore(
    before: seq<seq<Task>>, mid: seq<seq<Task>>, after: seq<seq<Task>>, log: seq<seq<Task>>, now: seq<Task>,
    callbacks: Callbacks, arrivals: nat -> Starts, first: nat)
    requires Exchanged(before, mid, AllLaunched(log), AllStarted(log, callbacks, arrivals, first))
    requires
      var st := arrivals(first + |log|);
      Exchanged(mid, after, now, st.remotely + st.locally + StartedBy(now, callbacks))
    ensures Exchanged(before, after, AllLaunched(log + [now]), AllStarted(log + [now], callbacks, arrivals, first))
  {
    var st := arrivals(first + |log|);
    ExchangedTwice(before, mid, after, AllLaunched(log), AllStarted(log, callbacks, arrivals, first),
                   now, st.remotely + st.locally + StartedBy(now, callbacks));
    assert (log + [now])[..|log + [now]| - 1] == log && first + |log + [now]| - 1 == first + |log|;
  }

  /** The task was launched in one of these steps. */
  ghost predicate Launched(log: seq<seq<Task>>, x: Task) {
    exists j {:trigger log[j]} :: 0 <= j < |log| && x in log[j]
  }

  /** Whatever was in bucket b has been launched, or is still there. */
  ghost predicate Served(before: seq<seq<Task>>, after: seq<seq<Task>>, log: seq<seq<Task>>) {
    && |before| == |after|
    && forall b, x {:trigger x in before[b]} :: 0 <= b < |before| && x in before[b] ==> x in after[b] || Launched(log, x)
  }

  lemma ServedMore(before: seq<seq<Task>>, mid: seq<seq<Task>>, after: seq<seq<Task>>, log: seq<seq<Task>>, now: seq<Task>)
    requires Served(before, mid, log) && Served(mid, after, [now])
    ensures Served(before, after, log + [now])
  {
    forall b, x {:trigger x in before[b]} | 0 <= b < |before| && x in before[b] ensures x in after[b] || Launched(log + [now], x) {
      if x in mid[b] {
        if x !in after[b] {
          LaunchedNow(log, now, x);
        }
      } else {
        LaunchedBefore(log, now, x);
      }
    }
  }

  lemma LaunchedNow(log: seq<seq<Task>>, now: seq<Task>, x: Task)
    requires Launched([now], x)
    ensures Launched(log + [now], x)
  {
    assert (log + [now])[|log|] == now && x in [now][0];
  }

  lemma LaunchedBefore(log: seq<seq<Task>>, now: seq<Task>, x: Task)
    requires Launched(log, x)
    ensures Launched(log + [now], x)
  {
    var j :| 0 <= j < |log| && x in log[j];
    assert (log + [now])[j] == log[j];
  }

  lemma LaunchServes(before: seq<seq<Task>>, after: seq<seq<Task>>, b: nat)
    requires b < |before| && Kept(before, after, b)
    ensures Served(before, after, [Reverse(before[b])])
  {
    forall x | x in before[b] ensures Launched([Reverse(before[b])], x) {
      InReverse(before[b]);
      assert x in [Reverse(before[b])][0];
    }
    forall c, x {:trigger x in before[c]} | 0 <= c < |before| && x in before[c]
      ensures x in after[c] || Launched([Reverse(before[b])], x) {}
  }

  /** Batches launched one after the other in the same step. */
  lemma ServedTogether(before: seq<seq<Task>>, after: seq<seq<Task>>, batches: seq<seq<Task>>, log: seq<Task>)
    requires Served(before, after, batches)
    requires forall j, x {:trigger x in batches[j]} :: 0 <= j < |batches| && x in batches[j] ==> x in log
    ensures Served(before, after, [log])
  {
    forall b, x {:trigger x in before[b]} | 0 <= b < |before| && x in before[b] ensures x in after[b] || Launched([log], x) {
      if x !in after[b] {
        var j :| 0 <= j < |batches| && x in batches[j];
        assert x in [log][0];
      }
    }
  }

  /** The buckets whose turn has come since `start` have been launched, as they stood then. */
  ghost predicate TurnsServed(before: seq<seq<Task>>, start: nat, log: seq<seq<Task>>)
    requires |before| == WAYS + 1
  {
    forall k, x {:trigger x in before[Robin(Advance(start, k))]} ::
      0 <= k < |log| && x in before[Robin(Advance(start, k))] ==> Launched(log, x)
  }

  /** A bucket's turn launches whatever of it had not been launched yet. */
  lemma TurnServed(before: seq<seq<Task>>, mid: seq<seq<Task>>, log: seq<seq<Task>>, now: seq<Task>, start: nat)
    requires |before| == WAYS + 1 && Served(before, mid, log) && TurnsServed(before, start, log)
    requires forall x :: x in mid[Robin(Advance(start, |log|))] ==> x in now
    ensures TurnsServed(before, start, log + [now])
  {
    forall k, x {:trigger x in before[Robin(Advance(start, k))]} |
      0 <= k <= |log| && x in before[Robin(Advance(start, k))] ensures Launched(log + [now], x)
    {
      if k == |log| && x in mid[Robin(Advance(start, k))] {
        assert x in [now][0];
        LaunchedNow(log, now, x);
      } else {
        LaunchedBefore(log, now, x);
      }
    }
  }

  lemma AllServed(before: seq<seq<Task>>, start: nat, log: seq<seq<Task>>)
    requires |before| == WAYS + 1 && |log| == WAYS && TurnsServed(before, start, log)
    requires forall x :: x in before[ATTACHED] ==> x in log[0]
    ensures forall b, x {:trigger x in before[b]} :: 0 <= b <= WAYS && x in before[b] ==> Launched(log, x)
  {
    forall b, x {:trigger x in before[b]} | 0 <= b <= WAYS && x in before[b] ensures Launched(log, x) {
      if b == ATTACHED {
        assert x in log[0];
      } else {
        var k := EveryBucketHasItsTurn(start, b);
        assert x in before[Robin(Advance(start, k))];
      }
    }
  }

  class Remote {
    const buckets: array<seq<Task>>
    var storeBalance: nat
    /** Operations started so far, and how many of them each bucket got. */
    ghost var started: nat
    ghost var shares: seq<nat>

    ghost predicate Valid()
      reads this, buckets
    {
      && buckets.Length == WAYS && storeBalance == started % WORD_SIZE
      && |shares| == WAYS && forall b :: 0 <= b < WAYS ==> shares[b] == Share(started, b)
    }

    constructor ()
      ensures Valid() && started == 0 && fresh(buckets)
      ensures forall b :: 0 <= b < WAYS ==> buckets[b] == []
    {
      buckets := new seq<Task>[WAYS](i => []);
      storeBalance, started := 0, 0;
      shares := seq(WAYS, i => 0);
    }

    /** `start_operation`: the bucket is that of the balance counter, which goes round with 64 bits. */
    method StartOperation(x: Task)
      requires Valid()
      modifies this, buckets
      ensures Valid() && started == old(started) + 1
      ensures buckets[..] == var b := Robin(old(storeBalance)); old(buckets[..])[b := [x] + old(buckets[..])[b]]
      ensures shares == var b := Robin(old(storeBalance)); old(shares)[b := old(shares)[b] + 1]
    {
      RobinAfter(started, 0);
      ghost var n := started;
      forall b | 0 <= b < WAYS ensures Share(n + 1, b) == Share(n, b) + if n % WAYS == b then 1 else 0 {}
      AdvanceOne(started, 0);
      var b := Robin(storeBalance);
      storeBalance := Bump(storeBalance);
      started := started + 1;
      shares := shares[b := shares[b] + 1];
      buckets[b] := [x] + buckets[b];
    }

    /** At any time, and although the counter wraps around, the buckets' cumulative shares are within one of each other. */
    lemma Balanced(b: nat, c: nat)
      requires Valid() && b < WAYS && c < WAYS
      ensures shares[b] <= shares[c] + 1
    {
    }
  }

  lemma LaunchesAdd(
    q0: seq<seq<Task>>, q1: seq<seq<Task>>, q2: seq<seq<Task>>, q3: seq<seq<Task>>,
    mine: seq<Task>, turn: seq<Task>, other: seq<Task>, callbacks: Callbacks)
    requires Exchanged(q0, q1, mine, StartedBy(mine, callbacks)) && Exchanged(q1, q2, turn, StartedBy(turn, callbacks))
    requires Exchanged(q2, q3, other, StartedBy(other, callbacks))
    ensures Exchanged(q0, q3, mine + turn + other, StartedBy(mine + turn + other, callbacks))
  {
    ExchangedTwice(q0, q1, q2, mine, StartedBy(mine, callbacks), turn, StartedBy(turn, callbacks));
    StartedByBoth(mine, turn, callbacks);
    ExchangedTwice(q0, q2, q3, mine + turn, StartedBy(mine + turn, callbacks), other, StartedBy(other, callbacks));
    StartedByBoth(mine + turn, other, callbacks);
  }

  /** A step's launches, one after the other, together. */
  lemma ServedThrice(q0: seq<seq<Task>>, q1: seq<seq<Task>>, q2: seq<seq<Task>>, q3: seq<seq<Task>>, a: nat, b: nat, c: nat)
    requires a < |q0| && Kept(q0, q1, a) && b < |q1| && Kept(q1, q2, b) && c < |q2| && Kept(q2, q3, c)
    ensures Served(q0, q3, [Reverse(q0[a]) + Reverse(q1[b]) + Reverse(q2[c])])
  {
    var x, y, z := Reverse(q0[a]), Reverse(q1[b]), Reverse(q2[c]);
    LaunchServes(q0, q1, a);
    LaunchServes(q1, q2, b);
    LaunchServes(q2, q3, c);
    ServedMore(q0, q1, q2, [x], y);
    ServedMore(q0, q2, q3, [x] + [y], z);
    ServedTogether(q0, q3, [x] + [y] + [z], x + y + z);
  }

  class Runner {
    const remote: Remote
    var attached: seq<Task>
    var walltime: nat

    ghost predicate Valid()
      reads this, remote, remote.buckets
    {
      remote.Valid() && walltime < WORD_SIZE
    }

    /** The sixteen buckets and the attached queue, each newest first. */
    ghost function Queues(): (qs: seq<seq<Task>>)
      reads this, remote, remote.buckets
      requires Valid()
      ensures |qs| == WAYS + 1
    {
      remote.buckets[..] + [attached]
    }

    constructor (remote: Remote, start: nat)
      requires remote.Valid()
      ensures Valid() && this.remote == remote && attached == [] && walltime == start % WORD_SIZE
    {
      this.remote := remote;
      attached, walltime := [], start % WORD_SIZE;
    }

    /** `start_operation` on the local scheduler. */
    method StartLocally(x: Task)
      requires Valid()
      modifies this`attached
      ensures Valid() && Queues() == old(Queues())[ATTACHED := [x] + old(attached)]
    {
      attached := [x] + attached;
    }

    method StartRemotely(x: Task)
      requires Valid()
      modifies remote, remote.buckets
      ensures Valid()
      ensures Queues() == var b := Robin(old(remote.storeBalance)); old(Queues())[b := [x] + old(Queues())[b]]
      ensures remote.started == old(remote.started) + 1
    {
      remote.StartOperation(x);
    }

    /** One operation of either kind is started, and nothing that waited is lost. */
    method StartOne(x: Task, locally: bool)
      requires Valid()
      modifies this`attached, remote, remote.buckets
      ensures Valid() && Kept(old(Queues()), Queues(), WAYS + 1) && Waits(Queues(), x)
      ensures Exchanged(old(Queues()), Queues(), [], [x])
      ensures attached == (if locally then [x] else []) + old(attached)
      ensures remote.started == old(remote.started) + if locally then 0 else 1
    {
      ghost var before := Queues();
      if locally {
        StartLocally(x);
        assert x in Queues()[ATTACHED];
        ExchangedAt(before, ATTACHED, [x] + before[ATTACHED], [x]);
      } else {
        ghost var b := Robin(remote.storeBalance);
        StartRemotely(x);
        assert x in Queues()[b];
        ExchangedAt(before, b, [x] + before[b], [x]);
      }
    }

    /** Everything is started, and nothing that waited is lost. */
    method StartAll(xs: seq<Task>, locally: bool)
      requires Valid()
      modifies this`attached, remote, remote.buckets
      ensures Valid() && Kept(old(Queues()), Queues(), WAYS + 1)
      ensures forall x {:trigger Waits(Queues(), x)} :: x in xs ==> Waits(Queues(), x)
      ensures Exchanged(old(Queues()), Queues(), [], xs)
      ensures attached == (if locally then Reverse(xs) else []) + old(attached)
      ensures remote.started == old(remote.started) + if locally then 0 else |xs|
    {
      ghost var before := Queues();
      for i := 0 to |xs|
        invariant Valid() && Kept(before, Queues(), WAYS + 1) && Exchanged(before, Queues(), [], xs[..i])
        invariant attached == (if locally then Reverse(xs[..i]) else []) + old(attached)
        invariant remote.started == old(remote.started) + if locally then 0 else i
        invariant forall j {:trigger xs[j]} :: 0 <= j < i ==> Waits(Queues(), xs[j])
      {
        ghost var mid := Queues();
        StartOne(xs[i], locally);
        KeptWaits(mid, Queues());
        ExchangedTwice(before, mid, Queues(), [], xs[..i], [], [xs[i]]);
        assert xs[..i + 1] == xs[..i] + [xs[i]];
        OnTop(xs[..i], [xs[i]], old(attached));
      }
      assert xs[..|xs|] == xs;
    }

    /** A task's callback: what it starts waits from now on. */
    method RunTask(st: Starts)
      requires Valid()
      modifies this`attached, remote, remote.buckets
      ensures Valid() && Kept(old(Queues()), Queues(), WAYS + 1) && Started(st, Queues())
      ensures Exchanged(old(Queues()), Queues(), [], st.remotely + st.locally)
      ensures attached == Reverse(st.locally) + old(attached) && remote.started == old(remote.started) + |st.remotely|
    {
      ghost var before := Queues();
      StartAll(st.remotely, false);
      ghost var mid := Queues();
      StartAll(st.locally, true);
      KeptWaits(mid, Queues());
      ExchangedTwice(before, mid, Queues(), [], st.remotely, [], st.locally);
    }

    /** The callbacks of a detached list. */
    method RunTasks(fifo: seq<Task>, callbacks: Callbacks)
      requires Valid()
      modifies this`attached, remote, remote.buckets
      ensures Valid() && Kept(old(Queues()), Queues(), WAYS + 1)
      ensures forall x {:trigger callbacks(x)} :: x in fifo ==> Started(callbacks(x), Queues())
      ensures Exchanged(old(Queues()), Queues(), [], StartedBy(fifo, callbacks))
      ensures attached == Reverse(LocallyBy(fifo, callbacks)) + old(attached)
      ensures remote.started == old(remote.started) + RemotelyBy(fifo, callbacks)
    {
      ghost var before := Queues();
      for i := 0 to |fifo|
        invariant Valid() && Kept(before, Queues(), WAYS + 1)
        invariant Exchanged(before, Queues(), [], StartedBy(fifo[..i], callbacks))
        invariant attached == Reverse(LocallyBy(fifo[..i], callbacks)) + old(attached)
        invariant remote.started == old(remote.started) + RemotelyBy(fifo[..i], callbacks)
        invariant forall j {:trigger fifo[j]} :: 0 <= j < i ==> Started(callbacks(fifo[j]), Queues())
      {
        ghost var mid := Queues();
        RunTask(callbacks(fifo[i]));
        KeptWaits(mid, Queues());
        StartsOneMore(before, mid, Queues(), fifo, i, callbacks);
        assert fifo[..i + 1][..i] == fifo[..i];
        OnTop(LocallyBy(fifo[..i], callbacks), callbacks(fifo[i]).locally, old(attached));
      }
      assert fifo[..|fifo|] == fifo;
    }

    /**
     `launch`: the queue is emptied and its tasks are run, oldest first; all that they start waits for later, and
     nothing is lost or doubled. What they start locally goes on top of the attached queue, the rest to the buckets.
     */
    method Launch(b: nat, callbacks: Callbacks) returns (log: seq<Task>)
      requires Valid() && b <= WAYS
      modifies this`attached, remote, remote.buckets
      ensures Valid()
      ensures log == Reverse(old(Queues())[b])
      ensures Kept(old(Queues()), Queues(), b)
      ensures forall x {:trigger callbacks(x)} :: x in log ==> Started(callbacks(x), Queues())
      ensures RestartsWait(old(Queues()), Queues(), callbacks)
      ensures Exchanged(old(Queues()), Queues(), log, StartedBy(log, callbacks))
      ensures attached == Reverse(LocallyBy(log, callbacks)) + if b == ATTACHED then [] else old(attached)
      ensures remote.started == old(remote.started) + RemotelyBy(log, callbacks)
    {
      ghost var before := Queues();
      InReverse(before[b]);
      Detached(before, b);
      if b == ATTACHED {
        log := Reverse(attached);
        attached := [];
      } else {
        log := Reverse(remote.buckets[b]);
        remote.buckets[b] := [];
      }
      ghost var rest := Queues();
      assert rest == before[b := []] && Kept(before, rest, b);
      RunTasks(log, callbacks);
      ExchangedTwice(before, rest, Queues(), log, [], [], StartedBy(log, callbacks));
      assert log + [] == log && [] + StartedBy(log, callbacks) == StartedBy(log, callbacks);
    }

    /**
     The launch phase of one step: the attached queue, the bucket whose turn it is, and any other one, each as it then
     is and oldest first. Every task is launched once for each time that it was started.
     */
    method Step(random: nat, callbacks: Callbacks) returns (log: seq<Task>, ghost q1: seq<seq<Task>>, ghost q2: seq<seq<Task>>)
      requires Valid() && random < WAYS
      modifies this, remote, remote.buckets
      ensures Valid() && walltime == Bump(old(walltime))
      ensures Kept(old(Queues()), q1, ATTACHED) && Kept(q1, q2, Robin(old(walltime)))
      ensures log == Reverse(old(attached)) + Reverse(q1[Robin(old(walltime))]) + Reverse(q2[random])
      ensures forall x :: x in old(Queues())[ATTACHED] ==> x in log
      ensures forall x :: x in old(Queues())[Robin(old(walltime))] ==> x in log
      ensures Served(old(Queues()), Queues(), [log])
      ensures RestartsWait(old(Queues()), Queues(), callbacks)
      ensures Exchanged(old(Queues()), Queues(), log, StartedBy(log, callbacks))
    {
      ghost var q0 := Queues();
      var mine := Launch(ATTACHED, callbacks);
      q1 := Queues();
      var turn := Launch(Robin(walltime), callbacks);
      q2 := Queues();
      var other := Launch(random, callbacks);
      log := mine + turn + other;
      LaunchesAdd(q0, q1, q2, Queues(), mine, turn, other, callbacks);
      ServedThrice(q0, q1, q2, Queues(), ATTACHED, Robin(walltime), random);
      forall x | x in q0[Robin(walltime)] ensures x in log {
        InReverse(q1[Robin(walltime)]);
      }
      forall x | x in q0[ATTACHED] ensures x in log {
        InReverse(q0[ATTACHED]);
      }
      walltime := Bump(walltime);
    }

    /** A step, after others have started what they will, on the buckets or on this runner's queue. */
    method NextStep(random: nat, callbacks: Callbacks, arrived: Starts) returns (now: seq<Task>)
      requires Valid() && random < WAYS
      modifies this, remote, remote.buckets
      ensures Valid() && walltime == Bump(old(walltime))
      ensures forall x :: x in old(Queues())[ATTACHED] ==> x in now
      ensures forall x :: x in old(Queues())[Robin(old(walltime))] ==> x in now
      ensures Served(old(Queues()), Queues(), [now])
      ensures RestartsWait(old(Queues()), Queues(), callbacks)
      ensures Exchanged(old(Queues()), Queues(), now, arrived.remotely + arrived.locally + StartedBy(now, callbacks))
    {
      ghost var before := Queues();
      RunTask(arrived);
      ghost var mid := Queues();
      KeptWaits(before, mid);
      assert forall x :: x in before[Robin(walltime)] ==> x in mid[Robin(walltime)];
      assert forall x :: x in before[ATTACHED] ==> x in mid[ATTACHED];
      ghost var q1, q2;
      now, q1, q2 := Step(random, callbacks);
      ExchangedTwice(before, mid, Queues(), [], arrived.remotely + arrived.locally, now, StartedBy(now, callbacks));
      assert [] + now == now;
    }

    /**
     Fairness: within sixteen steps of one runner, every task that was in any bucket has been launched, and within the
     first every task of its attached queue, whatever the random accesses, whatever the tasks start, and whatever
     others start meanwhile. Every task is launched once for each time that it was started, or still waits.
     */
    method SixteenSteps(first: nat, random: nat -> nat, callbacks: Callbacks, arrivals: nat -> Starts)
      returns (log: seq<seq<Task>>)
      requires Valid() && forall i :: random(i) < WAYS
      modifies this, remote, remote.buckets
      ensures Valid() && |log| == WAYS && walltime == Advance(old(walltime), WAYS)
      ensures forall x :: x in old(attached) ==> x in log[0]
      ensures forall b, x {:trigger x in old(Queues())[b]} :: 0 <= b <= WAYS && x in old(Queues())[b] ==> Launched(log, x)
      ensures RestartsWait(old(Queues()), Queues(), callbacks)
      ensures Exchanged(old(Queues()), Queues(), AllLaunched(log), AllStarted(log, callbacks, arrivals, first))
    {
      log := [];
      ghost var start, before := walltime, Queues();
      while |log| < WAYS
        invariant Valid() && |log| <= WAYS && walltime == Advance(start, |log|)
        invariant log == [] ==> Queues() == before
        invariant log != [] ==> forall x :: x in before[ATTACHED] ==> x in log[0]
        invariant Served(before, Queues(), log) && TurnsServed(before, start, log)
        invariant RestartsWait(before, Queues(), callbacks)
        invariant Exchanged(before, Queues(), AllLaunched(log), AllStarted(log, callbacks, arrivals, first))
      {
        ghost var mid := Queues();
        AdvanceOne(start, |log|);
        var now := NextStep(random(first + |log|), callbacks, arrivals(first + |log|));
        TurnServed(before, mid, log, now, start);
        ServedMore(before, mid, Queues(), log, now);
        ExchangedMore(before, mid, Queues(), log, now, callbacks, arrivals, first);
        log := log + [now];
      }
      AllServed(before, start, log);
    }

    /** Sixteen steps more. */
    method SixteenMore(logs: seq<seq<seq<Task>>>, random: nat -> nat, callbacks: Callbacks, arrivals: nat -> Starts,
                       ghost start: nat, ghost x: Task)
      returns (logs': seq<seq<seq<Task>>>)
      requires Valid() && forall i :: random(i) < WAYS
      requires walltime == Advance(start, WAYS * |logs|) && Waits(Queues(), x)
      modifies this, remote, remote.buckets
      ensures Valid() && walltime == Advance(start, WAYS * |logs'|)
      ensures |logs'| == |logs| + 1 && logs' == logs + [logs'[|logs|]] && |logs'[|logs|]| == WAYS
      ensures Launched(logs'[|logs|], x)
      ensures Restarts(callbacks, x) ==> Waits(Queues(), x)
    {
      ghost var b :| 0 <= b <= WAYS && x in Queues()[b];
      var log := SixteenSteps(WAYS * |logs|, random, callbacks, arrivals);
      logs' := logs + [log];
    }

    /**
     Bounded progress of restarts: an operation that is restarted is launched within the next sixteen steps, wherever
     the balance counter puts it; and if it is restarted whenever it is launched, because the SQ is full each time, once
     more within every sixteen steps after that.
     */
    method RestartIsLaunched(x: Task, again: nat, random: nat -> nat, callbacks: Callbacks, arrivals: nat -> Starts)
      returns (logs: seq<seq<seq<Task>>>)
      requires Valid() && forall i :: random(i) < WAYS
      modifies this, remote, remote.buckets
      ensures Valid() && |logs| == if Restarts(callbacks, x) then again + 1 else 1
      ensures walltime == Advance(old(walltime), WAYS * |logs|)
      ensures forall r :: 0 <= r < |logs| ==> |logs[r]| == WAYS && Launched(logs[r], x)
    {
      ghost var start, b := walltime, Robin(remote.storeBalance);
      StartRemotely(x);
      assert x in Queues()[b];
      logs := SixteenMore([], random, callbacks, arrivals, start, x);
      while Restarts(callbacks, x) && |logs| <= again
        invariant Valid() && walltime == Advance(start, WAYS * |logs|)
        invariant 1 <= |logs| <= again + 1 && (!Restarts(callbacks, x) ==> |logs| == 1)
        invariant Restarts(callbacks, x) ==> Waits(Queues(), x)
        invariant forall r :: 0 <= r < |logs| ==> |logs[r]| == WAYS && Launched(logs[r], x)
        decreases again + 1 - |logs|
      {
        logs := SixteenMore(logs, random, callbacks, arrivals, start, x);
      }
    }
  }
}
