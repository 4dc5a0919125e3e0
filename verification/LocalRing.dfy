/**
 The ring of one thread: how `_inflight` follows the SQEs acquired and the CQEs consumed, and the bounded reap loop of
 io_uring_exec_internal_run.h, whose callbacks acquire new SQEs before the consumed CQEs are subtracted.
 */
module LocalRing {
  import opened Bits

  type Cqe = nat

  function Wrap(x: int): nat {
    x % WORD_SIZE
  }

  /** How often a 64-bit number wrapped around to represent x. */
  function Laps(x: int): (n: int)
    ensures Wrap(x) == x - n * WORD_SIZE
  {
    x / WORD_SIZE
  }

  /** What the kernel posts before the n-th look at the CQ: it may go on forever. */
  type Kernel = nat -> seq<Cqe>

  /** As many of these CQEs as the kernel holds SQEs for. */
  function FirstOf(cqes: seq<Cqe>, held: nat): (s: seq<Cqe>)
    ensures s <= cqes && |s| <= held
    ensures s == cqes || |s| == held
  {
    cqes[..Min(|cqes|, held)]
  }

  /** What a kernel that holds this many SQEs has posted after n looks. */
  function Posted(kernel: Kernel, n: nat, held: nat): (s: seq<Cqe>)
    ensures |s| <= held
  {
    if n == 0 then []
    else
      var before := Posted(kernel, n - 1, held);
      before + FirstOf(kernel(n - 1), held - |before|)
  }

  /** How many operations the n-th callback starts. */
  type Callbacks = nat -> nat

  /** How many operations the callbacks first, first + 1, ... start, n of them. */
  function Started(callbacks: Callbacks, first: nat, n: nat): nat {
    if n == 0 then 0 else Started(callbacks, first, n - 1) + callbacks(first + n - 1)
  }

  lemma {:induction false} StartedSum(callbacks: Callbacks, first: nat, m: nat, n: nat)
    ensures Started(callbacks, first, m + n) == Started(callbacks, first, m) + Started(callbacks, first + m, n)
  {
    if n > 0 {
      StartedSum(callbacks, first, m, n - 1);
      assert m + n - 1 == m + (n - 1);
    }
  }

  function Min(a: nat, b: nat): nat {
    if a < b then a else b
  }

  lemma MoreStarted(entries: nat, sq0: nat, sq1: nat, sq2: nat, callbacks: Callbacks, done: nat, some: nat)
    requires sq1 == Min(entries, sq0 + Started(callbacks, 0, done))
    requires sq2 == Min(entries, sq1 + Started(callbacks, done, some))
    ensures sq2 == Min(entries, sq0 + Started(callbacks, 0, done + some))
  {
    StartedSum(callbacks, 0, done, some);
  }

  /** What a batch consumed, and what is left, come next in line. */
  lemma NextInLine(log: seq<Cqe>, cq: seq<Cqe>, start: seq<Cqe>, arrived: seq<Cqe>, consumed: seq<Cqe>, cq': seq<Cqe>, posted: seq<Cqe>)
    requires log + cq == start + arrived && consumed + cq' == cq + posted
    ensures (log + consumed) + cq' == start + (arrived + posted)
  {
    assert (log + consumed) + cq' == log + (consumed + cq') == (log + cq) + posted;
  }

  class Local {
    const entries: nat
    var sq: nat
    var kernel: nat
    var cq: seq<Cqe>
    var inflight: nat
    /** SQEs acquired without `add_inflight`, and how often `inflight` wrapped around. */
    ghost var uncounted: nat
    ghost var laps: int

    function Outstanding(): nat
      reads this
    {
      sq + kernel + |cq|
    }

    /** The count is right but for the destructive commands, and for wrapping around. */
    ghost predicate Accounted()
      reads this
    {
      sq <= entries && inflight < WORD_SIZE && inflight == Outstanding() - uncounted - laps * WORD_SIZE
    }

    constructor (entries: nat)
      requires entries > 0
      ensures Accounted() && Outstanding() == 0 && inflight == 0 && uncounted == 0 && this.entries == entries
    {
      this.entries := entries;
      sq, kernel, cq, inflight, uncounted, laps := 0, 0, [], 0, 0, 0;
    }

    /** `io_uring_get_sqe` and, if it yields one, `add_inflight`. */
    method Acquire() returns (ok: bool)
      requires Accounted()
      modifies this`sq, this`inflight, this`laps
      ensures Accounted()
      ensures ok <==> old(sq) < entries
      ensures sq == old(sq) + if ok then 1 else 0
    {
      if sq >= entries {
        return false;
      }
      sq := sq + 1;
      laps := laps + Laps(inflight + 1);
      inflight := Wrap(inflight + 1);
      return true;
    }

    method Submit() returns (submitted: nat)
      requires Accounted()
      modifies this`sq, this`kernel
      ensures Accounted() && sq == 0 && kernel == old(kernel) + old(sq) && submitted == old(sq)
    {
      submitted := sq;
      kernel := kernel + sq;
      sq := 0;
    }

    /** `submit_destructive_command`: its SQE is not counted. */
    method SubmitDestructiveCommand()
      requires Accounted() && entries > 0
      modifies this`sq, this`kernel, this`uncounted
      ensures Accounted() && uncounted == old(uncounted) + 1
      ensures Outstanding() == old(Outstanding()) + 1 && sq == 0 && inflight == old(inflight)
    {
      var _ := Submit();
      sq := 1;
      uncounted := uncounted + 1;
      var _ := Submit();
    }

    /** The kernel posts CQEs, at most one for each SQE it holds. */
    method Post(cqes: seq<Cqe>) returns (posted: seq<Cqe>)
      requires Accounted()
      modifies this`kernel, this`cq
      ensures Accounted()
      ensures posted == FirstOf(cqes, old(kernel))
      ensures cq == old(cq) + posted && kernel == old(kernel) - |posted|
    {
      posted := cqes[..if |cqes| <= kernel then |cqes| else kernel];
      cq := cq + posted;
      kernel := kernel - |posted|;
    }

    /** A callback starts operations; those that find the SQ full are not counted here: they will be restarted. */
    method Complete(starts: nat)
      requires Accounted()
      modifies this`sq, this`inflight, this`laps
      ensures Accounted() && sq == Min(entries, old(sq) + starts)
    {
      for i := 0 to starts
        invariant Accounted() && sq == Min(entries, old(sq) + i)
      {
        var _ := Acquire();
      }
    }

    /** `io_uring_cq_advance`, and the subtraction. */
    method Retire(some: nat)
      requires Accounted() && some <= |cq|
      modifies this`inflight, this`laps, this`cq
      ensures Accounted() && cq == old(cq)[some..] && inflight == Wrap(old(inflight) - some)
    {
      cq := cq[some..];
      laps := laps + Laps(inflight - some);
      inflight := Wrap(inflight - some);
    }

    /** Runs the callbacks of the first `some` CQEs, in order, then frees them and subtracts them. */
    method ConsumeSome(some: nat, callbacks: Callbacks, first: nat) returns (log: seq<Cqe>)
      requires Accounted() && some <= |cq|
      modifies this`sq, this`inflight, this`laps, this`cq
      ensures Accounted() && log == old(cq)[..some] && cq == old(cq)[some..]
      ensures sq == Min(entries, old(sq) + Started(callbacks, first, some))
    {
      log := [];
      for i := 0 to some
        invariant Accounted() && cq == old(cq) && log == cq[..i]
        invariant sq == Min(entries, old(sq) + Started(callbacks, first, i))
      {
        log := log + [cq[i]];
        Complete(callbacks(first + i));
      }
      Retire(some);
    }

    /** One look at the CQ: up to `batch` CQEs are consumed, and fewer only if there are no more. */
    method ReapBatch(batch: nat, cqes: seq<Cqe>, callbacks: Callbacks, first: nat)
      returns (some: nat, consumed: seq<Cqe>, posted: seq<Cqe>)
      requires Accounted()
      modifies this`sq, this`inflight, this`laps, this`cq, this`kernel
      ensures Accounted()
      ensures consumed + cq == old(cq) + posted && |consumed| == some <= batch && posted == FirstOf(cqes, old(kernel))
      ensures kernel == old(kernel) - |posted|
      ensures sq == Min(entries, old(sq) + Started(callbacks, first, some))
      ensures some < batch ==> cq == []
    {
      posted := Post(cqes);
      some := Min(|cq|, batch);
      consumed := ConsumeSome(some, callbacks, first);
    }

    /** What the reap loop has done so far, from a CQ of `start` and an SQ of `sq0` entries on. */
    ghost predicate Reaped(start: seq<Cqe>, sq0: nat, arrived: seq<Cqe>, log: seq<Cqe>, callbacks: Callbacks)
      reads this
    {
      && Accounted() && log + cq == start + arrived
      && sq == Min(entries, sq0 + Started(callbacks, 0, |log|))
    }

    /** What has arrived since the kernel held `held` SQEs. */
    ghost predicate Looked(kernelPosts: Kernel, looks: nat, held: nat, arrived: seq<Cqe>)
      reads this
    {
      arrived == Posted(kernelPosts, looks, held) && kernel == held - |arrived|
    }

    /** One turn of the loop. */
    method ReapTurn(batch: nat, kernelPosts: Kernel, looks: nat, callbacks: Callbacks, log: seq<Cqe>,
                    ghost start: seq<Cqe>, ghost sq0: nat, ghost held: nat, ghost arrived: seq<Cqe>)
      returns (some: nat, log': seq<Cqe>, ghost arrived': seq<Cqe>)
      requires Reaped(start, sq0, arrived, log, callbacks) && Looked(kernelPosts, looks, held, arrived)
      modifies this`sq, this`inflight, this`laps, this`cq, this`kernel
      ensures Reaped(start, sq0, arrived', log', callbacks)
      ensures |log'| == |log| + some && some <= batch && (some < batch ==> cq == [])
      ensures Looked(kernelPosts, looks + 1, held, arrived')
    {
      ghost var before, used := cq, sq;
      var consumed, posted;
      some, consumed, posted := ReapBatch(batch, kernelPosts(looks), callbacks, |log|);
      NextInLine(log, before, start, arrived, consumed, cq, posted);
      MoreStarted(entries, sq0, used, sq, callbacks, |log|, some);
      log', arrived' := log + consumed, arrived + posted;
    }

    /**
     The reap loop. It ends although the kernel may never stop posting; it consumes a prefix of all that was in the CQ
     or came in, each CQE once and in order; it stops only with the CQ found empty or with more than `maxnr` consumed,
     and never consumes more than `maxnr + batch`. It does exceed `maxnr`, if and only if that many were there. Below it,
     the last look found a short batch, or nothing at all under `noDelay`. The operations its callbacks start find room
     while the SQ has any. What came in is what the kernel posted by the last look.
     */
    method Reap(batch: nat, maxnr: nat, noDelay: bool, kernelPosts: Kernel, callbacks: Callbacks)
      returns (done: nat, log: seq<Cqe>, some: nat, looks: nat, ghost arrived: seq<Cqe>)
      requires Accounted() && batch > 0
      modifies this`sq, this`inflight, this`laps, this`cq, this`kernel
      ensures Reaped(old(cq), old(sq), arrived, log, callbacks) && |log| == done
      ensures Looked(kernelPosts, looks, old(kernel), arrived)
      ensures done <= maxnr + batch && looks > 0
      ensures cq == [] || done > maxnr
      ensures done > maxnr <==> |old(cq)| + |arrived| > maxnr
      ensures done <= maxnr ==> if noDelay then some == 0 else some < batch
    {
      done, log, arrived, some := 0, [], [], 0;
      var more := true;
      looks := 0;
      while more
        invariant Reaped(old(cq), old(sq), arrived, log, callbacks) && |log| == done
        invariant Looked(kernelPosts, looks, old(kernel), arrived)
        invariant more || looks > 0
        invariant if more then done <= maxnr else done <= maxnr + batch && (cq == [] || done > maxnr)
        invariant !more && done <= maxnr ==> if noDelay then some == 0 else some < batch
        decreases more, maxnr - done
      {
        some, log, arrived := ReapTurn(batch, kernelPosts, looks, callbacks, log, old(cq), old(sq), old(kernel), arrived);
        looks, done := looks + 1, done + some;
        more := some != 0 && done <= maxnr && (some == batch || noDelay);
      }
      assert |log| + |cq| == |log + cq| == |old(cq)| + |arrived|;
    }
  }

  /**
   Without destructive commands `_inflight` is what is outstanding, so an `autoquit` exit, taken at zero, leaves
   nothing behind.
   */
  lemma CountedExactly(l: Local)
    requires l.Accounted() && l.uncounted == 0 && l.Outstanding() < WORD_SIZE
    ensures l.inflight == l.Outstanding() >= |l.cq|
    ensures l.inflight == 0 <==> l.sq == 0 && l.kernel == 0 && l.cq == []
  {
  }

  /** It is what is outstanding if and only if there never was one. */
  lemma CountedExactlyIff(l: Local)
    requires l.Accounted() && l.Outstanding() < WORD_SIZE && l.uncounted < WORD_SIZE
    ensures l.inflight == l.Outstanding() <==> l.uncounted == 0
  {
  }

  /** One destructive command on an idle ring: once its CQE is consumed, the count has wrapped around. */
  method DestructiveCommandWraps() returns (l: Local)
    ensures fresh(l) && l.Outstanding() == 0 && l.inflight == WORD_SIZE - 1
  {
    l := new Local(1);
    l.SubmitDestructiveCommand();
    var _ := l.Post([0]);
    var _ := l.ConsumeSome(1, n => 0, 0);
  }

  /** One step that consumes more CQEs than the limit it is given: batches are taken whole. */
  method MaximumExceeded() returns (batch: nat, maxnr: nat, done: nat, log: seq<Cqe>)
    ensures maxnr < done <= maxnr + batch
    ensures done == |log| && log == [7, 8]
  {
    var l := new Local(2);
    var _ := l.Acquire();
    var _ := l.Acquire();
    var _ := l.Submit();
    var posted := l.Post([7, 8]);
    batch, maxnr := 2, 1;
    ghost var arrived;
    var some, looks;
    done, log, some, looks, arrived := l.Reap(batch, maxnr, false, n => [], n => 0);
    assert |arrived| == 0 && |log| == 2;
    assert log == (log + l.cq)[..2] == (posted + arrived)[..2] == [7, 8];
  }
}
