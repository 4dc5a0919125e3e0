/** What holds in every run of the echo server. */
module EchoTheorems {
  import opened Lists
  import opened UserData
  import opened EchoServer

  // ---------------------------------------------------------------- invariant

  /** Whether the request should be outstanding. */
  predicate Asked(s: State, r: Request) {
    match r.verb
    case Accept => r == ACCEPT_REQUEST && s.acceptor.Accepting?
    case Read(fd) => r == ReadRequest(fd) && PhaseOf(s, fd).Reading?
    case Write(fd, size) => r == WriteRequest(fd, size) && PhaseOf(s, fd) == Writing(size)
    case Close(fd) => r == CloseRequest(fd) && PhaseOf(s, fd).Closing?
  }

  ghost predicate PendingOk(s: State) {
    forall r {:trigger Count(s.app.pending, r)} :: Count(s.app.pending, r) == One(Asked(s, r))
  }

  /** Whether the CQE should be waiting for the server. */
  predicate Posted(s: State, c: Cqe) {
    || (LowHalf(c.data) == OP_ACCEPT && HighHalf(c.data) == 0 && s.acceptor == HasAccepted(c.res))
    || (LowHalf(c.data) == OP_READ && PhaseOf(s, HighHalf(c.data)) == HasRead(c.res))
    || (LowHalf(c.data) == OP_WRITE && PhaseOf(s, HighHalf(c.data)) == HasWritten(c.res))
  }

  ghost predicate CqOk(s: State) {
    forall c: Cqe {:trigger Count(s.cq, c)} :: LowHalf(c.data) != OP_CLOSE ==> Count(s.cq, c) == One(Posted(s, c))
  }

  /** A READ or WRITE of the descriptor is outstanding: in the kernel, or executed and not yet handled. */
  predicate Busy(p: Phase) {
    p.Reading? || p.HasRead? || p.Writing? || p.HasWritten?
  }

  ghost predicate AllAnswered(log: seq<Exchange>) {
    forall k {:trigger log[k]} :: 0 <= k < |log| ==> log[k].answered
  }

  /** The last READ of the connection delivered the first n bytes of the buffer, and was not answered yet. */
  ghost predicate Waiting(log: seq<Exchange>, buf: Buffer, n: nat) {
    && log != [] && AllAnswered(log[..|log| - 1]) && !log[|log| - 1].answered
    && n <= |buf| && log[|log| - 1].read == buf[..n]
  }

  /** The last bytes written to the connection are the first n of the buffer. */
  predicate Sent(log: seq<Exchange>, buf: Buffer, n: nat) {
    log != [] && n <= |buf| && log[|log| - 1].written == buf[..n]
  }

  ghost predicate LogFits(log: seq<Exchange>, p: Phase, buf: Buffer) {
    match p
    case HasRead(res) => res.Error? || (res.Bytes? && Waiting(log, buf, res.n))
    case Writing(size) => Waiting(log, buf, size)
    case HasWritten(res) => res.Error? || (res.Bytes? && AllAnswered(log) && Sent(log, buf, res.n))
    case Free => true
    case _ => AllAnswered(log)
  }

  ghost predicate FdOk(s: State, fd: Fd) {
    var p := PhaseOf(s, fd);
    && (fd in s.conns <==> !p.Free?)
    && (fd in s.app.buffers <==> Busy(p))
    && (Busy(p) ==> |BufferOf(s, fd)| == BUFFER_SIZE)
    && (p.Fresh? <==> s.acceptor == HasAccepted(Descriptor(fd)))
    && (!p.Free? ==> ConnOf(s, fd) < s.next)
    && LogFits(LogOf(s, ConnOf(s, fd)), p, BufferOf(s, fd))
  }

  ghost predicate FdsOk(s: State) {
    && (forall fd {:trigger PhaseOf(s, fd)} :: FdOk(s, fd))
    && (forall f, g {:trigger ConnOf(s, f), ConnOf(s, g)} :: f in s.conns && g in s.conns && f != g ==> ConnOf(s, f) != ConnOf(s, g))
    && (s.acceptor.HasAccepted? ==> !s.acceptor.res.Bytes?)
  }

  /** Every WRITE sent a prefix of what the READ before it delivered. */
  ghost predicate Echoes(log: seq<Exchange>) {
    forall k {:trigger log[k]} :: 0 <= k < |log| ==> log[k].written <= log[k].read
  }

  ghost predicate LogsOk(s: State) {
    forall c {:trigger LogOf(s, c)} :: Echoes(LogOf(s, c))
  }

  ghost predicate Inv(s: State) {
    && !s.app.status.Trapped? && LogsOk(s)
    && (s.app.status.Serving? ==> PendingOk(s) && CqOk(s) && FdsOk(s))
  }

  // ---------------------------------------------------------------- requests and CQEs

  lemma Executed(s: State, s': State, i: nat)
    requires PendingOk(s) && i < |s.app.pending| && s'.app.pending == RemoveAt(s.app.pending, i)
    requires forall r :: Asked(s', r) <==> Asked(s, r) && r != s.app.pending[i]
    ensures PendingOk(s')
  {
    forall r ensures Count(s'.app.pending, r) == One(Asked(s', r)) {
      CountRemoveAt(s.app.pending, i, r);
      assert Count(s.app.pending, r) == One(Asked(s, r));
    }
  }

  lemma CqePosted(s: State, s': State, c: Cqe)
    requires CqOk(s) && s'.cq == s.cq + [c]
    requires forall d: Cqe :: LowHalf(d.data) != OP_CLOSE ==> One(Posted(s', d)) == One(Posted(s, d)) + One(d == c)
    ensures CqOk(s')
  {
    forall d: Cqe | LowHalf(d.data) != OP_CLOSE ensures Count(s'.cq, d) == One(Posted(s', d)) {
      CountConcat(s.cq, [c], d);
    }
  }

  lemma IsAsked(s: State, i: nat)
    requires PendingOk(s) && i < |s.app.pending|
    ensures Asked(s, s.app.pending[i])
  {
    CountIn(s.app.pending, s.app.pending[i]);
  }

  lemma IsPosted(s: State)
    requires CqOk(s) && s.cq != []
    ensures LowHalf(s.cq[0].data) != OP_CLOSE ==> Posted(s, s.cq[0])
  {
    CountIn(s.cq, s.cq[0]);
  }

  /** Descriptor fd's phase is p' now, and nothing else about requests and CQEs changed. */
  ghost predicate PhaseSet(s: State, s': State, fd: Fd, p': Phase) {
    && (forall g {:trigger PhaseOf(s', g)} :: PhaseOf(s', g) == if g == fd then p' else PhaseOf(s, g))
    && s'.acceptor == s.acceptor
  }

  /** A READ or WRITE of fd has been executed. */
  lemma MovedOn(s: State, s': State, i: nat, fd: Fd, res: Result)
    requires PendingOk(s) && CqOk(s) && i < |s.app.pending| && !res.Descriptor?
    requires VerbAt(s, i) == Read(fd) || (VerbAt(s, i).Write? && VerbAt(s, i).fd == fd)
    requires PhaseSet(s, s', fd, if VerbAt(s, i).Read? then HasRead(res) else HasWritten(res))
    requires s'.app.pending == RemoveAt(s.app.pending, i) && s'.cq == s.cq + [Cqe(s.app.pending[i].data, res)]
    ensures Asked(s, s.app.pending[i]) && PendingOk(s') && CqOk(s')
  {
    IsAsked(s, i);
    var q := s.app.pending[i];
    forall r ensures Asked(s', r) <==> Asked(s, r) && r != q {}
    Executed(s, s', i);
    var c := Cqe(q.data, res);
    forall d: Cqe | LowHalf(d.data) != OP_CLOSE ensures One(Posted(s', d)) == One(Posted(s, d)) + One(d == c) {
      PackIff(d.data, fd, if q.verb.Read? then OP_READ else OP_WRITE);
    }
    CqePosted(s, s', c);
  }

  lemma AcceptExecuted(s: State, s': State, i: nat, res: Result)
    requires PendingOk(s) && CqOk(s) && i < |s.app.pending| && VerbAt(s, i).Accept?
    requires s'.acceptor == HasAccepted(res)
    requires forall g {:trigger PhaseOf(s', g)} :: PhaseOf(s', g) == PhaseOf(s, g) || (PhaseOf(s, g).Free? && PhaseOf(s', g).Fresh?)
    requires s'.app.pending == RemoveAt(s.app.pending, i) && s'.cq == s.cq + [Cqe(s.app.pending[i].data, res)]
    ensures Asked(s, s.app.pending[i]) && PendingOk(s') && CqOk(s')
  {
    IsAsked(s, i);
    forall r ensures Asked(s', r) <==> Asked(s, r) && r != s.app.pending[i] {}
    Executed(s, s', i);
    var c := Cqe(s.app.pending[i].data, res);
    forall d: Cqe | LowHalf(d.data) != OP_CLOSE ensures One(Posted(s', d)) == One(Posted(s, d)) + One(d == c) {
      PackIff(d.data, 0, OP_ACCEPT);
    }
    CqePosted(s, s', c);
  }

  lemma CloseExecuted(s: State, s': State, i: nat, fd: Fd, res: Result)
    requires PendingOk(s) && CqOk(s) && i < |s.app.pending| && VerbAt(s, i) == Close(fd)
    requires PhaseSet(s, s', fd, Free)
    requires s'.app.pending == RemoveAt(s.app.pending, i) && s'.cq == s.cq + [Cqe(s.app.pending[i].data, res)]
    ensures Asked(s, s.app.pending[i]) && PendingOk(s') && CqOk(s')
  {
    IsAsked(s, i);
    forall r ensures Asked(s', r) <==> Asked(s, r) && r != s.app.pending[i] {}
    Executed(s, s', i);
    UnpackPack(fd, OP_CLOSE);
    var c := Cqe(s.app.pending[i].data, res);
    forall d: Cqe | LowHalf(d.data) != OP_CLOSE ensures One(Posted(s', d)) == One(Posted(s, d)) + One(d == c) {}
    CqePosted(s, s', c);
  }

  lemma CqeTaken(s: State, s': State)
    requires CqOk(s) && s.cq != [] && s'.cq == s.cq[1..]
    requires forall d: Cqe :: LowHalf(d.data) != OP_CLOSE ==> One(Posted(s', d)) + One(d == s.cq[0]) == One(Posted(s, d))
    ensures CqOk(s')
  {
    forall d: Cqe | LowHalf(d.data) != OP_CLOSE ensures Count(s'.cq, d) == One(Posted(s', d)) {
      assert Count(s.cq, d) == One(Posted(s, d));
    }
  }

  lemma Submitted(s: State, s': State, r: Request)
    requires PendingOk(s) && s'.app.pending == s.app.pending + [r]
    requires forall q :: One(Asked(s', q)) == One(Asked(s, q)) + One(q == r)
    ensures PendingOk(s')
  {
    forall q ensures Count(s'.app.pending, q) == One(Asked(s', q)) {
      CountConcat(s.app.pending, [r], q);
      assert Count(s.app.pending, q) == One(Asked(s, q));
    }
  }

  // ---------------------------------------------------------------- descriptors and logs

  /** Two maps agree except at one key. */
  ghost predicate Elsewhere<K(!new), V>(m: map<K, V>, m': map<K, V>, k: K) {
    forall j {:trigger j in m'} :: j != k ==> (j in m' <==> j in m) && (j in m ==> m'[j] == m[j])
  }

  /** A step for descriptor fd and connection conn leaves the others as they are. */
  ghost predicate Frame(s: State, s': State, fd: Fd, conn: Conn) {
    && Elsewhere(s.phases, s'.phases, fd) && Elsewhere(s.app.buffers, s'.app.buffers, fd)
    && Elsewhere(s.conns, s'.conns, fd) && Elsewhere(s.logs, s'.logs, conn)
    && s.next <= s'.next && (s'.acceptor.HasAccepted? ==> !s'.acceptor.res.Bytes?)
  }

  /** No open descriptor but fd belongs to the connection. */
  ghost predicate Own(s: State, fd: Fd, conn: Conn) {
    forall g {:trigger ConnOf(s, g)} :: g != fd && g in s.conns ==> ConnOf(s, g) != conn
  }

  /** The acceptor's news, if there is any, is about fd. */
  ghost predicate AcceptorAbout(s: State, s': State, fd: Fd) {
    s'.acceptor == s.acceptor
    || forall g {:trigger PhaseOf(s, g)} :: g != fd ==> s'.acceptor != HasAccepted(Descriptor(g)) && !PhaseOf(s, g).Fresh?
  }

  lemma OtherFds(s: State, s': State, fd: Fd, conn: Conn)
    requires FdsOk(s) && Frame(s, s', fd, conn) && Own(s, fd, conn) && AcceptorAbout(s, s', fd)
    requires fd in s'.conns ==> ConnOf(s', fd) == conn
    requires FdOk(s', fd)
    ensures FdsOk(s')
  {
    forall g ensures FdOk(s', g) {
      if g != fd {
        assert FdOk(s, g);
      }
    }
    forall f, g | f in s'.conns && g in s'.conns && f != g ensures ConnOf(s', f) != ConnOf(s', g) {
      if f != fd {
        assert FdOk(s, f);
      }
      if g != fd {
        assert FdOk(s, g);
      }
      assert ConnOf(s, f) != ConnOf(s, g) || f == fd || g == fd;
    }
  }

  /** Only one connection's log changed, and it still echoes. */
  lemma LogsStay(s: State, s': State, conn: Conn)
    requires LogsOk(s) && Elsewhere(s.logs, s'.logs, conn) && Echoes(LogOf(s', conn))
    ensures LogsOk(s')
  {
    forall c ensures Echoes(LogOf(s', c)) {
      assert Echoes(LogOf(s, c));
    }
  }

  lemma LogsSame(s: State, s': State)
    requires LogsOk(s) && s'.logs == s.logs
    ensures LogsOk(s')
  {
    forall c ensures Echoes(LogOf(s', c)) {
      assert Echoes(LogOf(s, c));
    }
  }

  // ---------------------------------------------------------------- every step of the kernel

  lemma KeepsAccepts(s: State, act: Act)
    requires Inv(s) && Enabled(s, act) && act.KernelAccepts?
    ensures Inv(Stepped(s, act))
  {
    var s', fd := Stepped(s, act), act.res.fd;
    IsAsked(s, act.i);
    assert FdOk(s, fd);
    forall g {:trigger PhaseOf(s', g)} ensures PhaseOf(s', g) == PhaseOf(s, g) || (PhaseOf(s, g).Free? && PhaseOf(s', g).Fresh?) {}
    AcceptExecuted(s, s', act.i, act.res);
    forall g {:trigger PhaseOf(s, g)} ensures !PhaseOf(s, g).Fresh? {
      assert FdOk(s, g);
    }
    forall g {:trigger ConnOf(s, g)} | g in s.conns ensures ConnOf(s, g) != s.next {
      assert FdOk(s, g);
    }
    OtherFds(s, s', fd, s.next);
    LogsStay(s, s', s.next);
  }

  /** The bytes read fit the log. */
  lemma ReadIsLogged(s: State, act: Act, fd: Fd)
    requires Inv(s) && Enabled(s, act) && act.KernelReads? && VerbAt(s, act.i) == Read(fd) && PhaseOf(s, fd).Reading?
    ensures
      var s', conn := Stepped(s, act), ConnOf(s, fd);
      fd in s.conns && ConnOf(s', fd) == conn && Echoes(LogOf(s', conn)) && s'.acceptor == s.acceptor
  {
    assert FdOk(s, fd) && Echoes(LogOf(s, ConnOf(s, fd)));
  }

  /** They fit the buffer, and touch no other descriptor. */
  lemma ReadFits(s: State, act: Act, fd: Fd)
    requires Inv(s) && Enabled(s, act) && act.KernelReads? && VerbAt(s, act.i) == Read(fd) && PhaseOf(s, fd).Reading?
    ensures FdOk(Stepped(s, act), fd) && Frame(s, Stepped(s, act), fd, ConnOf(s, fd))
  {
    assert FdOk(s, fd);
  }

  /** Requests and CQEs in order, one descriptor and one log in order, all else untouched. */
  lemma OneFdKeeps(s: State, s': State, fd: Fd, conn: Conn)
    requires Inv(s) && s.app.status.Serving? && s'.app.status.Serving? && PendingOk(s') && CqOk(s')
    requires Frame(s, s', fd, conn) && s'.acceptor == s.acceptor && FdOk(s', fd)
    requires fd in s.conns && ConnOf(s, fd) == conn && ConnOf(s', fd) == conn && Echoes(LogOf(s', conn))
    ensures Inv(s')
  {
    OtherFds(s, s', fd, conn);
    LogsStay(s, s', conn);
  }

  lemma KeepsReads(s: State, act: Act)
    requires Inv(s) && Enabled(s, act) && act.KernelReads?
    ensures Inv(Stepped(s, act))
  {
    var s', fd := Stepped(s, act), VerbAt(s, act.i).fd;
    MovedOn(s, s', act.i, fd, Bytes(|act.bytes|));
    ReadIsLogged(s, act, fd);
    ReadFits(s, act, fd);
    OneFdKeeps(s, s', fd, ConnOf(s, fd));
  }

  lemma WriteFits(s: State, act: Act, fd: Fd)
    requires Inv(s) && Enabled(s, act) && act.KernelWrites? && VerbAt(s, act.i).fd == fd
    requires PhaseOf(s, fd) == Writing(VerbAt(s, act.i).size)
    ensures
      var s', conn := Stepped(s, act), ConnOf(s, fd);
      && fd in s.conns && ConnOf(s', fd) == conn && FdOk(s', fd)
      && Frame(s, s', fd, conn) && s'.acceptor == s.acceptor && Echoes(LogOf(s', conn))
  {
    assert FdOk(s, fd) && Echoes(LogOf(s, ConnOf(s, fd)));
  }

  lemma KeepsWrites(s: State, act: Act)
    requires Inv(s) && Enabled(s, act) && act.KernelWrites?
    ensures Inv(Stepped(s, act))
  {
    var s', fd := Stepped(s, act), VerbAt(s, act.i).fd;
    MovedOn(s, s', act.i, fd, Bytes(act.n));
    WriteFits(s, act, fd);
    OneFdKeeps(s, s', fd, ConnOf(s, fd));
  }

  lemma KeepsCloses(s: State, act: Act)
    requires Inv(s) && Enabled(s, act) && act.KernelCloses?
    ensures Inv(Stepped(s, act))
  {
    var s', fd := Stepped(s, act), VerbAt(s, act.i).fd;
    CloseExecuted(s, s', act.i, fd, Bytes(0));
    assert FdOk(s, fd);
    OtherFds(s, s', fd, ConnOf(s, fd));
    LogsSame(s, s');
  }

  lemma KeepsFailedAccept(s: State, act: Act)
    requires Inv(s) && Enabled(s, act) && act.KernelFails? && VerbAt(s, act.i).Accept?
    ensures Inv(Stepped(s, act))
  {
    var s' := Stepped(s, act);
    AcceptExecuted(s, s', act.i, Error);
    forall g ensures FdOk(s', g) {
      assert FdOk(s, g);
    }
    forall f, g | f in s'.conns && g in s'.conns && f != g ensures ConnOf(s', f) != ConnOf(s', g) {
      assert ConnOf(s, f) != ConnOf(s, g);
    }
    LogsSame(s, s');
  }

  lemma KeepsFails(s: State, act: Act)
    requires Inv(s) && Enabled(s, act) && act.KernelFails? && !VerbAt(s, act.i).Accept?
    ensures Inv(Stepped(s, act))
  {
    var s', fd := Stepped(s, act), VerbAt(s, act.i).fd;
    MovedOn(s, s', act.i, fd, Error);
    assert FdOk(s, fd);
    OtherFds(s, s', fd, ConnOf(s, fd));
    LogsSame(s, s');
  }

  // ---------------------------------------------------------------- every step of the server

  /** The CQE at hand is taken, and fd's phase, which it answered, moves on to one that awaits no CQE. */
  lemma Answered(s: State, s': State, op: Code, fd: Fd)
    requires CqOk(s) && s.cq != [] && s'.cq == s.cq[1..] && s'.acceptor == s.acceptor && Elsewhere(s.phases, s'.phases, fd)
    requires s.cq[0].data == DataPack(fd, op)
    requires op in {OP_READ, OP_WRITE}
    requires PhaseOf(s, fd) == if op == OP_READ then HasRead(s.cq[0].res) else HasWritten(s.cq[0].res)
    requires PhaseOf(s', fd).Writing? || PhaseOf(s', fd).Reading? || PhaseOf(s', fd).Closing?
    ensures CqOk(s')
  {
    forall d: Cqe | LowHalf(d.data) != OP_CLOSE ensures One(Posted(s', d)) + One(d == s.cq[0]) == One(Posted(s, d)) {
      PackIff(d.data, fd, op);
    }
    CqeTaken(s, s');
  }

  /** After an accept, a READ of the new descriptor and the next ACCEPT are submitted, and the CQE is gone. */
  lemma AcceptTurnsToRead(s: State, s': State, fd: Fd)
    requires PendingOk(s) && CqOk(s) && s.cq != [] && s'.cq == s.cq[1..] && s.cq[0] == Cqe(DataPack(0, OP_ACCEPT), Descriptor(fd))
    requires s.acceptor == HasAccepted(Descriptor(fd)) && s'.acceptor.Accepting?
    requires Elsewhere(s.phases, s'.phases, fd) && PhaseOf(s, fd).Fresh? && PhaseOf(s', fd).Reading?
    requires s'.app.pending == (s.app.pending + [ReadRequest(fd)]) + [ACCEPT_REQUEST]
    ensures PendingOk(s') && CqOk(s')
  {
    forall r ensures Count(s'.app.pending, r) == One(Asked(s', r)) {
      CountConcat(s.app.pending + [ReadRequest(fd)], [ACCEPT_REQUEST], r);
      CountConcat(s.app.pending, [ReadRequest(fd)], r);
      assert Count(s.app.pending, r) == One(Asked(s, r));
    }
    forall d: Cqe | LowHalf(d.data) != OP_CLOSE ensures One(Posted(s', d)) + One(d == s.cq[0]) == One(Posted(s, d)) {
      PackIff(d.data, 0, OP_ACCEPT);
    }
    CqeTaken(s, s');
  }

  lemma HandlesAccept(s: State)
    requires Inv(s) && s.app.status.Serving? && s.cq != [] && LowHalf(s.cq[0].data) == OP_ACCEPT && s.cq[0].res.Descriptor?
    ensures Inv(HandleStep(s))
  {
    var s', fd := HandleStep(s), s.cq[0].res.fd;
    IsPosted(s);
    assert FdOk(s, fd);
    PackIff(s.cq[0].data, 0, OP_ACCEPT);
    AcceptTurnsToRead(s, s', fd);
    forall g {:trigger PhaseOf(s, g)} ensures g != fd ==> !PhaseOf(s, g).Fresh? {
      assert FdOk(s, g);
    }
    OtherFds(s, s', fd, ConnOf(s, fd));
    LogsSame(s, s');
  }

  lemma HandlesRead(s: State)
    requires Inv(s) && s.app.status.Serving? && s.cq != [] && LowHalf(s.cq[0].data) == OP_READ && s.cq[0].res.Bytes?
    ensures Inv(HandleStep(s))
  {
    var s', c, fd := HandleStep(s), s.cq[0], HighHalf(s.cq[0].data);
    IsPosted(s);
    assert FdOk(s, fd);
    forall q ensures One(Asked(s', q)) == One(Asked(s, q)) + One(q == WriteRequest(fd, c.res.n)) {}
    Submitted(s, s', WriteRequest(fd, c.res.n));
    PackIff(c.data, fd, OP_READ);
    Answered(s, s', OP_READ, fd);
    OtherFds(s, s', fd, ConnOf(s, fd));
    LogsSame(s, s');
  }

  /** After a WRITE, its descriptor is asked to close or to read again, and the CQE is gone. */
  lemma WriteTurns(s: State, s': State, fd: Fd, close: bool)
    requires PendingOk(s) && CqOk(s) && s.cq != [] && s'.cq == s.cq[1..] && s.cq[0].data == DataPack(fd, OP_WRITE)
    requires s'.acceptor == s.acceptor && Elsewhere(s.phases, s'.phases, fd)
    requires PhaseOf(s, fd) == HasWritten(s.cq[0].res) && PhaseOf(s', fd) == if close then Closing else Reading
    requires s'.app.pending == s.app.pending + [if close then CloseRequest(fd) else ReadRequest(fd)]
    ensures PendingOk(s') && CqOk(s')
  {
    var r := if close then CloseRequest(fd) else ReadRequest(fd);
    forall q ensures One(Asked(s', q)) == One(Asked(s, q)) + One(q == r) {}
    Submitted(s, s', r);
    Answered(s, s', OP_WRITE, fd);
  }

  lemma HandlesWrite(s: State)
    requires Inv(s) && s.app.status.Serving? && s.cq != [] && LowHalf(s.cq[0].data) == OP_WRITE && s.cq[0].res.Bytes?
    ensures Inv(HandleStep(s))
  {
    var s', c, fd := HandleStep(s), s.cq[0], HighHalf(s.cq[0].data);
    IsPosted(s);
    assert FdOk(s, fd);
    PackIff(c.data, fd, OP_WRITE);
    WriteTurns(s, s', fd, Ends(BufferOf(s, fd), c.res.n));
    OtherFds(s, s', fd, ConnOf(s, fd));
    LogsSame(s, s');
  }

  lemma HandlesClose(s: State)
    requires Inv(s) && s.app.status.Serving? && s.cq != [] && LowHalf(s.cq[0].data) == OP_CLOSE
    ensures Inv(HandleStep(s))
  {
    var s' := HandleStep(s);
    forall r ensures Count(s'.app.pending, r) == One(Asked(s', r)) {
      assert Count(s.app.pending, r) == One(Asked(s, r));
    }
    forall d: Cqe | LowHalf(d.data) != OP_CLOSE ensures One(Posted(s', d)) + One(d == s.cq[0]) == One(Posted(s, d)) {}
    CqeTaken(s, s');
    forall g ensures FdOk(s', g) {
      assert FdOk(s, g);
    }
    forall f, g | f in s'.conns && g in s'.conns && f != g ensures ConnOf(s', f) != ConnOf(s', g) {
      assert ConnOf(s, f) != ConnOf(s, g);
    }
    LogsSame(s, s');
  }

  /** A negative result ends the server; nothing else changes. */
  lemma HandlesError(s: State)
    requires Inv(s) && s.app.status.Serving? && s.cq != [] && LowHalf(s.cq[0].data) != OP_CLOSE && s.cq[0].res.Error?
    ensures Inv(HandleStep(s)) && HandleStep(s).app.status.Failed?
  {
    IsPosted(s);
    LogsSame(s, HandleStep(s));
  }

  lemma EveryStepKeeps(s: State, act: Act)
    requires Inv(s) && Enabled(s, act)
    ensures Inv(Stepped(s, act))
  {
    match act
    case KernelAccepts(_, _) => KeepsAccepts(s, act);
    case KernelReads(_, _) => KeepsReads(s, act);
    case KernelWrites(_, _) => KeepsWrites(s, act);
    case KernelCloses(_) => KeepsCloses(s, act);
    case KernelFails(_) => if VerbAt(s, act.i).Accept? { KeepsFailedAccept(s, act); } else { KeepsFails(s, act); }
    case Handle =>
      IsPosted(s);
      HandleCase(s);
  }

  lemma HandleCase(s: State)
    requires Inv(s) && s.app.status.Serving? && s.cq != []
    ensures Inv(HandleStep(s))
  {
    IsPosted(s);
    var op := LowHalf(s.cq[0].data);
    assert FdOk(s, HighHalf(s.cq[0].data));
    if op == OP_CLOSE { HandlesClose(s); }
    else if s.cq[0].res.Error? { HandlesError(s); }
    else if op == OP_ACCEPT { HandlesAccept(s); }
    else if op == OP_READ { HandlesRead(s); }
    else { HandlesWrite(s); }
  }

  // ---------------------------------------------------------------- runs

  ghost predicate Run(ss: seq<State>, acts: seq<Act>) {
    && |ss| == |acts| + 1 && ss[0] == START
    && forall i {:trigger acts[i]} :: 0 <= i < |acts| ==> Enabled(ss[i], acts[i]) && ss[i + 1] == Stepped(ss[i], acts[i])
  }

  lemma StartInv()
    ensures Inv(START)
  {
    forall r ensures Count(START.app.pending, r) == One(Asked(START, r)) {}
    forall fd ensures FdOk(START, fd) {}
  }

  lemma {:induction false} EveryStateInv(ss: seq<State>, acts: seq<Act>, i: nat)
    requires Run(ss, acts) && i < |ss|
    ensures Inv(ss[i])
  {
    if i == 0 {
      StartInv();
    } else {
      EveryStateInv(ss, acts, i - 1);
      EveryStepKeeps(ss[i - 1], acts[i - 1]);
    }
  }

  /**
   The server object goes through every run: fed the CQEs of the run one by one, with the kernel taking its steps in
   between, it holds at each point the buffers, requests and status of the run's states.
   */
  method Serve(ss: seq<State>, acts: seq<Act>) returns (server: Server)
    requires Run(ss, acts)
    ensures fresh(server) && server.View() == ss[|acts|].app
  {
    server := new Server();
    for i := 0 to |acts|
      invariant fresh(server) && server.View() == ss[i].app
    {
      assert Enabled(ss[i], acts[i]) && ss[i + 1] == Stepped(ss[i], acts[i]);
      if acts[i].Handle? {
        server.Dispatch(ss[i].cq[0]);
      } else {
        server.Meanwhile(ss[i + 1].app.buffers, ss[i + 1].app.pending);
      }
    }
  }

  /** How many requests of a kind are with the kernel, and how many CQEs of it wait for the server. */
  function Requests(rs: seq<Request>, data: Data): nat {
    if rs == [] then 0 else One(rs[0].data == data) + Requests(rs[1..], data)
  }

  function Cqes(cs: seq<Cqe>, data: Data): nat {
    if cs == [] then 0 else One(cs[0].data == data) + Cqes(cs[1..], data)
  }

  function Outstanding(s: State, data: Data): nat {
    Requests(s.app.pending, data) + Cqes(s.cq, data)
  }

  /** Counting by user data is counting one request, when only that one carries the data. */
  lemma {:induction false} OneRequest(rs: seq<Request>, data: Data, r: Request)
    requires forall q :: q in rs && q.data == data ==> q == r
    requires r.data == data
    ensures Requests(rs, data) == Count(rs, r)
  {
    if rs != [] {
      assert rs[0] in rs;
      OneRequest(rs[1..], data, r);
    }
  }

  lemma {:induction false} OneCqe(cs: seq<Cqe>, data: Data, c: Cqe)
    requires forall d :: d in cs && d.data == data ==> d == c
    requires c.data == data
    ensures Cqes(cs, data) == Count(cs, c)
  {
    if cs != [] {
      assert cs[0] in cs;
      OneCqe(cs[1..], data, c);
    }
  }

  /** The only request with this user data, if it is asked for at all, is r. */
  lemma RequestsAre(s: State, r: Request)
    requires PendingOk(s)
    requires forall q :: Asked(s, q) && q.data == r.data ==> q == r
    ensures Requests(s.app.pending, r.data) == One(Asked(s, r))
  {
    forall q | q in s.app.pending && q.data == r.data ensures q == r {
      CountIn(s.app.pending, q);
      assert Count(s.app.pending, q) == One(Asked(s, q));
    }
    OneRequest(s.app.pending, r.data, r);
  }

  lemma CqesAre(s: State, c: Cqe)
    requires CqOk(s) && LowHalf(c.data) != OP_CLOSE
    requires forall d: Cqe :: Posted(s, d) && d.data == c.data ==> d == c
    ensures Cqes(s.cq, c.data) == One(Posted(s, c))
  {
    forall d | d in s.cq && d.data == c.data ensures d == c {
      CountIn(s.cq, d);
      assert Count(s.cq, d) == One(Posted(s, d));
    }
    OneCqe(s.cq, c.data, c);
  }

  lemma CodesDiffer(q: Request, s: State)
    requires Asked(s, q)
    ensures LowHalf(q.data) == (match q.verb case Accept => OP_ACCEPT case Read(_) => OP_READ case Write(_, _) => OP_WRITE case Close(_) => OP_CLOSE)
    ensures !q.verb.Accept? ==> HighHalf(q.data) == q.verb.fd
  {
    match q.verb
    case Accept => UnpackPack(0, OP_ACCEPT);
    case Read(fd) => UnpackPack(fd, OP_READ);
    case Write(fd, _) => UnpackPack(fd, OP_WRITE);
    case Close(fd) => UnpackPack(fd, OP_CLOSE);
  }

  lemma ReadsOutstanding(s: State, fd: Fd)
    requires PendingOk(s) && CqOk(s)
    ensures Outstanding(s, DataPack(fd, OP_READ)) == One(PhaseOf(s, fd).Reading? || PhaseOf(s, fd).HasRead?)
  {
    var r := ReadRequest(fd);
    UnpackPack(fd, OP_READ);
    forall q | Asked(s, q) && q.data == r.data ensures q == r { CodesDiffer(q, s); }
    RequestsAre(s, r);
    CqesAre(s, Cqe(r.data, if PhaseOf(s, fd).HasRead? then PhaseOf(s, fd).res else Error));
  }

  lemma WritesOutstanding(s: State, fd: Fd)
    requires PendingOk(s) && CqOk(s)
    ensures Outstanding(s, DataPack(fd, OP_WRITE)) == One(PhaseOf(s, fd).Writing? || PhaseOf(s, fd).HasWritten?)
  {
    var r := WriteRequest(fd, if PhaseOf(s, fd).Writing? then PhaseOf(s, fd).size else 0);
    UnpackPack(fd, OP_WRITE);
    forall q | Asked(s, q) && q.data == r.data ensures q == r { CodesDiffer(q, s); }
    RequestsAre(s, r);
    CqesAre(s, Cqe(r.data, if PhaseOf(s, fd).HasWritten? then PhaseOf(s, fd).res else Error));
  }

  lemma AcceptsOutstanding(s: State)
    requires PendingOk(s) && CqOk(s)
    ensures Outstanding(s, DataPack(0, OP_ACCEPT)) == 1
  {
    UnpackPack(0, OP_ACCEPT);
    forall q | Asked(s, q) && q.data == ACCEPT_REQUEST.data ensures q == ACCEPT_REQUEST { CodesDiffer(q, s); }
    RequestsAre(s, ACCEPT_REQUEST);
    CqesAre(s, Cqe(ACCEPT_REQUEST.data, if s.acceptor.HasAccepted? then s.acceptor.res else Error));
  }

  /**
   While the server serves: exactly one ACCEPT is outstanding; a descriptor has an entry in `buf_map` if and only if a
   READ or WRITE of it is outstanding, and then exactly one; it is open as long as one is.
   */
  lemma OneRequestPerDescriptor(ss: seq<State>, acts: seq<Act>, i: nat, fd: Fd)
    requires Run(ss, acts) && i < |ss| && ss[i].app.status.Serving?
    ensures
      var s := ss[i];
      && Outstanding(s, DataPack(0, OP_ACCEPT)) == 1
      && Outstanding(s, DataPack(fd, OP_READ)) + Outstanding(s, DataPack(fd, OP_WRITE)) == One(fd in s.app.buffers)
      && (fd in s.app.buffers ==> fd in s.conns)
  {
    var s := ss[i];
    EveryStateInv(ss, acts, i);
    AcceptsOutstanding(s);
    ReadsOutstanding(s, fd);
    WritesOutstanding(s, fd);
    assert FdOk(s, fd);
  }

  /** Every READ and WRITE with the kernel points at a live buffer, and a WRITE stays within it. */
  lemma BuffersAreLive(ss: seq<State>, acts: seq<Act>, i: nat, r: Request)
    requires Run(ss, acts) && i < |ss| && ss[i].app.status.Serving? && r in ss[i].app.pending
    ensures
      var s := ss[i];
      && (r.verb.Read? || r.verb.Write? ==> r.verb.fd in s.app.buffers && |s.app.buffers[r.verb.fd]| == BUFFER_SIZE)
      && (r.verb.Write? ==> r.verb.size <= BUFFER_SIZE)
  {
    var s := ss[i];
    EveryStateInv(ss, acts, i);
    CountIn(s.app.pending, r);
    assert Count(s.app.pending, r) == One(Asked(s, r));
    if r.verb.Read? || r.verb.Write? {
      assert FdOk(s, r.verb.fd);
    }
  }

  /**
   On every connection, whatever descriptors are reused, each WRITE sent a prefix of exactly the bytes that the READ
   before it delivered on the same connection.
   */
  lemma EachWriteEchoes(ss: seq<State>, acts: seq<Act>, i: nat, conn: Conn)
    requires Run(ss, acts) && i < |ss|
    ensures Echoes(LogOf(ss[i], conn))
  {
    EveryStateInv(ss, acts, i);
  }

  lemma FailsIff(s: State)
    requires Inv(s) && s.app.status.Serving? && s.cq != []
    ensures HandleStep(s).app.status.Failed? <==> LowHalf(s.cq[0].data) != OP_CLOSE && s.cq[0].res.Error?
  {
    IsPosted(s);
    assert FdOk(s, HighHalf(s.cq[0].data));
  }

  /** Dispatch meets no code that it does not serve; the server ends only on a negative result. */
  lemma NeverTrapped(ss: seq<State>, acts: seq<Act>, i: nat)
    requires Run(ss, acts) && i < |acts|
    ensures !ss[i + 1].app.status.Trapped?
    ensures ss[i + 1].app.status.Failed? <==> acts[i].Handle? && LowHalf(ss[i].cq[0].data) != OP_CLOSE && ss[i].cq[0].res.Error?
  {
    EveryStateInv(ss, acts, i);
    EveryStateInv(ss, acts, i + 1);
    if acts[i].Handle? {
      FailsIff(ss[i]);
    }
  }

  /** What a handled WRITE submits, in terms of the buffer. */
  lemma WriteSubmits(s: State, fd: Fd, n: nat)
    requires Inv(s) && s.app.status.Serving? && s.cq != []
    requires LowHalf(s.cq[0].data) == OP_WRITE && HighHalf(s.cq[0].data) == fd && s.cq[0].res == Bytes(n)
    ensures
      var s', close := HandleStep(s), Ends(BufferOf(s, fd), n);
      && (CloseRequest(fd) in s'.app.pending <==> close) && (ReadRequest(fd) in s'.app.pending <==> !close)
      && (fd in s'.app.buffers <==> !close)
  {
    IsPosted(s);
    assert FdOk(s, fd);
    NotAsked(s, CloseRequest(fd));
    NotAsked(s, ReadRequest(fd));
  }

  lemma NotAsked(s: State, r: Request)
    requires PendingOk(s) && !Asked(s, r)
    ensures r !in s.app.pending
  {
    CountIn(s.app.pending, r);
  }

  /** The bytes just written decide as the buffer does. */
  lemma WrittenDecides(buf: Buffer, w: Buffer, n: nat)
    requires n <= |buf| && w == buf[..n]
    ensures Ends(buf, n) <==> w == [] || (|w| > 2 && w[..2] == "Zz")
  {
    if n > 2 {
      assert w[0] == buf[0] && w[1] == buf[1];
      assert w[..2] == [w[0], w[1]];
    }
  }

  /**
   When the server handles a WRITE of a connection, it asks to close it if and only if the bytes just written to that
   connection were none, or were more than two and began with "Zz"; otherwise it asks to read again.
   */
  lemma ClosesIff(ss: seq<State>, acts: seq<Act>, i: nat)
    requires Run(ss, acts) && i < |acts| && acts[i].Handle?
    requires LowHalf(ss[i].cq[0].data) == OP_WRITE && ss[i].cq[0].res.Bytes?
    ensures
      var s, s', fd := ss[i], ss[i + 1], HighHalf(ss[i].cq[0].data);
      var log := LogOf(s, ConnOf(s, fd));
      && log != []
      && (var w := log[|log| - 1].written;
          var close := w == [] || (|w| > 2 && w[..2] == "Zz");
          && (CloseRequest(fd) in s'.app.pending <==> close)
          && (ReadRequest(fd) in s'.app.pending <==> !close)
          && (fd in s'.app.buffers <==> !close))
  {
    var s, fd, n := ss[i], HighHalf(ss[i].cq[0].data), ss[i].cq[0].res.n;
    EveryStateInv(ss, acts, i);
    IsPosted(s);
    assert FdOk(s, fd);
    var log := LogOf(s, ConnOf(s, fd));
    WriteSubmits(s, fd, n);
    WrittenDecides(BufferOf(s, fd), log[|log| - 1].written, n);
  }

  // ---------------------------------------------------------------- the echoed stream

  /** What the client sent, as far as it was read, and what came back. */
  function Delivered(log: seq<Exchange>): Buffer {
    if log == [] then [] else log[0].read + Delivered(log[1..])
  }

  function Echoed(log: seq<Exchange>): Buffer {
    if log == [] then [] else log[0].written + Echoed(log[1..])
  }

  lemma {:induction false} EchoedIsShorter(log: seq<Exchange>)
    requires Echoes(log)
    ensures |Echoed(log)| <= |Delivered(log)|
  {
    if log != [] {
      assert forall k {:trigger log[1..][k]} :: 0 <= k < |log| - 1 ==> log[1..][k] == log[k + 1];
      assert log[0].written <= log[0].read;
      EchoedIsShorter(log[1..]);
    }
  }

  /** The two streams are equal if and only if each exchange is whole. */
  lemma {:induction false} EchoesAllIff(log: seq<Exchange>)
    requires Echoes(log)
    ensures Echoed(log) == Delivered(log) <==> forall k {:trigger log[k]} :: 0 <= k < |log| ==> log[k].written == log[k].read
  {
    if log != [] {
      var rest := log[1..];
      assert forall k {:trigger rest[k]} :: 0 <= k < |rest| ==> rest[k] == log[k + 1];
      assert forall k {:trigger log[k]} :: 0 < k < |log| ==> log[k] == rest[k - 1];
      assert log[0].written <= log[0].read;
      EchoesAllIff(rest);
      EchoedIsShorter(rest);
      if Echoed(log) == Delivered(log) {
        assert |log[0].written| == |log[0].read|;
        assert log[0].written == log[0].read;
        assert Echoed(rest) == Echoed(log)[|log[0].written|..];
        assert Delivered(rest) == Delivered(log)[|log[0].read|..];
      }
    }
  }

  // ---------------------------------------------------------------- when the stream comes back

  /** The WRITEs of a connection that the kernel executed in the first steps of a run sent all they were asked to. */
  ghost predicate NoShortWrite(ss: seq<State>, acts: seq<Act>, i: nat, conn: Conn)
    requires Run(ss, acts) && i < |ss|
  {
    forall k {:trigger acts[k]} :: 0 <= k < i && WritesOn(ss[k], acts[k], conn) ==> acts[k].n == VerbAt(ss[k], acts[k].i).size
  }

  /** The kernel executes a WRITE of this connection. */
  predicate WritesOn(s: State, act: Act, conn: Conn) {
    act.KernelWrites? && act.i < |s.app.pending| && VerbAt(s, act.i).Write? && ConnOf(s, VerbAt(s, act.i).fd) == conn
  }

  /** The answered exchanges of a log are whole. */
  ghost predicate AnsweredWhole(log: seq<Exchange>) {
    forall k {:trigger log[k]} :: 0 <= k < |log| && log[k].answered ==> log[k].written == log[k].read
  }

  ghost predicate UnusedLogsEmpty(s: State) {
    forall c {:trigger LogOf(s, c)} :: c >= s.next ==> LogOf(s, c) == []
  }

  /** What a step does to one connection's log. */
  predicate LogStep(s: State, s': State, act: Act, conn: Conn) {
    var log, log' := LogOf(s, conn), LogOf(s', conn);
    || (!WritesOn(s, act, conn) && log' == log)
    || (!WritesOn(s, act, conn) && act.KernelReads? && log' == log + [Exchange(act.bytes, [], false)])
    || (WritesOn(s, act, conn) && act.n <= VerbAt(s, act.i).size && Answers(log, log', VerbAt(s, act.i).size, act.n))
  }

  /** The pending exchange is answered with n of its bytes. */
  predicate Answers(log: seq<Exchange>, log': seq<Exchange>, size: nat, n: nat) {
    && log != [] && !log[|log| - 1].answered && |log[|log| - 1].read| == size && n <= size
    && log' == log[|log| - 1 := Exchange(log[|log| - 1].read, log[|log| - 1].read[..n], true)]
  }

  lemma WriteFollows(s: State, act: Act, conn: Conn)
    requires Inv(s) && Enabled(s, act) && act.KernelWrites?
    ensures LogStep(s, Stepped(s, act), act, conn)
  {
    IsAsked(s, act.i);
    var fd := VerbAt(s, act.i).fd;
    assert FdOk(s, fd);
    var log, buf := LogOf(s, ConnOf(s, fd)), BufferOf(s, fd);
    assert log[|log| - 1].read[..act.n] == buf[..act.n];
  }

  lemma LogFollows(s: State, act: Act, conn: Conn)
    requires Inv(s) && UnusedLogsEmpty(s) && Enabled(s, act)
    ensures LogStep(s, Stepped(s, act), act, conn)
  {
    if act.KernelWrites? {
      WriteFollows(s, act, conn);
    } else {
      assert act.KernelAccepts? ==> LogOf(s, s.next) == [];
    }
  }

  lemma UnusedLogsStayEmpty(s: State, act: Act)
    requires Inv(s) && UnusedLogsEmpty(s) && Enabled(s, act)
    ensures UnusedLogsEmpty(Stepped(s, act))
  {
    var s' := Stepped(s, act);
    forall c | c >= s'.next ensures LogOf(s', c) == [] {
      assert LogOf(s, c) == [];
      LogFollows(s, act, c);
      if act.KernelReads? {
        ReadIsOnOldLog(s, act);
      }
    }
  }

  lemma ReadIsOnOldLog(s: State, act: Act)
    requires Inv(s) && Enabled(s, act) && act.KernelReads?
    ensures ConnOf(s, VerbAt(s, act.i).fd) < s.next
  {
    IsAsked(s, act.i);
    assert FdOk(s, VerbAt(s, act.i).fd);
  }

  lemma {:induction false} EveryUnusedLogIsEmpty(ss: seq<State>, acts: seq<Act>, i: nat)
    requires Run(ss, acts) && i < |ss|
    ensures UnusedLogsEmpty(ss[i])
  {
    if i > 0 {
      EveryUnusedLogIsEmpty(ss, acts, i - 1);
      EveryStateInv(ss, acts, i - 1);
      UnusedLogsStayEmpty(ss[i - 1], acts[i - 1]);
    }
  }

  /** Whole so far, and whole now. */
  lemma WholeStep(s: State, s': State, act: Act, conn: Conn)
    requires LogStep(s, s', act, conn)
    ensures AnsweredWhole(LogOf(s', conn)) <==>
      AnsweredWhole(LogOf(s, conn)) && (WritesOn(s, act, conn) ==> act.n == VerbAt(s, act.i).size)
  {
    var log, log' := LogOf(s, conn), LogOf(s', conn);
    forall k {:trigger log[k]} | 0 <= k < |log| && log[k].answered ensures log'[k] == log[k] {}
    if WritesOn(s, act, conn) {
      var e := log'[|log| - 1];
      assert |e.written| == act.n && |e.read| == VerbAt(s, act.i).size;
    }
  }

  lemma {:induction false} WholeIff(ss: seq<State>, acts: seq<Act>, i: nat, conn: Conn)
    requires Run(ss, acts) && i < |ss|
    ensures AnsweredWhole(LogOf(ss[i], conn)) <==> NoShortWrite(ss, acts, i, conn)
  {
    if i > 0 {
      WholeIff(ss, acts, i - 1, conn);
      EveryStateInv(ss, acts, i - 1);
      EveryUnusedLogIsEmpty(ss, acts, i - 1);
      LogFollows(ss[i - 1], acts[i - 1], conn);
      WholeStep(ss[i - 1], ss[i], acts[i - 1], conn);
    }
  }

  /**
   At any moment of any run at which a connection's READs have all been answered, the client has got back exactly what
   the server read from it, if and only if the kernel wrote in full every WRITE of that connection: a short result is
   not resumed, and what it left out never comes back.
   */
  lemma ComesBackIff(ss: seq<State>, acts: seq<Act>, i: nat, conn: Conn)
    requires Run(ss, acts) && i < |ss| && AllAnswered(LogOf(ss[i], conn))
    ensures Echoed(LogOf(ss[i], conn)) == Delivered(LogOf(ss[i], conn)) <==> NoShortWrite(ss, acts, i, conn)
  {
    EachWriteEchoes(ss, acts, i, conn);
    WholeIff(ss, acts, i, conn);
    EchoesAllIff(LogOf(ss[i], conn));
  }

  lemma Extend(ss: seq<State>, acts: seq<Act>, act: Act) returns (ss': seq<State>, acts': seq<Act>)
    requires Run(ss, acts) && Enabled(ss[|acts|], act)
    ensures Run(ss', acts') && |acts'| == |acts| + 1 && ss'[|acts'|] == Stepped(ss[|acts|], act)
  {
    ss', acts' := ss + [Stepped(ss[|acts|], act)], acts + [act];
  }

  /** A client connects and its READ is submitted. */
  lemma ClientConnects() returns (ss: seq<State>, acts: seq<Act>)
    ensures Run(ss, acts)
    ensures
      var s := ss[|acts|];
      && s.app == App(map[5 := Zeros()], [ReadRequest(5), ACCEPT_REQUEST], Serving) && s.cq == []
      && ConnOf(s, 5) == 0 && LogOf(s, 0) == []
  {
    ss, acts := [START], [];
    ss, acts := Extend(ss, acts, KernelAccepts(0, Descriptor(5)));
    UnpackPack(0, OP_ACCEPT);
    ss, acts := Extend(ss, acts, Handle);
  }

  /** It sends two bytes, and the WRITE that answers them is submitted. */
  lemma TwoBytesRead() returns (ss: seq<State>, acts: seq<Act>)
    ensures Run(ss, acts)
    ensures
      var s := ss[|acts|];
      && s.app.status.Serving? && s.app.pending == [ACCEPT_REQUEST, WriteRequest(5, 2)]
      && ConnOf(s, 5) == 0 && LogOf(s, 0) == [Exchange("ab", [], false)] && "ab" <= BufferOf(s, 5)
  {
    ss, acts := ClientConnects();
    ss, acts := Extend(ss, acts, KernelReads(0, "ab"));
    UnpackPack(5, OP_READ);
    ss, acts := Extend(ss, acts, Handle);
  }

  /** A run in which the kernel writes one of the two bytes it was given: the other never comes back. */
  lemma ShortWriteLosesBytes() returns (ss: seq<State>, acts: seq<Act>)
    ensures Run(ss, acts) && LogOf(ss[|acts|], 0) == [Exchange("ab", "a", true)]
    ensures Echoed(LogOf(ss[|acts|], 0)) != Delivered(LogOf(ss[|acts|], 0))
  {
    ss, acts := TwoBytesRead();
    assert BufferOf(ss[|acts|], 5)[..1] == "a";
    ss, acts := Extend(ss, acts, KernelWrites(1, 1));
  }
}
