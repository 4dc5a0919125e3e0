/**
 The callback echo server of examples/echo.cpp, with the kernel as its environment: the kernel executes outstanding
 requests in any order, reuses a file descriptor as soon as it has executed its CLOSE, and posts CQEs that the server
 handles one by one.
 */
module EchoServer {
  import opened Lists
  import opened UserData

  type Fd = Half
  type Code = Half
  type Buffer = seq<char>
  type Conn = nat

  const OP_TRAP: Code := 0
  const OP_ACCEPT: Code := 1
  const OP_READ: Code := 2
  const OP_WRITE: Code := 3
  const OP_CLOSE: Code := 4
  const OP_MAX: Code := 5

  const BUFFER_SIZE: nat := 4096
  function Zeros(): (b: Buffer)
    ensures |b| == BUFFER_SIZE
  {
    seq(BUFFER_SIZE, i => '\0')
  }

  /** `cqe->res`: a negative error, a descriptor or a number of bytes. */
  datatype Result = Error | Descriptor(fd: Fd) | Bytes(n: nat)

  /** What an SQE asks of the kernel. READ and WRITE refer to the buffer of their descriptor. */
  datatype Verb = Accept | Read(fd: Fd) | Write(fd: Fd, size: nat) | Close(fd: Fd)

  datatype Request = Request(data: Data, verb: Verb)
  datatype Cqe = Cqe(data: Data, res: Result)

  /** `Failed`: a check of a negative result terminated the server. `Trapped`: dispatch met a code it does not serve. */
  datatype Status = Serving | Failed | Trapped

  /** The server's own state, and the requests it has submitted that the kernel has not executed. */
  datatype App = App(buffers: map<Fd, Buffer>, pending: seq<Request>, status: Status)

  // ---------------------------------------------------------------- the handlers

  /** `buf_map[fd]` makes a zeroed buffer when there is none. */
  function Touch(m: map<Fd, Buffer>, fd: Fd): map<Fd, Buffer> {
    if fd in m then m else m[fd := Zeros()]
  }

  const ACCEPT_REQUEST := Request(DataPack(0, OP_ACCEPT), Accept)
  function ReadRequest(fd: Fd): Request { Request(DataPack(fd, OP_READ), Read(fd)) }
  function WriteRequest(fd: Fd, size: nat): Request { Request(DataPack(fd, OP_WRITE), Write(fd, size)) }
  function CloseRequest(fd: Fd): Request { Request(DataPack(fd, OP_CLOSE), Close(fd)) }

  function Submit(a: App, r: Request): App {
    a.(pending := a.pending + [r])
  }

  function Accepted(a: App, res: Result): App {
    if !res.Descriptor? then a.(status := Failed)
    else Submit(Submit(a.(buffers := Touch(a.buffers, res.fd)), ReadRequest(res.fd)), ACCEPT_REQUEST)
  }

  function WasRead(a: App, res: Result, fd: Fd): App {
    if !res.Bytes? then a.(status := Failed)
    else Submit(a.(buffers := Touch(a.buffers, fd)), WriteRequest(fd, res.n))
  }

  /** The connection ends after a zero-length write, or after one that began with "Zz" and a byte more. */
  predicate Ends(buf: Buffer, n: nat) {
    n == 0 || (n > 2 && |buf| > 1 && buf[0] == 'Z' && buf[1] == 'z')
  }

  function WasWritten(a: App, res: Result, fd: Fd): App {
    if !res.Bytes? then a.(status := Failed)
    else
      var a1 := a.(buffers := Touch(a.buffers, fd));
      if Ends(a1.buffers[fd], res.n) then Submit(a1, CloseRequest(fd)).(buffers := a1.buffers - {fd})
      else Submit(a1, ReadRequest(fd))
  }

  /** The main loop's dispatch on the unpacked user data. */
  function Handled(a: App, c: Cqe): App {
    if LowHalf(c.data) == OP_ACCEPT then Accepted(a, c.res)
    else if LowHalf(c.data) == OP_READ then WasRead(a, c.res, HighHalf(c.data))
    else if LowHalf(c.data) == OP_WRITE then WasWritten(a, c.res, HighHalf(c.data))
    else if LowHalf(c.data) == OP_CLOSE then a
    else a.(status := Trapped)
  }

  /** The buffer `buf_map[fd]` refers to. */
  function BufferIn(m: map<Fd, Buffer>, fd: Fd): Buffer {
    if fd in m then m[fd] else Zeros()
  }

  /** A failed check ended the server, and did nothing else. */
  predicate Ended(a: App, a': App) {
    a'.status.Failed? && a'.pending == a.pending && a'.buffers == a.buffers
  }

  class Server {
    var buffers: map<Fd, Buffer>
    var pending: seq<Request>
    var status: Status

    ghost function View(): App
      reads this
    {
      App(buffers, pending, status)
    }

    /** Kick off: one ACCEPT. */
    constructor ()
      ensures View() == App(map[], [ACCEPT_REQUEST], Serving)
    {
      buffers, pending, status := map[], [ACCEPT_REQUEST], Serving;
    }

    method AsyncOperation(data: Data, verb: Verb)
      modifies this`pending
      ensures pending == old(pending) + [Request(data, verb)]
    {
      pending := pending + [Request(data, verb)];
    }

    /** The new descriptor gets a buffer, unless it has one; a READ of it and the next ACCEPT are submitted. */
    method OnAccept(res: Result)
      modifies this
      ensures View() == Accepted(old(View()), res)
      ensures res.Descriptor? ==>
        && pending == old(pending) + [ReadRequest(res.fd), ACCEPT_REQUEST] && status == old(status)
        && buffers == old(buffers)[res.fd := BufferIn(old(buffers), res.fd)]
      ensures !res.Descriptor? ==> Ended(old(View()), View())
    {
      if !res.Descriptor? {
        status := Failed;
        return;
      }
      if res.fd !in buffers {
        buffers := buffers[res.fd := Zeros()];
      }
      AsyncOperation(DataPack(res.fd, OP_READ), Read(res.fd));
      AsyncOperation(DataPack(0, OP_ACCEPT), Accept);
    }

    /** A WRITE of exactly the bytes just read is submitted. */
    method OnRead(res: Result, fd: Fd)
      modifies this
      ensures View() == WasRead(old(View()), res, fd)
      ensures res.Bytes? ==>
        && pending == old(pending) + [WriteRequest(fd, res.n)] && status == old(status)
        && buffers == old(buffers)[fd := BufferIn(old(buffers), fd)]
      ensures !res.Bytes? ==> Ended(old(View()), View())
    {
      if !res.Bytes? {
        status := Failed;
        return;
      }
      if fd !in buffers {
        buffers := buffers[fd := Zeros()];
      }
      AsyncOperation(DataPack(fd, OP_WRITE), Write(fd, res.n));
    }

    /**
     After a write of nothing, or of more than two bytes beginning with "Zz", a CLOSE is submitted and the buffer goes;
     after any other write a READ is, and the buffer stays. No other buffer changes.
     */
    method OnWrite(res: Result, fd: Fd)
      modifies this
      ensures View() == WasWritten(old(View()), res, fd)
      ensures res.Bytes? ==>
        var buf := BufferIn(old(buffers), fd);
        var close := res.n == 0 || (res.n > 2 && "Zz" <= buf);
        && pending == old(pending) + [if close then CloseRequest(fd) else ReadRequest(fd)] && status == old(status)
        && (fd in buffers <==> !close) && (!close ==> buffers[fd] == buf)
        && buffers - {fd} == old(buffers) - {fd}
      ensures !res.Bytes? ==> Ended(old(View()), View())
    {
      if !res.Bytes? {
        status := Failed;
        return;
      }
      if fd !in buffers {
        buffers := buffers[fd := Zeros()];
      }
      var buf := buffers[fd];
      var proactive := res.n > 2 && |buf| > 1 && buf[0] == 'Z' && buf[1] == 'z';
      var reactive := res.n == 0;
      if reactive || proactive {
        AsyncOperation(DataPack(fd, OP_CLOSE), Close(fd));
        buffers := buffers - {fd};
        return;
      }
      AsyncOperation(DataPack(fd, OP_READ), Read(fd));
    }

    /**
     The unpacked code picks the handler. A CLOSE has none and changes nothing; a negative result of any other request
     ends the server; a code without a handler traps. Whatever was submitted before stays submitted.
     */
    method Dispatch(c: Cqe)
      modifies this
      ensures View() == Handled(old(View()), c)
      ensures old(pending) <= pending && |pending| <= |old(pending)| + 2
      ensures LowHalf(c.data) == OP_CLOSE ==> View() == old(View())
      ensures LowHalf(c.data) in {OP_ACCEPT, OP_READ, OP_WRITE} && c.res.Error? ==> Ended(old(View()), View())
      ensures LowHalf(c.data) !in {OP_ACCEPT, OP_READ, OP_WRITE, OP_CLOSE} ==> status.Trapped? && pending == old(pending)
    {
      var op, fd := LowHalf(c.data), HighHalf(c.data);
      if op == OP_ACCEPT {
        OnAccept(c.res);
      } else if op == OP_READ {
        OnRead(c.res, fd);
      } else if op == OP_WRITE {
        OnWrite(c.res, fd);
      } else if op != OP_CLOSE {
        status := Trapped;
      }
    }

    /** What the kernel did meanwhile: it took requests away and wrote to buffers. */
    method Meanwhile(buffers': map<Fd, Buffer>, pending': seq<Request>)
      modifies this`buffers, this`pending
      ensures View() == App(buffers', pending', old(status))
    {
      buffers, pending := buffers', pending';
    }
  }

  // ---------------------------------------------------------------- the kernel and the connections

  /** One READ of a connection and the WRITE that answers it. */
  datatype Exchange = Exchange(read: Buffer, written: Buffer, answered: bool)

  /** Where a descriptor is in its life; kept for the proof only. */
  datatype Phase = Free | Fresh | Reading | HasRead(res: Result) | Writing(size: nat) | HasWritten(res: Result) | Closing

  datatype Acceptor = Accepting | HasAccepted(res: Result)

  /**
   `conns` says which connection an open descriptor belongs to, `logs` what was read from and written to each
   connection so far.
   */
  datatype State = State(
    app: App, cq: seq<Cqe>, conns: map<Fd, Conn>, logs: map<Conn, seq<Exchange>>, next: Conn,
    phases: map<Fd, Phase>, acceptor: Acceptor)

  function PhaseOf(s: State, fd: Fd): Phase { if fd in s.phases then s.phases[fd] else Free }
  function BufferOf(s: State, fd: Fd): Buffer { if fd in s.app.buffers then s.app.buffers[fd] else [] }
  function LogOf(s: State, c: Conn): seq<Exchange> { if c in s.logs then s.logs[c] else [] }
  function ConnOf(s: State, fd: Fd): Conn { if fd in s.conns then s.conns[fd] else 0 }

  datatype Act =
    | KernelAccepts(i: nat, res: Result) | KernelReads(i: nat, bytes: Buffer) | KernelWrites(i: nat, n: nat)
    | KernelCloses(i: nat) | KernelFails(i: nat) | Handle

  function VerbAt(s: State, i: nat): Verb
    requires i < |s.app.pending|
  {
    s.app.pending[i].verb
  }

  predicate Enabled(s: State, act: Act) {
    s.app.status.Serving? &&
    match act
    // a new connection gets a descriptor that is not open
    case KernelAccepts(i, res) => i < |s.app.pending| && VerbAt(s, i).Accept? && res.Descriptor? && res.fd !in s.conns
    case KernelReads(i, bytes) => i < |s.app.pending| && VerbAt(s, i).Read? && |bytes| <= BUFFER_SIZE
    case KernelWrites(i, n) => i < |s.app.pending| && VerbAt(s, i).Write? && n <= VerbAt(s, i).size
    case KernelCloses(i) => i < |s.app.pending| && VerbAt(s, i).Close?
    case KernelFails(i) => i < |s.app.pending| && !VerbAt(s, i).Close?
    case Handle => s.cq != []
  }

  /** The kernel has executed request i. */
  function Execute(s: State, i: nat, res: Result): State
    requires i < |s.app.pending|
  {
    s.(app := s.app.(pending := RemoveAt(s.app.pending, i)), cq := s.cq + [Cqe(s.app.pending[i].data, res)])
  }

  function Overwrite(buf: Buffer, bytes: Buffer): Buffer {
    if |bytes| <= |buf| then bytes + buf[|bytes|..] else bytes
  }

  function SetPhase(s: State, fd: Fd, p: Phase): State {
    s.(phases := s.phases[fd := p])
  }

  /** Bytes come in: into the buffer the READ pointed at, and on the connection of its descriptor. */
  function Arrive(s: State, fd: Fd, bytes: Buffer): State {
    s.(app := s.app.(buffers := s.app.buffers[fd := Overwrite(BufferOf(s, fd), bytes)]),
       logs := s.logs[ConnOf(s, fd) := LogOf(s, ConnOf(s, fd)) + [Exchange(bytes, [], false)]])
  }

  /** Bytes go out: from the buffer the WRITE points at. */
  function Leave(s: State, fd: Fd, n: nat): State {
    s.(logs := s.logs[ConnOf(s, fd) := Answer(LogOf(s, ConnOf(s, fd)), Prefix(BufferOf(s, fd), n))])
  }

  function Prefix(buf: Buffer, n: nat): Buffer {
    if n <= |buf| then buf[..n] else buf
  }

  /** These bytes answer what was read last. */
  function Answer(log: seq<Exchange>, bytes: Buffer): seq<Exchange> {
    if log == [] then [Exchange([], bytes, true)]
    else log[|log| - 1 := Exchange(log[|log| - 1].read, bytes, true)]
  }

  function Kernel(s: State, act: Act): State
    requires Enabled(s, act) && !act.Handle?
  {
    match act
    case KernelAccepts(i, res) =>
      SetPhase(Execute(s, i, res).(conns := s.conns[res.fd := s.next], logs := s.logs[s.next := []], next := s.next + 1,
                                   acceptor := HasAccepted(res)), res.fd, Fresh)
    case KernelReads(i, bytes) =>
      Arrive(SetPhase(Execute(s, i, Bytes(|bytes|)), VerbAt(s, i).fd, HasRead(Bytes(|bytes|))), VerbAt(s, i).fd, bytes)
    case KernelWrites(i, n) =>
      Leave(SetPhase(Execute(s, i, Bytes(n)), VerbAt(s, i).fd, HasWritten(Bytes(n))), VerbAt(s, i).fd, n)
    case KernelCloses(i) =>
      SetPhase(Execute(s, i, Bytes(0)), VerbAt(s, i).fd, Free).(conns := s.conns - {VerbAt(s, i).fd})
    case KernelFails(i) =>
      var s1 := Execute(s, i, Error);
      match VerbAt(s, i)
      case Accept => s1.(acceptor := HasAccepted(Error))
      case Read(fd) => SetPhase(s1, fd, HasRead(Error))
      case Write(fd, _) => SetPhase(s1, fd, HasWritten(Error))
      case Close(_) => s1
  }

  function Follow(s: State, res: Result, op: Code, fd: Fd, buf: Buffer): State {
    if op == OP_ACCEPT && res.Descriptor? then SetPhase(s, res.fd, Reading).(acceptor := Accepting)
    else if op == OP_READ && res.Bytes? then SetPhase(s, fd, Writing(res.n))
    else if op == OP_WRITE && res.Bytes? then SetPhase(s, fd, if Ends(buf, res.n) then Closing else Reading)
    else s
  }

  /** The server handles the oldest CQE. The phases follow what it submitted. */
  function HandleStep(s: State): State
    requires s.cq != []
  {
    var c := s.cq[0];
    Follow(s.(app := Handled(s.app, c), cq := s.cq[1..]), c.res, LowHalf(c.data), HighHalf(c.data), BufferOf(s, HighHalf(c.data)))
  }

  function Stepped(s: State, act: Act): State
    requires Enabled(s, act)
  {
    if act.Handle? then HandleStep(s) else Kernel(s, act)
  }

  const START := State(App(map[], [ACCEPT_REQUEST], Serving), [], map[], map[], 0, map[], Accepting)
}
