/** The HTTP tunnel for one connection as a state machine.

    Bytes read from the local socket travel up: tcpProxy (local) -> tcpServer -> httpClient ->
    numbered HTTP requests -> tcpClient -> tcpProxy (destination).  Bytes read from the
    destination travel down in the responses.  Every goroutine is a program counter; a step
    is one channel operation, one flag access or one socket or HTTP call.  The network may
    deliver any request that was sent, at any time and any number of times, or never.

    An empty block stands for the nil that is sent through a queue, and request number 0
    for the nil in the queues of requests and responses. */
module Tunnel {

  type Byte = b: int | 0 <= b < 256
  type Bytes = seq<Byte>

  const NIL: Bytes := []
  const DATA_QUEUE_SIZE := 100
  const DATA_BLOCK_SIZE := 65535

  predicate Room<T>(q: seq<T>) { |q| < DATA_QUEUE_SIZE }

  // ----- tcpProxy: one end of a TCP connection -----

  datatype Reader = RCheck | RRead | RPush(block: Bytes, failed: bool) | REnd
  datatype Writer = WCheck | WPop | WWrite(block: Bytes) | WEnd(unsent: Bytes)

  /** `read`, `popped`, `pushed` and `written` are histories: what recvLoop has read from the
      socket, what popData has handed out, what pushData has accepted, what sendLoop has
      written to the socket. */
  datatype Proxy = Proxy(
    reader: Reader, recvQ: seq<Bytes>, sendQ: seq<Bytes>, writer: Writer,
    connAlive: bool, syncClosed: bool,
    read: Bytes, popped: Bytes, pushed: Bytes, written: Bytes)

  const NEW_PROXY := Proxy(RCheck, [], [], WCheck, true, false, [], [], [], [])

  predicate IsAlive(p: Proxy) { p.connAlive || p.recvQ != [] }

  datatype ProxyAct =
    | ReaderChecks | Reads(block: Bytes, failed: bool) | ReaderPushes
    | WriterChecks | WriterPops | WriterStops | Writes(count: nat, failed: bool)
    | Closes | ClosesQueue

  predicate ProxyCan(p: Proxy, a: ProxyAct) {
    match a
    case ReaderChecks => p.reader.RCheck?
    case Reads(b, _) => p.reader.RRead? && |b| <= DATA_BLOCK_SIZE
    case ReaderPushes => p.reader.RPush? && Room(p.recvQ)
    case WriterChecks => p.writer.WCheck?
    case WriterPops => p.writer.WPop? && p.sendQ != []
    case WriterStops => p.writer.WPop? && p.syncClosed
    case Writes(k, _) => p.writer.WWrite? && k <= |p.writer.block|
    case Closes => true
    case ClosesQueue => Room(p.recvQ)
  }

  function ProxyStep(p: Proxy, a: ProxyAct): Proxy
    requires ProxyCan(p, a)
  {
    match a
    case ReaderChecks => p.(reader := if IsAlive(p) then RRead else REnd)
    case Reads(b, failed) =>
      if b != NIL then p.(read := p.read + b, reader := RPush(b, failed))
      else if failed then p.(connAlive := false, reader := REnd)
      else p.(reader := RCheck)
    case ReaderPushes =>
      var q := p.(recvQ := p.recvQ + [p.reader.block]);
      if p.reader.failed then q.(connAlive := false, reader := REnd) else q.(reader := RCheck)
    case WriterChecks => p.(writer := if IsAlive(p) then WPop else WEnd([]))
    case WriterPops => p.(sendQ := p.sendQ[1..], writer := WWrite(p.sendQ[0]))
    case WriterStops => p.(writer := WEnd([]))
    case Writes(k, failed) =>
      var b := p.writer.block;
      if k == |b| && !failed then p.(written := p.written + b, writer := WCheck)
      else p.(written := p.written + b[..k], connAlive := false, writer := WEnd(b[k..]))
    case Closes => p.(connAlive := false, syncClosed := true)
    case ClosesQueue => p.(recvQ := p.recvQ + [NIL])
  }

  /** popData takes the head of the receive queue. */
  function Popped(p: Proxy): Proxy
    requires p.recvQ != []
  { p.(recvQ := p.recvQ[1..], popped := p.popped + p.recvQ[0]) }

  /** pushData; the filter passes every block on. */
  function Pushed(p: Proxy, b: Bytes): Proxy { p.(sendQ := p.sendQ + [b], pushed := p.pushed + b) }

  // ----- httpClient -----

  datatype ClientProc =
    | PInit | PCheck | PSelect | PStart(block: Bytes) | PSending | PPushing | PFinish | PEnd

  datatype ClientRecv = CRange | CReading(n: nat, pos: nat) | CPush(n: nat, pos: nat, block: Bytes) | CCount | COffer | CEnd

  /** `sent` holds the bodies of all requests sent so far: request n is sent[n - 1].  `got` is
      the number of requests answered with 200, `done` the number of responses read to
      their end.  `accepted`, `consumed` and `handed` are histories: what pushTCPRequest has
      accepted, what recvLoop has read from responses, what popTCPResponse has handed out. */
  datatype Client = Client(
    alive: bool, syncClosed: bool,
    sendQ: seq<Bytes>, nop: bool, respQ: seq<nat>, recvQ: seq<Bytes>,
    proc: ClientProc, recv: ClientRecv,
    sent: seq<Bytes>, got: nat, done: nat,
    accepted: Bytes, consumed: Bytes, handed: Bytes)

  const NEW_CLIENT := Client(true, false, [], false, [], [], PInit, CRange, [], 0, 0, [], [], [])

  datatype ClientAct =
    | ProcStarts | ProcChecks | TakesData | TakesNop | TakesSync | Sends | Fails | PushesResponse | Finishes
    | TakesResponse | PushesBlock | Counts | Offers
    | ClientCloses | ClientClosesQueue

  predicate ClientCan(c: Client, a: ClientAct) {
    match a
    case ProcStarts => c.proc.PInit? && !c.nop
    case ProcChecks => c.proc.PCheck?
    case TakesData => c.proc.PSelect? && c.sendQ != []
    case TakesNop => c.proc.PSelect? && c.nop
    case TakesSync => c.proc.PSelect? && c.syncClosed
    case Sends => c.proc.PStart?
    case Fails => c.proc.PSending?
    case PushesResponse => c.proc.PPushing? && Room(c.respQ)
    case Finishes => c.proc.PFinish? && Room(c.respQ)
    case TakesResponse => c.recv.CRange? && c.respQ != []
    case PushesBlock => c.recv.CPush? && Room(c.recvQ)
    case Counts => c.recv.CCount?
    case Offers => c.recv.COffer?
    case ClientCloses => true
    case ClientClosesQueue => Room(c.recvQ)
  }

  function ClientStep(c: Client, a: ClientAct): Client
    requires ClientCan(c, a)
  {
    match a
    case ProcStarts => c.(nop := true, proc := PCheck)
    case ProcChecks => c.(proc := if c.alive then PSelect else PFinish)
    case TakesData =>
      var b := c.sendQ[0];
      c.(sendQ := c.sendQ[1..], proc := if b == NIL then PCheck else PStart(b))
    case TakesNop => c.(nop := false, proc := PStart(NIL))
    case TakesSync => c.(proc := PCheck)
    case Sends => c.(sent := c.sent + [c.proc.block], proc := PSending)
    case Fails => c.(alive := false, proc := PCheck)
    case PushesResponse => c.(respQ := c.respQ + [c.got], proc := PCheck)
    case Finishes => c.(respQ := c.respQ + [0], proc := PEnd)
    case TakesResponse => c.(respQ := c.respQ[1..], recv := if c.respQ[0] == 0 then CEnd else CReading(c.respQ[0], 0))
    case PushesBlock => c.(recvQ := c.recvQ + [c.recv.block], recv := CReading(c.recv.n, c.recv.pos))
    case Counts => c.(recv := if c.respQ == [] then COffer else CRange)
    case Offers => c.(nop := true, recv := CRange)
    case ClientCloses => c.(alive := false, syncClosed := true)
    case ClientClosesQueue => c.(recvQ := c.recvQ + [NIL])
  }

  // ----- tcpServer: the loops between the local socket and the HTTP client -----

  datatype UpLoop = UCheck | UTry | UGuard | UWait | UPush(block: Bytes) | UEnd
  datatype DownLoop = DCheck | DTry | DGuard | DWait | DPush(block: Bytes) | DEnd

  datatype Link = Link(up: UpLoop, down: DownLoop)

  datatype LinkAct =
    | UpChecks | UpPops | UpMisses | UpGuards | UpPushes
    | DownChecks | DownPops | DownMisses | DownGuards | DownPushes

  // ----- tcpClient: the server end -----

  datatype ServerProc =
    | SCheck | STry | SWait
    | SBody(n: nat, rest: Bytes) | SPush(n: nat, block: Bytes, rest: Bytes) | SAlive(n: nat)
    | SQueue(n: nat) | SFinish | SEnd

  datatype Answer =
    | TTake | TLen(n: nat) | TTry(n: nat, wait: bool) | TGuard(n: nat) | TWait(n: nat)
    | TWrite(n: nat, block: Bytes) | TLast(n: nat) | TEnd

  /** `held` is the request whose handler holds the lock and is about to queue it.  Response n
      is resp[n - 1]; `finished` of them are complete.  `accepted` lists the numbers of
      the accepted requests. */
  datatype Server = Server(
    seqNumber: nat, held: nat, reqQueue: seq<nat>, syncClosed: bool, proc: ServerProc,
    resQueue: seq<nat>, answer: Answer, resp: seq<Bytes>, finished: nat, accepted: seq<nat>)

  const NEW_SERVER := Server(0, 0, [], false, SCheck, [], TTake, [], 0, [])

  datatype ServerAct =
    | Delivers(n: nat) | Queues
    | ServerChecks | PopsRequest | MissesRequest | PopsSync
    | ReadsBody(count: nat) | PushesBody | EndsBody | Starts | QueuesResponse | ServerFinishes
    | TakesRequest | MeasuresQueue | PopsData | MissesData | GuardsData | TimesOut | WritesData | EndsResponse
    | ServerCloses

  // ----- the whole -----

  datatype State = State(local: Proxy, link: Link, client: Client, server: Server, dest: Proxy)

  const INIT := State(NEW_PROXY, Link(UCheck, DCheck), NEW_CLIENT, NEW_SERVER, NEW_PROXY)

  datatype Action =
    | Local(p: ProxyAct)
    | Dest(d: ProxyAct)
    | Linking(l: LinkAct)
    | ClientActs(c: ClientAct)
    | Answered
    | ReadsResponse(count: nat)
    | EndsReading
    | Serving(v: ServerAct)

  predicate LinkCan(s: State, a: LinkAct) {
    match a
    case UpChecks => s.link.up.UCheck?
    case UpPops => (s.link.up.UTry? || s.link.up.UWait?) && s.local.recvQ != []
    case UpMisses => s.link.up.UTry? && s.local.recvQ == []
    case UpGuards => s.link.up.UGuard?
    case UpPushes => s.link.up.UPush? && Room(s.client.sendQ)
    case DownChecks => s.link.down.DCheck?
    case DownPops => (s.link.down.DTry? || s.link.down.DWait?) && s.client.recvQ != []
    case DownMisses => s.link.down.DTry? && s.client.recvQ == []
    case DownGuards => s.link.down.DGuard?
    case DownPushes => s.link.down.DPush? && Room(s.local.sendQ)
  }

  function LinkStep(s: State, a: LinkAct): State
    requires LinkCan(s, a)
  {
    var l, c := s.link, s.client;
    match a
    case UpChecks => s.(link := l.(up := if IsAlive(s.local) then UTry else UEnd))
    case UpPops =>
      var b := s.local.recvQ[0];
      s.(local := Popped(s.local),
         link := l.(up := if b != NIL then UPush(b) else if l.up.UTry? then UGuard else UCheck))
    case UpMisses => s.(link := l.(up := UGuard))
    case UpGuards => s.(link := l.(up := if IsAlive(s.local) then UWait else UCheck))
    case UpPushes =>
      s.(client := c.(sendQ := c.sendQ + [l.up.block], accepted := c.accepted + l.up.block),
         link := l.(up := UCheck))
    case DownChecks => s.(link := l.(down := if c.alive then DTry else DEnd))
    case DownPops =>
      var b := c.recvQ[0];
      s.(client := c.(recvQ := c.recvQ[1..], handed := c.handed + b),
         link := l.(down := if b != NIL then DPush(b) else if l.down.DTry? then DGuard else DCheck))
    case DownMisses => s.(link := l.(down := DGuard))
    case DownGuards => s.(link := l.(down := if c.alive then DWait else DCheck))
    case DownPushes => s.(local := Pushed(s.local, l.down.block), link := l.(down := DCheck))
  }

  /** The server has sent the status of the response that the client waits for. */
  predicate Answerable(s: State) { s.client.proc.PSending? && |s.client.sent| <= |s.server.resp| }

  /** recvLoop is inside the body of response `n`. */
  predicate Reading(s: State) {
    && s.client.recv.CReading? && 1 <= s.client.recv.n <= |s.server.resp|
    && s.client.recv.pos <= |s.server.resp[s.client.recv.n - 1]|
  }

  function Body(sent: seq<Bytes>, n: nat): Bytes { if 1 <= n <= |sent| then sent[n - 1] else NIL }

  predicate ServerCan(s: State, a: ServerAct) {
    var v := s.server;
    match a
    case Delivers(n) => 1 <= n <= |s.client.sent| && v.held == 0
    case Queues => v.held != 0 && Room(v.reqQueue)
    case ServerChecks => v.proc.SCheck?
    case PopsRequest => (v.proc.STry? || v.proc.SWait?) && v.reqQueue != []
    case MissesRequest => v.proc.STry? && v.reqQueue == []
    case PopsSync => v.proc.SWait? && v.syncClosed
    case ReadsBody(k) => v.proc.SBody? && 0 < k <= |v.proc.rest| && k <= DATA_BLOCK_SIZE
    case PushesBody => v.proc.SPush? && Room(s.dest.sendQ)
    case EndsBody => v.proc.SBody? && v.proc.rest == []
    case Starts => v.proc.SAlive?
    case QueuesResponse => v.proc.SQueue? && Room(v.resQueue)
    case ServerFinishes => v.proc.SFinish? && Room(v.resQueue)
    case TakesRequest => v.answer.TTake? && v.resQueue != []
    case MeasuresQueue => v.answer.TLen?
    case PopsData => (v.answer.TTry? || v.answer.TWait?) && s.dest.recvQ != []
    case MissesData => v.answer.TTry? && s.dest.recvQ == []
    case GuardsData => v.answer.TGuard?
    case TimesOut => v.answer.TWait?
    case WritesData => v.answer.TWrite? && 1 <= v.answer.n <= |v.resp|
    case EndsResponse => v.answer.TLast?
    case ServerCloses => true
  }

  function ServerStep(s: State, a: ServerAct): State
    requires ServerCan(s, a)
  {
    var v, d := s.server, s.dest;
    match a
    case Delivers(n) =>
      if n == v.seqNumber + 1 then s.(server := v.(seqNumber := n, held := n, accepted := v.accepted + [n]))
      else s
    case Queues => s.(server := v.(reqQueue := v.reqQueue + [v.held], held := 0))
    case ServerChecks => s.(server := v.(proc := if IsAlive(d) then STry else SFinish))
    case PopsRequest =>
      var n := v.reqQueue[0];
      s.(server := v.(reqQueue := v.reqQueue[1..], proc := SBody(n, Body(s.client.sent, n))))
    case MissesRequest => s.(server := v.(proc := SWait))
    case PopsSync => s.(server := v.(proc := SFinish))
    case ReadsBody(k) => s.(server := v.(proc := SPush(v.proc.n, v.proc.rest[..k], v.proc.rest[k..])))
    case PushesBody => s.(dest := Pushed(d, v.proc.block), server := v.(proc := SBody(v.proc.n, v.proc.rest)))
    case EndsBody => s.(server := v.(proc := SAlive(v.proc.n)))
    case Starts =>
      if IsAlive(d) then s.(server := v.(resp := v.resp + [[]], proc := SQueue(v.proc.n)))
      else s.(server := v.(proc := SCheck))
    case QueuesResponse => s.(server := v.(resQueue := v.resQueue + [v.proc.n], proc := SCheck))
    case ServerFinishes => s.(server := v.(resQueue := v.resQueue + [0], proc := SEnd))
    case TakesRequest =>
      var n := v.resQueue[0];
      s.(server := v.(resQueue := v.resQueue[1..], answer := if n == 0 then TEnd else TLen(n)))
    case MeasuresQueue => s.(server := v.(answer := TTry(v.answer.n, v.resQueue == [])))
    case PopsData =>
      var b, n := d.recvQ[0], v.answer.n;
      s.(dest := Popped(d),
         server := v.(answer :=
           if b != NIL then TWrite(n, b)
           else if v.answer.TTry? && v.answer.wait then TGuard(n)
           else TLast(n)))
    case MissesData =>
      s.(server := v.(answer := if v.answer.wait then TGuard(v.answer.n) else TLast(v.answer.n)))
    case GuardsData => s.(server := v.(answer := if IsAlive(d) then TWait(v.answer.n) else TLast(v.answer.n)))
    case TimesOut => s.(server := v.(answer := TLast(v.answer.n)))
    case WritesData =>
      var n := v.answer.n;
      s.(server := v.(resp := v.resp[n - 1 := v.resp[n - 1] + v.answer.block], answer := TTry(n, false)))
    case EndsResponse => s.(server := v.(finished := v.answer.n, answer := TTake))
    case ServerCloses => s.(server := v.(syncClosed := true))
  }

  predicate Can(s: State, a: Action) {
    match a
    case Local(p) => ProxyCan(s.local, p)
    case Dest(d) => ProxyCan(s.dest, d)
    case Linking(l) => LinkCan(s, l)
    case ClientActs(c) => ClientCan(s.client, c)
    case Answered => Answerable(s)
    case ReadsResponse(k) =>
      Reading(s) && 0 < k <= DATA_BLOCK_SIZE && s.client.recv.pos + k <= |s.server.resp[s.client.recv.n - 1]|
    case EndsReading =>
      && Reading(s) && s.client.recv.n <= s.server.finished
      && s.client.recv.pos == |s.server.resp[s.client.recv.n - 1]|
    case Serving(v) => ServerCan(s, v)
  }

  function Apply(s: State, a: Action): State
    requires Can(s, a)
  {
    var c := s.client;
    match a
    case Local(p) => s.(local := ProxyStep(s.local, p))
    case Dest(d) => s.(dest := ProxyStep(s.dest, d))
    case Linking(l) => LinkStep(s, l)
    case ClientActs(x) => s.(client := ClientStep(c, x))
    case Answered => s.(client := c.(got := |c.sent|, proc := PPushing))
    case ReadsResponse(k) =>
      var b := s.server.resp[c.recv.n - 1][c.recv.pos..c.recv.pos + k];
      s.(client := c.(consumed := c.consumed + b, recv := CPush(c.recv.n, c.recv.pos + k, b)))
    case EndsReading => s.(client := c.(done := c.done + 1, recv := CCount))
    case Serving(v) => ServerStep(s, v)
  }

  /** Every step of the run is possible where it is taken. */
  predicate IsRun(s: State, acts: seq<Action>)
    decreases |acts|
  {
    acts == [] || (Can(s, acts[0]) && IsRun(Apply(s, acts[0]), acts[1..]))
  }

  function After(s: State, acts: seq<Action>): State
    requires IsRun(s, acts)
    decreases |acts|
  {
    if acts == [] then s else After(Apply(s, acts[0]), acts[1..])
  }
}
