/** That the tunnel carries bytes: which request the server accepts, and, for any blocks in both
    directions, a run that delivers every one of them. */
module TunnelTransport {
  import opened Sequences
  import opened Tunnel
  import opened TunnelProofs

  // ----- acceptance -----

  /** In every reachable state in which no request is held and one is sent that is not accepted:
      delivering that one accepts it, and it is then the only one that waits; delivering any other
      changes nothing. */
  lemma DeliveryAccepts(acts: seq<Action>, n: nat)
    requires IsRun(INIT, acts)
    requires var s := After(INIT, acts); s.server.held == 0 && 1 <= n <= |s.client.sent|
    ensures var s := After(INIT, acts); var a := Serving(Delivers(n));
      && Can(s, a)
      && (n == s.server.seqNumber + 1 ==>
            var v := Apply(s, a).server;
            v.accepted == s.server.accepted + [n] && Waiting(v) == [n] && Pipe(v) == [n] && v.held == n)
      && (n != s.server.seqNumber + 1 ==> Apply(s, a) == s)
  {
    InitInv();
    RunKeeps(INIT, acts);
    var s := After(INIT, acts);
    PipeCases(s.server);
    if n == s.server.seqNumber + 1 {
      AllAnswered(s);
    }
  }

  /** When one more request is sent than accepted, the accepted ones are all answered. */
  lemma AllAnswered(s: State)
    requires Counted(s) && s.server.seqNumber < |s.client.sent|
    ensures |s.server.resp| == s.server.seqNumber && Pipe(s.server) == [] && Waiting(s.server) == []
  {
    PipeCases(s.server);
  }

  // ----- runs -----

  /** The blocks that the local socket delivers during a run. */
  function LocalReads(acts: seq<Action>): seq<Bytes> {
    if acts == [] then []
    else (if acts[0].Local? && acts[0].p.Reads? then [acts[0].p.block] else []) + LocalReads(acts[1..])
  }

  /** The blocks that the destination delivers. */
  function DestReads(acts: seq<Action>): seq<Bytes> {
    if acts == [] then []
    else (if acts[0].Dest? && acts[0].d.Reads? then [acts[0].d.block] else []) + DestReads(acts[1..])
  }

  /** The run leads from `s` to `r`, and the sockets deliver these blocks on the way. */
  predicate Leads(s: State, acts: seq<Action>, r: State, up: seq<Bytes>, down: seq<Bytes>) {
    IsRun(s, acts) && After(s, acts) == r && LocalReads(acts) == up && DestReads(acts) == down
  }

  lemma {:induction false} RunJoins(s: State, a: seq<Action>, b: seq<Action>)
    requires IsRun(s, a) && IsRun(After(s, a), b)
    ensures IsRun(s, a + b) && After(s, a + b) == After(After(s, a), b)
    decreases |a|
  {
    if a == [] {
      assert a + b == b;
    } else {
      RunJoins(Apply(s, a[0]), a[1..], b);
      assert (a + b)[0] == a[0] && (a + b)[1..] == a[1..] + b;
    }
  }

  lemma RestJoins(a: seq<Action>, b: seq<Action>)
    requires a != []
    ensures (a + b)[0] == a[0] && (a + b)[1..] == a[1..] + b
  {
  }

  lemma {:induction false} LocalReadsJoin(a: seq<Action>, b: seq<Action>)
    ensures LocalReads(a + b) == LocalReads(a) + LocalReads(b)
    decreases |a|
  {
    if a == [] {
      assert a + b == b;
    } else {
      LocalReadsJoin(a[1..], b);
      RestJoins(a, b);
      Assoc(if a[0].Local? && a[0].p.Reads? then [a[0].p.block] else [], LocalReads(a[1..]), LocalReads(b));
    }
  }

  lemma {:induction false} DestReadsJoin(a: seq<Action>, b: seq<Action>)
    ensures DestReads(a + b) == DestReads(a) + DestReads(b)
    decreases |a|
  {
    if a == [] {
      assert a + b == b;
    } else {
      DestReadsJoin(a[1..], b);
      RestJoins(a, b);
      Assoc(if a[0].Dest? && a[0].d.Reads? then [a[0].d.block] else [], DestReads(a[1..]), DestReads(b));
    }
  }

  lemma Then(s: State, a: seq<Action>, m: State, b: seq<Action>, r: State,
             up: seq<Bytes>, down: seq<Bytes>, up2: seq<Bytes>, down2: seq<Bytes>)
    requires Leads(s, a, m, up, down) && Leads(m, b, r, up2, down2)
    ensures Leads(s, a + b, r, up + up2, down + down2) == true
  {
    RunJoins(s, a, b);
    LocalReadsJoin(a, b);
    DestReadsJoin(a, b);
  }

  predicate IsReading(x: Action) { (x.Local? && x.p.Reads?) || (x.Dest? && x.d.Reads?) }

  lemma OneReads(x: Action)
    ensures LocalReads([x]) == if x.Local? && x.p.Reads? then [x.p.block] else []
    ensures DestReads([x]) == if x.Dest? && x.d.Reads? then [x.d.block] else []
  {
    assert [x][1..] == [];
  }

  /** One step on. */
  lemma Go(s: State, a: seq<Action>, m: State, x: Action, n: State, up: seq<Bytes>, down: seq<Bytes>)
    returns (b: seq<Action>)
    requires Leads(s, a, m, up, down) == true && Can(m, x) && n == Apply(m, x) && !IsReading(x)
    ensures Leads(s, b, n, up, down) == true
  {
    var one := [x];
    assert one[1..] == [] && IsRun(n, []) && IsRun(m, one) && After(m, one) == n;
    OneReads(x);
    Then(s, a, m, one, n, up, down, [], []);
    assert up + [] == up && down + [] == down;
    b := a + one;
  }

  /** The socket of one of the proxies delivers a block. */
  lemma GoReading(s: State, a: seq<Action>, m: State, x: Action, n: State, up: seq<Bytes>, down: seq<Bytes>, block: Bytes)
    returns (b: seq<Action>)
    requires Leads(s, a, m, up, down) == true && Can(m, x) && n == Apply(m, x)
    requires x == Local(Reads(block, false)) || x == Dest(Reads(block, false))
    ensures Leads(s, b, n, if x.Local? then up + [block] else up, if x.Local? then down else down + [block]) == true
  {
    var one := [x];
    assert one[1..] == [] && IsRun(n, []) && IsRun(m, one) && After(m, one) == n;
    OneReads(x);
    Then(s, a, m, one, n, up, down, LocalReads(one), DestReads(one));
    assert up + [] == up && down + [] == down;
    b := a + one;
  }

  // ----- a quiet tunnel -----

  /** Nothing is in flight: `up` has gone up and `down` has come down, in the requests `sent` and the responses
      `resp`. */
  function Quiet(up: Bytes, down: Bytes, sent: seq<Bytes>, resp: seq<Bytes>): State {
    State(
      Proxy(RCheck, [], [], WCheck, true, false, up, up, down, down),
      Link(UCheck, DCheck),
      Client(true, false, [], true, [], [], PCheck, CRange, sent, |sent|, |sent|, up, down, down),
      Server(|sent|, 0, [], false, SCheck, [], TTake, resp, |sent|, Nums(0, |sent|)),
      Proxy(RCheck, [], [], WCheck, true, false, down, down, up, up))
  }

  lemma Starts() returns (acts: seq<Action>)
    ensures Leads(INIT, acts, Quiet([], [], [], []), [], []) == true
  {
    acts := Go(INIT, [], INIT, ClientActs(ProcStarts), Quiet([], [], [], []), [], []);
  }

  predicate IsBlock(b: Bytes) { 0 < |b| <= DATA_BLOCK_SIZE }

  // ----- the parts of one exchange -----
  //
  // Each starts from the state `m` that the run `acts` has reached, and gives the longer run.

  /** A proxy whose loops rest. */
  predicate Resting(p: Proxy) { p == Proxy(RCheck, [], [], WCheck, true, false, p.read, p.popped, p.pushed, p.written) }

  function HasRead(p: Proxy, b: Bytes): Proxy { p.(read := p.read + b, recvQ := [b]) }

  lemma LocalReadsBlock(s: State, acts: seq<Action>, m: State, up: seq<Bytes>, down: seq<Bytes>, b: Bytes)
    returns (more: seq<Action>)
    requires Leads(s, acts, m, up, down) && Resting(m.local) && IsBlock(b)
    ensures Leads(s, more, m.(local := HasRead(m.local, b)), up + [b], down) == true
  {
    var m1 := m.(local := m.local.(reader := RRead));
    var m2 := m.(local := m.local.(read := m.local.read + b, reader := RPush(b, false)));
    more := Go(s, acts, m, Local(ReaderChecks), m1, up, down);
    more := GoReading(s, more, m1, Local(Reads(b, false)), m2, up, down, b);
    more := Go(s, more, m2, Local(ReaderPushes), m.(local := HasRead(m.local, b)), up + [b], down);
  }

  lemma DestReadsBlock(s: State, acts: seq<Action>, m: State, up: seq<Bytes>, down: seq<Bytes>, b: Bytes)
    returns (more: seq<Action>)
    requires Leads(s, acts, m, up, down) && Resting(m.dest) && IsBlock(b)
    ensures Leads(s, more, m.(dest := HasRead(m.dest, b)), up, down + [b]) == true
  {
    var m1 := m.(dest := m.dest.(reader := RRead));
    var m2 := m.(dest := m.dest.(read := m.dest.read + b, reader := RPush(b, false)));
    more := Go(s, acts, m, Dest(ReaderChecks), m1, up, down);
    more := GoReading(s, more, m1, Dest(Reads(b, false)), m2, up, down, b);
    more := Go(s, more, m2, Dest(ReaderPushes), m.(dest := HasRead(m.dest, b)), up, down + [b]);
  }

  function HasWritten(p: Proxy): Proxy
    requires p.sendQ != []
  { p.(sendQ := [], written := p.written + p.sendQ[0]) }

  /** The writer of a proxy has one block to write. */
  predicate ToWrite(p: Proxy, b: Bytes) { p.connAlive && p.writer.WCheck? && p.sendQ == [b] }

  lemma LocalWrites(s: State, acts: seq<Action>, m: State, up: seq<Bytes>, down: seq<Bytes>, b: Bytes)
    returns (more: seq<Action>)
    requires Leads(s, acts, m, up, down) && ToWrite(m.local, b)
    ensures Leads(s, more, m.(local := HasWritten(m.local)), up, down) == true
  {
    var m1 := m.(local := m.local.(writer := WPop));
    var m2 := m.(local := m.local.(sendQ := [], writer := WWrite(b)));
    more := Go(s, acts, m, Local(WriterChecks), m1, up, down);
    more := Go(s, more, m1, Local(WriterPops), m2, up, down);
    more := Go(s, more, m2, Local(Writes(|b|, false)), m.(local := HasWritten(m.local)), up, down);
  }

  lemma DestWrites(s: State, acts: seq<Action>, m: State, up: seq<Bytes>, down: seq<Bytes>, b: Bytes)
    returns (more: seq<Action>)
    requires Leads(s, acts, m, up, down) && ToWrite(m.dest, b)
    ensures Leads(s, more, m.(dest := HasWritten(m.dest)), up, down) == true
  {
    var m1 := m.(dest := m.dest.(writer := WPop));
    var m2 := m.(dest := m.dest.(sendQ := [], writer := WWrite(b)));
    more := Go(s, acts, m, Dest(WriterChecks), m1, up, down);
    more := Go(s, more, m1, Dest(WriterPops), m2, up, down);
    more := Go(s, more, m2, Dest(Writes(|b|, false)), m.(dest := HasWritten(m.dest)), up, down);
  }

  /** The block that the local proxy has read is in the client's queue. */
  function Uplinked(m: State, b: Bytes): State {
    m.(local := m.local.(recvQ := [], popped := m.local.popped + b),
       client := m.client.(sendQ := [b], accepted := m.client.accepted + b))
  }

  lemma LinkUp(s: State, acts: seq<Action>, m: State, up: seq<Bytes>, down: seq<Bytes>, b: Bytes)
    returns (more: seq<Action>)
    requires Leads(s, acts, m, up, down) && b != NIL && m.local.recvQ == [b] && m.client.sendQ == [] && m.link.up.UCheck?
    ensures Leads(s, more, Uplinked(m, b), up, down) == true
  {
    var m1 := m.(link := m.link.(up := UTry));
    var m2 := m.(local := m.local.(recvQ := [], popped := m.local.popped + b), link := m.link.(up := UPush(b)));
    more := Go(s, acts, m, Linking(UpChecks), m1, up, down);
    more := Go(s, more, m1, Linking(UpPops), m2, up, down);
    more := Go(s, more, m2, Linking(UpPushes), Uplinked(m, b), up, down);
  }

  /** The block that the client has received is in the queue of the local proxy. */
  function Downlinked(m: State, b: Bytes): State {
    m.(client := m.client.(recvQ := [], handed := m.client.handed + b),
       local := m.local.(sendQ := [b], pushed := m.local.pushed + b))
  }

  lemma LinkDown(s: State, acts: seq<Action>, m: State, up: seq<Bytes>, down: seq<Bytes>, b: Bytes)
    returns (more: seq<Action>)
    requires Leads(s, acts, m, up, down) && b != NIL && m.client.recvQ == [b] && m.client.alive
    requires m.local.sendQ == [] && m.link.down.DCheck?
    ensures Leads(s, more, Downlinked(m, b), up, down) == true
  {
    var m1 := m.(link := m.link.(down := DTry));
    var m2 := m.(client := m.client.(recvQ := [], handed := m.client.handed + b), link := m.link.(down := DPush(b)));
    more := Go(s, acts, m, Linking(DownChecks), m1, up, down);
    more := Go(s, more, m1, Linking(DownPops), m2, up, down);
    more := Go(s, more, m2, Linking(DownPushes), Downlinked(m, b), up, down);
  }

  // ----- the client -----

  /** A request with this body is sent, and the client waits for the answer. */
  function Sent(c: Client, b: Bytes): Client { c.(sent := c.sent + [b], proc := PSending) }

  lemma SendsData(s: State, acts: seq<Action>, m: State, up: seq<Bytes>, down: seq<Bytes>, b: Bytes)
    returns (more: seq<Action>)
    requires Leads(s, acts, m, up, down) && m.client.alive && m.client.proc.PCheck? && m.client.sendQ == [b] && b != NIL
    ensures Leads(s, more, m.(client := Sent(m.client.(sendQ := []), b)), up, down) == true
  {
    var m1 := m.(client := m.client.(proc := PSelect));
    var m2 := m.(client := m.client.(sendQ := [], proc := PStart(b)));
    more := Go(s, acts, m, ClientActs(ProcChecks), m1, up, down);
    more := Go(s, more, m1, ClientActs(TakesData), m2, up, down);
    more := Go(s, more, m2, ClientActs(Sends), m.(client := Sent(m.client.(sendQ := []), b)), up, down);
  }

  lemma SendsNop(s: State, acts: seq<Action>, m: State, up: seq<Bytes>, down: seq<Bytes>)
    returns (more: seq<Action>)
    requires Leads(s, acts, m, up, down) && m.client.alive && m.client.proc.PCheck? && m.client.nop
    ensures Leads(s, more, m.(client := Sent(m.client.(nop := false), NIL)), up, down) == true
  {
    var m1 := m.(client := m.client.(proc := PSelect));
    var m2 := m.(client := m.client.(nop := false, proc := PStart(NIL)));
    more := Go(s, acts, m, ClientActs(ProcChecks), m1, up, down);
    more := Go(s, more, m1, ClientActs(TakesNop), m2, up, down);
    more := Go(s, more, m2, ClientActs(Sends), m.(client := Sent(m.client.(nop := false), NIL)), up, down);
  }

  /** The client has the status of the answer, and recvLoop is inside its body. */
  function StartsReading(c: Client): Client { c.(got := |c.sent|, proc := PCheck, recv := CReading(|c.sent|, 0)) }

  lemma GetsAnswer(s: State, acts: seq<Action>, m: State, up: seq<Bytes>, down: seq<Bytes>)
    returns (more: seq<Action>)
    requires Leads(s, acts, m, up, down) && Answerable(m) && m.client.respQ == [] && m.client.recv.CRange?
    requires m.client.sent != []
    ensures Leads(s, more, m.(client := StartsReading(m.client)), up, down) == true
  {
    var n := |m.client.sent|;
    var m1 := m.(client := m.client.(got := n, proc := PPushing));
    var m2 := m.(client := m.client.(got := n, proc := PCheck, respQ := [n]));
    more := Go(s, acts, m, Answered, m1, up, down);
    more := Go(s, more, m1, ClientActs(PushesResponse), m2, up, down);
    more := Go(s, more, m2, ClientActs(TakesResponse), m.(client := StartsReading(m.client)), up, down);
  }

  /** The body of the response is read, and the poll token is offered. */
  function Finished(c: Client): Client { c.(done := c.done + 1, recv := CRange, nop := true) }

  lemma EndsAnswer(s: State, acts: seq<Action>, m: State, up: seq<Bytes>, down: seq<Bytes>, n: nat)
    returns (more: seq<Action>)
    requires Leads(s, acts, m, up, down) && m.client.respQ == [] && 1 <= n <= |m.server.resp| && n <= m.server.finished
    requires m.client.recv == CReading(n, |m.server.resp[n - 1]|)
    ensures Leads(s, more, m.(client := Finished(m.client)), up, down) == true
  {
    var m1 := m.(client := m.client.(done := m.client.done + 1, recv := CCount));
    var m2 := m.(client := m.client.(done := m.client.done + 1, recv := COffer));
    more := Go(s, acts, m, EndsReading, m1, up, down);
    more := Go(s, more, m1, ClientActs(Counts), m2, up, down);
    more := Go(s, more, m2, ClientActs(Offers), m.(client := Finished(m.client)), up, down);
  }

  function Received(c: Client, n: nat, b: Bytes): Client {
    c.(consumed := c.consumed + b, recvQ := [b], recv := CReading(n, |b|))
  }

  lemma ReadsAnswer(s: State, acts: seq<Action>, m: State, up: seq<Bytes>, down: seq<Bytes>, n: nat, b: Bytes)
    returns (more: seq<Action>)
    requires Leads(s, acts, m, up, down) && m.client.recvQ == [] && 1 <= n <= |m.server.resp|
    requires m.client.recv == CReading(n, 0) && m.server.resp[n - 1] == b && IsBlock(b)
    ensures Leads(s, more, m.(client := Received(m.client, n, b)), up, down) == true
  {
    assert b[0..0 + |b|] == b;
    var m1 := m.(client := m.client.(consumed := m.client.consumed + b, recv := CPush(n, |b|, b)));
    more := Go(s, acts, m, ReadsResponse(|b|), m1, up, down);
    more := Go(s, more, m1, ClientActs(PushesBlock), m.(client := Received(m.client, n, b)), up, down);
  }

  // ----- the server -----

  /** Processing rests, and the next request is the one after `n`. */
  predicate Listening(v: Server, n: nat) { v.seqNumber == n && v.held == 0 && v.reqQueue == [] && v.proc.SCheck? }

  /** The request is accepted and its body is about to be read. */
  function Accepted(v: Server, b: Bytes): Server {
    var n := v.seqNumber + 1;
    v.(seqNumber := n, accepted := v.accepted + [n], proc := SBody(n, b))
  }

  lemma Accepts(s: State, acts: seq<Action>, m: State, up: seq<Bytes>, down: seq<Bytes>, n: nat, b: Bytes)
    returns (more: seq<Action>)
    requires Leads(s, acts, m, up, down) && Listening(m.server, n) && |m.client.sent| == n + 1 && m.client.sent[n] == b
    requires m.dest.connAlive
    ensures Leads(s, more, m.(server := Accepted(m.server, b)), up, down) == true
  {
    var v := m.server.(seqNumber := n + 1, accepted := m.server.accepted + [n + 1]);
    var m1 := m.(server := v.(held := n + 1));
    var m2 := m.(server := v.(reqQueue := [n + 1]));
    var m3 := m.(server := v.(reqQueue := [n + 1], proc := STry));
    more := Go(s, acts, m, Serving(Delivers(n + 1)), m1, up, down);
    more := Go(s, more, m1, Serving(Queues), m2, up, down);
    more := Go(s, more, m2, Serving(ServerChecks), m3, up, down);
    more := Go(s, more, m3, Serving(PopsRequest), m.(server := Accepted(m.server, b)), up, down);
  }

  /** The body is in the queue of the destination proxy. */
  function BodyQueued(m: State, n: nat, b: Bytes): State {
    m.(dest := m.dest.(sendQ := [b], pushed := m.dest.pushed + b), server := m.server.(proc := SBody(n, [])))
  }

  lemma Serves(s: State, acts: seq<Action>, m: State, up: seq<Bytes>, down: seq<Bytes>, n: nat, b: Bytes)
    returns (more: seq<Action>)
    requires Leads(s, acts, m, up, down) && m.server.proc == SBody(n, b) && IsBlock(b) && m.dest.sendQ == []
    ensures Leads(s, more, BodyQueued(m, n, b), up, down) == true
  {
    assert b[..|b|] == b && b[|b|..] == [];
    var m1 := m.(server := m.server.(proc := SPush(n, b, [])));
    more := Go(s, acts, m, Serving(ReadsBody(|b|)), m1, up, down);
    more := Go(s, more, m1, Serving(PushesBody), BodyQueued(m, n, b), up, down);
  }

  /** A response is started and queued. */
  function Responding(v: Server, n: nat): Server { v.(resp := v.resp + [[]], resQueue := [n], proc := SCheck) }

  lemma Responds(s: State, acts: seq<Action>, m: State, up: seq<Bytes>, down: seq<Bytes>, n: nat)
    returns (more: seq<Action>)
    requires Leads(s, acts, m, up, down) && m.server.proc == SBody(n, []) && m.server.resQueue == [] && m.dest.connAlive
    ensures Leads(s, more, m.(server := Responding(m.server, n)), up, down) == true
  {
    var m1 := m.(server := m.server.(proc := SAlive(n)));
    var m2 := m.(server := m.server.(resp := m.server.resp + [[]], proc := SQueue(n)));
    more := Go(s, acts, m, Serving(EndsBody), m1, up, down);
    more := Go(s, more, m1, Serving(Tunnel.Starts), m2, up, down);
    more := Go(s, more, m2, Serving(QueuesResponse), m.(server := Responding(m.server, n)), up, down);
  }

  predicate Pending(v: Server, n: nat) { v.resQueue == [n] && v.answer.TTake? && n > 0 }

  function Ended(v: Server, n: nat): Server { v.(resQueue := [], finished := n, answer := TTake) }

  /** The server end is about to look for data. */
  function Looking(v: Server, n: nat): Server { v.(resQueue := [], answer := TTry(n, true)) }

  lemma Looks(s: State, acts: seq<Action>, m: State, up: seq<Bytes>, down: seq<Bytes>, n: nat)
    returns (more: seq<Action>)
    requires Leads(s, acts, m, up, down) && Pending(m.server, n)
    ensures Leads(s, more, m.(server := Looking(m.server, n)), up, down) == true
  {
    var m1 := m.(server := m.server.(resQueue := [], answer := TLen(n)));
    more := Go(s, acts, m, Serving(TakesRequest), m1, up, down);
    more := Go(s, more, m1, Serving(MeasuresQueue), m.(server := Looking(m.server, n)), up, down);
  }

  /** Without data the long poll times out. */
  lemma PollTimesOut(s: State, acts: seq<Action>, m: State, up: seq<Bytes>, down: seq<Bytes>, n: nat)
    returns (more: seq<Action>)
    requires Leads(s, acts, m, up, down) && m.server.answer == TTry(n, true) && m.dest.recvQ == [] && m.dest.connAlive
    ensures Leads(s, more, m.(server := m.server.(finished := n, answer := TTake)), up, down) == true
  {
    var v := m.server;
    var m1 := m.(server := v.(answer := TGuard(n)));
    var m2 := m.(server := v.(answer := TWait(n)));
    var m3 := m.(server := v.(answer := TLast(n)));
    more := Go(s, acts, m, Serving(MissesData), m1, up, down);
    more := Go(s, more, m1, Serving(GuardsData), m2, up, down);
    more := Go(s, more, m2, Serving(TimesOut), m3, up, down);
    more := Go(s, more, m3, Serving(EndsResponse), m.(server := v.(finished := n, answer := TTake)), up, down);
  }

  /** The block that the destination proxy has read is in the response. */
  function Filled(m: State, n: nat, b: Bytes): State
    requires 1 <= n <= |m.server.resp|
  {
    m.(dest := m.dest.(recvQ := [], popped := m.dest.popped + b),
       server := m.server.(finished := n, answer := TTake, resp := m.server.resp[n - 1 := b]))
  }

  /** The same before the response is ended. */
  function Written(m: State, n: nat, b: Bytes): State
    requires 1 <= n <= |m.server.resp|
  {
    m.(dest := m.dest.(recvQ := [], popped := m.dest.popped + b),
       server := m.server.(answer := TTry(n, false), resp := m.server.resp[n - 1 := b]))
  }

  lemma FillsFirst(s: State, acts: seq<Action>, m: State, up: seq<Bytes>, down: seq<Bytes>, n: nat, b: Bytes)
    returns (more: seq<Action>)
    requires Leads(s, acts, m, up, down) && m.server.answer == TTry(n, true) && 1 <= n <= |m.server.resp|
    requires m.server.resp[n - 1] == [] && m.dest.recvQ == [b] && b != NIL
    ensures Leads(s, more, Written(m, n, b), up, down) == true
  {
    assert [] + b == b;
    var d := m.dest.(recvQ := [], popped := m.dest.popped + b);
    var m1 := m.(dest := d, server := m.server.(answer := TWrite(n, b)));
    more := Go(s, acts, m, Serving(PopsData), m1, up, down);
    more := Go(s, more, m1, Serving(WritesData), Written(m, n, b), up, down);
  }

  lemma Fills(s: State, acts: seq<Action>, m: State, up: seq<Bytes>, down: seq<Bytes>, n: nat, b: Bytes)
    returns (more: seq<Action>)
    requires Leads(s, acts, m, up, down) && m.server.answer == TTry(n, true) && 1 <= n <= |m.server.resp|
    requires m.server.resp[n - 1] == [] && m.dest.recvQ == [b] && b != NIL
    ensures Leads(s, more, Filled(m, n, b), up, down) == true
  {
    more := FillsFirst(s, acts, m, up, down, n, b);
    var m2 := Written(m, n, b);
    var m3 := m2.(server := m2.server.(answer := TLast(n)));
    more := Go(s, more, m2, Serving(MissesData), m3, up, down);
    more := Go(s, more, m3, Serving(EndsResponse), Filled(m, n, b), up, down);
  }

  // ----- whole exchanges -----

  lemma NextNumber(n: nat)
    ensures Nums(0, n) + [n + 1] == Nums(0, n + 1)
  {
    NumsAdd(0, n);
  }

  /** From a quiet tunnel: a block that the local socket delivers is written to the destination, and the
      tunnel is quiet again. */
  lemma CarriesUp(up: Bytes, down: Bytes, sent: seq<Bytes>, resp: seq<Bytes>, b: Bytes) returns (acts: seq<Action>)
    requires |sent| == |resp| && IsBlock(b)
    ensures Leads(Quiet(up, down, sent, resp), acts, Quiet(up + b, down, sent + [b], resp + [[]]), [b], []) == true
  {
    var s, n := Quiet(up, down, sent, resp), |sent| + 1;
    NextNumber(|sent|);
    assert [] + [b] == [b];
    acts := LocalReadsBlock(s, [], s, [], [], b);
    var m1 := s.(local := HasRead(s.local, b));
    acts := LinkUp(s, acts, m1, [b], [], b);
    var m2 := Uplinked(m1, b);
    acts := SendsData(s, acts, m2, [b], [], b);
    var m3 := m2.(client := Sent(m2.client.(sendQ := []), b));
    acts := Accepts(s, acts, m3, [b], [], |sent|, b);
    var m4 := m3.(server := Accepted(m3.server, b));
    acts := Serves(s, acts, m4, [b], [], n, b);
    var m5 := BodyQueued(m4, n, b);
    acts := DestWrites(s, acts, m5, [b], [], b);
    var m6 := m5.(dest := HasWritten(m5.dest));
    acts := Responds(s, acts, m6, [b], [], n);
    var m7 := m6.(server := Responding(m6.server, n));
    acts := Looks(s, acts, m7, [b], [], n);
    var m8 := m7.(server := Looking(m7.server, n));
    acts := PollTimesOut(s, acts, m8, [b], [], n);
    var m9 := m8.(server := m8.server.(finished := n, answer := TTake));
    acts := GetsAnswer(s, acts, m9, [b], []);
    var m10 := m9.(client := StartsReading(m9.client));
    acts := EndsAnswer(s, acts, m10, [b], [], n);
  }

  /** The same from the destination to the local socket: the client polls, and the block comes with the
      response. */
  lemma CarriesDown(up: Bytes, down: Bytes, sent: seq<Bytes>, resp: seq<Bytes>, b: Bytes) returns (acts: seq<Action>)
    requires |sent| == |resp| && IsBlock(b)
    ensures Leads(Quiet(up, down, sent, resp), acts, Quiet(up, down + b, sent + [NIL], resp + [b]), [], [b]) == true
  {
    var s, n := Quiet(up, down, sent, resp), |sent| + 1;
    NextNumber(|sent|);
    assert [] + [b] == [b];
    acts := SendsNop(s, [], s, [], []);
    var m1 := s.(client := Sent(s.client.(nop := false), NIL));
    acts := Accepts(s, acts, m1, [], [], |sent|, NIL);
    var m2 := m1.(server := Accepted(m1.server, NIL));
    acts := Responds(s, acts, m2, [], [], n);
    var m3 := m2.(server := Responding(m2.server, n));
    acts := DestReadsBlock(s, acts, m3, [], [], b);
    var m4 := m3.(dest := HasRead(m3.dest, b));
    acts := Looks(s, acts, m4, [], [b], n);
    var m5 := m4.(server := Looking(m4.server, n));
    acts := Fills(s, acts, m5, [], [b], n, b);
    var m6 := Filled(m5, n, b);
    assert m6.server.resp == resp + [b];
    acts := GetsAnswer(s, acts, m6, [], [b]);
    var m7 := m6.(client := StartsReading(m6.client));
    acts := ReadsAnswer(s, acts, m7, [], [b], n, b);
    var m8 := m7.(client := Received(m7.client, n, b));
    acts := EndsAnswer(s, acts, m8, [], [b], n);
    var m9 := m8.(client := Finished(m8.client));
    acts := LinkDown(s, acts, m9, [], [b], b);
    var m10 := Downlinked(m9, b);
    acts := LocalWrites(s, acts, m10, [], [b], b);
  }

  // ----- transport -----

  /** A block that one of the two sockets delivers. */
  datatype Message = Up(block: Bytes) | Down(block: Bytes)

  function Ups(ms: seq<Message>): seq<Bytes> {
    if ms == [] then [] else (if ms[0].Up? then [ms[0].block] else []) + Ups(ms[1..])
  }

  function Downs(ms: seq<Message>): seq<Bytes> {
    if ms == [] then [] else (if ms[0].Down? then [ms[0].block] else []) + Downs(ms[1..])
  }

  /** A quiet tunnel behind a run from `s`. */
  predicate Delivered(s: State, acts: seq<Action>, up: Bytes, down: Bytes, ups: seq<Bytes>, downs: seq<Bytes>,
                      sent: seq<Bytes>, resp: seq<Bytes>) {
    |sent| == |resp| && Leads(s, acts, Quiet(up, down, sent, resp), ups, downs)
  }

  lemma CarriesOne(up: Bytes, down: Bytes, sent: seq<Bytes>, resp: seq<Bytes>, m: Message)
    returns (acts: seq<Action>, sent2: seq<Bytes>, resp2: seq<Bytes>)
    requires |sent| == |resp| && IsBlock(m.block)
    ensures Delivered(Quiet(up, down, sent, resp), acts, if m.Up? then up + m.block else up,
                      if m.Up? then down else down + m.block, if m.Up? then [m.block] else [],
                      if m.Up? then [] else [m.block], sent2, resp2) == true
  {
    if m.Up? {
      acts := CarriesUp(up, down, sent, resp, m.block);
      sent2, resp2 := sent + [m.block], resp + [[]];
    } else {
      acts := CarriesDown(up, down, sent, resp, m.block);
      sent2, resp2 := sent + [NIL], resp + [m.block];
    }
  }

  lemma {:induction false} CarriesAll(up: Bytes, down: Bytes, sent: seq<Bytes>, resp: seq<Bytes>, ms: seq<Message>)
    returns (acts: seq<Action>, sent2: seq<Bytes>, resp2: seq<Bytes>)
    requires |sent| == |resp| && forall i | 0 <= i < |ms| :: IsBlock(ms[i].block)
    ensures Delivered(Quiet(up, down, sent, resp), acts, up + Cat(Ups(ms)), down + Cat(Downs(ms)), Ups(ms), Downs(ms),
                      sent2, resp2) == true
    decreases |ms|
  {
    var s := Quiet(up, down, sent, resp);
    if ms == [] {
      acts, sent2, resp2 := [], sent, resp;
      assert up + [] == up && down + [] == down;
    } else {
      var m := ms[0];
      acts, sent2, resp2 := CarriesOne(up, down, sent, resp, m);
      var up1, down1 := if m.Up? then up + m.block else up, if m.Up? then down else down + m.block;
      var r := Quiet(up1, down1, sent2, resp2);
      var more: seq<Action>;
      var first := acts;
      more, sent2, resp2 := CarriesAll(up1, down1, sent2, resp2, ms[1..]);
      acts := first + more;
      OneMore(up, down, ms);
      Then(s, first, r, more, Quiet(up + Cat(Ups(ms)), down + Cat(Downs(ms)), sent2, resp2),
           if m.Up? then [m.block] else [], if m.Up? then [] else [m.block], Ups(ms[1..]), Downs(ms[1..]));
    }
  }

  lemma OneMore(up: Bytes, down: Bytes, ms: seq<Message>)
    requires ms != []
    ensures var m := ms[0]; var rest := ms[1..];
      && (if m.Up? then up + m.block else up) + Cat(Ups(rest)) == up + Cat(Ups(ms))
      && (if m.Up? then down else down + m.block) + Cat(Downs(rest)) == down + Cat(Downs(ms))
  {
    var m, rest := ms[0], ms[1..];
    if m.Up? {
      assert Ups(ms)[1..] == Ups(rest) && Downs(ms) == Downs(rest);
      Assoc(up, m.block, Cat(Ups(rest)));
    } else {
      assert Downs(ms)[1..] == Downs(rest) && Ups(ms) == Ups(rest);
      Assoc(down, m.block, Cat(Downs(rest)));
    }
  }

  /** Transport: for any blocks, in any order of the two directions, there is a run from the start in which
      the local socket delivers exactly those that go up and the destination exactly those that come
      down, and at its end every byte of them is written at the other end. */
  lemma Transport(ms: seq<Message>) returns (acts: seq<Action>)
    requires forall i | 0 <= i < |ms| :: IsBlock(ms[i].block)
    ensures IsRun(INIT, acts) && LocalReads(acts) == Ups(ms) && DestReads(acts) == Downs(ms)
    ensures After(INIT, acts).dest.written == Cat(Ups(ms)) && After(INIT, acts).local.written == Cat(Downs(ms))
  {
    var first := Starts();
    var more, sent, resp := CarriesAll([], [], [], [], ms);
    var up, down := Cat(Ups(ms)), Cat(Downs(ms));
    acts := first + more;
    FromNothing(up, down, Ups(ms), Downs(ms));
    var q: State := Quiet([], [], [], []);
    Then(INIT, first, q, more, Quiet(up, down, sent, resp), [], [], Ups(ms), Downs(ms));
  }

  lemma FromNothing(up: Bytes, down: Bytes, ups: seq<Bytes>, downs: seq<Bytes>)
    ensures [] + up == up && [] + down == down && [] + ups == ups && [] + downs == downs
  {
  }
}
