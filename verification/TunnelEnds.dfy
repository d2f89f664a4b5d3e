/** How the tunnel ends: what the ends of its loops say, what no run does after a failure, and runs that
    carry data past a pending poll and that shut everything down. */
module TunnelEnds {
  import opened Tunnel
  import opened TunnelProofs
  import opened TunnelTransport

  // ----- what an ended loop says -----

  predicate ProxyEnds(p: Proxy) { p.reader.REnd? || p.writer.WEnd? || p.syncClosed ==> !p.connAlive }

  predicate ClientEnds(c: Client) {
    c.syncClosed || c.proc.PFinish? || c.proc.PEnd? || 0 in c.respQ || c.recv.CEnd? ==> !c.alive
  }

  /** The nil that ends recvLoop is queued or has been taken once processLoop has ended. */
  predicate ClientTells(c: Client) { c.proc.PEnd? ==> 0 in c.respQ || c.recv.CEnd? }

  predicate ServerTells(v: Server) { v.proc.SEnd? ==> 0 in v.resQueue || v.answer.TEnd? }

  predicate LinksEnd(s: State) { (s.link.up.UEnd? ==> !s.local.connAlive) && (s.link.down.DEnd? ==> !s.client.alive) }

  predicate ServerEnds(v: Server, dest: Proxy) { v.proc.SFinish? || v.proc.SEnd? ==> !dest.connAlive || v.syncClosed }

  predicate EndsMean(s: State) {
    && ProxyEnds(s.local) && ProxyEnds(s.dest) && ClientEnds(s.client) && ClientTells(s.client)
    && LinksEnd(s) && ServerTells(s.server) && ServerEnds(s.server, s.dest)
  }

  lemma ProxyEndsKept(p: Proxy, a: ProxyAct)
    requires ProxyCan(p, a) && ProxyEnds(p)
    ensures ProxyEnds(ProxyStep(p, a)) == true && (!p.connAlive ==> !ProxyStep(p, a).connAlive)
  {
  }

  lemma ClientEndsKept(c: Client, a: ClientAct)
    requires ClientCan(c, a) && ClientEnds(c) && ClientTells(c) && NilWhenDead(c)
    ensures (ClientEnds(ClientStep(c, a)) && ClientTells(ClientStep(c, a))) == true
    ensures !c.alive ==> !ClientStep(c, a).alive
  {
    if a.TakesResponse? {
      assert c.respQ == [c.respQ[0]] + c.respQ[1..];
    }
  }

  lemma ServerEndsKept(s: State, a: ServerAct)
    requires ServerCan(s, a) && ServerTells(s.server) && ServerEnds(s.server, s.dest)
    ensures var r := ServerStep(s, a); (ServerTells(r.server) && ServerEnds(r.server, r.dest)) == true
  {
    var v := s.server;
    if a.TakesRequest? {
      assert v.resQueue == [v.resQueue[0]] + v.resQueue[1..];
    }
  }

  lemma LinkEndsKept(s: State, a: LinkAct)
    requires LinkCan(s, a) && EndsMean(s)
    ensures EndsMean(LinkStep(s, a)) == true
  {
  }

  lemma EndsKeep(s: State, a: Action)
    requires Can(s, a) && EndsMean(s) && NilWhenDead(s.client)
    ensures EndsMean(Apply(s, a)) == true
  {
    match a
    case Local(p) => ProxyEndsKept(s.local, p);
    case Dest(d) => ProxyEndsKept(s.dest, d);
    case Linking(l) => LinkEndsKept(s, l);
    case ClientActs(c) => ClientEndsKept(s.client, c);
    case Serving(v) => ServerEndsKept(s, v);
    case _ =>
  }

  lemma {:induction false} RunEnds(s: State, acts: seq<Action>)
    requires IsRun(s, acts) && EndsMean(s) && Polling(s.client)
    ensures EndsMean(After(s, acts)) == true
    decreases |acts|
  {
    if acts != [] {
      EndsKeep(s, acts[0]);
      PollingKept(s, acts[0]);
      RunEnds(Apply(s, acts[0]), acts[1..]);
    }
  }

  /** In every run: a loop that has ended says that its end of the connection is dead, closing kills it, and
      an ended loop has left the nil that ends the next one. */
  lemma EndedMeansDead(acts: seq<Action>)
    requires IsRun(INIT, acts)
    ensures EndsMean(After(INIT, acts))
  {
    RunEnds(INIT, acts);
  }

  // ----- after a failure -----

  /** The socket has failed to read. */
  predicate ReadFailed(p: Proxy) { (p.reader.RPush? && p.reader.failed) || p.reader.REnd? }

  lemma {:induction false} NoMoreReads(s: State, acts: seq<Action>)
    requires IsRun(s, acts)
    ensures ReadFailed(s.local) ==> LocalReads(acts) == [] && ReadFailed(After(s, acts).local)
    ensures ReadFailed(s.dest) ==> DestReads(acts) == [] && ReadFailed(After(s, acts).dest)
    decreases |acts|
  {
    if acts != [] {
      NoMoreReads(Apply(s, acts[0]), acts[1..]);
    }
  }

  /** After a failed read, also one that delivers a last block, the socket delivers nothing more. */
  lemma FailedReadIsLast(acts: seq<Action>, b: Bytes, more: seq<Action>)
    requires IsRun(INIT, acts)
    requires var s := After(INIT, acts); Can(s, Local(Reads(b, true))) && IsRun(Apply(s, Local(Reads(b, true))), more)
    ensures LocalReads(more) == []
  {
    NoMoreReads(Apply(After(INIT, acts), Local(Reads(b, true))), more);
  }

  /** The client is dead and in no request. */
  predicate Stopped(c: Client) { !c.alive && (c.proc.PCheck? || c.proc.PFinish? || c.proc.PEnd?) }

  lemma {:induction false} NoMoreRequests(s: State, acts: seq<Action>)
    requires IsRun(s, acts) && Stopped(s.client)
    ensures Stopped(After(s, acts).client) && After(s, acts).client.sent == s.client.sent
    decreases |acts|
  {
    if acts != [] {
      NoMoreRequests(Apply(s, acts[0]), acts[1..]);
    }
  }

  /** After a failed request no request is ever sent. */
  lemma FailedRequestIsLast(acts: seq<Action>, more: seq<Action>)
    requires IsRun(INIT, acts)
    requires var s := After(INIT, acts); Can(s, ClientActs(Fails)) && IsRun(Apply(s, ClientActs(Fails)), more)
    ensures After(Apply(After(INIT, acts), ClientActs(Fails)), more).client.sent == After(INIT, acts).client.sent
  {
    NoMoreRequests(Apply(After(INIT, acts), ClientActs(Fails)), more);
  }

  /** The writer has ended, or is about to: it writes nothing more. */
  lemma {:induction false} NoMoreWrites(s: State, acts: seq<Action>)
    requires IsRun(s, acts)
    ensures s.local.writer.WEnd? ==> After(s, acts).local.written == s.local.written
    ensures s.dest.writer.WEnd? ==> After(s, acts).dest.written == s.dest.written
    decreases |acts|
  {
    if acts != [] {
      NoMoreWrites(Apply(s, acts[0]), acts[1..]);
    }
  }

  /** After a failed write nothing more is written to the destination. */
  lemma FailedWriteIsLast(acts: seq<Action>, k: nat, more: seq<Action>)
    requires IsRun(INIT, acts)
    requires var s := After(INIT, acts); Can(s, Dest(Writes(k, true))) && IsRun(Apply(s, Dest(Writes(k, true))), more)
    ensures var s := After(INIT, acts);
      After(Apply(s, Dest(Writes(k, true))), more).dest.written == s.dest.written + s.dest.writer.block[..k]
  {
    var s := After(INIT, acts);
    NoMoreWrites(Apply(s, Dest(Writes(k, true))), more);
    assert k == |s.dest.writer.block| ==> s.dest.writer.block[..k] == s.dest.writer.block;
  }

  // ----- data past a pending poll -----

  lemma Goes(s: State, acts: seq<Action>, m: State, x: Action, up: seq<Bytes>, down: seq<Bytes>)
    returns (more: seq<Action>, n: State)
    requires Leads(s, acts, m, up, down) && Can(m, x) && !IsReading(x)
    ensures n == Apply(m, x) && Leads(s, more, n, up, down) == true
  {
    n := Apply(m, x);
    more := Go(s, acts, m, x, n, up, down);
  }

  /** The long poll waits for data. */
  lemma PollWaits(s: State, acts: seq<Action>, m: State, up: seq<Bytes>, down: seq<Bytes>, n: nat)
    returns (more: seq<Action>)
    requires Leads(s, acts, m, up, down) && m.server.answer == TTry(n, true) && m.dest.recvQ == [] && m.dest.connAlive
    ensures Leads(s, more, m.(server := m.server.(answer := TWait(n))), up, down) == true
  {
    var k: State;
    more, k := Goes(s, acts, m, Serving(MissesData), up, down);
    more, k := Goes(s, more, k, Serving(GuardsData), up, down);
  }

  lemma WaitEnds(s: State, acts: seq<Action>, m: State, up: seq<Bytes>, down: seq<Bytes>, n: nat)
    returns (more: seq<Action>)
    requires Leads(s, acts, m, up, down) && m.server.answer == TWait(n)
    ensures Leads(s, more, m.(server := m.server.(finished := n, answer := TTake)), up, down) == true
  {
    var k: State;
    more, k := Goes(s, acts, m, Serving(TimesOut), up, down);
    more, k := Goes(s, more, k, Serving(EndsResponse), up, down);
  }

  /** The next response is announced while the body of the first is still read. */
  lemma NextAnswer(s: State, acts: seq<Action>, m: State, up: seq<Bytes>, down: seq<Bytes>)
    returns (more: seq<Action>)
    requires Leads(s, acts, m, up, down) && Answerable(m) && m.client.respQ == [] && m.client.sent != []
    ensures var c := m.client.(got := |m.client.sent|, proc := PCheck, respQ := [|m.client.sent|]);
      Leads(s, more, m.(client := c), up, down)
      == true
  {
    var k: State;
    more, k := Goes(s, acts, m, Answered, up, down);
    more, k := Goes(s, more, k, ClientActs(PushesResponse), up, down);
  }

  /** The body of response `n` ends, and the next one is taken without a poll between them. */
  lemma TakesNext(s: State, acts: seq<Action>, m: State, up: seq<Bytes>, down: seq<Bytes>, n: nat)
    returns (more: seq<Action>)
    requires Leads(s, acts, m, up, down) && m.client.respQ == [n + 1]
    requires 1 <= n <= |m.server.resp| && n <= m.server.finished
    requires m.client.recv == CReading(n, |m.server.resp[n - 1]|)
    ensures var c := m.client.(done := m.client.done + 1, respQ := [], recv := CReading(n + 1, 0));
      Leads(s, more, m.(client := c), up, down)
      == true
  {
    var k: State;
    more, k := Goes(s, acts, m, EndsReading, up, down);
    more, k := Goes(s, more, k, ClientActs(Counts), up, down);
    more, k := Goes(s, more, k, ClientActs(TakesResponse), up, down);
  }

  /** A poll is pending at the server, and the client reads its response. */
  function Polled(up: Bytes, down: Bytes, sent: seq<Bytes>, resp: seq<Bytes>): State {
    var s, n := Quiet(up, down, sent, resp), |sent| + 1;
    s.(client := s.client.(sent := sent + [NIL], nop := false, got := n, recv := CReading(n, 0)),
       server := s.server.(seqNumber := n, accepted := Nums(0, n), resp := resp + [[]], answer := TWait(n)))
  }

  lemma Polls(up: Bytes, down: Bytes, sent: seq<Bytes>, resp: seq<Bytes>) returns (acts: seq<Action>)
    requires |sent| == |resp|
    ensures Leads(Quiet(up, down, sent, resp), acts, Polled(up, down, sent, resp), [], []) == true
  {
    var s, n := Quiet(up, down, sent, resp), |sent| + 1;
    NextNumber(|sent|);
    acts := SendsNop(s, [], s, [], []);
    var m1 := s.(client := Sent(s.client.(nop := false), NIL));
    acts := Accepts(s, acts, m1, [], [], |sent|, NIL);
    var m2 := m1.(server := Accepted(m1.server, NIL));
    acts := Responds(s, acts, m2, [], [], n);
    var m3 := m2.(server := Responding(m2.server, n));
    acts := Looks(s, acts, m3, [], [], n);
    var m4 := m3.(server := Looking(m3.server, n));
    acts := PollWaits(s, acts, m4, [], [], n);
    var m5 := m4.(server := m4.server.(answer := TWait(n)));
    acts := GetsAnswer(s, acts, m5, [], []);
  }

  /** The block is written, and its own response is queued behind the poll. */
  function WrittenPast(m: State, b: Bytes, n: nat): State {
    m.(local := m.local.(read := m.local.read + b, popped := m.local.popped + b),
       client := m.client.(accepted := m.client.accepted + b, sent := m.client.sent + [b], proc := PSending),
       server := m.server.(seqNumber := n + 1, accepted := m.server.accepted + [n + 1], resp := m.server.resp + [[]],
                           resQueue := [n + 1]),
       dest := m.dest.(pushed := m.dest.pushed + b, written := m.dest.written + b))
  }

  lemma WritesPast(s: State, acts: seq<Action>, m: State, b: Bytes, n: nat) returns (more: seq<Action>)
    requires Leads(s, acts, m, [], []) && IsBlock(b) && Listening(m.server, n) && |m.client.sent| == n
    requires Resting(m.local) && Resting(m.dest) && m.link.up.UCheck? && m.client.sendQ == []
    requires m.client.alive && m.client.proc.PCheck? && m.server.resQueue == []
    ensures Leads(s, more, WrittenPast(m, b, n), [b], []) == true
  {
    assert [] + [b] == [b];
    more := LocalReadsBlock(s, acts, m, [], [], b);
    var m1 := m.(local := HasRead(m.local, b));
    more := LinkUp(s, more, m1, [b], [], b);
    var m2 := Uplinked(m1, b);
    more := SendsData(s, more, m2, [b], [], b);
    var m3 := m2.(client := Sent(m2.client.(sendQ := []), b));
    more := Accepts(s, more, m3, [b], [], n, b);
    var m4 := m3.(server := Accepted(m3.server, b));
    more := Serves(s, more, m4, [b], [], n + 1, b);
    var m5 := BodyQueued(m4, n + 1, b);
    more := DestWrites(s, more, m5, [b], [], b);
    var m6 := m5.(dest := HasWritten(m5.dest));
    more := Responds(s, more, m6, [b], [], n + 1);
  }

  /** From a quiet tunnel to a quiet one: a block goes up and is written while a poll is pending at the
      server, which is answered afterwards. */
  lemma CarriesUpPastPoll(up: Bytes, down: Bytes, sent: seq<Bytes>, resp: seq<Bytes>, b: Bytes)
    returns (acts: seq<Action>)
    requires |sent| == |resp| && IsBlock(b)
    ensures Leads(Quiet(up, down, sent, resp), acts, Quiet(up + b, down, sent + [NIL] + [b], resp + [[]] + [[]]), [b], [])
      == true
  {
    var s, n := Quiet(up, down, sent, resp), |sent| + 1;
    NextNumber(n);
    acts := Polls(up, down, sent, resp);
    var m1 := Polled(up, down, sent, resp);
    acts := WritesPast(s, acts, m1, b, n);
    var m2 := WrittenPast(m1, b, n);
    acts := NextAnswer(s, acts, m2, [b], []);
    var m3 := m2.(client := m2.client.(got := n + 1, proc := PCheck, respQ := [n + 1]));
    acts := WaitEnds(s, acts, m3, [b], [], n);
    var m4 := m3.(server := m3.server.(finished := n, answer := TTake));
    acts := TakesNext(s, acts, m4, [b], [], n);
    var m5 := m4.(client := m4.client.(done := m4.client.done + 1, respQ := [], recv := CReading(n + 1, 0)));
    acts := Looks(s, acts, m5, [b], [], n + 1);
    var m6 := m5.(server := Looking(m5.server, n + 1));
    acts := PollTimesOut(s, acts, m6, [b], [], n + 1);
    var m7 := m6.(server := m6.server.(finished := n + 1, answer := TTake));
    acts := EndsAnswer(s, acts, m7, [b], [], n + 1);
  }

  // ----- shutting down -----

  /** Every loop has ended. */
  predicate AllEnded(s: State) {
    && s.local.reader.REnd? && s.local.writer.WEnd? && s.dest.reader.REnd? && s.dest.writer.WEnd?
    && s.link.up.UEnd? && s.link.down.DEnd? && s.client.proc.PEnd? && s.client.recv.CEnd?
    && s.server.proc.SEnd? && s.server.answer.TEnd?
  }

  /** Both loops of the proxy have ended, and its nil is queued. */
  predicate ProxyEnded(p: Proxy) { p.reader.REnd? && p.writer.WEnd? && p.recvQ == [NIL] && !p.connAlive }

  /** A proxy whose writer waits for data, and one whose writer finds it dead. */
  lemma ProxyShuts(s: State, acts: seq<Action>, m: State, local: bool) returns (more: seq<Action>, n: State)
    requires Leads(s, acts, m, [], []) && Resting(if local then m.local else m.dest)
    ensures n == if local then m.(local := n.local) else m.(dest := n.dest)
    ensures ProxyEnded(if local then n.local else n.dest)
    ensures Leads(s, more, n, [], []) == true
  {
    more, n := Goes(s, acts, m, if local then Local(WriterChecks) else Dest(Closes), [], []);
    more, n := Goes(s, more, n, if local then Local(Closes) else Dest(WriterChecks), [], []);
    if local {
      more, n := Goes(s, more, n, Local(WriterStops), [], []);
    }
    more, n := Goes(s, more, n, if local then Local(ReaderChecks) else Dest(ReaderChecks), [], []);
    more, n := Goes(s, more, n, if local then Local(ClosesQueue) else Dest(ClosesQueue), [], []);
  }

  /** The loops between the local socket and the client wait for data. */
  lemma LinksWait(s: State, acts: seq<Action>, m: State) returns (more: seq<Action>)
    requires Leads(s, acts, m, [], []) && m.link == Link(UCheck, DCheck) && m.local.connAlive && m.client.alive
    requires m.local.recvQ == [] && m.client.recvQ == []
    ensures Leads(s, more, m.(link := Link(UWait, DWait)), [], []) == true
  {
    var n: State;
    more, n := Goes(s, acts, m, Linking(UpChecks), [], []);
    more, n := Goes(s, more, n, Linking(UpMisses), [], []);
    more, n := Goes(s, more, n, Linking(UpGuards), [], []);
    more, n := Goes(s, more, n, Linking(DownChecks), [], []);
    more, n := Goes(s, more, n, Linking(DownMisses), [], []);
    more, n := Goes(s, more, n, Linking(DownGuards), [], []);
  }

  lemma UpEnds(s: State, acts: seq<Action>, m: State) returns (more: seq<Action>)
    requires Leads(s, acts, m, [], []) && m.link.up.UWait? && m.local.recvQ == [NIL] && !m.local.connAlive
    ensures Leads(s, more, m.(local := m.local.(recvQ := []), link := m.link.(up := UEnd)), [], []) == true
  {
    var n: State;
    assert m.local.popped + NIL == m.local.popped;
    more, n := Goes(s, acts, m, Linking(UpPops), [], []);
    more, n := Goes(s, more, n, Linking(UpChecks), [], []);
  }

  lemma DownEnds(s: State, acts: seq<Action>, m: State) returns (more: seq<Action>, n: State)
    requires Leads(s, acts, m, [], []) && m.client.recvQ == [] && m.link.down.DWait? && !m.client.alive
    ensures n == m.(link := m.link.(down := DEnd)) && Leads(s, more, n, [], []) == true
  {
    assert m.client.handed + NIL == m.client.handed;
    more, n := Goes(s, acts, m, ClientActs(ClientClosesQueue), [], []);
    more, n := Goes(s, more, n, Linking(DownPops), [], []);
    more, n := Goes(s, more, n, Linking(DownChecks), [], []);
  }

  /** The client closes; its loops and the one behind it end. */
  lemma ClientShuts(s: State, acts: seq<Action>, m: State) returns (more: seq<Action>, n: State)
    requires Leads(s, acts, m, [], []) && m.client.proc.PCheck? && m.client.recv.CRange? && m.client.respQ == []
    requires m.client.recvQ == [] && m.link.down.DWait?
    ensures n == m.(client := n.client, link := m.link.(down := DEnd)) && n.client.proc.PEnd? && n.client.recv.CEnd?
    ensures Leads(s, more, n, [], []) == true
  {
    more, n := Goes(s, acts, m, ClientActs(ClientCloses), [], []);
    more, n := Goes(s, more, n, ClientActs(ProcChecks), [], []);
    more, n := Goes(s, more, n, ClientActs(Finishes), [], []);
    more, n := Goes(s, more, n, ClientActs(TakesResponse), [], []);
    more, n := DownEnds(s, more, n);
  }

  /** The server end waits for a request when it is closed. */
  lemma ServerShuts(s: State, acts: seq<Action>, m: State) returns (more: seq<Action>, n: State)
    requires Leads(s, acts, m, [], []) && m.server.proc.SCheck? && m.server.reqQueue == [] && m.dest.connAlive
    requires m.server.answer.TTake? && m.server.resQueue == []
    ensures n == m.(server := n.server) && n.server.proc.SEnd? && n.server.answer.TEnd?
    ensures Leads(s, more, n, [], []) == true
  {
    more, n := Goes(s, acts, m, Serving(ServerChecks), [], []);
    more, n := Goes(s, more, n, Serving(MissesRequest), [], []);
    more, n := Goes(s, more, n, Serving(ServerCloses), [], []);
    more, n := Goes(s, more, n, Serving(PopsSync), [], []);
    more, n := Goes(s, more, n, Serving(ServerFinishes), [], []);
    more, n := Goes(s, more, n, Serving(TakesRequest), [], []);
  }

  /** A quiet tunnel can be shut down, whatever its loops wait for: there is a run in which every one of
      them ends. */
  lemma ShutsDown(up: Bytes, down: Bytes, sent: seq<Bytes>, resp: seq<Bytes>) returns (acts: seq<Action>, n: State)
    requires |sent| == |resp|
    ensures Leads(Quiet(up, down, sent, resp), acts, n, [], []) == true && AllEnded(n)
  {
    var s := Quiet(up, down, sent, resp);
    acts := LinksWait(s, [], s);
    n := s.(link := Link(UWait, DWait));
    acts, n := ServerShuts(s, acts, n);
    acts, n := ProxyShuts(s, acts, n, false);
    acts, n := ProxyShuts(s, acts, n, true);
    acts := UpEnds(s, acts, n);
    n := n.(local := n.local.(recvQ := []), link := n.link.(up := UEnd));
    acts, n := ClientShuts(s, acts, n);
  }

  /** The pending poll meets the nil that the destination has left, and notices that it is dead. */
  lemma PollNotices(s: State, acts: seq<Action>, m: State, n: nat) returns (more: seq<Action>)
    requires Leads(s, acts, m, [], []) && !m.dest.connAlive && m.dest.recvQ == [NIL] && m.server.answer == TTry(n, true)
    ensures var r := m.(dest := m.dest.(recvQ := []), server := m.server.(finished := n, answer := TTake));
      Leads(s, more, r, [], []) == true
  {
    var r: State;
    assert m.dest.popped + NIL == m.dest.popped;
    more, r := Goes(s, acts, m, Serving(PopsData), [], []);
    more, r := Goes(s, more, r, Serving(GuardsData), [], []);
    more, r := Goes(s, more, r, Serving(EndsResponse), [], []);
  }

  /** The destination dies while the server serves a request and answers another: the first response is
      ended, no second one is started, and the loops of the server end. */
  lemma DeadDestination(s: State, acts: seq<Action>, m: State, n: nat, k: nat) returns (more: seq<Action>, r: State)
    requires Leads(s, acts, m, [], []) && !m.dest.connAlive && m.dest.recvQ == [NIL]
    requires m.server.answer == TTry(n, true) && m.server.proc == SAlive(k) && m.server.resQueue == []
    ensures Leads(s, more, r, [], []) == true
    ensures r.server.resp == m.server.resp && r.server.finished == n && r.server.proc.SEnd? && r.server.answer.TEnd?
  {
    more := PollNotices(s, acts, m, n);
    r := m.(dest := m.dest.(recvQ := []), server := m.server.(finished := n, answer := TTake));
    more, r := Goes(s, more, r, Serving(Tunnel.Starts), [], []);
    more, r := Goes(s, more, r, Serving(ServerChecks), [], []);
    more, r := Goes(s, more, r, Serving(ServerFinishes), [], []);
    more, r := Goes(s, more, r, Serving(TakesRequest), [], []);
  }

  /** A poll that finds the server finished is answered at once. */
  lemma LastPoll(s: State, acts: seq<Action>, m: State, n: nat) returns (more: seq<Action>, r: State)
    requires Leads(s, acts, m, [], []) && m.dest.recvQ == [] && m.server.answer == TLen(n) && m.server.proc.SFinish?
    requires m.server.resQueue == []
    ensures Leads(s, more, r, [], []) == true && r.server.finished == n && r.server.answer.TEnd?
  {
    more, r := Goes(s, acts, m, Serving(ServerFinishes), [], []);
    more, r := Goes(s, more, r, Serving(MeasuresQueue), [], []);
    more, r := Goes(s, more, r, Serving(MissesData), [], []);
    more, r := Goes(s, more, r, Serving(EndsResponse), [], []);
    more, r := Goes(s, more, r, Serving(TakesRequest), [], []);
  }
}
