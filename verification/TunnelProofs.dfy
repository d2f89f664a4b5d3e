/** What every reachable state of the tunnel keeps: every byte is accounted for in both
    directions, requests are accepted in order, and the poll token is never lost. */
module TunnelProofs {
  import opened Sequences
  import opened Tunnel

  function Cat(q: seq<Bytes>): Bytes { if q == [] then [] else q[0] + Cat(q[1..]) }

  lemma {:induction false} CatAdd(q: seq<Bytes>, b: Bytes)
    ensures Cat(q + [b]) == Cat(q) + b
  {
    if q == [] {
      assert q + [b] == [b];
    } else {
      CatAdd(q[1..], b);
      assert (q + [b])[1..] == q[1..] + [b];
    }
  }

  // ----- inside one tcpProxy -----

  function ReaderHand(p: Proxy): Bytes { if p.reader.RPush? then p.reader.block else [] }

  function WriterHand(p: Proxy): Bytes {
    match p.writer
    case WWrite(b) => b
    case WEnd(b) => b
    case _ => []
  }

  predicate ReadKept(p: Proxy) { p.read == p.popped + Cat(p.recvQ) + ReaderHand(p) }
  predicate WriteKept(p: Proxy) { p.pushed == p.written + WriterHand(p) + Cat(p.sendQ) }

  /** What was read and not handed out is in the queue or in recvLoop's hand; what was
      accepted and not written is in the queue or in sendLoop's hand. */
  predicate ProxyKept(p: Proxy) { ReadKept(p) && WriteKept(p) }

  /** A block moves from a hand to the end of a queue. */
  lemma Queued(before: Bytes, q: seq<Bytes>, b: Bytes)
    ensures before + Cat(q) + b == before + Cat(q + [b]) + []
  {
    CatAdd(q, b);
    Assoc(before, Cat(q), b);
    assert before + Cat(q + [b]) + [] == before + Cat(q + [b]);
  }

  lemma ReadsKept(p: Proxy, b: Bytes, failed: bool)
    requires ReadKept(p) && ProxyCan(p, Reads(b, failed))
    ensures ReadKept(ProxyStep(p, Reads(b, failed))) == true
  {
    var before := p.popped + Cat(p.recvQ);
    assert before + [] == before;
  }

  lemma PushesKept(p: Proxy)
    requires ReadKept(p) && ProxyCan(p, ReaderPushes)
    ensures ReadKept(ProxyStep(p, ReaderPushes)) == true
  {
    Queued(p.popped, p.recvQ, p.reader.block);
  }

  lemma ClosesQueueKept(p: Proxy)
    requires ReadKept(p) && ProxyCan(p, ClosesQueue)
    ensures ReadKept(ProxyStep(p, ClosesQueue)) == true
  {
    CatAdd(p.recvQ, NIL);
  }

  /** The other steps leave the reader's hand and its queue. */
  lemma OthersKept(p: Proxy, a: ProxyAct)
    requires ReadKept(p) && ProxyCan(p, a) && !a.Reads? && !a.ReaderPushes? && !a.ClosesQueue?
    ensures ReadKept(ProxyStep(p, a)) == true
  {
    var q := ProxyStep(p, a);
    assert q.read == p.read && q.popped == p.popped && q.recvQ == p.recvQ && ReaderHand(q) == ReaderHand(p);
  }

  lemma ReaderKeeps(p: Proxy, a: ProxyAct)
    requires ProxyCan(p, a) && ReadKept(p)
    ensures ReadKept(ProxyStep(p, a)) == true && ProxyStep(p, a).popped == p.popped
  {
    ProxyStepPopped(p, a);
    match a
    case Reads(b, failed) => ReadsKept(p, b, failed);
    case ReaderPushes => PushesKept(p);
    case ClosesQueue => ClosesQueueKept(p);
    case _ => OthersKept(p, a);
  }

  /** The head of a queue moves to a hand. */
  lemma Unqueued(before: Bytes, q: seq<Bytes>)
    requires q != []
    ensures before + [] + Cat(q) == before + q[0] + Cat(q[1..])
  {
    assert before + [] == before;
    Assoc(before, q[0], Cat(q[1..]));
  }

  /** A block is written up to `k`; the rest stays in the hand. */
  lemma Cut(before: Bytes, b: Bytes, k: nat, after: Bytes)
    requires k <= |b|
    ensures before + b + after == before + b[..k] + b[k..] + after
    ensures before + b + after == before + b + [] + after
  {
    assert b == b[..k] + b[k..];
    Assoc(before, b[..k], b[k..]);
    assert before + b + [] == before + b;
  }

  lemma WriterKeeps(p: Proxy, a: ProxyAct)
    requires ProxyCan(p, a) && WriteKept(p)
    ensures WriteKept(ProxyStep(p, a)) && ProxyStep(p, a).pushed == p.pushed
  {
    match a
    case WriterPops => Unqueued(p.written, p.sendQ);
    case Writes(k, _) => Cut(p.written, p.writer.block, k, Cat(p.sendQ));
    case _ =>
  }

  lemma ProxyKeeps(p: Proxy, a: ProxyAct)
    requires ProxyCan(p, a) && ProxyKept(p)
    ensures ProxyKept(ProxyStep(p, a))
    ensures ProxyStep(p, a).popped == p.popped && ProxyStep(p, a).pushed == p.pushed
  {
    ReaderKeeps(p, a);
    WriterKeeps(p, a);
  }

  lemma PoppedKeeps(p: Proxy)
    requires p.recvQ != [] && ProxyKept(p)
    ensures ProxyKept(Popped(p))
  {
  }

  lemma PushedKeeps(p: Proxy, b: Bytes)
    requires ProxyKept(p)
    ensures ProxyKept(Pushed(p, b))
  {
    CatAdd(p.sendQ, b);
  }

  predicate EndsKept(s: State) { ProxyKept(s.local) && ProxyKept(s.dest) }

  lemma EndsKeep(s: State, a: Action)
    requires Can(s, a) && EndsKept(s)
    ensures EndsKept(Apply(s, a))
  {
    match a
    case Local(p) => ProxyKeeps(s.local, p);
    case Dest(d) => ProxyKeeps(s.dest, d);
    case Linking(l) =>
      if l.UpPops? { PoppedKeeps(s.local); }
      if l.DownPushes? { PushedKeeps(s.local, s.link.down.block); }
    case Serving(v) =>
      if v.PushesBody? { PushedKeeps(s.dest, s.server.proc.block); }
      if v.PopsData? { PoppedKeeps(s.dest); }
    case _ =>
  }

  // ----- the poll token -----

  predicate SendingData(p: ClientProc) { p.PInit? || p.PStart? || p.PSending? || p.PPushing? }
  predicate HoldsResponse(r: ClientRecv) { r.CReading? || r.CPush? || r.CCount? || r.COffer? }

  /** While the client is alive, something is left that makes it ask the server again. */
  predicate PollToken(c: Client) {
    c.alive ==> c.nop || SendingData(c.proc) || c.respQ != [] || HoldsResponse(c.recv)
  }

  /** The nil that ends recvLoop is only sent once the client is dead. */
  predicate NilWhenDead(c: Client) {
    && ((0 in c.respQ || c.proc.PFinish?) ==> !c.alive)
    && (c.proc.PSending? ==> |c.sent| > 0) && (c.proc.PPushing? ==> c.got > 0)
  }

  predicate Polling(c: Client) { PollToken(c) && NilWhenDead(c) }

  lemma PollingKept(s: State, a: Action)
    requires Can(s, a) && Polling(s.client)
    ensures Polling(Apply(s, a).client)
  {
    if a.ClientActs? {
      ClientPolls(s.client, a.c);
    } else if a.Linking? {
      LinkPolls(s, a.l);
    }
  }

  lemma ClientPolls(c: Client, a: ClientAct)
    requires ClientCan(c, a) && Polling(c)
    ensures Polling(ClientStep(c, a))
  {
    if a.TakesResponse? {
      assert c.respQ[0] == 0 ==> 0 in c.respQ;
    }
  }

  lemma LinkPolls(s: State, a: LinkAct)
    requires LinkCan(s, a) && Polling(s.client)
    ensures Polling(LinkStep(s, a).client)
  {
  }

  // ----- up to the requests -----

  function UpHand(l: UpLoop): Bytes { if l.UPush? then l.block else [] }
  function ProcHand(p: ClientProc): Bytes { if p.PStart? then p.block else [] }

  predicate UpKept(s: State) {
    && s.local.popped == s.client.accepted + UpHand(s.link.up)
    && s.client.accepted == Cat(s.client.sent) + ProcHand(s.client.proc) + Cat(s.client.sendQ)
  }

  lemma UpKeepsClient(c: Client, a: ClientAct)
    requires ClientCan(c, a) && c.accepted == Cat(c.sent) + ProcHand(c.proc) + Cat(c.sendQ)
    ensures var d := ClientStep(c, a);
      d.accepted == c.accepted && d.accepted == Cat(d.sent) + ProcHand(d.proc) + Cat(d.sendQ)
  {
    if a.TakesData? {
      Assoc(Cat(c.sent), c.sendQ[0], Cat(c.sendQ[1..]));
    } else if a.Sends? {
      CatAdd(c.sent, c.proc.block);
    } else {
      UpStays(c, a);
    }
  }

  /** The other steps leave what was sent, what is in hand and what is queued. */
  lemma UpStays(c: Client, a: ClientAct)
    requires ClientCan(c, a) && !a.TakesData? && !a.Sends?
    ensures var d := ClientStep(c, a);
      d.accepted == c.accepted && d.sent == c.sent && ProcHand(d.proc) == ProcHand(c.proc) && d.sendQ == c.sendQ
  {
  }

  lemma UpKeeps(s: State, a: Action)
    requires Can(s, a) && UpKept(s)
    ensures UpKept(Apply(s, a))
  {
    match a
    case Local(p) => ProxyStepPopped(s.local, p);
    case Linking(l) => UpKeepsLink(s, l);
    case ClientActs(c) => UpKeepsClient(s.client, c);
    case _ =>
  }

  lemma ProxyStepPopped(p: Proxy, a: ProxyAct)
    requires ProxyCan(p, a)
    ensures ProxyStep(p, a).popped == p.popped && ProxyStep(p, a).pushed == p.pushed
  {
  }

  lemma UpKeepsLink(s: State, a: LinkAct)
    requires LinkCan(s, a) && UpKept(s)
    ensures UpKept(LinkStep(s, a))
  {
    match a
    case UpPushes =>
      CatAdd(s.client.sendQ, s.link.up.block);
      Assoc(Cat(s.client.sent) + ProcHand(s.client.proc), Cat(s.client.sendQ), s.link.up.block);
    case _ =>
  }

  // ----- down from the responses -----

  function RecvHand(r: ClientRecv): Bytes { if r.CPush? then r.block else [] }
  function DownHand(l: DownLoop): Bytes { if l.DPush? then l.block else [] }

  predicate DownKept(s: State) {
    && s.client.consumed == s.client.handed + Cat(s.client.recvQ) + RecvHand(s.client.recv)
    && s.client.handed == s.local.pushed + DownHand(s.link.down)
  }

  lemma DownKeepsClient(c: Client, a: ClientAct)
    requires ClientCan(c, a) && c.consumed == c.handed + Cat(c.recvQ) + RecvHand(c.recv)
    ensures var d := ClientStep(c, a);
      d.handed == c.handed && d.consumed == d.handed + Cat(d.recvQ) + RecvHand(d.recv)
  {
    match a
    case PushesBlock =>
      CatAdd(c.recvQ, c.recv.block);
      Assoc(c.handed, Cat(c.recvQ), c.recv.block);
    case ClientClosesQueue => CatAdd(c.recvQ, NIL);
    case _ =>
  }

  lemma DownKeepsLink(s: State, a: LinkAct)
    requires LinkCan(s, a) && DownKept(s)
    ensures DownKept(LinkStep(s, a))
  {
    match a
    case DownPops => Assoc(s.client.handed, s.client.recvQ[0], Cat(s.client.recvQ[1..]));
    case _ =>
  }

  lemma DownKeeps(s: State, a: Action)
    requires Can(s, a) && DownKept(s)
    ensures DownKept(Apply(s, a))
  {
    match a
    case Local(p) => ProxyStepPopped(s.local, p);
    case Linking(l) => DownKeepsLink(s, l);
    case ClientActs(c) => DownKeepsClient(s.client, c);
    case _ =>
  }

  // ----- counting requests and responses -----

  function Nums(lo: nat, hi: nat): seq<nat>
    decreases hi - lo
  { if lo >= hi then [] else [lo + 1] + Nums(lo + 1, hi) }

  lemma {:induction false} NumsAdd(lo: nat, hi: nat)
    requires lo <= hi
    ensures Nums(lo, hi + 1) == Nums(lo, hi) + [hi + 1]
    decreases hi - lo
  {
    if lo < hi {
      NumsAdd(lo + 1, hi);
      assert [lo + 1] + (Nums(lo + 1, hi) + [hi + 1]) == ([lo + 1] + Nums(lo + 1, hi)) + [hi + 1];
    } else {
      assert Nums(hi + 1, hi + 1) == [] && Nums(hi, hi) == [];
    }
  }

  /** No more than one request runs ahead of the responses the client has got. */
  predicate SentCount(c: Client) {
    && c.got <= |c.sent| <= c.got + 1
    && (c.proc.PSending? ==> |c.sent| == c.got + 1)
    && (!c.proc.PSending? && |c.sent| != c.got ==>
          !c.alive && (c.proc.PCheck? || c.proc.PFinish? || c.proc.PEnd?))
  }

  /** Requests the server has accepted and not yet decided to answer. */
  function Pipe(v: Server): seq<nat> {
    (match v.proc
     case SBody(n, _) => [n]
     case SPush(n, _, _) => [n]
     case SAlive(n) => [n]
     case _ => [])
    + v.reqQueue + (if v.held == 0 then [] else [v.held])
  }

  predicate PipeCount(v: Server) {
    && Pipe(v) == (if Pipe(v) == [] then [] else [v.seqNumber])
    && (Pipe(v) != [] ==> |v.resp| + 1 == v.seqNumber)
    && v.accepted == Nums(0, v.seqNumber)
  }

  predicate Counted(s: State) {
    && SentCount(s.client) && PipeCount(s.server)
    && s.client.got <= |s.server.resp| <= s.server.seqNumber <= |s.client.sent|
  }

  lemma SentCountKept(c: Client, a: ClientAct)
    requires ClientCan(c, a) && SentCount(c)
    ensures SentCount(ClientStep(c, a)) && |ClientStep(c, a).sent| >= |c.sent| && ClientStep(c, a).got == c.got
  {
  }

  lemma PipeKept(s: State, a: ServerAct)
    requires ServerCan(s, a) && Counted(s)
    ensures PipeCount(ServerStep(s, a).server)
    ensures |s.server.resp| <= |ServerStep(s, a).server.resp| <= ServerStep(s, a).server.seqNumber <= |s.client.sent|
    ensures ServerStep(s, a).client == s.client
  {
    if a.Delivers? {
      NumsAdd(0, s.server.seqNumber);
    }
  }

  lemma CountedKept(s: State, a: Action)
    requires Can(s, a) && Counted(s)
    ensures Counted(Apply(s, a))
  {
    match a
    case ClientActs(c) => SentCountKept(s.client, c);
    case Serving(v) => PipeKept(s, v);
    case _ =>
  }

  // ----- requests to the destination -----

  function Bodies(sent: seq<Bytes>, ns: seq<nat>): Bytes {
    if ns == [] then [] else Body(sent, ns[0]) + Bodies(sent, ns[1..])
  }

  function ProcRest(p: ServerProc): Bytes {
    match p
    case SBody(_, rest) => rest
    case SPush(_, b, rest) => b + rest
    case _ => []
  }

  function Waiting(v: Server): seq<nat> { v.reqQueue + (if v.held == 0 then [] else [v.held]) }

  /** Bodies of accepted requests are at the destination proxy, which has accepted `pushed`, in
      processLoop's hand or waiting. */
  predicate Served(v: Server, sent: seq<Bytes>, pushed: Bytes) {
    && v.seqNumber <= |sent|
    && Cat(sent[..v.seqNumber]) == pushed + ProcRest(v.proc) + Bodies(sent, Waiting(v))
  }

  predicate ServedKept(s: State) { Served(s.server, s.client.sent, s.dest.pushed) }

  lemma {:induction false} BodiesGrow(sent: seq<Bytes>, b: Bytes, ns: seq<nat>)
    requires forall n | n in ns :: n <= |sent|
    ensures Bodies(sent + [b], ns) == Bodies(sent, ns)
  {
    if ns != [] {
      assert ns[0] in ns && forall n | n in ns[1..] :: n in ns;
      BodiesGrow(sent, b, ns[1..]);
    }
  }

  lemma BodiesOne(sent: seq<Bytes>, n: nat)
    ensures Bodies(sent, [n]) == Body(sent, n)
  {
    assert [n][1..] == [];
  }

  /** What the pipe holds, spelled out: nothing, or the newest accepted request. */
  lemma PipeCases(v: Server)
    requires PipeCount(v)
    ensures Waiting(v) == [] || (Waiting(v) == [v.seqNumber] && ProcRest(v.proc) == [])
    ensures v.reqQueue != [] ==> v.reqQueue == [v.seqNumber] && v.held == 0
    ensures v.held != 0 ==> v.held == v.seqNumber && v.reqQueue == []
    ensures v.proc.SAlive? ==> v.proc.n == |v.resp| + 1
    ensures |v.resp| == v.seqNumber ==> Pipe(v) == []
  {
    assert |Pipe(v)| <= 1;
    assert v.proc.SAlive? ==> Pipe(v)[0] == v.proc.n;
    assert v.reqQueue != [] ==> Pipe(v)[0] == v.reqQueue[0];
    assert v.held != 0 ==> Pipe(v)[0] == v.held;
  }

  lemma DeliveryServed(v: Server, sent: seq<Bytes>, pushed: Bytes, w: Server)
    requires Served(v, sent, pushed) && v.seqNumber < |sent| && Waiting(v) == [] && ProcRest(v.proc) == []
    requires w.seqNumber == v.seqNumber + 1 && w.proc == v.proc && Waiting(w) == [w.seqNumber]
    ensures Served(w, sent, pushed)
  {
    BodiesOne(sent, w.seqNumber);
    CatAdd(sent[..v.seqNumber], sent[v.seqNumber]);
    assert sent[..w.seqNumber] == sent[..v.seqNumber] + [sent[v.seqNumber]];
  }

  lemma PoppedServed(v: Server, sent: seq<Bytes>, pushed: Bytes, w: Server)
    requires Served(v, sent, pushed) && Waiting(v) == [v.seqNumber] && ProcRest(v.proc) == []
    requires w.seqNumber == v.seqNumber && w.proc == SBody(v.seqNumber, Body(sent, v.seqNumber)) && Waiting(w) == []
    ensures Served(w, sent, pushed)
  {
    BodiesOne(sent, v.seqNumber);
  }

  predicate TakesIn(a: ServerAct) { a.Delivers? || a.Queues? || a.PopsRequest? }

  lemma ServedKeepsRequest(s: State, a: ServerAct)
    requires ServerCan(s, a) && ServedKept(s) && Counted(s) && TakesIn(a)
    ensures ServedKept(ServerStep(s, a))
  {
    var v, sent, pushed := s.server, s.client.sent, s.dest.pushed;
    PipeCases(v);
    match a
    case Delivers(n) =>
      if n == v.seqNumber + 1 {
        assert Pipe(v) == [] && Waiting(v) == [];
        DeliveryServed(v, sent, pushed, v.(seqNumber := n, held := n, accepted := v.accepted + [n]));
      }
    case Queues =>
      assert Waiting(ServerStep(s, a).server) == Waiting(v);
    case PopsRequest =>
      PoppedServed(v, sent, pushed, v.(reqQueue := v.reqQueue[1..], proc := SBody(v.seqNumber, Body(sent, v.seqNumber))));
  }

  lemma PushedServed(v: Server, sent: seq<Bytes>, pushed: Bytes, n: nat, block: Bytes, rest: Bytes)
    requires Served(v, sent, pushed) && v.proc == SPush(n, block, rest)
    ensures Served(v.(proc := SBody(n, rest)), sent, pushed + block)
  {
    Assoc(pushed, block, rest);
  }

  lemma ReadServed(v: Server, sent: seq<Bytes>, pushed: Bytes, k: nat)
    requires Served(v, sent, pushed) && v.proc.SBody? && k <= |v.proc.rest|
    ensures Served(v.(proc := SPush(v.proc.n, v.proc.rest[..k], v.proc.rest[k..])), sent, pushed)
  {
    assert v.proc.rest == v.proc.rest[..k] + v.proc.rest[k..];
  }

  lemma ReadsBodyServed(s: State, k: nat)
    requires ServerCan(s, ReadsBody(k)) && ServedKept(s)
    ensures ServedKept(ServerStep(s, ReadsBody(k))) == true
  {
    ReadServed(s.server, s.client.sent, s.dest.pushed, k);
  }

  lemma PushesBodyServed(s: State)
    requires ServerCan(s, PushesBody) && ServedKept(s)
    ensures ServedKept(ServerStep(s, PushesBody)) == true
  {
    var v := s.server;
    PushedServed(v, s.client.sent, s.dest.pushed, v.proc.n, v.proc.block, v.proc.rest);
  }

  lemma SameServed(v: Server, w: Server, sent: seq<Bytes>, pushed: Bytes)
    requires Served(v, sent, pushed) && w.seqNumber == v.seqNumber
    requires ProcRest(w.proc) == ProcRest(v.proc) && Waiting(w) == Waiting(v)
    ensures Served(w, sent, pushed) == true
  {
  }

  /** The other steps leave what waits and what is left of the body. */
  lemma LeavesServed(s: State, a: ServerAct)
    requires ServerCan(s, a) && !TakesIn(a) && !a.ReadsBody? && !a.PushesBody?
    ensures var t := ServerStep(s, a);
      && t.server.seqNumber == s.server.seqNumber && t.server.reqQueue == s.server.reqQueue
      && t.server.held == s.server.held && ProcRest(t.server.proc) == ProcRest(s.server.proc)
      && t.client.sent == s.client.sent && t.dest.pushed == s.dest.pushed
  {
  }

  lemma ServedKeepsBody(s: State, a: ServerAct)
    requires ServerCan(s, a) && ServedKept(s) && !TakesIn(a)
    ensures ServedKept(ServerStep(s, a)) == true
  {
    if a.ReadsBody? {
      ReadsBodyServed(s, a.count);
    } else if a.PushesBody? {
      PushesBodyServed(s);
    } else {
      LeavesServed(s, a);
      SameServed(s.server, ServerStep(s, a).server, s.client.sent, s.dest.pushed);
    }
  }

  lemma SentServed(v: Server, sent: seq<Bytes>, pushed: Bytes, b: Bytes)
    requires Served(v, sent, pushed) && PipeCount(v)
    ensures Served(v, sent + [b], pushed)
  {
    PipeCases(v);
    BodiesGrow(sent, b, Waiting(v));
    assert (sent + [b])[..v.seqNumber] == sent[..v.seqNumber];
  }

  lemma ServedKeeps(s: State, a: Action)
    requires Can(s, a) && ServedKept(s) && Counted(s)
    ensures ServedKept(Apply(s, a)) == true
  {
    match a
    case Dest(d) => ProxyStepPopped(s.dest, d);
    case ClientActs(c) =>
      if c.Sends? {
        SentServed(s.server, s.client.sent, s.dest.pushed, s.client.proc.block);
      }
    case Serving(v) => if TakesIn(v) { ServedKeepsRequest(s, v); } else { ServedKeepsBody(s, v); }
    case _ =>
  }

  // ----- the destination to the responses -----

  function AnswerNums(a: Answer): seq<nat> { if a.TTake? || a.TEnd? then [] else [a.n] }
  function AnswerHand(a: Answer): Bytes { if a.TWrite? then a.block else [] }

  function ResPipe(v: Server): seq<nat> {
    AnswerNums(v.answer) + v.resQueue + (if v.proc.SQueue? then [v.proc.n] else [])
  }

  /** Responses are answered in order; those not begun are empty. */
  predicate ResCount(v: Server) {
    && v.finished <= |v.resp|
    && (v.answer.TEnd? ==> v.proc.SEnd?) && (AnswerNums(v.answer) != [] ==> v.answer.n > 0)
    && ResPipe(v) == Nums(v.finished, |v.resp|) + (if v.proc.SEnd? && !v.answer.TEnd? then [0] else [])
    && forall j | v.finished + |AnswerNums(v.answer)| <= j < |v.resp| :: v.resp[j] == []
  }

  predicate AnsweredKept(s: State) { s.dest.popped == Cat(s.server.resp) + AnswerHand(s.server.answer) }

  lemma {:induction false} CatEmpty(q: seq<Bytes>)
    requires forall j | 0 <= j < |q| :: q[j] == []
    ensures Cat(q) == []
  {
    if q != [] {
      CatEmpty(q[1..]);
    }
  }

  lemma {:induction false} CatWrite(q: seq<Bytes>, i: nat, b: Bytes)
    requires i < |q| && forall j | i < j < |q| :: q[j] == []
    ensures Cat(q[i := q[i] + b]) == Cat(q) + b
  {
    if i == 0 {
      CatEmpty(q[1..]);
      assert q[0 := q[0] + b][1..] == q[1..];
    } else {
      CatWrite(q[1..], i - 1, b);
      assert q[i := q[i] + b][1..] == q[1..][i - 1 := q[1..][i - 1] + b];
    }
  }

  /** The response being answered is the next one. */
  lemma AnswerCases(v: Server)
    requires ResCount(v)
    ensures AnswerNums(v.answer) != [] ==> v.answer.n == v.finished + 1 <= |v.resp|
    ensures v.answer.TTake? && v.resQueue != [] ==>
      if v.resQueue[0] == 0 then v.proc.SEnd? && v.resQueue == [0] && v.finished == |v.resp|
      else v.resQueue[0] == v.finished + 1 <= |v.resp|
  {
    if AnswerNums(v.answer) != [] {
      assert ResPipe(v)[0] == v.answer.n;
    } else if v.resQueue != [] {
      assert ResPipe(v)[0] == v.resQueue[0];
    }
  }

  /** The parts of the server that the responses depend on. */
  predicate SameAnswers(v: Server, w: Server) {
    && w.answer == v.answer && w.resQueue == v.resQueue && w.resp == v.resp && w.finished == v.finished
    && w.proc.SQueue? == v.proc.SQueue? && (w.proc.SQueue? ==> w.proc.n == v.proc.n)
    && w.proc.SEnd? == v.proc.SEnd?
  }

  predicate Asks(a: ServerAct) {
    || a.Starts? || a.QueuesResponse? || a.ServerFinishes?
  }

  predicate Answers(a: ServerAct) {
    || a.TakesRequest? || a.MeasuresQueue? || a.PopsData? || a.MissesData? || a.GuardsData?
    || a.TimesOut? || a.WritesData? || a.EndsResponse?
  }

  lemma PipeTake(q: seq<nat>, back: seq<nat>)
    requires q != []
    ensures [] + q + back == [q[0]] + q[1..] + back
  {
  }

  lemma PipeDrop(n: nat, q: seq<nat>, back: seq<nat>)
    ensures ([n] + q + back)[1..] == [] + q + back
  {
  }

  lemma PipeMove(front: seq<nat>, q: seq<nat>, n: nat)
    ensures front + (q + [n]) + [] == front + q + [n]
  {
  }

  lemma StartsCount(v: Server, n: nat)
    requires ResCount(v) && v.proc == SAlive(n) && n == |v.resp| + 1
    ensures ResCount(v.(resp := v.resp + [[]], proc := SQueue(n)))
  {
    NumsAdd(v.finished, |v.resp|);
    assert AnswerNums(v.answer) + v.resQueue + [] == AnswerNums(v.answer) + v.resQueue;
    assert Nums(v.finished, |v.resp|) + [] == Nums(v.finished, |v.resp|);
  }

  lemma ServerFinishesCount(v: Server)
    requires ResCount(v) && v.proc.SFinish?
    ensures ResCount(v.(resQueue := v.resQueue + [0], proc := SEnd))
  {
    PipeMove(AnswerNums(v.answer), v.resQueue, 0);
    assert AnswerNums(v.answer) + v.resQueue + [] == AnswerNums(v.answer) + v.resQueue;
    assert Nums(v.finished, |v.resp|) + [] == Nums(v.finished, |v.resp|);
  }

  lemma ResCountKeptProc(s: State, a: ServerAct)
    requires ServerCan(s, a) && ResCount(s.server) && PipeCount(s.server) && Asks(a)
    ensures ResCount(ServerStep(s, a).server) == true
  {
    var v := s.server;
    match a
    case Starts =>
      PipeCases(v);
      StartsCount(v, v.proc.n);
    case QueuesResponse => PipeMove(AnswerNums(v.answer), v.resQueue, v.proc.n);
    case ServerFinishes => ServerFinishesCount(v);
  }

  lemma TakesRequestCount(v: Server)
    requires ResCount(v) && v.answer.TTake? && v.resQueue != []
    ensures var n := v.resQueue[0];
      ResCount(v.(resQueue := v.resQueue[1..], answer := if n == 0 then TEnd else TLen(n)))
  {
    AnswerCases(v);
    if v.resQueue[0] != 0 {
      PipeTake(v.resQueue, if v.proc.SQueue? then [v.proc.n] else []);
    }
  }

  lemma EndsResponseCount(v: Server)
    requires ResCount(v) && v.answer.TLast?
    ensures ResCount(v.(finished := v.answer.n, answer := TTake))
  {
    AnswerCases(v);
    PipeDrop(v.answer.n, v.resQueue, if v.proc.SQueue? then [v.proc.n] else []);
  }

  lemma WritesDataCount(v: Server)
    requires ResCount(v) && v.answer.TWrite?
    ensures var n := v.answer.n;
      1 <= n <= |v.resp|
      && ResCount(v.(resp := v.resp[n - 1 := v.resp[n - 1] + v.answer.block], answer := TTry(n, false)))
  {
    AnswerCases(v);
  }

  lemma ResCountKeptAnswer(s: State, a: ServerAct)
    requires ServerCan(s, a) && ResCount(s.server) && Answers(a)
    ensures ResCount(ServerStep(s, a).server) == true
  {
    match a
    case TakesRequest => TakesRequestCount(s.server);
    case EndsResponse => EndsResponseCount(s.server);
    case WritesData => WritesDataCount(s.server);
    case _ =>
  }

  lemma ResCountKept(s: State, a: ServerAct)
    requires ServerCan(s, a) && ResCount(s.server) && PipeCount(s.server)
    ensures ResCount(ServerStep(s, a).server)
  {
    if Asks(a) {
      ResCountKeptProc(s, a);
    } else if Answers(a) {
      ResCountKeptAnswer(s, a);
    } else {
      assert SameAnswers(s.server, ServerStep(s, a).server);
    }
  }

  lemma AnsweredKeepsServer(s: State, a: ServerAct)
    requires ServerCan(s, a) && AnsweredKept(s) && ResCount(s.server)
    ensures AnsweredKept(ServerStep(s, a))
  {
    AnswerCases(s.server);
    match a
    case Starts => CatAdd(s.server.resp, []);
    case WritesData => CatWrite(s.server.resp, s.server.answer.n - 1, s.server.answer.block);
    case _ =>
  }

  lemma AnsweredKeeps(s: State, a: Action)
    requires Can(s, a) && AnsweredKept(s) && ResCount(s.server)
    ensures AnsweredKept(Apply(s, a))
  {
    match a
    case Dest(d) => ProxyStepPopped(s.dest, d);
    case Serving(v) => AnsweredKeepsServer(s, v);
    case _ =>
  }

  // ----- the responses at the client -----

  function RecvNums(r: ClientRecv): seq<nat> { if r.CReading? || r.CPush? then [r.n] else [] }

  function RespPipe(c: Client): seq<nat> {
    RecvNums(c.recv) + c.respQ + (if c.proc.PPushing? then [c.got] else [])
  }

  /** Responses are taken in order, each once. */
  predicate RespCount(c: Client) {
    && c.done <= c.got
    && (c.recv.CEnd? ==> c.proc.PEnd?) && (RecvNums(c.recv) != [] ==> c.recv.n > 0)
    && RespPipe(c) == Nums(c.done, c.got) + (if c.proc.PEnd? && !c.recv.CEnd? then [0] else [])
  }

  function Position(c: Client): nat { if c.recv.CReading? || c.recv.CPush? then c.recv.pos else 0 }

  /** The bytes of the responses up to `pos` in the response behind the first `done`. */
  function Upto(resp: seq<Bytes>, done: nat, pos: nat): Bytes
    requires done <= |resp| && (done < |resp| ==> pos <= |resp[done]|)
  { Cat(resp[..done]) + (if done < |resp| then resp[done][..pos] else []) }

  predicate ReadUpto(c: Client, resp: seq<Bytes>) {
    && c.done <= |resp| && (c.done < |resp| ==> Position(c) <= |resp[c.done]|)
    && c.consumed == Upto(resp, c.done, Position(c))
  }

  predicate Consumed(c: Client, v: Server) {
    RespCount(c) && c.done <= v.finished && ReadUpto(c, v.resp)
  }

  predicate ConsumedKept(s: State) { Consumed(s.client, s.server) }

  lemma RecvCases(c: Client)
    requires RespCount(c)
    ensures RecvNums(c.recv) != [] ==> c.recv.n == c.done + 1 <= c.got
    ensures c.recv.CRange? && c.respQ != [] ==>
      if c.respQ[0] == 0 then c.proc.PEnd? && c.respQ == [0] && c.done == c.got
      else c.respQ[0] == c.done + 1 <= c.got
  {
    if RecvNums(c.recv) != [] {
      assert RespPipe(c)[0] == c.recv.n;
    } else if c.respQ != [] {
      assert RespPipe(c)[0] == c.respQ[0];
    }
  }

  lemma FinishesCount(c: Client)
    requires RespCount(c) && c.proc.PFinish?
    ensures RespCount(c.(respQ := c.respQ + [0], proc := PEnd))
  {
    PipeMove(RecvNums(c.recv), c.respQ, 0);
    assert RecvNums(c.recv) + c.respQ + [] == RecvNums(c.recv) + c.respQ;
    assert Nums(c.done, c.got) + [] == Nums(c.done, c.got);
  }

  lemma TakesResponseCount(c: Client)
    requires RespCount(c) && c.recv.CRange? && c.respQ != []
    ensures RespCount(c.(respQ := c.respQ[1..], recv := if c.respQ[0] == 0 then CEnd else CReading(c.respQ[0], 0)))
  {
    RecvCases(c);
    if c.respQ[0] != 0 {
      PipeTake(c.respQ, if c.proc.PPushing? then [c.got] else []);
    }
  }

  lemma RespCountKept(c: Client, a: ClientAct)
    requires ClientCan(c, a) && RespCount(c)
    ensures RespCount(ClientStep(c, a))
  {
    match a
    case PushesResponse => PipeMove(RecvNums(c.recv), c.respQ, c.got);
    case Finishes => FinishesCount(c);
    case TakesResponse => TakesResponseCount(c);
    case _ => RespCountStays(c, a);
  }

  lemma RespCountStays(c: Client, a: ClientAct)
    requires ClientCan(c, a) && RespCount(c) && !a.PushesResponse? && !a.Finishes? && !a.TakesResponse?
    ensures RespCount(ClientStep(c, a)) == true
  {
    assert RespPipe(ClientStep(c, a)) == RespPipe(c);
  }

  lemma PositionKept(c: Client, a: ClientAct)
    requires ClientCan(c, a)
    ensures Position(ClientStep(c, a)) == Position(c) && ClientStep(c, a).done == c.done
    ensures ClientStep(c, a).consumed == c.consumed && ClientStep(c, a).got == c.got
  {
  }

  /** Writing to a response does not change what was read before. */
  lemma UptoKept(resp: seq<Bytes>, i: nat, b: Bytes, done: nat, pos: nat)
    requires done <= i < |resp| && pos <= |resp[done]|
    ensures Upto(resp[i := resp[i] + b], done, pos) == Upto(resp, done, pos)
  {
    assert resp[i := resp[i] + b][..done] == resp[..done];
  }

  lemma StartedUpto(c: Client, resp: seq<Bytes>)
    requires ReadUpto(c, resp) && (c.done == |resp| ==> Position(c) == 0)
    ensures ReadUpto(c, resp + [[]])
  {
    assert (resp + [[]])[..c.done] == resp[..c.done];
  }

  lemma WrittenUpto(c: Client, resp: seq<Bytes>, i: nat, b: Bytes)
    requires ReadUpto(c, resp) && c.done <= i < |resp|
    ensures ReadUpto(c, resp[i := resp[i] + b])
  {
    UptoKept(resp, i, b, c.done, Position(c));
  }

  lemma UptoServer(s: State, a: ServerAct)
    requires ServerCan(s, a) && ResCount(s.server) && ConsumedKept(s) && s.client.got <= |s.server.resp|
    ensures ReadUpto(s.client, ServerStep(s, a).server.resp)
    ensures s.client.done <= ServerStep(s, a).server.finished
  {
    var v, c := s.server, s.client;
    if a.Starts? {
      RecvCases(c);
      StartedUpto(c, v.resp);
    } else if a.WritesData? {
      AnswerCases(v);
      WrittenUpto(c, v.resp, v.answer.n - 1, v.answer.block);
    } else if a.EndsResponse? {
      AnswerCases(v);
    }
  }

  lemma ReadMore(c: Client, resp: seq<Bytes>, k: nat)
    requires ReadUpto(c, resp) && c.recv.CReading? && c.recv.n == c.done + 1 <= |resp|
    requires c.recv.pos + k <= |resp[c.done]|
    ensures var b := resp[c.done][c.recv.pos..c.recv.pos + k];
      ReadUpto(c.(consumed := c.consumed + b, recv := CPush(c.recv.n, c.recv.pos + k, b)), resp)
  {
    var body, p := resp[c.done], c.recv.pos;
    assert body[..p + k] == body[..p] + body[p..p + k];
  }

  lemma ReadAll(c: Client, resp: seq<Bytes>)
    requires ReadUpto(c, resp) && c.recv.CReading? && c.recv.n == c.done + 1 <= |resp|
    requires c.recv.pos == |resp[c.done]|
    ensures ReadUpto(c.(done := c.done + 1, recv := CCount), resp)
  {
    CatAdd(resp[..c.done], resp[c.done]);
    assert resp[..c.done + 1] == resp[..c.done] + [resp[c.done]];
    assert resp[c.done][..c.recv.pos] == resp[c.done];
  }

  lemma AnsweredCount(c: Client)
    requires RespCount(c) && c.proc.PSending? && |c.sent| == c.got + 1
    ensures RespCount(c.(got := |c.sent|, proc := PPushing))
  {
    NumsAdd(c.done, c.got);
    assert RecvNums(c.recv) + c.respQ + [] == RecvNums(c.recv) + c.respQ;
    assert Nums(c.done, c.got) + [] == Nums(c.done, c.got);
  }

  lemma ReadCount(c: Client)
    requires RespCount(c) && c.recv.CReading?
    ensures RespCount(c.(done := c.done + 1, recv := CCount))
  {
    RecvCases(c);
    PipeDrop(c.recv.n, c.respQ, if c.proc.PPushing? then [c.got] else []);
  }

  lemma ClientActsConsumed(c: Client, v: Server, a: ClientAct)
    requires ClientCan(c, a) && Consumed(c, v)
    ensures Consumed(ClientStep(c, a), v) == true
  {
    RespCountKept(c, a);
    PositionKept(c, a);
  }

  lemma ReadsConsumed(c: Client, v: Server, k: nat)
    requires Consumed(c, v) && c.got <= |v.resp| && c.recv.CReading? && 1 <= c.recv.n <= |v.resp|
    requires c.recv.pos + k <= |v.resp[c.recv.n - 1]|
    ensures var b := v.resp[c.recv.n - 1][c.recv.pos..c.recv.pos + k];
      Consumed(c.(consumed := c.consumed + b, recv := CPush(c.recv.n, c.recv.pos + k, b)), v)
  {
    RecvCases(c);
    ReadMore(c, v.resp, k);
  }

  lemma EndsConsumed(c: Client, v: Server)
    requires Consumed(c, v) && c.got <= |v.resp| && c.recv.CReading? && 1 <= c.recv.n <= v.finished
    requires c.recv.n <= |v.resp| && c.recv.pos == |v.resp[c.recv.n - 1]|
    ensures Consumed(c.(done := c.done + 1, recv := CCount), v)
  {
    RecvCases(c);
    ReadAll(c, v.resp);
    ReadCount(c);
  }

  lemma LinkConsumed(s: State, a: LinkAct)
    requires LinkCan(s, a) && ConsumedKept(s)
    ensures ConsumedKept(LinkStep(s, a))
  {
    var c, d := s.client, LinkStep(s, a).client;
    assert d == c.(sendQ := d.sendQ, accepted := d.accepted, recvQ := d.recvQ, handed := d.handed);
    assert RespPipe(d) == RespPipe(c) && Position(d) == Position(c);
  }

  lemma ServerConsumed(s: State, a: ServerAct)
    requires ServerCan(s, a) && ResCount(s.server) && ConsumedKept(s) && s.client.got <= |s.server.resp|
    ensures ConsumedKept(ServerStep(s, a))
  {
    UptoServer(s, a);
    assert ServerStep(s, a).client == s.client;
  }

  lemma ConsumedKeepsClient(s: State, a: Action)
    requires Can(s, a) && Counted(s) && ConsumedKept(s)
    requires a.ClientActs? || a.Answered? || a.ReadsResponse? || a.EndsReading?
    ensures ConsumedKept(Apply(s, a)) == true
  {
    match a
    case ClientActs(x) => ActConsumed(s, x);
    case Answered => AnsweredConsumed(s);
    case ReadsResponse(k) => ReadingConsumed(s, k);
    case EndsReading => EndingConsumed(s);
  }

  lemma ActConsumed(s: State, x: ClientAct)
    requires Can(s, ClientActs(x)) && ConsumedKept(s)
    ensures ConsumedKept(Apply(s, ClientActs(x))) == true
  {
    ClientActsConsumed(s.client, s.server, x);
  }

  lemma AnsweredConsumed(s: State)
    requires Can(s, Answered) && Counted(s) && ConsumedKept(s)
    ensures ConsumedKept(Apply(s, Answered)) == true
  {
    AnsweredCount(s.client);
  }

  lemma ReadingConsumed(s: State, k: nat)
    requires Can(s, ReadsResponse(k)) && Counted(s) && ConsumedKept(s)
    ensures ConsumedKept(Apply(s, ReadsResponse(k))) == true
  {
    ReadsConsumed(s.client, s.server, k);
  }

  lemma EndingConsumed(s: State)
    requires Can(s, EndsReading) && Counted(s) && ConsumedKept(s)
    ensures ConsumedKept(Apply(s, EndsReading)) == true
  {
    EndsConsumed(s.client, s.server);
  }

  lemma ConsumedKeeps(s: State, a: Action)
    requires Can(s, a) && Counted(s) && ResCount(s.server) && ConsumedKept(s)
    ensures ConsumedKept(Apply(s, a)) == true
  {
    match a
    case Serving(v) => ServerConsumed(s, v);
    case Linking(l) => LinkConsumed(s, l);
    case Local(_) =>
    case Dest(_) =>
    case _ => ConsumedKeepsClient(s, a);
  }

  // ----- whole runs -----

  predicate Inv(s: State) {
    && EndsKept(s) && UpKept(s) && DownKept(s) && Counted(s) && ServedKept(s)
    && ResCount(s.server) && AnsweredKept(s) && ConsumedKept(s) && Polling(s.client)
  }

  lemma InitInv()
    ensures Inv(INIT)
  {
  }

  lemma InvKept(s: State, a: Action)
    requires Can(s, a) && Inv(s)
    ensures Inv(Apply(s, a)) == true
  {
    EndsKeep(s, a);
    UpKeeps(s, a);
    DownKeeps(s, a);
    CountedKept(s, a);
    ServedKeeps(s, a);
    ResCountKeeps(s, a);
    AnsweredKeeps(s, a);
    ConsumedKeeps(s, a);
    PollingKept(s, a);
  }

  lemma ResCountKeeps(s: State, a: Action)
    requires Can(s, a) && ResCount(s.server) && PipeCount(s.server)
    ensures ResCount(Apply(s, a).server)
  {
    if a.Serving? {
      ResCountKept(s, a.v);
    } else {
      assert Apply(s, a).server == s.server;
    }
  }

  lemma {:induction false} RunKeeps(s: State, acts: seq<Action>)
    requires IsRun(s, acts) && Inv(s)
    ensures Inv(After(s, acts)) == true
    decreases |acts|
  {
    if acts != [] {
      InvKept(s, acts[0]);
      RunKeeps(Apply(s, acts[0]), acts[1..]);
    }
  }

  lemma {:induction false} CatSplit(q: seq<Bytes>, i: nat)
    requires i <= |q|
    ensures Cat(q) == Cat(q[..i]) + Cat(q[i..])
  {
    if i > 0 {
      CatSplit(q[1..], i - 1);
      assert q[..i][1..] == q[1..][..i - 1] && q[1..][i - 1..] == q[i..];
      Assoc(q[0], Cat(q[1..][..i - 1]), Cat(q[i..]));
    } else {
      assert q[..0] == [] && q[0..] == q;
    }
  }

  /** Everything read from the local socket and not yet written to the destination, in order:
      the hands and queues of the destination proxy and the server, requests sent but not
      accepted, and the hands and queues of the client and the local proxy. */
  function UpFlight(s: State): Bytes
    requires s.server.seqNumber <= |s.client.sent|
  {
    WriterHand(s.dest) + Cat(s.dest.sendQ)
    + ProcRest(s.server.proc) + Bodies(s.client.sent, Waiting(s.server))
    + Cat(s.client.sent[s.server.seqNumber..])
    + ProcHand(s.client.proc) + Cat(s.client.sendQ)
    + UpHand(s.link.up)
    + Cat(s.local.recvQ) + ReaderHand(s.local)
  }

  lemma UpFlow(s: State)
    requires Inv(s)
    ensures s.local.read == s.dest.written + UpFlight(s)
  {
    CatSplit(s.client.sent, s.server.seqNumber);
    UpSum(s.local.read, s.local.popped, Cat(s.local.recvQ), ReaderHand(s.local),
          s.client.accepted, UpHand(s.link.up), Cat(s.client.sent), ProcHand(s.client.proc), Cat(s.client.sendQ),
          Cat(s.client.sent[..s.server.seqNumber]), Cat(s.client.sent[s.server.seqNumber..]),
          s.dest.pushed, ProcRest(s.server.proc), Bodies(s.client.sent, Waiting(s.server)),
          s.dest.written, WriterHand(s.dest), Cat(s.dest.sendQ));
  }

  lemma UpSum(read: Bytes, popped: Bytes, recvQ: Bytes, reader: Bytes,
              accepted: Bytes, up: Bytes, sent: Bytes, proc: Bytes, sendQ: Bytes, old_: Bytes, new_: Bytes,
              pushed: Bytes, rest: Bytes, waiting: Bytes, written: Bytes, writer: Bytes, outQ: Bytes)
    requires read == popped + recvQ + reader && popped == accepted + up
    requires accepted == sent + proc + sendQ && sent == old_ + new_
    requires old_ == pushed + rest + waiting && pushed == written + writer + outQ
    ensures read == written + (writer + outQ + rest + waiting + new_ + proc + sendQ + up + recvQ + reader)
  {
    assert sent == written + (writer + outQ + rest + waiting + new_);
    assert accepted == written + (writer + outQ + rest + waiting + new_ + proc + sendQ);
    assert popped == written + (writer + outQ + rest + waiting + new_ + proc + sendQ + up);
  }

  /** Upstream safety, in every run: whatever is delayed, reordered, repeated or dropped, and
      across failures and destruction, the bytes written to the destination are a prefix
      of the bytes read from the local socket, the difference is exactly what is in flight,
      and the server accepts requests 1, 2, 3, ... in order, each once. */
  lemma UpstreamSafety(acts: seq<Action>)
    requires IsRun(INIT, acts)
    ensures var s := After(INIT, acts);
      && s.server.seqNumber <= |s.client.sent|
      && s.local.read == s.dest.written + UpFlight(s)
      && s.dest.written <= s.local.read
      && s.server.accepted == Nums(0, s.server.seqNumber)
  {
    InitInv();
    RunKeeps(INIT, acts);
    UpFlow(After(INIT, acts));
  }

  /** What the client has not read of the responses. */
  function Unread(resp: seq<Bytes>, done: nat, pos: nat): Bytes
    requires done <= |resp| && (done < |resp| ==> pos <= |resp[done]|)
  { if done < |resp| then resp[done][pos..] + Cat(resp[done + 1..]) else [] }

  lemma UptoUnread(resp: seq<Bytes>, done: nat, pos: nat)
    requires done <= |resp| && (done < |resp| ==> pos <= |resp[done]|)
    ensures Cat(resp) == Upto(resp, done, pos) + Unread(resp, done, pos)
  {
    CatSplit(resp, done);
    if done < |resp| {
      assert resp[done] == resp[done][..pos] + resp[done][pos..];
      assert resp[done..][1..] == resp[done + 1..];
      Assoc(Cat(resp[..done]) + resp[done][..pos], resp[done][pos..], Cat(resp[done + 1..]));
      Assoc(Cat(resp[..done]), resp[done][..pos], resp[done][pos..]);
      Assoc(Cat(resp[..done]), resp[done], Cat(resp[done + 1..]));
    } else {
      assert resp[done..] == [] && resp[..done] == resp;
    }
  }

  /** The same for the other direction. */
  function DownFlight(s: State): Bytes
    requires ReadUpto(s.client, s.server.resp)
  {
    WriterHand(s.local) + Cat(s.local.sendQ)
    + DownHand(s.link.down)
    + Cat(s.client.recvQ) + RecvHand(s.client.recv)
    + Unread(s.server.resp, s.client.done, Position(s.client))
    + AnswerHand(s.server.answer)
    + Cat(s.dest.recvQ) + ReaderHand(s.dest)
  }

  lemma DownSum(read: Bytes, popped: Bytes, recvQ: Bytes, reader: Bytes, resp: Bytes, answer: Bytes,
                consumed: Bytes, unread: Bytes, handed: Bytes, inQ: Bytes, recv: Bytes,
                pushed: Bytes, down: Bytes, written: Bytes, writer: Bytes, outQ: Bytes)
    requires read == popped + recvQ + reader && popped == resp + answer && resp == consumed + unread
    requires consumed == handed + inQ + recv && handed == pushed + down && pushed == written + writer + outQ
    ensures read == written + (writer + outQ + down + inQ + recv + unread + answer + recvQ + reader)
  {
    assert consumed == written + (writer + outQ + down + inQ + recv);
    assert popped == written + (writer + outQ + down + inQ + recv + unread + answer);
  }

  lemma DownFlow(s: State)
    requires Inv(s)
    ensures ReadUpto(s.client, s.server.resp) && s.dest.read == s.local.written + DownFlight(s)
  {
    UptoUnread(s.server.resp, s.client.done, Position(s.client));
    DownSum(s.dest.read, s.dest.popped, Cat(s.dest.recvQ), ReaderHand(s.dest), Cat(s.server.resp),
            AnswerHand(s.server.answer), s.client.consumed, Unread(s.server.resp, s.client.done, Position(s.client)),
            s.client.handed, Cat(s.client.recvQ), RecvHand(s.client.recv), s.local.pushed, DownHand(s.link.down),
            s.local.written, WriterHand(s.local), Cat(s.local.sendQ));
  }

  /** Downstream safety, in every run: the bytes written to the local socket are a prefix of
      the bytes read from the destination, however the responses cut them up and however the
      long polls time out, and the difference is exactly what is in flight. */
  lemma DownstreamSafety(acts: seq<Action>)
    requires IsRun(INIT, acts)
    ensures var s := After(INIT, acts);
      && ReadUpto(s.client, s.server.resp)
      && s.dest.read == s.local.written + DownFlight(s)
      && s.local.written <= s.dest.read
  {
    InitInv();
    RunKeeps(INIT, acts);
    DownFlow(After(INIT, acts));
  }

  /** The poll token, in every run: as long as the client is alive, a nop is queued, or
      processLoop starts or is inside sendData, or a response is queued or held. */
  lemma PollTokenNeverLost(acts: seq<Action>)
    requires IsRun(INIT, acts)
    ensures PollToken(After(INIT, acts).client)
  {
    InitInv();
    RunKeeps(INIT, acts);
  }

  /** No more than one request waits at the server, so that queueing it under the lock never
      blocks, and the client runs at most one request ahead of the responses it has got. */
  lemma OneRequestAtATime(acts: seq<Action>)
    requires IsRun(INIT, acts)
    ensures var s := After(INIT, acts);
      && |Pipe(s.server)| <= 1 && (s.server.held != 0 ==> Room(s.server.reqQueue))
      && s.client.got <= |s.server.resp| <= s.server.seqNumber <= |s.client.sent| <= s.client.got + 1
  {
    InitInv();
    RunKeeps(INIT, acts);
    PipeCases(After(INIT, acts).server);
  }
}
