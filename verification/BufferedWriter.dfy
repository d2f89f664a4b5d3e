/** The buffered writer over bufio.Writer: what reaches the inner writer, and in which pieces.
    The inner writer does not fail. */
module BufferedWriter {
  import opened Sequences

  type Bytes = string

  /** `out` is the list of writes the inner writer has received. */
  datatype Buffered = Buffered(size: nat, buffer: Bytes, out: seq<Bytes>)

  // ----- bufio.Writer -----

  function Available(b: Buffered): int { b.size - |b.buffer| }

  function FlushInner(b: Buffered): Buffered {
    if b.buffer == "" then b else b.(buffer := "", out := b.out + [b.buffer])
  }

  /** bufio's Write: fills and flushes the buffer as long as `p` does not fit, and passes `p` on
      directly when the buffer is empty. */
  function BufioWrite(b: Buffered, p: Bytes): Buffered
    decreases |p|, |b.buffer|
  {
    var n := Available(b);
    if |p| <= n then b.(buffer := b.buffer + p)
    else if b.buffer == "" then b.(out := b.out + [p])
    else if n <= 0 then BufioWrite(FlushInner(b), p)
    else BufioWrite(FlushInner(b.(buffer := b.buffer + p[..n])), p[n..])
  }

  // ----- bufferedWriter -----

  function AfterWrite(b: Buffered, m: Bytes): Buffered {
    if |m| > b.size then var f := FlushInner(b); f.(out := f.out + [m])
    else BufioWrite(if |m| > Available(b) then FlushInner(b) else b, m)
  }

  /** The count Write returns. */
  function Reported(b: Buffered, m: Bytes): nat { if |m| > b.size then |b.buffer| + |m| else |m| }

  /** The count is that of the message exactly when nothing was buffered or the message fits into
      an empty buffer: a larger message is reported together with the bytes flushed before it. */
  lemma ReportedExactly(b: Buffered, m: Bytes)
    ensures Reported(b, m) == |m| <==> (|m| <= b.size || b.buffer == "")
    ensures Reported(b, m) - |m| == (if |m| <= b.size then 0 else |Concat(AfterWrite(b, m).out)| - |Concat(b.out)| - |m|)
  {
    if |m| > b.size {
      var f := FlushInner(b);
      ConcatOne(f.out, m);
      if b.buffer != "" {
        ConcatOne(b.out, b.buffer);
      }
    }
  }

  datatype Op = Writes(m: Bytes) | Flushes

  function Run(b: Buffered, ops: seq<Op>): Buffered
    decreases |ops|
  {
    if ops == [] then b
    else Run(match ops[0] case Writes(m) => AfterWrite(b, m) case Flushes => FlushInner(b), ops[1..])
  }

  function Messages(ops: seq<Op>): seq<Bytes> {
    if ops == [] then [] else (if ops[0].Writes? then [ops[0].m] else []) + Messages(ops[1..])
  }

  // ----- whole messages -----

  function Concat(ms: seq<Bytes>): Bytes { if ms == [] then "" else ms[0] + Concat(ms[1..]) }

  lemma {:induction false} ConcatAppend(a: seq<Bytes>, b: seq<Bytes>)
    ensures Concat(a + b) == Concat(a) + Concat(b)
  {
    if a == [] {
      assert a + b == b;
      assert "" + Concat(b) == Concat(b);
    } else {
      ConcatAppend(a[1..], b);
      assert (a + b)[0] == a[0] && (a + b)[1..] == a[1..] + b;
      Assoc(a[0], Concat(a[1..]), Concat(b));
    }
  }

  lemma ConcatOne(a: seq<Bytes>, m: Bytes)
    ensures Concat(a + [m]) == Concat(a) + m
  {
    ConcatAppend(a, [m]);
    assert Concat([m]) == m + "" == m;
  }

  function Flatten(groups: seq<seq<Bytes>>): seq<Bytes> {
    if groups == [] then [] else groups[0] + Flatten(groups[1..])
  }

  lemma {:induction false} FlattenAppend(groups: seq<seq<Bytes>>, g: seq<Bytes>)
    ensures Flatten(groups + [g]) == Flatten(groups) + g
  {
    if groups == [] {
      assert groups + [g] == [g];
    } else {
      FlattenAppend(groups[1..], g);
      assert (groups + [g])[1..] == groups[1..] + [g];
    }
  }

  /** Each inner write is the concatenation of a group of whole messages, the buffer that of the
      messages behind them, all in order, and the buffer is not overfull. */
  predicate Holds(b: Buffered, groups: seq<seq<Bytes>>, pending: seq<Bytes>, all: seq<Bytes>) {
    && |b.buffer| <= b.size && b.buffer == Concat(pending)
    && |b.out| == |groups| && (forall i | 0 <= i < |groups| :: b.out[i] == Concat(groups[i]))
    && Flatten(groups) + pending == all
  }

  lemma FlushHolds(b: Buffered, groups: seq<seq<Bytes>>, pending: seq<Bytes>, all: seq<Bytes>)
    returns (gs: seq<seq<Bytes>>, ps: seq<Bytes>)
    requires Holds(b, groups, pending, all)
    ensures Holds(FlushInner(b), gs, ps, all) && FlushInner(b).buffer == ""
  {
    gs, ps := groups, pending;
    if b.buffer != "" {
      gs, ps := groups + [pending], [];
      FlattenAppend(groups, pending);
      assert Flatten(gs) + [] == Flatten(gs);
    }
  }

  lemma WriteHolds(b: Buffered, groups: seq<seq<Bytes>>, pending: seq<Bytes>, all: seq<Bytes>, m: Bytes)
    returns (gs: seq<seq<Bytes>>, ps: seq<Bytes>)
    requires Holds(b, groups, pending, all)
    ensures Holds(AfterWrite(b, m), gs, ps, all + [m])
  {
    gs, ps := groups, pending;
    var f := b;
    if |m| > Available(b) {
      gs, ps := FlushHolds(b, groups, pending, all);
      f := FlushInner(b);
    }
    if |m| > b.size {
      FlattenAppend(gs, ps + [m]);
      ConcatAppend(ps, [m]);
      assert Concat([m]) == m by { assert [m][1..] == [] && m + "" == m; }
      assert "" + m == m;
      assert Flatten(gs) + (ps + [m]) == all + [m];
      gs, ps := gs + [ps + [m]], [];
      assert Flatten(gs) + [] == Flatten(gs);
    } else {
      ConcatAppend(ps, [m]);
      assert Concat([m]) == m by { assert [m][1..] == [] && m + "" == m; }
      assert Flatten(gs) + (ps + [m]) == Flatten(gs) + ps + [m];
      ps := ps + [m];
    }
  }

  /** Over any sequence of writes and flushes. */
  lemma {:induction false} RunHolds(b: Buffered, groups: seq<seq<Bytes>>, pending: seq<Bytes>, all: seq<Bytes>, ops: seq<Op>)
    returns (gs: seq<seq<Bytes>>, ps: seq<Bytes>)
    requires Holds(b, groups, pending, all)
    ensures Holds(Run(b, ops), gs, ps, all + Messages(ops))
    decreases |ops|
  {
    if ops == [] {
      gs, ps := groups, pending;
      assert all + [] == all;
    } else {
      match ops[0]
      case Flushes =>
        gs, ps := FlushHolds(b, groups, pending, all);
        gs, ps := RunHolds(FlushInner(b), gs, ps, all, ops[1..]);
        assert Messages(ops) == Messages(ops[1..]) by { assert [] + Messages(ops[1..]) == Messages(ops[1..]); }
      case Writes(m) =>
        gs, ps := WriteHolds(b, groups, pending, all, m);
        gs, ps := RunHolds(AfterWrite(b, m), gs, ps, all + [m], ops[1..]);
        Assoc(all, [m], Messages(ops[1..]));
    }
  }

  lemma {:induction false} GroupsConcat(out: seq<Bytes>, groups: seq<seq<Bytes>>)
    requires |out| == |groups| && forall i | 0 <= i < |groups| :: out[i] == Concat(groups[i])
    ensures Concat(out) == Concat(Flatten(groups))
  {
    if groups != [] {
      ConcatAppend(groups[0], Flatten(groups[1..]));
      GroupsConcat(out[1..], groups[1..]);
    }
  }

  /** The stream law: what the inner writer received, followed by the buffer, is what was
      written; the buffer never exceeds its size; and no message is split between writes. */
  lemma StreamLaw(size: nat, ops: seq<Op>)
    ensures var b := Run(Buffered(size, "", []), ops);
      && Concat(b.out) + b.buffer == Concat(Messages(ops))
      && |b.buffer| <= size
      && exists groups, pending :: Holds(b, groups, pending, Messages(ops))
  {
    var gs, ps := RunHolds(Buffered(size, "", []), [], [], [], ops);
    assert [] + Messages(ops) == Messages(ops);
    var b := Run(Buffered(size, "", []), ops);
    GroupsConcat(b.out, gs);
    ConcatAppend(Flatten(gs), ps);
    RunSize(Buffered(size, "", []), ops);
  }

  lemma {:induction false} RunSize(b: Buffered, ops: seq<Op>)
    requires |b.buffer| <= b.size
    ensures Run(b, ops).size == b.size
    decreases |ops|
  {
    if ops != [] {
      match ops[0]
      case Flushes => RunSize(FlushInner(b), ops[1..]);
      case Writes(m) => RunSize(AfterWrite(b, m), ops[1..]);
    }
  }

  lemma FlushConcat(b: Buffered)
    ensures Concat(FlushInner(b).out) + FlushInner(b).buffer == Concat(b.out) + b.buffer && FlushInner(b).buffer == ""
    ensures FlushInner(b).size == b.size
  {
    if b.buffer != "" {
      ConcatOne(b.out, b.buffer);
      assert Concat(b.out) + b.buffer + "" == Concat(b.out) + b.buffer;
    }
  }

  /** The library's Write by itself, whatever is buffered: it loses nothing and fills no more than the buffer. */
  lemma {:induction false} BufioKeeps(b: Buffered, p: Bytes)
    requires |b.buffer| <= b.size
    ensures var w := BufioWrite(b, p);
      Concat(w.out) + w.buffer == Concat(b.out) + b.buffer + p && |w.buffer| <= b.size
    decreases |p|, |b.buffer|
  {
    var n := Available(b);
    if |p| <= n {
      Assoc(Concat(b.out), b.buffer, p);
    } else if b.buffer == "" {
      ConcatOne(b.out, p);
    } else if n <= 0 {
      FlushConcat(b);
      BufioKeeps(FlushInner(b), p);
    } else {
      var f := b.(buffer := b.buffer + p[..n]);
      FlushConcat(f);
      BufioKeeps(FlushInner(f), p[n..]);
      assert p == p[..n] + p[n..];
      assert Concat(b.out) + (b.buffer + p[..n]) + p[n..] == Concat(b.out) + b.buffer + (p[..n] + p[n..]);
    }
  }

  // ----- when the inner writer is called -----

  /** A message that fits the space left only reaches the buffer; one that fits the empty buffer
      sends off what was buffered before it, as one write; a larger one is passed on by itself, behind
      what was buffered. */
  lemma WriteExactly(b: Buffered, m: Bytes)
    requires |b.buffer| <= b.size
    ensures var w := AfterWrite(b, m); var before := if b.buffer == "" then b.out else b.out + [b.buffer];
      && (|b.buffer| + |m| <= b.size ==> w.out == b.out && w.buffer == b.buffer + m)
      && (|b.buffer| + |m| > b.size >= |m| ==> w.out == b.out + [b.buffer] && w.buffer == m)
      && (|m| > b.size ==> w.out == before + [m] && w.buffer == "")
  {
    assert "" + m == m;
  }

  /** Two inner writes in a row, and the last one with the buffer, are more than the buffer takes. */
  predicate Packed(b: Buffered) {
    && (forall i | 0 < i < |b.out| :: |b.out[i - 1]| + |b.out[i]| > b.size)
    && (b.out != [] ==> |b.out[|b.out| - 1]| + |b.buffer| > b.size)
  }

  lemma WritePacks(b: Buffered, m: Bytes)
    requires |b.buffer| <= b.size && Packed(b)
    ensures Packed(AfterWrite(b, m)) == true && |AfterWrite(b, m).buffer| <= b.size && AfterWrite(b, m).size == b.size
  {
    WriteExactly(b, m);
  }

  /** Without flushes from outside, no inner write could have waited for the next one. */
  lemma {:induction false} RunPacks(b: Buffered, ops: seq<Op>)
    requires |b.buffer| <= b.size && Packed(b) && forall i | 0 <= i < |ops| :: ops[i].Writes?
    ensures Packed(Run(b, ops)) == true
    decreases |ops|
  {
    if ops != [] {
      WritePacks(b, ops[0].m);
      RunPacks(AfterWrite(b, ops[0].m), ops[1..]);
    }
  }

  class BufferedWriterObject {
    const bufferSize: nat
    var buffer: Bytes
    var inner: seq<Bytes>

    constructor (size: nat)
      requires size > 0
      ensures View() == Buffered(size, "", [])
    {
      bufferSize, buffer, inner := size, "", [];
    }

    function View(): Buffered
      reads this
    { Buffered(bufferSize, buffer, inner) }

    method FlushBuffer()
      modifies this
      ensures View() == FlushInner(old(View()))
    {
      if |buffer| > 0 {
        inner := inner + [buffer];
        buffer := "";
      }
    }

    /** bufio's Write */
    method BufferWrite(bytes: Bytes)
      requires |buffer| <= bufferSize
      modifies this
      ensures View() == BufioWrite(old(View()), bytes)
    {
      var p := bytes;
      while |p| > bufferSize - |buffer|
        invariant |buffer| <= bufferSize
        invariant BufioWrite(View(), p) == BufioWrite(old(View()), bytes)
        decreases |p|, |buffer|
      {
        if |buffer| == 0 {
          inner := inner + [p];
          return;
        }
        var n := bufferSize - |buffer|;
        assert n == 0 ==> buffer + p[..n] == buffer && p[n..] == p;
        buffer := buffer + p[..n];
        p := p[n..];
        FlushBuffer();
      }
      buffer := buffer + p;
    }

    method WriteBigChunk(bytes: Bytes) returns (n: nat)
      modifies this
      ensures View() == var f := FlushInner(old(View())); f.(out := f.out + [bytes])
      ensures n == old(|buffer|) + |bytes|
    {
      var bufferedLen := |buffer|;
      FlushBuffer();
      inner := inner + [bytes];
      n := bufferedLen + |bytes|;
    }

    method Write(bytes: Bytes) returns (n: nat)
      requires |buffer| <= bufferSize
      modifies this
      ensures View() == AfterWrite(old(View()), bytes) && |buffer| <= bufferSize
      ensures n == Reported(old(View()), bytes)
    {
      if |bytes| > bufferSize {
        n := WriteBigChunk(bytes);
        return;
      }
      if |bytes| > bufferSize - |buffer| {
        FlushBuffer();
      }
      BufferWrite(bytes);
      n := |bytes|;
    }

    method Flush()
      modifies this
      ensures View() == FlushInner(old(View()))
    {
      FlushBuffer();
    }
  }
}
