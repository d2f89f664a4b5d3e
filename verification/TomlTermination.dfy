/** When nextItem returns: always, except in the two loops of the lexer. */
module TomlTermination {
  import opened Iteration
  import opened TomlLexer
  import opened TomlLexerProofs
  import opened TomlLoops
  import opened TomlArrayText

  /** The number of calls nextItem makes, or would make to get stuck. */
  function CallCount(l: Live): nat
    requires PhaseOf(l) != Done
    decreases Measure(l)
  {
    if Stuck(l) then 0
    else
      FetchRound(l);
      if Step(l).items == [] then 1 + CallCount(Step(l)) else 1
  }

  /** What `n` is when `f` is fetched: the queued item, or a loop. */
  predicate Arrives(f: Fetched, n: Lex) {
    if f.Spins? then n.items == [] && Stuck(n) else Announces(f, n)
  }

  lemma {:induction false} CallsFetch(l: Live)
    requires PhaseOf(l) != Done
    ensures Arrives(Fetch(l), Rounds(l, CallCount(l))) == true
    ensures CallCount(l) <= Measure(l)
    decreases Measure(l)
  {
    if !Stuck(l) {
      FetchRound(l);
      var n := Step(l);
      assert n == Round(l);
      if n.items == [] {
        CallsFetch(n);
      } else {
        assert Rounds(l, 1) == Rounds(n, 0) == n;
      }
    }
  }

  /** Once an item is queued, or a loop reached, calls change nothing. */
  lemma Settled(l: Lex, j: nat, k: nat)
    requires j <= k && (Rounds(l, j).items != [] || Stuck(Rounds(l, j)))
    ensures Rounds(l, k) == Rounds(l, j)
  {
    var m := Rounds(l, j);
    if m.items == [] {
      StuckStays(m);
    }
    IterateOn(Round, j, k, l);
  }

  /** From every configuration in which the parser can ask for an item: nextItem returns, after
      a bounded number of calls, unless the text ahead leads into one of the two loops; and there
      no number of calls yields an item. */
  lemma ReturnsExactly(l: Live)
    requires PhaseOf(l) != Done
    ensures !Loops(l) <==> exists k :: Rounds(l, k).items != []
    ensures Loops(l) <==> exists k :: Rounds(l, k).items == [] && Stuck(Rounds(l, k))
    ensures CallCount(l) <= Measure(l) && Arrives(Fetch(l), Rounds(l, CallCount(l)))
  {
    CallsFetch(l);
    SpinsExactly(l);
    var c := CallCount(l);
    var n := Rounds(l, c);
    forall k
      ensures Fetch(l).Spins? ==> Rounds(l, k).items == []
      ensures !Fetch(l).Spins? ==> !(Rounds(l, k).items == [] && Stuck(Rounds(l, k)))
    {
      var m := Rounds(l, k);
      if m.items != [] || Stuck(m) {
        if k <= c { Settled(l, k, c); } else { Settled(l, c, k); }
      }
    }
    assert n.items != [] || (n.items == [] && Stuck(n));
  }

  lemma ItemsOf(l: Lex, n: Lex)
    requires StepOk(l, n)
    ensures |n.items| <= 2 && (n.items != [] && n.items[0].typ == ItemError ==> n.items[0].val != NO_STATES)
  {
  }

  /** A call queues no more than two items, and only into an empty queue, so that the channel of
      ten never blocks; and the stack never runs dry. */
  lemma ChannelSuffices(l: Live)
    requires PhaseOf(l) != Done && !Stuck(l)
    ensures var n := Step(l);
      |n.items| <= 2 && (n.items != [] && n.items[0].typ == ItemError ==> n.items[0].val != NO_STATES)
  {
    StepKeeps(l);
    ItemsOf(l, Step(l));
  }
}
