/** A symbol offered twice on one day: when the second candidate overwrites the position of the
    first, which then yields no trade. */
module SwingOverwrites {
  import opened Prelude
  import opened SwingTypes
  import opened SwingPools
  import opened SwingEngine
  import opened SwingBookkeeping

  // ---------------------------------------------------------------- the state while candidates are tried

  /** The book and the number of positions opened today. */
  datatype Turn = Turn(book: seq<Position>, count: nat)

  /** Neither the day nor the book is full, and the candidate's notional fits the equity. */
  predicate CanOpen(env: Env, c: EntryCandidate, equity: real, t: Turn) {
    !DayFull(env.params, t.book, t.count) && OpenNotional(t.book) + c.Notional() <= equity
  }

  function Try(env: Env, c: EntryCandidate, equity: real, t: Turn): Turn
    requires Listed(env.prepared, c.Symbol(), c.template.entryDate)
  {
    if CanOpen(env, c, equity, t) then Turn(Put(t.book, MakePosition(env, c)), t.count + 1) else t
  }

  /** The state after the candidates have been tried. */
  function TryAll(env: Env, cs: seq<EntryCandidate>, equity: real, t: Turn): Turn
    requires AllListed(env.prepared, cs)
  {
    if cs == [] then t else TryAll(env, cs[1..], equity, Try(env, cs[0], equity, t))
  }

  // ---------------------------------------------------------------- what is held afterwards

  lemma {:induction false} PutHolds(ps: seq<Position>, p: Position, s: Symbol)
    ensures Held(Put(ps, p), s) <==> s == p.Symbol() || Held(ps, s)
    decreases |ps|
  {
    if ps == [] {
      assert Put(ps, p)[0] == p;
    } else {
      HeldFirst(ps, s);
      HeldFirst(Put(ps, p), s);
      PutHolds(ps[1..], p, s);
    }
  }

  lemma HeldFirst(ps: seq<Position>, s: Symbol)
    requires ps != []
    ensures Held(ps, s) <==> ps[0].Symbol() == s || Held(ps[1..], s)
  {
    if Held(ps, s) {
      var i :| 0 <= i < |ps| && ps[i].Symbol() == s;
      assert i > 0 ==> ps[1..][i - 1].Symbol() == s;
    }
    if Held(ps[1..], s) {
      var i :| 0 <= i < |ps[1..]| && ps[1..][i].Symbol() == s;
      assert ps[i + 1].Symbol() == s;
    }
  }

  lemma HeldAfter(env: Env, c: EntryCandidate, equity: real, t: Turn, s: Symbol)
    requires Listed(env.prepared, c.Symbol(), c.template.entryDate)
    ensures Held(Try(env, c, equity, t).book, s) <==> Held(t.book, s) || (s == c.Symbol() && CanOpen(env, c, equity, t))
  {
    if CanOpen(env, c, equity, t) {
      PutHolds(t.book, MakePosition(env, c), s);
    }
  }

  // ---------------------------------------------------------------- what is overwritten

  /** The positions that a list of candidates overwrites. */
  function Overwritten(env: Env, cs: seq<EntryCandidate>, equity: real, t: Turn): seq<Position>
    requires AllListed(env.prepared, cs)
  {
    DisplacedPositions(OpenAll(env, cs, equity, t.book, t.count).openings)
  }

  lemma {:induction false} FullOverwritesNothing(env: Env, cs: seq<EntryCandidate>, equity: real, t: Turn, i: nat)
    requires AllListed(env.prepared, cs) && DayFull(env.params, t.book, t.count) && i <= |cs|
    ensures Overwritten(env, cs, equity, t) == [] && TryAll(env, cs[..i], equity, t) == t
    decreases |cs|
  {
    if i == 0 {
    } else {
      assert cs[..i][0] == cs[0] && cs[..i][1..] == cs[1..][..i - 1];
      FullOverwritesNothing(env, cs[1..], equity, t, i - 1);
    }
  }

  /** The first candidate overwrites a position exactly when it opens on a symbol that is held. */
  lemma {:induction false} FirstOverwrites(env: Env, cs: seq<EntryCandidate>, equity: real, t: Turn)
    requires AllListed(env.prepared, cs) && cs != []
    ensures var lost := Overwritten(env, cs[1..], equity, Try(env, cs[0], equity, t));
            Overwritten(env, cs, equity, t) ==
            if CanOpen(env, cs[0], equity, t) then Displaced(t.book, cs[0].Symbol()) + lost else lost
  {
    if CanOpen(env, cs[0], equity, t) {
      var p := MakePosition(env, cs[0]);
      var first := Opening(p, equity, t.book, Displaced(t.book, p.Symbol()));
      var next := Try(env, cs[0], equity, t);
      DisplacedConcat([first], OpenAll(env, cs[1..], equity, next.book, next.count).openings);
      assert [first][..0] == [];
      assert DisplacedPositions([first]) == DisplacedPositions([]) + first.displaced;
    } else if DayFull(env.params, t.book, t.count) {
      FullOverwritesNothing(env, cs[1..], equity, t, 0);
    }
  }

  /** Candidate i opens when its turn comes. */
  predicate OpensAt(env: Env, cs: seq<EntryCandidate>, equity: real, t: Turn, i: nat)
    requires AllListed(env.prepared, cs) && i < |cs|
  {
    CanOpen(env, cs[i], equity, TryAll(env, cs[..i], equity, t))
  }

  lemma OpensLater(env: Env, cs: seq<EntryCandidate>, equity: real, t: Turn, i: nat)
    requires AllListed(env.prepared, cs) && 0 < i < |cs|
    ensures OpensAt(env, cs, equity, t, i) <==> OpensAt(env, cs[1..], equity, Try(env, cs[0], equity, t), i - 1)
  {
    assert cs[..i][0] == cs[0] && cs[..i][1..] == cs[1..][..i - 1];
  }

  /** Candidate j opens on a symbol that was held from the start or that candidate i opened. */
  ghost predicate Overwrites(env: Env, cs: seq<EntryCandidate>, equity: real, t: Turn, j: nat)
    requires AllListed(env.prepared, cs) && j < |cs|
  {
    && OpensAt(env, cs, equity, t, j)
    && (Held(t.book, cs[j].Symbol()) ||
        exists i: nat :: i < j && cs[i].Symbol() == cs[j].Symbol() && OpensAt(env, cs, equity, t, i))
  }

  lemma {:induction false} OverwritesLater(env: Env, cs: seq<EntryCandidate>, equity: real, t: Turn, j: nat)
    requires AllListed(env.prepared, cs) && 0 < j < |cs|
    ensures Overwrites(env, cs, equity, t, j) <==>
            Overwrites(env, cs[1..], equity, Try(env, cs[0], equity, t), j - 1)
  {
    var next := Try(env, cs[0], equity, t);
    OpensLater(env, cs, equity, t, j);
    HeldAfter(env, cs[0], equity, t, cs[j].Symbol());
    assert TryAll(env, cs[..0], equity, t) == t;
    assert OpensAt(env, cs, equity, t, 0) <==> CanOpen(env, cs[0], equity, t);
    forall i: nat | 0 < i < j
      ensures OpensAt(env, cs, equity, t, i) <==> OpensAt(env, cs[1..], equity, next, i - 1)
    {
      OpensLater(env, cs, equity, t, i);
    }
    if i: nat :| i < j && cs[i].Symbol() == cs[j].Symbol() && OpensAt(env, cs, equity, t, i) {
      if i > 0 {
        assert cs[1..][i - 1].Symbol() == cs[1..][j - 1].Symbol() && OpensAt(env, cs[1..], equity, next, i - 1);
      }
    }
    if i: nat :| i < j - 1 && cs[1..][i].Symbol() == cs[j].Symbol() && OpensAt(env, cs[1..], equity, next, i) {
      assert cs[i + 1].Symbol() == cs[j].Symbol() && OpensAt(env, cs, equity, t, i + 1);
    }
  }

  /** A day loses a position exactly when some candidate opens at its turn on a symbol that is held
      or that an earlier candidate of the day opened: for any book, count and list of candidates. */
  lemma {:induction false} DayLosesPosition(env: Env, cs: seq<EntryCandidate>, equity: real, t: Turn)
    requires AllListed(env.prepared, cs)
    ensures Overwritten(env, cs, equity, t) != [] <==>
            exists j: nat :: j < |cs| && Overwrites(env, cs, equity, t, j)
    decreases |cs|
  {
    if cs == [] {
    } else {
      var next := Try(env, cs[0], equity, t);
      FirstOverwrites(env, cs, equity, t);
      DisplacedHeld(t.book, cs[0].Symbol());
      DayLosesPosition(env, cs[1..], equity, next);
      assert TryAll(env, cs[..0], equity, t) == t;
      assert Overwrites(env, cs, equity, t, 0) <==> CanOpen(env, cs[0], equity, t) && Held(t.book, cs[0].Symbol());
      if j: nat :| j < |cs| && Overwrites(env, cs, equity, t, j) {
        if j > 0 {
          OverwritesLater(env, cs, equity, t, j);
        }
      }
      if j: nat :| j < |cs[1..]| && Overwrites(env, cs[1..], equity, next, j) {
        OverwritesLater(env, cs, equity, t, j + 1);
      }
    }
  }

  // ---------------------------------------------------------------- copies next to each other

  lemma {:induction false} PutNew(ps: seq<Position>, p: Position)
    requires !Held(ps, p.Symbol())
    ensures |Put(ps, p)| == |ps| + 1 && OpenNotional(Put(ps, p)) == OpenNotional(ps) + p.entry.Notional()
    decreases |ps|
  {
    if ps == [] {
      assert Put(ps, p)[1..] == [];
    } else {
      HeldFirst(ps, p.Symbol());
      PutNew(ps[1..], p);
      assert Put(ps, p)[1..] == Put(ps[1..], p);
    }
  }

  predicate RoomFor(limit: Option<int>, n: int) { limit.Some? ==> n <= limit.value }

  /** Two candidates of a free symbol in a row both open, and so lose a position, exactly when the
      day, the book and the equity have room for two. */
  lemma {:induction false} CopiesOverwrite(env: Env, cs: seq<EntryCandidate>, equity: real, t: Turn, i: nat)
    requires AllListed(env.prepared, cs) && i + 1 < |cs| && cs[i + 1].Symbol() == cs[i].Symbol()
    requires cs[i + 1].Notional() >= 0.0
    requires !Held(TryAll(env, cs[..i], equity, t).book, cs[i].Symbol())
    ensures var at := TryAll(env, cs[..i], equity, t);
            OpensAt(env, cs, equity, t, i) && OpensAt(env, cs, equity, t, i + 1) <==>
            && RoomFor(env.params.maxNewPositionsPerDay, at.count + 2)
            && |at.book| + 2 <= env.params.maxPositions
            && OpenNotional(at.book) + cs[i].Notional() + cs[i + 1].Notional() <= equity
    ensures OpensAt(env, cs, equity, t, i) && OpensAt(env, cs, equity, t, i + 1) ==>
            Overwritten(env, cs, equity, t) != []
  {
    var at := TryAll(env, cs[..i], equity, t);
    TryOneMore(env, cs, equity, t, i);
    if CanOpen(env, cs[i], equity, at) {
      PutNew(at.book, MakePosition(env, cs[i]));
    }
    if OpensAt(env, cs, equity, t, i) && OpensAt(env, cs, equity, t, i + 1) {
      assert Overwrites(env, cs, equity, t, i + 1);
      DayLosesPosition(env, cs, equity, t);
    }
  }

  lemma {:induction false} TryOneMore(env: Env, cs: seq<EntryCandidate>, equity: real, t: Turn, i: nat)
    requires AllListed(env.prepared, cs) && i < |cs|
    ensures TryAll(env, cs[..i + 1], equity, t) == Try(env, cs[i], equity, TryAll(env, cs[..i], equity, t))
    decreases i
  {
    assert cs[..i + 1][0] == cs[0] && cs[..i + 1][1..] == cs[1..][..i];
    if i == 0 {
      assert cs[..0] == [] && cs[1..][..0] == [];
    } else {
      assert cs[..i][0] == cs[0] && cs[..i][1..] == cs[1..][..i - 1];
      TryOneMore(env, cs[1..], equity, Try(env, cs[0], equity, t), i - 1);
    }
  }

  // ---------------------------------------------------------------- whole runs

  /** The state in which the day's candidates are tried. */
  ghost function AtEntries(env: Env, d: Date, st: State): State
    requires ValidEnv(env)
  {
    if env.stress.exitBeforeEntryAtOpen then ExitPhase(env, d, st) else st
  }

  /** On date d some candidate opens although its symbol has been opened earlier on the day. */
  ghost predicate OpensTwice(env: Env, d: Date, st: State)
    requires ValidEnv(env)
  {
    var at := AtEntries(env, d, st);
    var cs := env.offer(d, at.equity, at.positions, at.rng).1;
    AllListed(env.prepared, cs) && exists i: nat, j: nat :: i < j < |cs| && SameOpened(env, cs, at, i, j)
  }

  predicate SameOpened(env: Env, cs: seq<EntryCandidate>, at: State, i: nat, j: nat)
    requires AllListed(env.prepared, cs) && i < j < |cs|
  {
    && cs[i].Symbol() == cs[j].Symbol()
    && OpensAt(env, cs, at.equity, Turn(at.positions, 0), i) && OpensAt(env, cs, at.equity, Turn(at.positions, 0), j)
  }

  /** A day that starts from a book without the candidates' symbols overwrites only what it opened itself. */
  lemma {:induction false} DayOverwritesOwn(env: Env, cs: seq<EntryCandidate>, at: State)
    requires AllListed(env.prepared, cs) && forall j: nat :: j < |cs| ==> !Held(at.positions, cs[j].Symbol())
    ensures Overwritten(env, cs, at.equity, Turn(at.positions, 0)) != [] <==>
            exists i: nat, j: nat :: i < j < |cs| && SameOpened(env, cs, at, i, j)
  {
    var t := Turn(at.positions, 0);
    DayLosesPosition(env, cs, at.equity, t);
    if i: nat, j: nat :| i < j < |cs| && SameOpened(env, cs, at, i, j) {
      assert Overwrites(env, cs, at.equity, t, j);
    }
    if j: nat :| j < |cs| && Overwrites(env, cs, at.equity, t, j) {
      var i: nat :| i < j && cs[i].Symbol() == cs[j].Symbol() && OpensAt(env, cs, at.equity, t, i);
      assert SameOpened(env, cs, at, i, j);
    }
  }

  lemma {:induction false} StepLoses(env: Env, d: Date, st: State, next: State)
    requires ValidEnv(env) && next == StepDay(env, d, st)
    ensures NoneDisplaced(next) <==> NoneDisplaced(st) && !OpensTwice(env, d, st)
  {
    var at := AtEntries(env, d, st);
    var cs := env.offer(d, at.equity, at.positions, at.rng).1;
    OfferListed(env, d, at.equity, at.positions, at.rng);
    var added := OpenAll(env, cs, at.equity, at.positions, 0).openings;
    assert next.openings == st.openings + added;
    DisplacedConcat(st.openings, added);
    forall j: nat | j < |cs| ensures !Held(at.positions, cs[j].Symbol()) {
      assert cs[j] in cs;
    }
    DayOverwritesOwn(env, cs, at);
  }

  /** What each step may break holds at the end exactly when no step breaks it. */
  lemma {:induction false} KeptThroughout(kept: seq<bool>, keeps: seq<bool>)
    requires |kept| == |keeps| + 1 && kept[0]
    requires forall j :: 0 <= j < |keeps| ==> (kept[j + 1] <==> kept[j] && keeps[j])
    ensures kept[|keeps|] <==> forall j :: 0 <= j < |keeps| ==> keeps[j]
    decreases |keeps|
  {
    if keeps == [] {
    } else {
      var n := |keeps| - 1;
      KeptThroughout(kept[..n + 1], keeps[..n]);
      assert kept[n + 1] <==> kept[n] && keeps[n];
    }
  }

  ghost predicate OpensTwiceOn(env: Env, cal: seq<Date>, run: seq<State>, j: nat)
    requires ValidEnv(env) && |run| == |cal| + 1 && j < |cal|
  {
    OpensTwice(env, cal[j], run[j])
  }

  lemma {:induction false} StepOnLoses(env: Env, cal: seq<Date>, run: seq<State>, j: nat)
    requires ValidEnv(env) && IsRun(env, cal, run) && j < |cal|
    ensures NoneDisplaced(run[j + 1]) <==> NoneDisplaced(run[j]) && !OpensTwiceOn(env, cal, run, j)
  {
    assert StepAt(env, cal, run, j);
    StepLoses(env, cal[j], run[j], run[j + 1]);
  }

  lemma {:induction false} RunLoses(env: Env, cal: seq<Date>, run: seq<State>)
    requires ValidEnv(env) && IsRun(env, cal, run)
    ensures NoneDisplaced(run[|cal|]) <==> forall j: nat :: j < |cal| ==> !OpensTwiceOn(env, cal, run, j)
  {
    var kept := seq(|run|, (j: int) requires 0 <= j < |run| => NoneDisplaced(run[j]));
    var keeps := seq(|cal|, (j: int) requires 0 <= j < |cal| => !OpensTwiceOn(env, cal, run, j));
    forall j | 0 <= j < |cal| ensures kept[j + 1] <==> kept[j] && keeps[j] {
      StepOnLoses(env, cal, run, j);
    }
    KeptThroughout(kept, keeps);
    if j: nat :| j < |cal| && OpensTwiceOn(env, cal, run, j) {
      assert !keeps[j];
    }
  }

  /** The report has one trade for every opening exactly when on no date a symbol is opened twice.
      For any source of candidates. */
  lemma OneTradePerOpening(env: Env, cal: seq<Date>, run: seq<State>)
    requires ValidEnv(env) && IsRun(env, cal, run)
    ensures var st := run[|run| - 1];
            && PositionsListed(env, st.positions)
            && (multiset(PositionsOf(Report(env, st))) == multiset(OpenedPositions(st.openings)) <==>
                forall k: nat :: k < |cal| ==> !OpensTwiceOn(env, cal, run, k))
  {
    var st := run[|run| - 1];
    EveryOpeningYieldsOneTrade(env, cal, run);
    RunLoses(env, cal, run);
    BagDifference(PositionsOf(Report(env, st)), DisplacedPositions(st.openings), OpenedPositions(st.openings));
  }

  lemma BagDifference<T>(a: seq<T>, b: seq<T>, c: seq<T>)
    requires multiset(a) + multiset(b) == multiset(c)
    ensures multiset(a) == multiset(c) <==> b == []
  {
    assert |multiset(a)| + |multiset(b)| == |multiset(c)|;
  }
}
