/** The program's own candidate source, and the whole simulation as a loop. */
module SwingProgram {
  import opened Sorting
  import opened SwingTypes
  import opened SwingPools
  import opened SwingEntries
  import opened SwingSchedule
  import opened SwingEngine

  function Source(c: Config): (Date, real, seq<Position>, int) -> (int, seq<EntryCandidate>) {
    (d: Date, equity: real, ps: seq<Position>, rng: int) => EntriesOn(c, d, equity, ps, rng)
  }

  function ProgramEnv(c: Config, stress: ExecutionStress, seed: int): Env {
    Env(c.prepared, c.params, stress, seed, Source(c))
  }

  /** The whole program on prepared bars, its schedule included. */
  function Program(prepared: seq<BarSeries>, options: Options, stress: ExecutionStress, seed: int): Env {
    ProgramEnv(ConfigOf(prepared, options, seed), stress, seed)
  }

  /** For every baseline kind and selection order the program offers good candidates only. */
  lemma {:induction false} ProgramIsValid(c: Config, stress: ExecutionStress, seed: int)
    requires ValidPrepared(c.prepared) && ValidOracle(c.oracle)
    ensures ValidEnv(ProgramEnv(c, stress, seed))
    ensures !c.kind.SymbolMatchedRandomDate? ==> DistinctOffers(ProgramEnv(c, stress, seed))
  {
    var env := ProgramEnv(c, stress, seed);
    forall d, equity, ps, rng, e | e in env.offer(d, equity, ps, rng).1 ensures GoodCandidate(env, d, equity, ps, e) {
      EntryIsGood(c, stress, seed, d, equity, ps, rng, e);
    }
    if !c.kind.SymbolMatchedRandomDate? {
      forall d, equity, ps, rng ensures DistinctBy(CandidateSymbol, env.offer(d, equity, ps, rng).1) {
        EntriesDistinct(c, d, equity, ps, rng);
      }
    }
  }

  lemma {:induction false} EntryIsGood(c: Config, stress: ExecutionStress, seed: int, d: Date, equity: real,
                                       ps: seq<Position>, rng: int, e: EntryCandidate)
    requires ValidPrepared(c.prepared) && ValidOracle(c.oracle)
    requires e in EntriesOn(c, d, equity, ps, rng).1
    ensures GoodCandidate(ProgramEnv(c, stress, seed), d, equity, ps, e)
  {
    EntriesFromPool(c, d, equity, ps, rng);
    PoolMember(c.prepared, c.params, d, e.template);
    PoolTarget(c, d, e.template);
  }
}
