/** Hash-chained ledgers: every row stores the digest of its own body, and its body stores the
    digest of the row before it. The hash is any function from bodies to digests. */
module LedgerChain {
  import opened Prelude

  datatype Record<B> = Record(body: B, digest: Option<int>)

  // ---------------------------------------------------------------- chains

  /** Row i carries its own digest and points to the row before it. */
  predicate LinkAt<B(==)>(rows: seq<Record<B>>, i: nat, hash: B -> int, prev: B -> Option<int>)
    requires i < |rows|
  {
    rows[i].digest == Some(hash(rows[i].body)) &&
    prev(rows[i].body) == if i == 0 then None else rows[i - 1].digest
  }

  predicate Linked<B(==)>(rows: seq<Record<B>>, hash: B -> int, prev: B -> Option<int>) {
    forall i :: 0 <= i < |rows| ==> LinkAt(rows, i, hash, prev)
  }

  lemma LinkedPrefix<B>(rows: seq<Record<B>>, n: nat, hash: B -> int, prev: B -> Option<int>)
    requires Linked(rows, hash, prev) && n <= |rows|
    ensures Linked(rows[..n], hash, prev)
  {
    forall i | 0 <= i < n ensures LinkAt(rows[..n], i, hash, prev) {
      assert LinkAt(rows, i, hash, prev);
    }
  }

  ghost predicate Collide<B>(b: B, c: B, hash: B -> int) { b != c && hash(b) == hash(c) }

  /** Two chains with the same last digest are the same chain, row for row and in length, or they
      exhibit two bodies with the same hash. Nothing is assumed of the hash. */
  lemma {:induction false} SameHeadSameChainOrCollision<B>(rows: seq<Record<B>>, others: seq<Record<B>>,
                                                           hash: B -> int, prev: B -> Option<int>)
      returns (b: B, c: B)
    requires Linked(rows, hash, prev) && Linked(others, hash, prev)
    requires rows != [] && others != [] && rows[|rows| - 1].digest == others[|others| - 1].digest
    ensures rows == others || Collide(b, c, hash)
    decreases |rows|
  {
    var m, n := |rows| - 1, |others| - 1;
    assert LinkAt(rows, m, hash, prev) && LinkAt(others, n, hash, prev);
    b, c := rows[m].body, others[n].body;
    if b == c {
      assert rows[m] == others[n];
      assert m > 0 ==> LinkAt(rows, m - 1, hash, prev);
      assert n > 0 ==> LinkAt(others, n - 1, hash, prev);
      assert m > 0 <==> n > 0;
      if m > 0 {
        LinkedPrefix(rows, m, hash, prev);
        LinkedPrefix(others, n, hash, prev);
        b, c := SameHeadSameChainOrCollision(rows[..m], others[..n], hash, prev);
        if rows[..m] == others[..n] {
          assert rows == rows[..m] + [rows[m]] && others == others[..n] + [others[n]];
        }
      }
    }
  }

  /** With an injective hash the head digest fixes the whole history. */
  lemma HeadFixesHistory<B(!new)>(rows: seq<Record<B>>, others: seq<Record<B>>, hash: B -> int, prev: B -> Option<int>)
    requires forall b, c :: hash(b) == hash(c) ==> b == c
    requires Linked(rows, hash, prev) && Linked(others, hash, prev)
    requires rows != [] && others != [] && rows[|rows| - 1].digest == others[|others| - 1].digest
    ensures rows == others
  {
    var b, c := SameHeadSameChainOrCollision(rows, others, hash, prev);
  }

  /** Any change of an earlier row that keeps the head digest breaks the chain or shows a collision. */
  lemma TamperingShows<B>(rows: seq<Record<B>>, i: nat, row: Record<B>, hash: B -> int, prev: B -> Option<int>)
      returns (b: B, c: B)
    requires Linked(rows, hash, prev) && i < |rows| - 1 && row != rows[i]
    ensures !Linked(rows[i := row], hash, prev) || Collide(b, c, hash)
  {
    b, c := row.body, row.body;
    if Linked(rows[i := row], hash, prev) {
      b, c := SameHeadSameChainOrCollision(rows, rows[i := row], hash, prev);
      assert rows[i := row][i] == row;
    }
  }

  // ---------------------------------------------------------------- the source ledger

  /** Body of a source row; the date may fail to parse, and the content stands for all other fields. */
  datatype Source = Source(previous: Option<int>, signalDate: Option<int>, content: int)

  function PreviousRecord(s: Source): Option<int> { s.previous }

  datatype SourceError = NoRecordHash | HashMismatch | ChainMismatch
                         | UnreadableDate | DuplicateDate | DateNotIncreasing

  predicate DateSeen(rows: seq<Record<Source>>, i: nat, date: int)
    requires i <= |rows|
  {
    exists j :: 0 <= j < i && rows[j].body.signalDate == Some(date)
  }

  /** What is wrong with row i, given the rows before it. */
  function SourceFault(rows: seq<Record<Source>>, i: nat, hash: Source -> int): Option<SourceError>
    requires i < |rows|
  {
    var r := rows[i];
    if r.digest.None? then Some(NoRecordHash)
    else if hash(r.body) != r.digest.value then Some(HashMismatch)
    else if r.body.previous != (if i == 0 then None else rows[i - 1].digest) then Some(ChainMismatch)
    else if r.body.signalDate.None? then Some(UnreadableDate)
    else if DateSeen(rows, i, r.body.signalDate.value) then Some(DuplicateDate)
    else if i > 0 && rows[i - 1].body.signalDate.Some? && r.body.signalDate.value <= rows[i - 1].body.signalDate.value
    then Some(DateNotIncreasing)
    else None
  }

  /** The first fault from row i on, with its row. */
  function FirstSourceFault(rows: seq<Record<Source>>, i: nat, hash: Source -> int): Option<(nat, SourceError)>
    requires i <= |rows|
    decreases |rows| - i
  {
    if i == |rows| then None
    else if SourceFault(rows, i, hash).Some? then Some((i, SourceFault(rows, i, hash).value))
    else FirstSourceFault(rows, i + 1, hash)
  }

  method ValidateSourceChain(rows: seq<Record<Source>>, hash: Source -> int) returns (fault: Option<(nat, SourceError)>)
    ensures fault == FirstSourceFault(rows, 0, hash)
  {
    var previous: Option<int> := None;
    var previousDate: Option<int> := None;
    var seen: set<int> := {};
    for i := 0 to |rows|
      invariant FirstSourceFault(rows, 0, hash) == FirstSourceFault(rows, i, hash)
      invariant previous == if i == 0 then None else rows[i - 1].digest
      invariant previousDate == if i == 0 then None else rows[i - 1].body.signalDate
      invariant forall d :: d in seen <==> DateSeen(rows, i, d)
    {
      var r := rows[i];
      if r.digest.None? {
        return Some((i, NoRecordHash));
      }
      if hash(r.body) != r.digest.value {
        return Some((i, HashMismatch));
      }
      if r.body.previous != previous {
        return Some((i, ChainMismatch));
      }
      if r.body.signalDate.None? {
        return Some((i, UnreadableDate));
      }
      var date := r.body.signalDate.value;
      if date in seen {
        return Some((i, DuplicateDate));
      }
      if previousDate.Some? && date <= previousDate.value {
        return Some((i, DateNotIncreasing));
      }
      seen := seen + {date};
      previousDate := Some(date);
      previous := r.digest;
    }
    return None;
  }

  predicate DatesAscend(rows: seq<Record<Source>>) {
    && (forall i :: 0 <= i < |rows| ==> rows[i].body.signalDate.Some?)
    && forall i, j :: 0 <= i < j < |rows| ==> rows[i].body.signalDate.value < rows[j].body.signalDate.value
  }

  /** A valid source ledger: a chain whose dates strictly increase. */
  predicate SourceValid(rows: seq<Record<Source>>, hash: Source -> int) {
    Linked(rows, hash, PreviousRecord) && DatesAscend(rows)
  }

  lemma {:induction false} FaultFreeFrom(rows: seq<Record<Source>>, i: nat, hash: Source -> int)
    requires i <= |rows|
    ensures FirstSourceFault(rows, i, hash) == None <==>
                forall k :: i <= k < |rows| ==> SourceFault(rows, k, hash) == None
    decreases |rows| - i
  {
    if i == |rows| {
    } else {
      FaultFreeFrom(rows, i + 1, hash);
    }
  }

  lemma {:induction false} FaultFreeDatesAscend(rows: seq<Record<Source>>, n: nat, hash: Source -> int)
    requires n <= |rows| && forall k :: 0 <= k < |rows| ==> SourceFault(rows, k, hash) == None
    ensures forall i :: 0 <= i < n ==> rows[i].body.signalDate.Some?
    ensures forall i, j :: 0 <= i < j < n ==> rows[i].body.signalDate.value < rows[j].body.signalDate.value
  {
    assert n > 0 ==> SourceFault(rows, n - 1, hash) == None;
    if n <= 1 {
    } else {
      FaultFreeDatesAscend(rows, n - 1, hash);
    }
  }

  /** The validator accepts exactly the valid ledgers. */
  lemma SourceAcceptedIffValid(rows: seq<Record<Source>>, hash: Source -> int)
    ensures FirstSourceFault(rows, 0, hash) == None <==> SourceValid(rows, hash)
  {
    FaultFreeFrom(rows, 0, hash);
    if forall k :: 0 <= k < |rows| ==> SourceFault(rows, k, hash) == None {
      FaultFreeDatesAscend(rows, |rows|, hash);
      forall i | 0 <= i < |rows| ensures LinkAt(rows, i, hash, PreviousRecord) && rows[i].body.signalDate.Some? {
        assert SourceFault(rows, i, hash) == None;
      }
    }
    if SourceValid(rows, hash) {
      forall k | 0 <= k < |rows| ensures SourceFault(rows, k, hash) == None {
        assert LinkAt(rows, k, hash, PreviousRecord);
      }
    }
  }

  lemma SourcePrefix(rows: seq<Record<Source>>, n: nat, hash: Source -> int)
    requires SourceValid(rows, hash) && n <= |rows|
    ensures SourceValid(rows[..n], hash)
  {
    LinkedPrefix(rows, n, hash, PreviousRecord);
  }

  /** A further row keeps a ledger valid exactly when it is linked to the head and dated after it. */
  lemma SourceAppend(rows: seq<Record<Source>>, r: Record<Source>, hash: Source -> int)
    ensures SourceValid(rows + [r], hash) <==>
            && SourceValid(rows, hash) && r.digest == Some(hash(r.body)) && r.body.signalDate.Some?
            && r.body.previous == (if rows == [] then None else rows[|rows| - 1].digest)
            && (rows == [] || r.body.signalDate.value > rows[|rows| - 1].body.signalDate.value)
  {
    var all, n := rows + [r], |rows|;
    if SourceValid(all, hash) {
      LinkedPrefix(all, n, hash, PreviousRecord);
      assert all[..n] == rows;
      assert LinkAt(all, n, hash, PreviousRecord);
      forall i, j | 0 <= i < j < n ensures rows[i].body.signalDate.value < rows[j].body.signalDate.value {
        assert all[i].body.signalDate.value < all[j].body.signalDate.value;
      }
      assert forall i :: 0 <= i < n ==> rows[i] == all[i];
      assert n > 0 ==> all[n - 1].body.signalDate.value < all[n].body.signalDate.value;
    }
    if SourceValid(rows, hash) && r.digest == Some(hash(r.body)) && r.body.signalDate.Some? &&
       r.body.previous == (if rows == [] then None else rows[|rows| - 1].digest) &&
       (rows == [] || r.body.signalDate.value > rows[|rows| - 1].body.signalDate.value)
    {
      forall i | 0 <= i < |all| ensures LinkAt(all, i, hash, PreviousRecord) {
        if i < n { assert LinkAt(rows, i, hash, PreviousRecord); }
      }
    }
  }

  // ---------------------------------------------------------------- the outcome ledger

  /** Body of an outcome row: the finalized candidate of a source record, and all other fields. */
  datatype Outcome = Outcome(previous: Option<int>, source: int, candidate: int, content: int)

  function PreviousOutcome(o: Outcome): Option<int> { o.previous }

  function KeyOf(o: Outcome): (int, int) { (o.source, o.candidate) }

  datatype OutcomeError = NoOutcomeHash | OutcomeHashMismatch | OutcomeChainMismatch | DuplicateOutcome

  predicate KeySeen(rows: seq<Record<Outcome>>, i: nat, key: (int, int))
    requires i <= |rows|
  {
    exists j :: 0 <= j < i && KeyOf(rows[j].body) == key
  }

  function OutcomeFault(rows: seq<Record<Outcome>>, i: nat, hash: Outcome -> int): Option<OutcomeError>
    requires i < |rows|
  {
    var r := rows[i];
    if r.digest.None? then Some(NoOutcomeHash)
    else if hash(r.body) != r.digest.value then Some(OutcomeHashMismatch)
    else if r.body.previous != (if i == 0 then None else rows[i - 1].digest) then Some(OutcomeChainMismatch)
    else if KeySeen(rows, i, KeyOf(r.body)) then Some(DuplicateOutcome)
    else None
  }

  function FirstOutcomeFault(rows: seq<Record<Outcome>>, i: nat, hash: Outcome -> int): Option<(nat, OutcomeError)>
    requires i <= |rows|
    decreases |rows| - i
  {
    if i == |rows| then None
    else if OutcomeFault(rows, i, hash).Some? then Some((i, OutcomeFault(rows, i, hash).value))
    else FirstOutcomeFault(rows, i + 1, hash)
  }

  method ValidateOutcomeChain(rows: seq<Record<Outcome>>, hash: Outcome -> int)
    returns (fault: Option<(nat, OutcomeError)>)
    ensures fault == FirstOutcomeFault(rows, 0, hash)
  {
    var previous: Option<int> := None;
    var seen: set<(int, int)> := {};
    for i := 0 to |rows|
      invariant FirstOutcomeFault(rows, 0, hash) == FirstOutcomeFault(rows, i, hash)
      invariant previous == if i == 0 then None else rows[i - 1].digest
      invariant forall k :: k in seen <==> KeySeen(rows, i, k)
    {
      var r := rows[i];
      if r.digest.None? {
        return Some((i, NoOutcomeHash));
      }
      if hash(r.body) != r.digest.value {
        return Some((i, OutcomeHashMismatch));
      }
      if r.body.previous != previous {
        return Some((i, OutcomeChainMismatch));
      }
      var key := KeyOf(r.body);
      if key in seen {
        return Some((i, DuplicateOutcome));
      }
      seen := seen + {key};
      previous := r.digest;
    }
    return None;
  }

  /** Two outcomes of one candidate of one source record. */
  predicate SameCandidate(a: Outcome, b: Outcome) { a.source == b.source && a.candidate == b.candidate }

  predicate KeysOnce(rows: seq<Record<Outcome>>) {
    forall i, j :: 0 <= i < j < |rows| ==> !SameCandidate(rows[i].body, rows[j].body)
  }

  /** A valid outcome ledger: a chain in which no candidate is finalized twice. */
  predicate OutcomeValid(rows: seq<Record<Outcome>>, hash: Outcome -> int) {
    Linked(rows, hash, PreviousOutcome) && KeysOnce(rows)
  }

  lemma {:induction false} OutcomeFaultFreeFrom(rows: seq<Record<Outcome>>, i: nat, hash: Outcome -> int)
    requires i <= |rows|
    ensures FirstOutcomeFault(rows, i, hash) == None <==>
                forall k :: i <= k < |rows| ==> OutcomeFault(rows, k, hash) == None
    decreases |rows| - i
  {
    if i == |rows| {
    } else {
      OutcomeFaultFreeFrom(rows, i + 1, hash);
    }
  }

  lemma OutcomeAcceptedIffValid(rows: seq<Record<Outcome>>, hash: Outcome -> int)
    ensures FirstOutcomeFault(rows, 0, hash) == None <==> OutcomeValid(rows, hash)
  {
    OutcomeFaultFreeFrom(rows, 0, hash);
    if forall k :: 0 <= k < |rows| ==> OutcomeFault(rows, k, hash) == None {
      forall i | 0 <= i < |rows| ensures LinkAt(rows, i, hash, PreviousOutcome) {
        assert OutcomeFault(rows, i, hash) == None;
      }
      forall i, j | 0 <= i < j < |rows| ensures !SameCandidate(rows[i].body, rows[j].body) {
        assert OutcomeFault(rows, j, hash) == None;
      }
    }
    if OutcomeValid(rows, hash) {
      forall k | 0 <= k < |rows| ensures OutcomeFault(rows, k, hash) == None {
        assert LinkAt(rows, k, hash, PreviousOutcome);
      }
    }
  }

  lemma OutcomePrefix(rows: seq<Record<Outcome>>, n: nat, hash: Outcome -> int)
    requires OutcomeValid(rows, hash) && n <= |rows|
    ensures OutcomeValid(rows[..n], hash)
  {
    LinkedPrefix(rows, n, hash, PreviousOutcome);
  }

  /** A further outcome keeps a ledger valid exactly when it is linked to the head and its candidate has
      no outcome yet. */
  lemma OutcomeAppend(rows: seq<Record<Outcome>>, r: Record<Outcome>, hash: Outcome -> int)
    ensures OutcomeValid(rows + [r], hash) <==>
            && OutcomeValid(rows, hash) && r.digest == Some(hash(r.body))
            && r.body.previous == (if rows == [] then None else rows[|rows| - 1].digest)
            && forall i :: 0 <= i < |rows| ==> !SameCandidate(rows[i].body, r.body)
  {
    var all, n := rows + [r], |rows|;
    if OutcomeValid(all, hash) {
      LinkedPrefix(all, n, hash, PreviousOutcome);
      assert all[..n] == rows;
      assert LinkAt(all, n, hash, PreviousOutcome);
      assert forall i :: 0 <= i < n ==> rows[i] == all[i];
      forall i | 0 <= i < n ensures !SameCandidate(rows[i].body, r.body) {
        assert !SameCandidate(all[i].body, all[n].body);
      }
      forall i, j | 0 <= i < j < n ensures !SameCandidate(rows[i].body, rows[j].body) {
        assert !SameCandidate(all[i].body, all[j].body);
      }
    }
    if OutcomeValid(rows, hash) && r.digest == Some(hash(r.body)) &&
       r.body.previous == (if rows == [] then None else rows[|rows| - 1].digest) &&
       forall i :: 0 <= i < n ==> !SameCandidate(rows[i].body, r.body)
    {
      forall i | 0 <= i < |all| ensures LinkAt(all, i, hash, PreviousOutcome) {
        if i < n { assert LinkAt(rows, i, hash, PreviousOutcome); }
      }
    }
  }
}
