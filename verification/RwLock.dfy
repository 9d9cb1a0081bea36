/** The reader-preferring lock of the session manager, built from two binary
    semaphores, under any interleaving of any number of tasks. */
module RwLock {

  /** Where a task stands in the four lock methods. */
  datatype Pc =
    | Idle
    | RTakeCount       // readLock: before taking the count semaphore
    | RIncrement       // holds it; before ++readCount
    | RTakeWrite       // first reader; before taking the write semaphore
    | RGiveCount       // before giving the count semaphore back
    | Reading
    | UTakeCount       // readUnlock: before taking the count semaphore
    | UDecrement
    | UGiveWrite       // last reader; before giving the write semaphore
    | UGiveCount
    | WTakeWrite       // writeLock: before taking the write semaphore
    | Writing          // writeUnlock gives it back

  /** Free semaphores, the counter, and every task's position. */
  datatype Lock = Lock(countFree: bool, writeFree: bool, readCount: int, at: seq<Pc>)

  predicate HoldsCount(pc: Pc) {
    pc in {RIncrement, RTakeWrite, RGiveCount, UDecrement, UGiveWrite, UGiveCount}
  }

  /** Past the increment and before the decrement. */
  predicate Counted(pc: Pc) {
    pc in {RTakeWrite, RGiveCount, Reading, UTakeCount, UDecrement}
  }

  /** Both semaphores free, nobody inside. */
  function Start(tasks: nat): Lock {
    Lock(true, true, 0, seq(tasks, _ => Idle))
  }

  /** Can task x take its next step? Idle tasks may always start a call. */
  predicate CanStep(s: Lock, x: nat)
    requires x < |s.at|
  {
    match s.at[x]
    case RTakeCount => s.countFree
    case UTakeCount => s.countFree
    case RTakeWrite => s.writeFree
    case WTakeWrite => s.writeFree
    case _ => true
  }

  /** One atomic step of task x; an idle task starts a read or a write call. */
  function Step(s: Lock, x: nat, write: bool): Lock
    requires x < |s.at| && CanStep(s, x)
  {
    match s.at[x]
    case Idle => s.(at := s.at[x := if write then WTakeWrite else RTakeCount])
    case RTakeCount => s.(countFree := false, at := s.at[x := RIncrement])
    case RIncrement =>
      s.(readCount := s.readCount + 1, at := s.at[x := if s.readCount + 1 == 1 then RTakeWrite else RGiveCount])
    case RTakeWrite => s.(writeFree := false, at := s.at[x := RGiveCount])
    case RGiveCount => s.(countFree := true, at := s.at[x := Reading])
    case Reading => s.(at := s.at[x := UTakeCount])
    case UTakeCount => s.(countFree := false, at := s.at[x := UDecrement])
    case UDecrement =>
      s.(readCount := s.readCount - 1, at := s.at[x := if s.readCount - 1 == 0 then UGiveWrite else UGiveCount])
    case UGiveWrite => s.(writeFree := true, at := s.at[x := UGiveCount])
    case UGiveCount => s.(countFree := true, at := s.at[x := Idle])
    case WTakeWrite => s.(writeFree := false, at := s.at[x := Writing])
    case Writing => s.(writeFree := true, at := s.at[x := Idle])
  }

  /** The lock fields and the tasks' positions, changed in place. */
  class ReaderWriterLock {
    var countFree: bool
    var writeFree: bool
    var readCount: int
    var at: seq<Pc>

    ghost function View(): Lock
      reads this
    {
      Lock(countFree, writeFree, readCount, at)
    }

    constructor (tasks: nat)
      ensures View() == Start(tasks)
    {
      countFree, writeFree, readCount := true, true, 0;
      at := seq(tasks, _ => Idle);
    }

    method Advance(x: nat, write: bool)
      requires x < |at| && CanStep(View(), x)
      modifies this
      ensures View() == Step(old(View()), x, write)
    {
      match at[x]
      case Idle =>
        at := at[x := if write then WTakeWrite else RTakeCount];
      case RTakeCount =>
        countFree := false;
        at := at[x := RIncrement];
      case RIncrement =>
        readCount := readCount + 1;
        at := at[x := if readCount == 1 then RTakeWrite else RGiveCount];
      case RTakeWrite =>
        writeFree := false;
        at := at[x := RGiveCount];
      case RGiveCount =>
        countFree := true;
        at := at[x := Reading];
      case Reading =>
        at := at[x := UTakeCount];
      case UTakeCount =>
        countFree := false;
        at := at[x := UDecrement];
      case UDecrement =>
        readCount := readCount - 1;
        at := at[x := if readCount == 0 then UGiveWrite else UGiveCount];
      case UGiveWrite =>
        writeFree := true;
        at := at[x := UGiveCount];
      case UGiveCount =>
        countFree := true;
        at := at[x := Idle];
      case WTakeWrite =>
        writeFree := false;
        at := at[x := Writing];
      case Writing =>
        writeFree := true;
        at := at[x := Idle];
    }
  }

  // ---------- safety ----------

  function Holding(s: Lock): set<nat> {
    set x: nat | x < |s.at| && HoldsCount(s.at[x])
  }

  function Readers(s: Lock): set<nat> {
    set x: nat | x < |s.at| && Counted(s.at[x])
  }

  function Writers(s: Lock): set<nat> {
    set x: nat | x < |s.at| && s.at[x] == Writing
  }

  /** Readers on whose behalf the write semaphore is held. */
  predicate Shares(pc: Pc) {
    pc in {RGiveCount, Reading, UTakeCount, UDecrement, UGiveWrite}
  }

  function Sharers(s: Lock): set<nat> {
    set x: nat | x < |s.at| && Shares(s.at[x])
  }

  predicate AtMostOne(xs: set<nat>) {
    forall x, y | x in xs && y in xs :: x == y
  }

  /** The count semaphore is free, or held by exactly one task. */
  ghost predicate CountSafe(s: Lock) {
    AtMostOne(Holding(s)) && (s.countFree <==> Holding(s) == {})
  }

  /** The counter counts the readers; the first and the last of them are alone. */
  ghost predicate ReadersSafe(s: Lock) {
    && s.readCount == |Readers(s)|
    && (forall x: nat | x < |s.at| && s.at[x] == RTakeWrite :: Readers(s) == {x})
    && (forall x: nat | x < |s.at| && s.at[x] == UGiveWrite :: Readers(s) == {})
  }

  /** The write semaphore is free, or held by one writer, or on behalf of the readers. */
  ghost predicate WriteSafe(s: Lock) {
    && AtMostOne(Writers(s)) && (Writers(s) == {} || Sharers(s) == {})
    && (s.writeFree <==> Writers(s) == {} && Sharers(s) == {})
  }

  ghost predicate Safe(s: Lock) {
    CountSafe(s) && ReadersSafe(s) && WriteSafe(s)
  }

  lemma StartSafe(tasks: nat)
    ensures Safe(Start(tasks))
  {
    var s := Start(tasks);
    assert Readers(s) == {} && Holding(s) == {} && Writers(s) == {} && Sharers(s) == {};
  }

  /** What moving one task does to a set of tasks picked by position. */
  lemma Moved(s: Lock, x: nat, write: bool)
    requires x < |s.at| && CanStep(s, x)
    ensures var s' := Step(s, x, write);
            && |s'.at| == |s.at| && s'.at == s.at[x := s'.at[x]]
            && Holding(s') == (if HoldsCount(s'.at[x]) then Holding(s) + {x} else Holding(s) - {x})
            && Readers(s') == (if Counted(s'.at[x]) then Readers(s) + {x} else Readers(s) - {x})
            && Writers(s') == (if s'.at[x] == Writing then Writers(s) + {x} else Writers(s) - {x})
            && Sharers(s') == (if Shares(s'.at[x]) then Sharers(s) + {x} else Sharers(s) - {x})
  {
  }

  lemma Member(s: Lock, x: nat)
    requires x < |s.at|
    ensures x in Holding(s) <==> HoldsCount(s.at[x])
    ensures x in Readers(s) <==> Counted(s.at[x])
    ensures x in Writers(s) <==> s.at[x] == Writing
    ensures x in Sharers(s) <==> Shares(s.at[x])
  {
  }

  lemma StepCountSafe(s: Lock, x: nat, write: bool)
    requires CountSafe(s) && x < |s.at| && CanStep(s, x)
    ensures CountSafe(Step(s, x, write))
  {
    Moved(s, x, write);
    Member(s, x);
    hide Holding, Readers, Writers, Sharers;
  }

  lemma StepReadCount(s: Lock, x: nat, write: bool)
    requires ReadersSafe(s) && x < |s.at| && CanStep(s, x)
    ensures Step(s, x, write).readCount == |Readers(Step(s, x, write))|
  {
    Moved(s, x, write);
    Member(s, x);
    hide Holding, Readers, Writers, Sharers;
  }

  lemma StepFirstReader(s: Lock, x: nat, write: bool, y: nat)
    requires CountSafe(s) && ReadersSafe(s) && x < |s.at| && CanStep(s, x)
    requires y < |s.at| && Step(s, x, write).at[y] == RTakeWrite
    ensures Readers(Step(s, x, write)) == {y}
  {
    Moved(s, x, write);
    Member(s, x);
    Member(s, y);
    if x != y {
      assert s.at[y] == RTakeWrite;
    }
    hide Holding, Readers, Writers, Sharers;
  }

  lemma StepLastReader(s: Lock, x: nat, write: bool, y: nat)
    requires CountSafe(s) && ReadersSafe(s) && x < |s.at| && CanStep(s, x)
    requires y < |s.at| && Step(s, x, write).at[y] == UGiveWrite
    ensures Readers(Step(s, x, write)) == {}
  {
    Moved(s, x, write);
    Member(s, x);
    Member(s, y);
    StepReadCount(s, x, write);
    if x != y {
      assert s.at[y] == UGiveWrite;
    }
    hide Holding, Readers, Writers, Sharers;
  }

  lemma StepReadersSafe(s: Lock, x: nat, write: bool)
    requires CountSafe(s) && ReadersSafe(s) && x < |s.at| && CanStep(s, x)
    ensures ReadersSafe(Step(s, x, write))
  {
    hide CountSafe, CanStep, Readers;
    var s' := Step(s, x, write);
    assert |s'.at| == |s.at|;
    StepReadCount(s, x, write);
    hide Step;
    forall y: nat | y < |s'.at| && s'.at[y] == RTakeWrite
      ensures Readers(s') == {y}
    {
      StepFirstReader(s, x, write, y);
    }
    forall y: nat | y < |s'.at| && s'.at[y] == UGiveWrite
      ensures Readers(s') == {}
    {
      StepLastReader(s, x, write, y);
    }
  }

  /** A reader about to take the write semaphore is the only one counted, so no reader shares it yet. */
  lemma FirstReaderAlone(s: Lock, x: nat)
    requires CountSafe(s) && ReadersSafe(s) && x < |s.at| && s.at[x] == RTakeWrite
    ensures Sharers(s) == {}
  {
    if y :| y in Sharers(s) {
      Member(s, y);
      Member(s, x);
      assert false;
    }
  }

  lemma LastReaderAlone(s: Lock, x: nat)
    requires CountSafe(s) && ReadersSafe(s) && x < |s.at| && s.at[x] == UGiveWrite
    ensures Sharers(s) == {x}
  {
    assert x in Sharers(s);
    forall y | y in Sharers(s) ensures y == x {
      assert y in Readers(s) || (s.at[y] == UGiveWrite && y in Holding(s) && x in Holding(s));
    }
  }

  /** While a task past that point holds the count semaphore, every counted reader shares. */
  lemma ReadersShare(s: Lock, x: nat)
    requires CountSafe(s) && x < |s.at| && HoldsCount(s.at[x]) && s.at[x] != RTakeWrite
    ensures Readers(s) <= Sharers(s)
  {
    forall y | y in Readers(s) ensures y in Sharers(s) {
      Member(s, x);
      Member(s, y);
    }
  }

  /** Removing x leaves a reader if the counter does not drop to zero. */
  lemma ReaderLeft(s: Lock, x: nat)
    requires ReadersSafe(s) && x in Readers(s) && s.readCount != 1
    ensures Readers(s) - {x} != {}
  {
    assert |Readers(s) - {x}| == |Readers(s)| - 1;
  }

  lemma StepWriteSafe(s: Lock, x: nat, write: bool)
    requires Safe(s) && x < |s.at| && CanStep(s, x)
    ensures WriteSafe(Step(s, x, write))
  {
    Moved(s, x, write);
    Member(s, x);
    if s.at[x] == RTakeWrite {
      FirstReaderAlone(s, x);
    }
    if s.at[x] == UGiveWrite {
      LastReaderAlone(s, x);
    }
    if s.at[x] == RIncrement || s.at[x] == UDecrement {
      ReadersShare(s, x);
    }
    if s.at[x] == UDecrement && s.readCount != 1 {
      ReaderLeft(s, x);
    }
    hide Holding, Readers, Writers, Sharers;
  }

  lemma StepSafe(s: Lock, x: nat, write: bool)
    requires Safe(s) && x < |s.at| && CanStep(s, x)
    ensures Safe(Step(s, x, write))
  {
    StepCountSafe(s, x, write);
    StepReadersSafe(s, x, write);
    StepWriteSafe(s, x, write);
  }

  // ---------- runs ----------

  /** Which task moves, and what it asks for if it was idle. */
  datatype Move = Move(x: nat, write: bool)

  ghost predicate IsRun(ss: seq<Lock>, ms: seq<Move>) {
    && |ss| == |ms| + 1
    && forall i | 0 <= i < |ms| ::
         && ms[i].x < |ss[i].at| && CanStep(ss[i], ms[i].x)
         && ss[i + 1] == Step(ss[i], ms[i].x, ms[i].write)
  }

  lemma {:induction false} RunSafe(ss: seq<Lock>, ms: seq<Move>, i: nat)
    requires IsRun(ss, ms) && i < |ss| && Safe(ss[0])
    ensures Safe(ss[i])
  {
    hide Safe, Step;
    if i > 0 {
      RunSafe(ss, ms, i - 1);
      StepSafe(ss[i - 1], ms[i - 1].x, ms[i - 1].write);
    }
  }

  /** In every interleaving: while a task writes, no other writes and none reads. */
  lemma WritersExclude(tasks: nat, ss: seq<Lock>, ms: seq<Move>, i: nat, x: nat, y: nat)
    requires IsRun(ss, ms) && i < |ss| && ss[0] == Start(tasks)
    requires x < |ss[i].at| && y < |ss[i].at| && x != y && ss[i].at[x] == Writing
    ensures ss[i].at[y] != Writing && ss[i].at[y] != Reading
  {
    StartSafe(tasks);
    RunSafe(ss, ms, i);
    Member(ss[i], x);
    Member(ss[i], y);
    hide Holding, Readers, Writers, Sharers, Step;
  }

  /** In every state of every interleaving the counter is the number of tasks between their increment and
      their decrement. */
  lemma CounterIsExact(tasks: nat, ss: seq<Lock>, ms: seq<Move>, i: nat)
    requires IsRun(ss, ms) && i < |ss| && ss[0] == Start(tasks)
    ensures ss[i].readCount == |Readers(ss[i])|
  {
    StartSafe(tasks);
    RunSafe(ss, ms, i);
    hide Holding, Readers, Writers, Sharers, Step;
  }

  // ---------- progress ----------

  /** Some task inside a lock call or a critical section can move. */
  ghost predicate CanProgress(s: Lock) {
    exists x: nat :: x < |s.at| && s.at[x] != Idle && CanStep(s, x)
  }

  lemma HolderMoves(s: Lock, x: nat)
    requires Safe(s) && x < |s.at| && HoldsCount(s.at[x])
    ensures CanProgress(s)
  {
    if s.at[x] == RTakeWrite && !s.writeFree {
      FirstReaderAlone(s, x);
      var w :| w in Writers(s);
      assert s.at[w] != Idle && CanStep(s, w);
    } else {
      assert CanStep(s, x);
    }
  }

  /** No deadlock: as long as some task is not idle, one of those that are not idle can move. */
  lemma NoDeadlock(s: Lock, x: nat)
    requires Safe(s) && x < |s.at| && s.at[x] != Idle
    ensures CanProgress(s)
  {
    if h :| h in Holding(s) {
      HolderMoves(s, h);
    } else if s.at[x] == WTakeWrite && !s.writeFree {
      var y :| y in Writers(s) + Sharers(s);
      assert y !in Holding(s);
      assert s.at[y] != Idle && CanStep(s, y);
    } else {
      assert x !in Holding(s);
      assert CanStep(s, x);
    }
  }

  /** Steps a task still has to take before it is idle, at most. */
  function Rank(pc: Pc): nat {
    match pc
    case Idle => 0
    case UGiveCount => 1
    case UGiveWrite => 2
    case UDecrement => 3
    case UTakeCount => 4
    case Reading => 5
    case RGiveCount => 6
    case RTakeWrite => 7
    case RIncrement => 8
    case RTakeCount => 9
    case Writing => 1
    case WTakeWrite => 2
  }

  function Total(at: seq<Pc>): nat {
    if at == [] then 0 else Rank(at[0]) + Total(at[1..])
  }

  lemma {:induction false} TotalUpdate(at: seq<Pc>, x: nat, pc: Pc)
    requires x < |at|
    ensures Total(at[x := pc]) == Total(at) - Rank(at[x]) + Rank(pc)
  {
    if x == 0 {
      assert at[0 := pc][1..] == at[1..];
    } else {
      TotalUpdate(at[1..], x - 1, pc);
      assert at[x := pc][1..] == at[1..][x - 1 := pc];
    }
  }

  lemma {:induction false} TotalBound(at: seq<Pc>)
    ensures Total(at) <= 9 * |at|
    ensures Total(at) == 0 ==> forall x | 0 <= x < |at| :: at[x] == Idle
  {
    if at != [] {
      TotalBound(at[1..]);
      if Total(at) == 0 {
        forall x | 0 <= x < |at| ensures at[x] == Idle {
          if x > 0 {
            assert at[x] == at[1..][x - 1];
          }
        }
      }
    }
  }

  /** Nobody starts a new call. */
  ghost predicate NoNewCalls(ss: seq<Lock>, ms: seq<Move>)
    requires IsRun(ss, ms)
  {
    forall i | 0 <= i < |ms| :: ss[i].at[ms[i].x] != Idle
  }

  lemma {:induction false} RunShrinks(ss: seq<Lock>, ms: seq<Move>, i: nat)
    requires IsRun(ss, ms) && NoNewCalls(ss, ms) && i < |ss|
    ensures |ss[i].at| == |ss[0].at|
    ensures i + Total(ss[i].at) <= Total(ss[0].at)
  {
    if i > 0 {
      RunShrinks(ss, ms, i - 1);
      var s, x := ss[i - 1], ms[i - 1].x;
      assert ss[i].at == s.at[x := ss[i].at[x]];
      TotalUpdate(s.at, x, ss[i].at[x]);
      assert Rank(ss[i].at[x]) < Rank(s.at[x]);
    }
  }

  /** Once nobody starts a new call, every schedule is over within nine steps a task,
      and it can only be over when every task has left. */
  lemma EveryCallReturns(ss: seq<Lock>, ms: seq<Move>)
    requires IsRun(ss, ms) && Safe(ss[0]) && NoNewCalls(ss, ms)
    ensures |ms| <= 9 * |ss[0].at|
    ensures CanProgress(ss[|ms|]) || forall x | 0 <= x < |ss[|ms|].at| :: ss[|ms|].at[x] == Idle
  {
    RunShrinks(ss, ms, |ms|);
    TotalBound(ss[0].at);
    RunSafe(ss, ms, |ms|);
    if x: nat :| x < |ss[|ms|].at| && ss[|ms|].at[x] != Idle {
      NoDeadlock(ss[|ms|], x);
    }
  }
}
