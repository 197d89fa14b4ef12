/** flightGroup.Do as a protocol: any number of callers, interleaved between every two shared-memory actions. */
module Flight {
  import opened Sets
  import opened Wrappers

  // A result or an error of fn.
  type Answer = string

  datatype Call = Call(key: string, leader: int, answer: Option<Answer>, closes: nat)

  // Where a caller stands in Do. InDo, Leading, Closing, Deleted and Closed hold the mutex.
  datatype Pc =
    | Want                                  // before the first Lock
    | InDo                                  // holds the mutex, has not looked
    | Waiting(call: int)                    // a follower in the select
    | Leading(call: int)                    // the call is in the table, the mutex still held
    | Running(call: int)                    // fn runs
    | Ran(call: int)                        // result and error are stored
    | Closing(call: int)                    // holds the mutex again
    | Deleted(call: int)                    // the key is out of the table
    | Closed(call: int)                     // done is closed
    | Led(call: int, answer: Answer)        // the leader has returned
    | Followed(call: int, answer: Answer)   // a follower has returned the call's result
    | Canceled(call: int)                   // a follower's context ended first

  datatype Thread = Thread(key: string, pc: Pc)

  datatype State = State(lock: Option<int>, calls: map<string, int>, heap: map<int, Call>, threads: map<int, Thread>)

  datatype Op =
    | Begin(thread: int, key: string)
    | Lock(thread: int)
    | Join(thread: int)
    | Insert(thread: int, call: int)
    | Unlock(thread: int)
    | FnReturns(thread: int, answer: Answer)
    | Delete(thread: int)
    | Close(thread: int)
    | Receive(thread: int)
    | Cancel(thread: int)

  function At(s: State, t: int, pc: Pc): State
    requires t in s.threads
  {
    s.(threads := s.threads[t := s.threads[t].(pc := pc)])
  }

  predicate Enabled(s: State, op: Op) {
    match op
    case Begin(t, _) => t !in s.threads
    case Lock(t) => t in s.threads && s.lock.None? && (s.threads[t].pc.Want? || s.threads[t].pc.Ran?)
    case Join(t) => t in s.threads && s.threads[t].pc.InDo? && s.threads[t].key in s.calls
    case Insert(t, c) => t in s.threads && s.threads[t].pc.InDo? && s.threads[t].key !in s.calls && c !in s.heap
    case Unlock(t) => t in s.threads && (s.threads[t].pc.Leading? || (s.threads[t].pc.Closed? && s.threads[t].pc.call in s.heap
                                                                      && s.heap[s.threads[t].pc.call].answer.Some?))
    case FnReturns(t, _) => t in s.threads && s.threads[t].pc.Running? && s.threads[t].pc.call in s.heap
    case Delete(t) => t in s.threads && s.threads[t].pc.Closing?
    case Close(t) => t in s.threads && s.threads[t].pc.Deleted? && s.threads[t].pc.call in s.heap
    case Receive(t) => t in s.threads && s.threads[t].pc.Waiting? && s.threads[t].pc.call in s.heap
                       && s.heap[s.threads[t].pc.call].closes > 0 && s.heap[s.threads[t].pc.call].answer.Some?
    case Cancel(t) => t in s.threads && s.threads[t].pc.Waiting?
  }

  function Step(s: State, op: Op): State
    requires Enabled(s, op)
  {
    match op
    case Begin(t, key) => s.(threads := s.threads[t := Thread(key, Want)])
    case Lock(t) =>
      At(s, t, if s.threads[t].pc.Want? then InDo else Closing(s.threads[t].pc.call)).(lock := Some(t))
    case Join(t) => At(s, t, Waiting(s.calls[s.threads[t].key])).(lock := None)
    case Insert(t, c) =>
      At(s, t, Leading(c)).(calls := s.calls[s.threads[t].key := c], heap := s.heap[c := Call(s.threads[t].key, t, None, 0)])
    case Unlock(t) =>
      var c := s.threads[t].pc.call;
      At(s, t, if s.threads[t].pc.Leading? then Running(c) else Led(c, s.heap[c].answer.value)).(lock := None)
    case FnReturns(t, answer) =>
      var c := s.threads[t].pc.call;
      At(s, t, Ran(c)).(heap := s.heap[c := s.heap[c].(answer := Some(answer))])
    case Delete(t) => At(s, t, Deleted(s.threads[t].pc.call)).(calls := s.calls - {s.threads[t].key})
    case Close(t) =>
      var c := s.threads[t].pc.call;
      At(s, t, Closed(c)).(heap := s.heap[c := s.heap[c].(closes := s.heap[c].closes + 1)])
    case Receive(t) =>
      var c := s.threads[t].pc.call;
      At(s, t, Followed(c, s.heap[c].answer.value))
    case Cancel(t) => At(s, t, Canceled(s.threads[t].pc.call))
  }

  ghost predicate ValidRun(s: State, ops: seq<Op>)
    decreases |ops|, 0
  {
    ops == [] || (ValidRun(s, ops[..|ops| - 1]) && Enabled(Run(s, ops[..|ops| - 1]), ops[|ops| - 1]))
  }

  ghost function Run(s: State, ops: seq<Op>): State
    requires ValidRun(s, ops)
    decreases |ops|, 1
  {
    if ops == [] then s else Step(Run(s, ops[..|ops| - 1]), ops[|ops| - 1])
  }

  const IDLE := State(None, map[], map[], map[])

  // ---------- the invariant ----------

  predicate HoldsLock(pc: Pc) {
    pc.InDo? || pc.Leading? || pc.Closing? || pc.Deleted? || pc.Closed?
  }

  // The leader's stages, in order.
  predicate Leads(pc: Pc) {
    pc.Leading? || pc.Running? || pc.Ran? || pc.Closing? || pc.Deleted? || pc.Closed? || pc.Led?
  }

  predicate InTable(pc: Pc) {
    pc.Leading? || pc.Running? || pc.Ran? || pc.Closing?
  }

  predicate HasAnswer(pc: Pc) {
    pc.Ran? || pc.Closing? || pc.Deleted? || pc.Closed? || pc.Led?
  }

  ghost predicate ThreadOk(s: State, t: int) {
    && t in s.threads && var th := s.threads[t];
    && (HoldsLock(th.pc) <==> s.lock == Some(t))
    && (!th.pc.Want? && !th.pc.InDo? ==> th.pc.call in s.heap && s.heap[th.pc.call].key == th.key)
    && (Leads(th.pc) ==> s.heap[th.pc.call].leader == t)
    && (th.pc.Led? || th.pc.Followed? ==> s.heap[th.pc.call].answer == Some(th.pc.answer) && s.heap[th.pc.call].closes == 1)
  }

  // A call's fields follow its leader's stage.
  ghost predicate CallOk(s: State, c: int) {
    && c in s.heap && var call := s.heap[c];
    && call.leader in s.threads && var th := s.threads[call.leader];
    && Leads(th.pc) && th.pc.call == c && th.key == call.key
    && (call.answer.Some? <==> HasAnswer(th.pc))
    && call.closes == (if th.pc.Closed? || th.pc.Led? then 1 else 0)
    && (InTable(th.pc) <==> call.key in s.calls && s.calls[call.key] == c)
  }

  ghost predicate Sound(s: State) {
    && (forall t {:trigger ThreadOk(s, t)} :: t in s.threads ==> ThreadOk(s, t))
    && (forall c {:trigger CallOk(s, c)} :: c in s.heap ==> CallOk(s, c))
    && (forall k :: k in s.calls ==> s.calls[k] in s.heap && s.heap[s.calls[k]].key == k)
    && (s.lock.Some? ==> s.lock.value in s.threads)
  }

  lemma OwnStep(s: State, op: Op)
    requires Sound(s) && Enabled(s, op) && op.thread in s.threads
    ensures ThreadOk(Step(s, op), op.thread)
  {
    assert ThreadOk(s, op.thread);
    var pc := s.threads[op.thread].pc;
    if !pc.Want? && !pc.InDo? { assert CallOk(s, pc.call); }
  }

  // Another thread's step leaves a thread's obligations alone.
  lemma OtherStep(s: State, op: Op, t: int)
    requires Sound(s) && Enabled(s, op) && t in s.threads && t != op.thread
    ensures ThreadOk(Step(s, op), t)
  {
    assert ThreadOk(s, t);
    if !s.threads[t].pc.Want? && !s.threads[t].pc.InDo? { assert CallOk(s, s.threads[t].pc.call); }
    if op.thread in s.threads {
      assert ThreadOk(s, op.thread);
      var pc := s.threads[op.thread].pc;
      if !pc.Want? && !pc.InDo? { assert CallOk(s, pc.call); }
    }
  }

  lemma StepKeepsThread(s: State, op: Op, t: int)
    requires Sound(s) && Enabled(s, op) && t in Step(s, op).threads
    ensures ThreadOk(Step(s, op), t)
  {
    if t !in s.threads {
      assert s.lock != Some(t);
    } else if t == op.thread {
      OwnStep(s, op);
    } else {
      OtherStep(s, op, t);
    }
  }

  lemma StepKeepsCall(s: State, op: Op, c: int)
    requires Sound(s) && Enabled(s, op) && c in Step(s, op).heap
    ensures CallOk(Step(s, op), c)
  {
    if c in s.heap {
      assert CallOk(s, c);
      assert ThreadOk(s, s.heap[c].leader);
    }
    if op.thread in s.threads {
      assert ThreadOk(s, op.thread);
      var pc := s.threads[op.thread].pc;
      if !pc.Want? && !pc.InDo? { assert CallOk(s, pc.call); }
    }
  }

  lemma StepKeepsSound(s: State, op: Op)
    requires Sound(s) && Enabled(s, op)
    ensures Sound(Step(s, op))
  {
    var n := Step(s, op);
    forall t | t in n.threads ensures ThreadOk(n, t) { StepKeepsThread(s, op, t); }
    forall c | c in n.heap ensures CallOk(n, c) { StepKeepsCall(s, op, c); }
  }

  lemma {:induction false} RunIsSound(ops: seq<Op>)
    requires ValidRun(IDLE, ops)
    ensures Sound(Run(IDLE, ops))
    decreases |ops|
  {
    if ops != [] {
      RunIsSound(ops[..|ops| - 1]);
      StepKeepsSound(Run(IDLE, ops[..|ops| - 1]), ops[|ops| - 1]);
    }
  }

  // ---------- the promises ----------

  /** At most one fn runs for a key at any time. */
  lemma OneFnPerKey(ops: seq<Op>, t: int, u: int)
    requires ValidRun(IDLE, ops)
    requires var s := Run(IDLE, ops);
             t in s.threads && u in s.threads && s.threads[t].pc.Running? && s.threads[u].pc.Running?
             && s.threads[t].key == s.threads[u].key
    ensures t == u
  {
    var s := Run(IDLE, ops);
    RunIsSound(ops);
    assert ThreadOk(s, t) && ThreadOk(s, u);
    assert CallOk(s, s.threads[t].pc.call) && CallOk(s, s.threads[u].pc.call);
  }

  /** done is closed at most once, only after the result is stored, and a leader that returned has closed it. */
  lemma DoneClosesOnce(ops: seq<Op>, c: int)
    requires ValidRun(IDLE, ops) && c in Run(IDLE, ops).heap
    ensures var s := Run(IDLE, ops); var call := s.heap[c];
            && call.closes <= 1 && (call.closes == 1 ==> call.answer.Some?)
            && call.leader in s.threads && (s.threads[call.leader].pc.Led? ==> call.closes == 1)
  {
    RunIsSound(ops);
    assert CallOk(Run(IDLE, ops), c);
  }

  /** A call that a caller joins is not finished: its done is still open. */
  lemma FinishedCallsAreNotJoined(ops: seq<Op>, t: int)
    requires ValidRun(IDLE, ops) && Enabled(Run(IDLE, ops), Join(t))
    ensures var s := Run(IDLE, ops); var c := s.calls[s.threads[t].key];
            c in s.heap && s.heap[c].closes == 0 && s.heap[c].key == s.threads[t].key
  {
    var s := Run(IDLE, ops);
    RunIsSound(ops);
    assert CallOk(s, s.calls[s.threads[t].key]);
  }

  lemma StepKeepsAnswer(s: State, op: Op, c: int)
    requires Sound(s) && Enabled(s, op) && c in s.heap && s.heap[c].answer.Some?
    ensures c in Step(s, op).heap && Step(s, op).heap[c].answer == s.heap[c].answer
  {
    assert CallOk(s, c);
    if op.FnReturns? {
      assert ThreadOk(s, op.thread);
      assert CallOk(s, s.threads[op.thread].pc.call);
    }
  }

  lemma NextRun(ops: seq<Op>, more: seq<Op>)
    requires more != [] && ValidRun(IDLE, ops + more)
    ensures var rest := ops + more[..|more| - 1];
            ValidRun(IDLE, rest) && Enabled(Run(IDLE, rest), more[|more| - 1])
            && Run(IDLE, ops + more) == Step(Run(IDLE, rest), more[|more| - 1])
  {
    assert (ops + more)[..|ops + more| - 1] == ops + more[..|more| - 1];
  }

  /** A stored result is final. */
  lemma {:induction false} AnswersAreFinal(ops: seq<Op>, more: seq<Op>, c: int)
    requires ValidRun(IDLE, ops) && ValidRun(IDLE, ops + more)
    requires c in Run(IDLE, ops).heap && Run(IDLE, ops).heap[c].answer.Some?
    ensures c in Run(IDLE, ops + more).heap && Run(IDLE, ops + more).heap[c].answer == Run(IDLE, ops).heap[c].answer
    decreases |more|
  {
    if more == [] {
      assert ops + more == ops;
    } else {
      var rest := ops + more[..|more| - 1];
      NextRun(ops, more);
      AnswersAreFinal(ops, more[..|more| - 1], c);
      RunIsSound(rest);
      StepKeepsAnswer(Run(IDLE, rest), more[|more| - 1], c);
    }
  }

  // Both callers came back from the same call.
  predicate CameBack(pc: Pc, c: int) {
    (pc.Led? || pc.Followed?) && pc.call == c
  }

  /** The leader of a call and all its followers that were not canceled return the same result, the one fn gave. */
  lemma EveryoneGetsTheLeadersAnswer(ops: seq<Op>, t: int, u: int, c: int)
    requires ValidRun(IDLE, ops)
    requires var s := Run(IDLE, ops);
             t in s.threads && u in s.threads && CameBack(s.threads[t].pc, c) && CameBack(s.threads[u].pc, c)
    ensures var s := Run(IDLE, ops);
            && s.threads[t].pc.answer == s.threads[u].pc.answer && s.threads[t].key == s.threads[u].key
            && c in s.heap && s.heap[c].answer == Some(s.threads[t].pc.answer)
  {
    RunIsSound(ops);
    assert ThreadOk(Run(IDLE, ops), t) && ThreadOk(Run(IDLE, ops), u);
  }

  // ---------- no deadlock ----------

  predicate IsBack(pc: Pc) {
    pc.Led? || pc.Followed? || pc.Canceled?
  }

  // A step of the program itself: fn returning counts, a new caller or a cancellation does not.
  predicate IsProgress(op: Op) {
    !op.Begin? && !op.Cancel?
  }

  ghost predicate CanProgress(s: State) {
    exists op :: IsProgress(op) && Enabled(s, op)
  }

  lemma HolderCanMove(s: State, t: int)
    requires Sound(s) && t in s.threads && HoldsLock(s.threads[t].pc)
    ensures CanProgress(s)
  {
    assert ThreadOk(s, t);
    var pc := s.threads[t].pc;
    if pc.InDo? {
      if s.threads[t].key in s.calls {
        assert Enabled(s, Join(t));
      } else {
        var c := Above(s.heap.Keys);
        assert Enabled(s, Insert(t, c));
      }
    } else {
      assert CallOk(s, pc.call);
      if pc.Closing? { assert Enabled(s, Delete(t)); }
      else if pc.Deleted? { assert Enabled(s, Close(t)); }
      else { assert Enabled(s, Unlock(t)); }
    }
  }

  lemma LeaderCanMove(s: State, t: int)
    requires Sound(s) && t in s.threads && s.threads[t].pc.Running?
    ensures CanProgress(s)
  {
    assert ThreadOk(s, t);
    assert Enabled(s, FnReturns(t, ""));
  }

  /** Nobody is stuck: while a caller has not come back, some step of the program can be taken. */
  lemma NoDeadlock(ops: seq<Op>, t: int)
    requires ValidRun(IDLE, ops) && t in Run(IDLE, ops).threads && !IsBack(Run(IDLE, ops).threads[t].pc)
    ensures CanProgress(Run(IDLE, ops))
  {
    var s := Run(IDLE, ops);
    RunIsSound(ops);
    assert ThreadOk(s, t);
    if s.lock.Some? {
      assert ThreadOk(s, s.lock.value);
      HolderCanMove(s, s.lock.value);
    } else {
      var pc := s.threads[t].pc;
      if pc.Want? || pc.Ran? {
        assert Enabled(s, Lock(t));
      } else if pc.Running? {
        LeaderCanMove(s, t);
      } else {
        WaiterCanMove(s, t);
      }
    }
  }

  // A waiting follower can receive, or its leader has not closed yet and can move.
  lemma WaiterCanMove(s: State, t: int)
    requires Sound(s) && s.lock.None? && t in s.threads && s.threads[t].pc.Waiting?
    ensures CanProgress(s)
  {
    assert ThreadOk(s, t);
    var c := s.threads[t].pc.call;
    assert CallOk(s, c);
    var leader := s.heap[c].leader;
    assert ThreadOk(s, leader);
    var pc := s.threads[leader].pc;
    if pc.Running? {
      LeaderCanMove(s, leader);
    } else if pc.Ran? {
      assert Enabled(s, Lock(leader));
    } else {
      assert pc.Led?;
      assert Enabled(s, Receive(t));
    }
  }

  // ---------- everyone comes back ----------

  // The steps a caller may still take.
  function Left(pc: Pc): nat {
    match pc
    case Want => 8
    case InDo => 7
    case Leading(_) => 6
    case Running(_) => 5
    case Ran(_) => 4
    case Closing(_) => 3
    case Deleted(_) => 2
    case Closed(_) => 1
    case Waiting(_) => 1
    case _ => 0
  }

  ghost function Total(threads: map<int, Thread>): nat
    decreases threads.Keys
  {
    if threads == map[] then 0 else
      var t := Least(threads.Keys);
      Left(threads[t].pc) + Total(threads - {t})
  }

  // The sum does not depend on which caller is counted first.
  lemma {:induction false} TotalWithout(threads: map<int, Thread>, t: int)
    requires t in threads
    ensures Total(threads) == Left(threads[t].pc) + Total(threads - {t})
    decreases threads.Keys
  {
    var least := Least(threads.Keys);
    if t != least {
      TotalWithout(threads - {least}, t);
      assert (threads - {least}) - {t} == (threads - {t}) - {least};
      TotalWithout(threads - {t}, least);
    }
  }

  lemma TotalMoves(threads: map<int, Thread>, t: int, thread: Thread)
    ensures Total(threads[t := thread]) ==
            Left(thread.pc) + Total(threads) - if t in threads then Left(threads[t].pc) else 0
  {
    TotalWithout(threads[t := thread], t);
    if t in threads {
      TotalWithout(threads, t);
      assert threads[t := thread] - {t} == threads - {t};
    } else {
      assert threads[t := thread] - {t} == threads;
    }
  }

  lemma OneMoves(s: State, op: Op)
    requires Enabled(s, op)
    ensures var n := Step(s, op);
            && op.thread in n.threads && n.threads == s.threads[op.thread := n.threads[op.thread]]
            && (op.Begin? <==> op.thread !in s.threads) && (op.Begin? ==> Left(n.threads[op.thread].pc) == 8)
            && (!op.Begin? ==> Left(n.threads[op.thread].pc) < Left(s.threads[op.thread].pc))
  {
  }

  lemma StepLowersTotal(s: State, op: Op)
    requires Enabled(s, op)
    ensures var n := Step(s, op);
            if op.Begin? then Total(n.threads) == Total(s.threads) + 8 else Total(n.threads) < Total(s.threads)
  {
    OneMoves(s, op);
    TotalMoves(s.threads, op.thread, Step(s, op).threads[op.thread]);
  }

  function Begins(ops: seq<Op>): (n: nat)
    ensures n <= |ops|
  {
    if ops == [] then 0 else Begins(ops[..|ops| - 1]) + if ops[|ops| - 1].Begin? then 1 else 0
  }

  /** No run takes more than nine steps for each caller that began. */
  lemma {:induction false} RunsAreBounded(ops: seq<Op>)
    requires ValidRun(IDLE, ops)
    ensures |ops| + Total(Run(IDLE, ops).threads) <= 9 * Begins(ops)
    decreases |ops|
  {
    if ops != [] {
      RunsAreBounded(ops[..|ops| - 1]);
      StepLowersTotal(Run(IDLE, ops[..|ops| - 1]), ops[|ops| - 1]);
    }
  }

  /** A run has ended, no step of the program being left, exactly when all its callers are back. */
  lemma EndedIffAllAreBack(ops: seq<Op>)
    requires ValidRun(IDLE, ops)
    ensures var s := Run(IDLE, ops); !CanProgress(s) <==> forall t :: t in s.threads ==> IsBack(s.threads[t].pc)
  {
    var s := Run(IDLE, ops);
    forall t | t in s.threads && !IsBack(s.threads[t].pc) ensures CanProgress(s) { NoDeadlock(ops, t); }
    if CanProgress(s) {
      var op :| IsProgress(op) && Enabled(s, op);
      assert op.thread in s.threads && !IsBack(s.threads[op.thread].pc);
    }
  }

  /** However far a run has come, the program can bring all callers back without a cancellation. */
  lemma {:induction false} EveryoneCanComeBack(ops: seq<Op>) returns (more: seq<Op>)
    requires ValidRun(IDLE, ops)
    ensures ValidRun(IDLE, ops + more) && forall i :: 0 <= i < |more| ==> IsProgress(more[i])
    ensures var s := Run(IDLE, ops + more); forall t :: t in s.threads ==> IsBack(s.threads[t].pc)
    decreases Total(Run(IDLE, ops).threads)
  {
    var s := Run(IDLE, ops);
    more := [];
    assert ops + more == ops;
    EndedIffAllAreBack(ops);
    if CanProgress(s) {
      var op :| IsProgress(op) && Enabled(s, op);
      assert (ops + [op])[..|ops|] == ops;
      StepLowersTotal(s, op);
      var rest := EveryoneCanComeBack(ops + [op]);
      more := [op] + rest;
      assert ops + more == (ops + [op]) + rest;
    }
  }

  /** Whichever steps are taken after the last caller began, they end after at most eight for each caller, and when no
      step of the program is left all callers are back. */
  lemma {:induction false} EveryoneComesBack(ops: seq<Op>, more: seq<Op>)
    requires ValidRun(IDLE, ops) && ValidRun(IDLE, ops + more) && forall i :: 0 <= i < |more| ==> !more[i].Begin?
    ensures |more| <= Total(Run(IDLE, ops).threads) - Total(Run(IDLE, ops + more).threads) <= 8 * Begins(ops)
    ensures var s := Run(IDLE, ops + more);
            !CanProgress(s) ==> forall t :: t in s.threads ==> IsBack(s.threads[t].pc)
    decreases |more|
  {
    EndedIffAllAreBack(ops + more);
    RunsAreBounded(ops);
    if more == [] {
      assert ops + more == ops;
    } else {
      NextRun(ops, more);
      EveryoneComesBack(ops, more[..|more| - 1]);
      StepLowersTotal(Run(IDLE, ops + more[..|more| - 1]), more[|more| - 1]);
    }
  }
}
