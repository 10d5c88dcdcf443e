/** What every atomic step of the system keeps. */
module SystemInvariant {
  import opened Graph
  import opened Dag
  import opened StateMachine
  import opened System

  /** Finished nodes, and with each the nodes it depends on. */
  ghost predicate Sound(defs: Defs, s: System, e: ExecId, done: set<string>) {
    DependencyClosed(GraphOf(defs.of(e)), done) && forall id :: id in done ==> (e, id) in s.finished
  }

  /** The end time is set exactly in terminal states, the start time in every state that needs a start. */
  predicate TimesMatch(row: Row) {
    && (row.finishedAt.Some? <==> IsTerminalStatus(row.status))
    && (row.status == Running || row.status == WaitingApproval || row.status == Succeeded || row.status == Failed
        ==> row.startedAt.Some?)
  }

  ghost predicate RowOk(defs: Defs, s: System, e: ExecId) {
    e in s.rows ==>
      && TimesMatch(s.rows[e])
      && (s.rows[e].checkpoint.Some? ==> Sound(defs, s, e, s.rows[e].checkpoint.value))
  }

  ghost predicate DepsFinished(defs: Defs, s: System, e: ExecId, id: string) {
    forall dep :: dep in Deps(GraphOf(defs.of(e)), id) ==> (e, dep) in s.finished
  }

  predicate OwnsRow(s: System, c: RunnerCall) {
    (c.exec, c.stepId) in s.stepRows && s.stepRows[(c.exec, c.stepId)].owner == c.caller
  }

  function AtLeastZero(x: int): nat {
    if x > 0 then x else 0
  }

  /** Only the call that inserted the row of a step calls its runner, and not too often. */
  predicate CallOk(defs: Defs, s: System, c: RunnerCall) {
    OwnsRow(s, c) && s.calls[c] <= AtLeastZero(Limit(defs, c.exec, c.stepId))
  }

  predicate CompensationOk(defs: Defs, s: System, c: RunnerCall) {
    && OwnsRow(s, c) && s.compensations[c] == 1
    && HasCompensation(defs, c.exec, c.stepId) && s.calls[c] == Limit(defs, c.exec, c.stepId) > 0
  }

  ghost predicate HasApproval(s: System, e: ExecId, id: string) {
    exists a :: a in s.approvals && s.approvals[a] == ApprovalRow(e, id, s.approvals[a].tenant, Approved)
  }

  /** An approval node only finishes when a row for it was approved or it was not needed. */
  ghost predicate GateOk(defs: Defs, s: System, e: ExecId, id: string) {
    IsApproval(defs, e, id) ==> (e, id) in s.waived || HasApproval(s, e, id)
  }

  ghost predicate SharedOk(defs: Defs, s: System) {
    && (forall e {:trigger RowOk(defs, s, e)} :: RowOk(defs, s, e))
    && (forall e, id :: (e, id) in s.finished ==> DepsFinished(defs, s, e, id) && GateOk(defs, s, e, id))
    && (forall e, id :: (e, id) in s.started ==> DepsFinished(defs, s, e, id))
    && (forall c :: c in s.calls ==> CallOk(defs, s, c))
    && (forall c :: c in s.compensations ==> CompensationOk(defs, s, c))
  }

  /** The nodes a call still has to process in this wave. */
  function Remaining(pc: Pc): seq<string> {
    match pc
    case Todo(todo) => todo
    case Inserting(id, rest) => [id] + rest
    case Attempting(id, rest, _) => [id] + rest
    case Succeeding(id, rest) => [id] + rest
    case Asking(id, rest) => [id] + rest
    case Announcing(id, rest, _) => [id] + rest
    case Waiting(id, rest, _) => [id] + rest
    case Granted(id, rest) => [id] + rest
    case Saving(rest) => rest
    case _ => []
  }

  ghost predicate AllReady(g: Graph, done: set<string>, todo: seq<string>) {
    NoDuplicates(todo) && forall id :: id in todo ==> id in g.ids && IsReady(g, done, id)
  }

  predicate HasBegun(pc: Pc) {
    !pc.Acquired? && !pc.Starting? && !pc.Gone?
  }

  /** What the place of a call says about the rows it made. */
  ghost predicate PlaceOk(defs: Defs, s: System, p: ProcId, e: ExecId, pc: Pc) {
    match pc
    case Inserting(id, _) => IsStep(defs, e, id)
    case Attempting(id, _, made) =>
      var c := RunnerCall(e, id, p);
      OwnsRow(s, c) && s.compensations[c] == 0 && IsStep(defs, e, id)
          && s.calls[c] == made <= AtLeastZero(Limit(defs, e, id))
    case Succeeding(id, _) => IsStep(defs, e, id)
    case Failing(id) =>
      var c := RunnerCall(e, id, p);
      OwnsRow(s, c) && s.compensations[c] == 0 && s.calls[c] == Limit(defs, e, id) > 0
    case Compensating(id) =>
      var c := RunnerCall(e, id, p);
      OwnsRow(s, c) && s.compensations[c] == 0 && s.calls[c] == Limit(defs, e, id) > 0 && HasCompensation(defs, e, id)
    case Asking(id, _) => IsApproval(defs, e, id)
    case Announcing(id, _, a) => IsApproval(defs, e, id) && IsRequest(s, a, e, id)
    case Waiting(id, _, a) => IsApproval(defs, e, id) && IsRequest(s, a, e, id)
    case Granted(id, _) => IsApproval(defs, e, id) && HasApproval(s, e, id)
    case _ => true
  }

  predicate IsRequest(s: System, a: ApprovalId, e: ExecId, id: string) {
    a in s.approvals && s.approvals[a].exec == e && s.approvals[a].stepId == id
  }

  ghost predicate IncOk(defs: Defs, s: System, p: ProcId, inc: Inc) {
    && inc.exec in s.rows
    && Sound(defs, s, inc.exec, inc.completed)
    && AllReady(GraphOf(defs.of(inc.exec)), inc.completed, Remaining(inc.pc))
    && (HasBegun(inc.pc) ==> s.rows[inc.exec].startedAt.Some?)
    && PlaceOk(defs, s, p, inc.exec, inc.pc)
  }

  ghost predicate Inv(defs: Defs, s: System) {
    SharedOk(defs, s) && OwnersExist(s) && forall p :: p in s.incs ==> IncOk(defs, s, p, s.incs[p])
  }

  /** A call that is not known yet has made no runner calls. */
  ghost predicate OwnersExist(s: System) {
    && (forall c :: c in s.calls || c in s.compensations ==> c.caller in s.incs)
    && (forall key :: key in s.stepRows ==> s.stepRows[key].owner in s.incs)
  }

  /** The invariant without what it says about the call p. */
  ghost predicate InvBut(defs: Defs, s: System, p: ProcId) {
    && p in s.incs && SharedOk(defs, s) && OwnersExist(s)
    && forall q :: q in s.incs && q != p ==> IncOk(defs, s, q, s.incs[q])
  }

  /** Nothing another call relies on is taken back. */
  ghost predicate Grows(s: System, s': System) {
    && (forall e :: e in s.rows ==> e in s'.rows && (s.rows[e].startedAt.Some? ==> s'.rows[e].startedAt.Some?))
    && s.finished <= s'.finished && s.waived <= s'.waived
    && (forall key :: key in s.stepRows ==> key in s'.stepRows && s'.stepRows[key].owner == s.stepRows[key].owner)
    && (forall a :: a in s.approvals ==> a in s'.approvals && SameRequest(s.approvals[a], s'.approvals[a]))
  }

  predicate SameRequest(a: ApprovalRow, b: ApprovalRow) {
    a.exec == b.exec && a.stepId == b.stepId && (a.status == Approved ==> b.status == Approved)
  }

  ghost predicate SameCalls(s: System, s': System, p: ProcId) {
    forall c: RunnerCall :: c.caller == p ==> s'.calls[c] == s.calls[c] && s'.compensations[c] == s.compensations[c]
  }

  lemma ApprovalStays(s: System, s': System, e: ExecId, id: string)
    requires Grows(s, s') && HasApproval(s, e, id)
    ensures HasApproval(s', e, id)
  {
    var a :| a in s.approvals && s.approvals[a] == ApprovalRow(e, id, s.approvals[a].tenant, Approved);
    assert SameRequest(s.approvals[a], s'.approvals[a]);
    assert s'.approvals[a] == ApprovalRow(e, id, s'.approvals[a].tenant, Approved);
  }

  lemma SoundStays(defs: Defs, s: System, s': System, e: ExecId, done: set<string>)
    requires Grows(s, s') && Sound(defs, s, e, done)
    ensures Sound(defs, s', e, done)
  {
  }

  lemma PlaceStays(defs: Defs, s: System, s': System, p: ProcId, e: ExecId, pc: Pc)
    requires Grows(s, s') && PlaceOk(defs, s, p, e, pc)
    requires SameCalls(s, s', p)
    ensures PlaceOk(defs, s', p, e, pc)
  {
    if pc.Granted? {
      ApprovalStays(s, s', e, pc.id);
    }
  }

  lemma IncStays(defs: Defs, s: System, s': System, p: ProcId, inc: Inc)
    requires Grows(s, s') && IncOk(defs, s, p, inc)
    requires SameCalls(s, s', p)
    ensures IncOk(defs, s', p, inc)
  {
    hide Sound;
    hide PlaceOk;
    hide AllReady;
    SoundStays(defs, s, s', inc.exec, inc.completed);
    PlaceStays(defs, s, s', p, inc.exec, inc.pc);
  }

  // ----- changes of one table -----

  /** Rows may change as long as times match, starts are kept and checkpoints stay sound. */
  lemma RowsChange(defs: Defs, s: System, p: ProcId, rows: map<ExecId, Row>)
    requires InvBut(defs, s, p)
    requires forall e :: e in s.rows ==> e in rows && (s.rows[e].startedAt.Some? ==> rows[e].startedAt.Some?)
    requires forall e :: e in rows ==>
               TimesMatch(rows[e]) && (rows[e].checkpoint.Some? ==> Sound(defs, s, e, rows[e].checkpoint.value))
    ensures InvBut(defs, s.(rows := rows), p) && Grows(s, s.(rows := rows))
  {
    hide Sound;
    hide TimesMatch;
    hide IncOk;
    var s' := s.(rows := rows);
    forall e
      ensures RowOk(defs, s', e)
    {
      if e in rows && rows[e].checkpoint.Some? {
        SoundStays(defs, s, s', e, rows[e].checkpoint.value);
      }
    }
    SharedStays(defs, s, s');
    OthersStay(defs, s, s', p);
  }

  /** What was true of finished nodes and of calls still is when rows of executions change. */
  lemma SharedStays(defs: Defs, s: System, s': System)
    requires SharedOk(defs, s) && Grows(s, s') && (forall e {:trigger RowOk(defs, s', e)} :: RowOk(defs, s', e))
    requires s'.finished == s.finished && s'.started == s.started && s'.calls == s.calls
    requires s'.compensations == s.compensations
    ensures SharedOk(defs, s')
  {
    hide RowOk;
    forall e, id | (e, id) in s'.finished
      ensures DepsFinished(defs, s', e, id) && GateOk(defs, s', e, id)
    {
      assert DepsFinished(defs, s, e, id) && GateOk(defs, s, e, id);
      if HasApproval(s, e, id) {
        ApprovalStays(s, s', e, id);
      }
    }
    forall e, id | (e, id) in s'.started
      ensures DepsFinished(defs, s', e, id)
    {
      assert DepsFinished(defs, s, e, id);
    }
    forall c | c in s'.calls
      ensures CallOk(defs, s', c)
    {
      assert CallOk(defs, s, c);
    }
    forall c | c in s'.compensations
      ensures CompensationOk(defs, s', c)
    {
      assert CompensationOk(defs, s, c);
    }
  }

  lemma OthersStay(defs: Defs, s: System, s': System, p: ProcId)
    requires (forall q :: q in s.incs && q != p ==> IncOk(defs, s, q, s.incs[q])) && Grows(s, s')
    requires s'.incs.Keys == s.incs.Keys && forall q :: q in s.incs && q != p ==> s'.incs[q] == s.incs[q]
    requires forall q {:trigger SameCalls(s, s', q)} :: q != p ==> SameCalls(s, s', q)
    ensures forall q :: q in s'.incs && q != p ==> IncOk(defs, s', q, s'.incs[q])
  {
    hide IncOk;
    hide Grows;
    forall q | q in s'.incs && q != p
      ensures IncOk(defs, s', q, s'.incs[q])
    {
      assert SameCalls(s, s', q);
      IncStays(defs, s, s', q, s.incs[q]);
    }
  }

  // ----- moves -----

  lemma AtKeeps(defs: Defs, s: System, p: ProcId, pc: Pc)
    requires InvBut(defs, s, p) && IncOk(defs, s, p, s.incs[p].(pc := pc))
    ensures Inv(defs, At(s, p, pc))
  {
    hide IncOk;
    var s' := At(s, p, pc);
    forall e
      ensures RowOk(defs, s', e)
    {
      assert RowOk(defs, s, e);
    }
    SharedStays(defs, s, s');
    OthersStay(defs, s, s', p);
    IncStays(defs, s, s', p, s.incs[p].(pc := pc));
  }

  lemma TransitionKeeps(defs: Defs, s: System, p: ProcId, to: Status, ok: bool)
    requires InvBut(defs, s, p) && s.incs[p].exec in s.rows
    requires s.rows[s.incs[p].exec].startedAt.Some? || to == Running
    ensures var s' := Transition(s, p, to, ok);
            && InvBut(defs, s', p) && Grows(s, s') && SameCalls(s, s', p)
            && s'.incs[p] == s.incs[p].(status := s'.incs[p].status)
            && (ok && to == Running && ValidTransition(s.incs[p].status, to) ==>
                s'.rows[s.incs[p].exec].startedAt.Some?)
  {
    hide IncOk;
    hide Sound;
    hide ValidTransition;
    hide Grows;
    hide OwnersExist;
    hide CallOk;
    hide CompensationOk;
    hide DepsFinished;
    hide GateOk;
    var inc := s.incs[p];
    if ok && ValidTransition(inc.status, to) {
      forall e | e in s.rows
        ensures RowOk(defs, s, e)
      {
      }
      var rows := s.rows[inc.exec := WriteStatus(s.rows[inc.exec], to, s.now)];
      RowsChange(defs, s, p, rows);
      MemoryChanges(defs, s.(rows := rows), p, inc.(status := to));
      GrowsOn(s, s.(rows := rows), Transition(s, p, to, ok));
    } else {
      GrowsNot(s);
    }
  }

  lemma GrowsOn(a: System, b: System, c: System)
    requires Grows(a, b) && Grows(b, c)
    ensures Grows(a, c)
  {
  }

  lemma GrowsNot(s: System)
    ensures Grows(s, s)
  {
  }

  /** Nothing shared, and nothing about other calls, depends on the memory of p. */
  lemma MemoryChanges(defs: Defs, s: System, p: ProcId, inc: Inc)
    requires InvBut(defs, s, p)
    ensures InvBut(defs, s.(incs := s.incs[p := inc]), p) && Grows(s, s.(incs := s.incs[p := inc]))
  {
    hide IncOk;
    var s' := s.(incs := s.incs[p := inc]);
    forall e
      ensures RowOk(defs, s', e)
    {
      assert RowOk(defs, s, e);
    }
    SharedStays(defs, s, s');
    OthersStay(defs, s, s', p);
  }
}
