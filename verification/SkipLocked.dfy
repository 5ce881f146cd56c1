/** The claim statement in its phases: rows are selected and locked one at a time, skipping rows other
    claims hold; then the update is written, and commits or rolls back. Everything between two phases
    interleaves with the statements of the other workers and of the API. */
module SkipLocked {
  import opened Wrappers
  import opened Jobs
  import opened Queue

  /** An open claim statement. NOW() is fixed when it starts. */
  datatype Txn = Txn(batchSize: nat, lease: nat, readAt: Time, now: Time, locked: seq<Uuid>, written: bool)

  /** committed is what other statements see; uncommitted row versions are not visible. */
  datatype Phased = Phased(committed: State, txns: map<WorkerId, Txn>)

  datatype Phase =
    | Begin(worker: WorkerId, batchSize: nat, lease: nat, readAt: Time)
    | Lock(worker: WorkerId, id: Uuid)
    | Write(worker: WorkerId)
    | Commit(worker: WorkerId, outcome: Outcome)
    | Rollback(worker: WorkerId)
    | Other(step: Step)

  predicate Locked(p: Phased, id: Uuid) {
    exists w :: w in p.txns && id in p.txns[w].locked
  }

  /** A mark of a locked row and an enqueue that conflicts with one wait for the lock. */
  predicate Waits(p: Phased, step: Step) {
    match step
    case MarkCompleted(w, _) => Batch(p.committed, w) != [] && Locked(p, Batch(p.committed, w)[0].id)
    case MarkFailed(w, _, _) => Batch(p.committed, w) != [] && Locked(p, Batch(p.committed, w)[0].id)
    case Enqueue(_, jobType, _, key, _, _) =>
      exists id :: id in p.committed.jobs && HasKey(p.committed.jobs[id], jobType, key) && Locked(p, id)
    case _ => false
  }

  predicate CanPhase(lease: nat, p: Phased, ph: Phase) {
    match ph
    case Begin(w, batchSize, l, readAt) =>
      w !in p.txns && Batch(p.committed, w) == [] && batchSize >= 1 && l >= lease && readAt <= p.committed.clock
    case Lock(w, id) =>
      && w in p.txns && !p.txns[w].written && |p.txns[w].locked| < p.txns[w].batchSize
      && id in p.committed.jobs && !Locked(p, id)
      && Eligible(p.committed.jobs[id], p.txns[w].now, p.txns[w].readAt - p.txns[w].lease)
    case Write(w) => w in p.txns && !p.txns[w].written
    case Commit(w, outcome) => w in p.txns && p.txns[w].written && outcome != Refused
    case Rollback(w) => w in p.txns
    case Other(step) => !step.Claim? && !Waits(p, step) && Enabled(lease, p.committed, step)
  }

  function ClaimOf(w: WorkerId, t: Txn, outcome: Outcome): Step {
    Claim(w, t.batchSize, t.lease, t.readAt, t.now, t.locked, outcome)
  }

  /** What a commit publishes: the update of the locked rows, whose eligibility nobody checks again. */
  function Written(s: State, w: WorkerId, t: Txn, outcome: Outcome): State {
    if forall id <- t.locked :: id in s.jobs then AfterClaim(s, w, t.locked, t.now, outcome == Acked) else s
  }

  lemma WrittenIsClaim(lease: nat, s: State, w: WorkerId, t: Txn, outcome: Outcome)
    requires TxnOk(lease, s, w, t) && outcome != Refused
    ensures Enabled(lease, s, ClaimOf(w, t, outcome))
    ensures Written(s, w, t, outcome) == Do(lease, s, ClaimOf(w, t, outcome))
  {}

  function DoPhase(lease: nat, p: Phased, ph: Phase): Phased {
    if !CanPhase(lease, p, ph) then p
    else match ph
      case Begin(w, batchSize, l, readAt) =>
        p.(txns := p.txns[w := Txn(batchSize, l, readAt, p.committed.clock, [], false)])
      case Lock(w, id) => p.(txns := p.txns[w := p.txns[w].(locked := p.txns[w].locked + [id])])
      case Write(w) => p.(txns := p.txns[w := p.txns[w].(written := true)])
      case Commit(w, outcome) => Phased(Written(p.committed, w, p.txns[w], outcome), p.txns - {w})
      case Rollback(w) => p.(txns := p.txns - {w})
      case Other(step) => p.(committed := Do(lease, p.committed, step))
  }

  function RunPhases(lease: nat, phases: seq<Phase>): Phased {
    if phases == [] then Phased(INIT, map[])
    else DoPhase(lease, RunPhases(lease, phases[..|phases| - 1]), phases[|phases| - 1])
  }

  // ----- The invariant: locks are exclusive, and a locked row stays eligible -----

  predicate TxnOk(lease: nat, s: State, w: WorkerId, t: Txn) {
    && Batch(s, w) == [] && t.batchSize >= 1 && t.lease >= lease && t.readAt <= t.now <= s.clock
    && Claimable(s.jobs, t.locked, t.batchSize, t.now, t.readAt - t.lease)
  }

  predicate Exclusive(txns: map<WorkerId, Txn>) {
    forall v, w, id :: v in txns && w in txns && id in txns[v].locked && id in txns[w].locked ==> v == w
  }

  predicate PhasedInv(lease: nat, p: Phased) {
    && Exclusive(p.txns)
    && forall w <- p.txns :: TxnOk(lease, p.committed, w, p.txns[w])
  }

  /** An unlocked step leaves the rows in a lock set alone. */
  lemma OtherKeepsTxn(lease: nat, p: Phased, step: Step, w: WorkerId)
    requires PhasedInv(lease, p) && w in p.txns && CanPhase(lease, p, Other(step))
    ensures TxnOk(lease, Do(lease, p.committed, step), w, p.txns[w])
  {
    var s, s', t := p.committed, Do(lease, p.committed, step), p.txns[w];
    assert Batch(s', w) == [];
    forall id | id in t.locked ensures id in s'.jobs && s'.jobs[id] == s.jobs[id] {
      assert Locked(p, id);
    }
  }

  /** Another claim commits: it took none of w's rows and is not w's. */
  lemma CommitKeepsTxn(lease: nat, p: Phased, v: WorkerId, outcome: Outcome, w: WorkerId)
    requires PhasedInv(lease, p) && w in p.txns && v in p.txns && v != w && outcome != Refused
    ensures TxnOk(lease, Written(p.committed, v, p.txns[v], outcome), w, p.txns[w])
  {
    var s, t := p.committed, p.txns[w];
    var s' := Written(s, v, p.txns[v], outcome);
    forall id | id in t.locked ensures id in s'.jobs && s'.jobs[id] == s.jobs[id] {
      assert id !in p.txns[v].locked;
    }
  }

  lemma LockKeepsInv(lease: nat, p: Phased, w: WorkerId, id: Uuid)
    requires PhasedInv(lease, p) && CanPhase(lease, p, Lock(w, id))
    ensures PhasedInv(lease, DoPhase(lease, p, Lock(w, id)))
  {
    assert TxnOk(lease, p.committed, w, p.txns[w]);
    assert forall v <- p.txns :: id !in p.txns[v].locked;
  }

  lemma PhaseKeepsInv(lease: nat, p: Phased, ph: Phase)
    requires PhasedInv(lease, p)
    ensures PhasedInv(lease, DoPhase(lease, p, ph))
  {
    if CanPhase(lease, p, ph) {
      match ph
      case Lock(w, id) => LockKeepsInv(lease, p, w, id);
      case Commit(v, outcome) =>
        forall w | w in p.txns && w != v { CommitKeepsTxn(lease, p, v, outcome, w); }
      case Other(step) =>
        forall w | w in p.txns { OtherKeepsTxn(lease, p, step, w); }
      case _ =>
    }
  }

  lemma {:induction false} PhasesKeepInv(lease: nat, phases: seq<Phase>)
    ensures PhasedInv(lease, RunPhases(lease, phases))
  {
    if phases != [] {
      PhasesKeepInv(lease, phases[..|phases| - 1]);
      PhaseKeepsInv(lease, RunPhases(lease, phases[..|phases| - 1]), phases[|phases| - 1]);
    }
  }

  // ----- Refinement -----

  /** The atomic steps a run of phases amounts to: one claim per commit, and the other statements. */
  function Atomic(lease: nat, phases: seq<Phase>): seq<Step> {
    if phases == [] then []
    else
      var before, ph := phases[..|phases| - 1], phases[|phases| - 1];
      var p := RunPhases(lease, before);
      Atomic(lease, before)
      + if !CanPhase(lease, p, ph) then []
        else match ph
          case Commit(w, outcome) => [ClaimOf(w, p.txns[w], outcome)]
          case Other(step) => [step]
          case _ => []
  }

  /** Every interleaving of phases is a run of atomic claims, each enabled where it commits: it takes
      eligible rows only, at most batchSize of them. */
  lemma {:induction false} PhasesRefineAtomicClaims(lease: nat, phases: seq<Phase>)
    ensures RunPhases(lease, phases).committed == Run(lease, INIT, Atomic(lease, phases))
  {
    if phases != [] {
      var before, ph := phases[..|phases| - 1], phases[|phases| - 1];
      PhasesRefineAtomicClaims(lease, before);
      var a := Atomic(lease, before);
      var p := RunPhases(lease, before);
      if CanPhase(lease, p, ph) && ph.Commit? {
        PhasesKeepInv(lease, before);
        WrittenIsClaim(lease, p.committed, ph.worker, p.txns[ph.worker], ph.outcome);
        assert (a + [ClaimOf(ph.worker, p.txns[ph.worker], ph.outcome)])[..|a|] == a;
      } else if CanPhase(lease, p, ph) && ph.Other? {
        assert (a + [ph.step])[..|a|] == a;
      } else {
        assert a + [] == a;
      }
    }
  }

  /** At its commit a claim is enabled as an atomic claim of exactly the rows it locked: every one of
      them, whenever it was locked, is still eligible. */
  lemma CommitIsAtomicClaim(lease: nat, phases: seq<Phase>, w: WorkerId, outcome: Outcome)
    requires w in RunPhases(lease, phases).txns
    ensures var p := RunPhases(lease, phases);
      && Enabled(lease, p.committed, ClaimOf(w, p.txns[w], outcome))
      && (forall id <- p.txns[w].locked :: id in p.committed.jobs
            && Eligible(p.committed.jobs[id], p.txns[w].now, p.txns[w].readAt - p.txns[w].lease))
  {
    PhasesKeepInv(lease, phases);
    assert TxnOk(lease, RunPhases(lease, phases).committed, w, RunPhases(lease, phases).txns[w]);
  }

  /** Claims that are open together never hold a row in common. */
  lemma {:induction false} ConcurrentClaimsDisjoint(lease: nat, phases: seq<Phase>, v: WorkerId, w: WorkerId, id: Uuid)
    requires var p := RunPhases(lease, phases);
             v in p.txns && w in p.txns && id in p.txns[v].locked && id in p.txns[w].locked
    ensures v == w
  {
    PhasesKeepInv(lease, phases);
  }

  // ----- Nothing is lost: every atomic claim is one in phases -----

  function Locks(w: WorkerId, picked: seq<Uuid>): seq<Phase> { seq(|picked|, i requires 0 <= i < |picked| => Lock(w, picked[i])) }

  function ClaimPhases(c: Step): seq<Phase>
    requires c.Claim?
  {
    [Begin(c.worker, c.batchSize, c.lease, c.readAt)] + Locks(c.worker, c.picked) + [Write(c.worker), Commit(c.worker, c.outcome)]
  }

  lemma OnePhase(lease: nat, phases: seq<Phase>, ph: Phase)
    ensures RunPhases(lease, phases + [ph]) == DoPhase(lease, RunPhases(lease, phases), ph)
  {
    assert (phases + [ph])[..|phases|] == phases;
  }

  /** A claim of rows that nobody holds, as far as its i-th lock. */
  lemma {:induction false} LocksTaken(lease: nat, phases: seq<Phase>, c: Step, i: nat)
    requires c.Claim? && i <= |c.picked| && c.worker !in RunPhases(lease, phases).txns
    requires var p := RunPhases(lease, phases);
      Enabled(lease, p.committed, c) && c.now == p.committed.clock && forall id <- c.picked :: !Locked(p, id)
    ensures var p := RunPhases(lease, phases);
      RunPhases(lease, phases + [Begin(c.worker, c.batchSize, c.lease, c.readAt)] + Locks(c.worker, c.picked[..i]))
      == p.(txns := p.txns[c.worker := Txn(c.batchSize, c.lease, c.readAt, c.now, c.picked[..i], false)])
  {
    var begun := phases + [Begin(c.worker, c.batchSize, c.lease, c.readAt)];
    if i == 0 {
      OnePhase(lease, phases, Begin(c.worker, c.batchSize, c.lease, c.readAt));
      assert begun + Locks(c.worker, c.picked[..0]) == begun;
    } else {
      LocksTaken(lease, phases, c, i - 1);
      var id, before := c.picked[i - 1], Locks(c.worker, c.picked[..i - 1]);
      LocksOneMore(c.worker, c.picked, i);
      assert begun + Locks(c.worker, c.picked[..i]) == begun + before + [Lock(c.worker, id)];
      OnePhase(lease, begun + before, Lock(c.worker, id));
      NextLock(lease, RunPhases(lease, phases), c, i - 1);
    }
  }

  lemma LocksOneMore(w: WorkerId, picked: seq<Uuid>, i: nat)
    requires 0 < i <= |picked|
    ensures Locks(w, picked[..i]) == Locks(w, picked[..i - 1]) + [Lock(w, picked[i - 1])]
  {}

  lemma NextLock(lease: nat, p: Phased, c: Step, i: nat)
    requires c.Claim? && i < |c.picked| && c.worker !in p.txns
    requires Enabled(lease, p.committed, c) && forall id <- c.picked :: !Locked(p, id)
    ensures var t := Txn(c.batchSize, c.lease, c.readAt, c.now, c.picked[..i], false);
      DoPhase(lease, p.(txns := p.txns[c.worker := t]), Lock(c.worker, c.picked[i]))
      == p.(txns := p.txns[c.worker := t.(locked := c.picked[..i + 1])])
  {
    var q := p.(txns := p.txns[c.worker := Txn(c.batchSize, c.lease, c.readAt, c.now, c.picked[..i], false)]);
    assert !Locked(p, c.picked[i]);
    assert !Locked(q, c.picked[i]) by {
      forall w | w in q.txns ensures c.picked[i] !in q.txns[w].locked {
        if w != c.worker { assert w in p.txns; }
      }
    }
    assert c.picked[..i + 1] == c.picked[..i] + [c.picked[i]];
  }

  /** A claim whose phases follow each other, of rows that no open claim holds, does what the atomic claim does. */
  lemma ClaimInPhases(lease: nat, phases: seq<Phase>, c: Step)
    requires c.Claim? && c.worker !in RunPhases(lease, phases).txns && c.outcome != Refused
    requires var p := RunPhases(lease, phases);
      Enabled(lease, p.committed, c) && c.now == p.committed.clock && forall id <- c.picked :: !Locked(p, id)
    ensures var p := RunPhases(lease, phases);
      RunPhases(lease, phases + ClaimPhases(c)) == Phased(Do(lease, p.committed, c), p.txns)
  {
    var p := RunPhases(lease, phases);
    var locked := phases + [Begin(c.worker, c.batchSize, c.lease, c.readAt)] + Locks(c.worker, c.picked);
    LocksTaken(lease, phases, c, |c.picked|);
    assert c.picked[..|c.picked|] == c.picked;
    Regroup(phases, [Begin(c.worker, c.batchSize, c.lease, c.readAt)], Locks(c.worker, c.picked), Write(c.worker),
            Commit(c.worker, c.outcome));
    TwoPhases(lease, locked, Write(c.worker), Commit(c.worker, c.outcome));
    WritesAndCommits(lease, p, c);
  }

  lemma Regroup(phases: seq<Phase>, a: seq<Phase>, b: seq<Phase>, x: Phase, y: Phase)
    ensures phases + (a + b + [x, y]) == phases + a + b + [x] + [y]
  {}

  lemma TwoPhases(lease: nat, phases: seq<Phase>, x: Phase, y: Phase)
    ensures RunPhases(lease, phases + [x] + [y]) == DoPhase(lease, DoPhase(lease, RunPhases(lease, phases), x), y)
  {
    OnePhase(lease, phases, x);
    OnePhase(lease, phases + [x], y);
  }

  lemma WritesAndCommits(lease: nat, p: Phased, c: Step)
    requires c.Claim? && c.worker !in p.txns && c.outcome != Refused && Enabled(lease, p.committed, c)
    ensures var t := Txn(c.batchSize, c.lease, c.readAt, c.now, c.picked, false);
      DoPhase(lease, DoPhase(lease, p.(txns := p.txns[c.worker := t]), Write(c.worker)), Commit(c.worker, c.outcome))
      == Phased(Do(lease, p.committed, c), p.txns)
  {
    var t := Txn(c.batchSize, c.lease, c.readAt, c.now, c.picked, true);
    assert p.txns[c.worker := t] - {c.worker} == p.txns;
  }
}
