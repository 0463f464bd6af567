/** The allocation service: one call of it from end to end. */
module AllocationService {
  import opened Wrappers
  import opened AllocationSnapshot
  import opened ReplayCache
  import opened AllocationReplay
  import AllocationExecution

  /** Why the six steps and the commit after them end without an answer, if they do. */
  ghost function RunVerdict(view: Cache, r: Request, started: int, hash: Digest<Request>, stopBefore: nat,
                            conforms: bool): Option<Failure>
  {
    if stopBefore == 0 then Some(Interrupted)
    else if !Valid(r.snapshot) then Some(SnapshotInvalid)
    else if stopBefore < AllocationExecution.STEPS then Some(Interrupted)
    else if !conforms then Some(OutputInvalid)
    else if Contested(view, r.idempotencyKey, Entry(hash, ResponseFor(r), started)) then Some(Conflict)
    else None
  }

  /** Why a hashed call ends without an answer, if it does. */
  ghost function Verdict(view: Cache, free: bool, r: Request, started: int, hash: Digest<Request>,
                         stopBefore: nat, conforms: bool): Option<Failure>
  {
    var next := LookedUp(view, Arrived(r, started, hash));
    if next.Finished? then (if next.outcome.Failed? then Some(next.outcome.failure) else None)
    else if !free then Some(Interrupted)
    else RunVerdict(view, r, started, hash, stopBefore, conforms)
  }

  /** The request names a canonical form of its own snapshot. */
  ghost predicate Declared(r: Request) { r.snapshotHash.Of? && CanonicalFormOf(r.snapshotHash.value, r.snapshot) }

  function Reported(answer: Reply, failure: Failure): Option<Failure> {
    if answer == null then Some(failure) else None
  }

  class Service {
    const store: Replies
    var held: nat

    constructor ()
      ensures fresh(store) && Ready() && KeepsSoundEntries() && store.view == map[] && held == 0
    {
      store := new Store(SoundEntry);
      held := 0;
    }

    ghost predicate Ready()
      reads this, store, store.copies
    {
      store.Valid() && this !in store.copies && held <= SLOTS
    }

    /** The store was built to hold sound entries only. */
    ghost predicate KeepsSoundEntries() { store.good == SoundEntry }

    /** The lookup of a call that has been hashed. */
    method LookUp(r: Request, started: int, hash: Digest<Request>) returns (next: Call, answer: Reply)
      requires store.Valid()
      ensures next == LookedUp(store.view, Arrived(r, started, hash))
      ensures answer != null <==> next.Finished? && next.outcome.Replayed?
      ensures answer != null ==> fresh(answer) && fresh(answer.decisions) && store.Private(answer)
      ensures answer != null ==> answer.Value() == next.outcome.response
    {
      var found;
      found, answer := store.Find(r.idempotencyKey, hash, started);
      if found == Clash { return Finished(r, Failed(Conflict)), null; }
      if found == Hit {
        answer.head := answer.head.(reused := true);
        return Finished(r, Replayed(answer.Value())), answer;
      }
      if IsStale(r, started) { return Finished(r, Failed(Stale)), null; }
      if r.maxToolCalls < MIN_TOOL_CALLS { return Finished(r, Failed(BudgetExhausted)), null; }
      return Queued(r, started, hash), null;
    }

    /** What the lookup replays is what a fresh run would answer. */
    lemma ReplayIsSound(r: Request, started: int, hash: Digest<Request>)
      requires Ready() && KeepsSoundEntries() && HashOf(hash, r)
      ensures LookedUp(store.view, Arrived(r, started, hash)).Finished? ==>
                SoundOutcome(r, LookedUp(store.view, Arrived(r, started, hash)).outcome)
    {
      assert r.idempotencyKey in store.view ==> store.good(r.idempotencyKey, store.view[r.idempotencyKey]);
      LookUpIsSound(store.view, r, started, hash);
    }

    /** The six steps, on private data. */
    static method FreshRun(r: Request, stopBefore: nat)
      returns (progress: AllocationExecution.Progress, response: Response)
      ensures progress == AllocationExecution.Completed <==> stopBefore >= AllocationExecution.STEPS && Valid(r.snapshot)
      ensures progress == AllocationExecution.Rejected <==> stopBefore > 0 && !Valid(r.snapshot)
      ensures progress == AllocationExecution.Completed ==> response == ResponseFor(r)
    {
      var e := new AllocationExecution.Execution(r.snapshot);
      progress := e.Run(stopBefore);
      response := Sheet(Heading(r.taskId, r.idempotencyKey, r.pin, r.snapshotHash, false), e.decisions);
    }

    /** Keep a copy of a fresh response, unless the key is taken. */
    method CommitAnswer(r: Request, started: int, hash: Digest<Request>, response: Response)
      returns (answer: Reply)
      requires store.Valid() && r.idempotencyKey != ""
      requires store.good(r.idempotencyKey, Entry(hash, response, started))
      modifies store
      ensures store.Valid() && (forall a | a in store.copies && a !in old(store.copies) :: fresh(a))
      ensures answer == null <==> Contested(old(store.view), r.idempotencyKey, Entry(hash, response, started))
      ensures answer == null ==> store.view == old(store.view)
      ensures answer != null ==> fresh(answer) && fresh(answer.decisions) && store.Private(answer)
      ensures answer != null ==> answer.Value() == response
      ensures answer != null ==> Stored(old(store.view), r.idempotencyKey, Entry(hash, response, started), store.view)
    {
      var result := Written(response);
      var conflict := store.Commit(r.idempotencyKey, hash, result, started);
      answer := if conflict then null else result;
    }

    /** The snapshot's own hash must match; the idempotency hash covers the request. */
    static method HashRequest(r: Request) returns (matches: bool, hash: Digest<Request>)
      ensures matches ==> Declared(r)
      ensures Unambiguous(r.snapshot) && Declared(r) ==> matches
      ensures HashOf(hash, r)
    {
      var snapshot := CanonicalSnapshot(r.snapshot);
      if Unambiguous(r.snapshot) && Declared(r) {
        CanonicalIsNormalForm(r.snapshot, r.snapshot, snapshot, r.snapshotHash.value);
      }
      matches := r.snapshotHash == Of(snapshot);
      var canonical := CanonicalSnapshot(r.snapshot);
      hash := Of(r.(snapshot := canonical));
    }

    /** What happens while the slot is held. */
    method RunAndCommit(r: Request, started: int, hash: Digest<Request>, stopBefore: nat, conforms: bool)
      returns (answer: Reply, failure: Failure)
      requires Ready() && r.idempotencyKey != ""
      requires Valid(r.snapshot) ==> store.good(r.idempotencyKey, Entry(hash, ResponseFor(r), started))
      modifies store
      ensures Ready() && (forall a | a in store.copies && a !in old(store.copies) :: fresh(a))
      ensures Reported(answer, failure) == RunVerdict(old(store.view), r, started, hash, stopBefore, conforms)
      ensures answer == null ==> store.view == old(store.view)
      ensures answer != null ==> fresh(answer) && fresh(answer.decisions) && store.Private(answer)
      ensures answer != null ==> Valid(r.snapshot) && answer.Value() == ResponseFor(r)
      ensures answer != null ==> Stored(old(store.view), r.idempotencyKey, Entry(hash, answer.Value(), started), store.view)
    {
      failure := Conflict;
      var progress, response := FreshRun(r, stopBefore);
      if progress == AllocationExecution.Stopped { return null, Interrupted; }
      if progress == AllocationExecution.Rejected { return null, SnapshotInvalid; }
      if !conforms { return null, OutputInvalid; }
      answer := CommitAnswer(r, started, hash, response);
    }

    /** Wait for a slot, work, and give it back. */
    method InSlot(r: Request, started: int, hash: Digest<Request>, giveUp: bool, stopBefore: nat, conforms: bool)
      returns (answer: Reply, failure: Failure)
      requires Ready() && r.idempotencyKey != ""
      requires Valid(r.snapshot) ==> store.good(r.idempotencyKey, Entry(hash, ResponseFor(r), started))
      modifies this`held, store
      ensures Ready() && held == old(held) && (forall a | a in store.copies && a !in old(store.copies) :: fresh(a))
      ensures Reported(answer, failure) == if held < SLOTS && !giveUp
                then RunVerdict(old(store.view), r, started, hash, stopBefore, conforms) else Some(Interrupted)
      ensures answer == null ==> store.view == old(store.view)
      ensures answer != null ==> fresh(answer) && fresh(answer.decisions) && store.Private(answer)
      ensures answer != null ==> Valid(r.snapshot) && answer.Value() == ResponseFor(r)
      ensures answer != null ==> Stored(old(store.view), r.idempotencyKey, Entry(hash, answer.Value(), started), store.view)
    {
      if held >= SLOTS || giveUp { return null, Interrupted; }
      held := held + 1;
      answer, failure := RunAndCommit(r, started, hash, stopBefore, conforms);
      held := held - 1;
    }

    /** A call that has been hashed: replay, refuse, or run. */
    method AnswerHashed(r: Request, started: int, hash: Digest<Request>, giveUp: bool, stopBefore: nat, conforms: bool)
      returns (answer: Reply, failure: Failure)
      requires Ready() && KeepsSoundEntries() && r.idempotencyKey != "" && HashOf(hash, r)
      modifies this`held, store
      ensures Ready() && held == old(held) && (forall a | a in store.copies && a !in old(store.copies) :: fresh(a))
      ensures Reported(answer, failure) ==
              Verdict(old(store.view), held < SLOTS && !giveUp, r, started, hash, stopBefore, conforms)
      ensures answer != null ==> fresh(answer) && fresh(answer.decisions) && store.Private(answer) && Valid(r.snapshot)
      ensures answer != null ==> answer.Value() == Marked(ResponseFor(r), answer.head.reused)
      ensures answer == null || answer.head.reused ==> store.view == old(store.view)
      ensures answer != null && !answer.head.reused ==>
                Stored(old(store.view), r.idempotencyKey, Entry(hash, answer.Value(), started), store.view)
    {
      hide Valid, HashOf, SoundEntry, RunVerdict;
      failure := SnapshotInvalid;
      var next;
      next, answer := LookUp(r, started, hash);
      ReplayIsSound(r, started, hash);
      if next.Finished? {
        if next.outcome.Failed? { failure := next.outcome.failure; }
        return;
      }
      if Valid(r.snapshot) { HashIsSound(r, hash, started); }
      answer, failure := InSlot(r, started, hash, giveUp, stopBefore, conforms);
    }

    /** One call from end to end, with nobody else running.  `giveUp` says the
        context ends while waiting for a slot, `stopBefore` before which of the six
        steps it ends, `conforms` whether the response passes its schema.  The slot
        is back on every exit, and an answer carries the plan of the caller's own
        snapshot and shares nothing with the cache. */
    method Execute(r: Request, started: int, giveUp: bool, stopBefore: nat, conforms: bool)
      returns (answer: Reply, failure: Failure, ghost hash: Digest<Request>)
      requires Ready() && KeepsSoundEntries() && r.idempotencyKey != ""
      modifies this`held, store
      ensures Ready() && held == old(held) && (forall a | a in store.copies && a !in old(store.copies) :: fresh(a))
      ensures HashOf(hash, r)
      ensures !Declared(r) ==> answer == null && failure == SnapshotInvalid
      ensures Declared(r) && Unambiguous(r.snapshot) ==>
                Reported(answer, failure) ==
                Verdict(old(store.view), held < SLOTS && !giveUp, r, started, hash, stopBefore, conforms)
      ensures answer != null ==> fresh(answer) && fresh(answer.decisions) && store.Private(answer) && Valid(r.snapshot)
      ensures answer != null ==> answer.Value() == Marked(ResponseFor(r), answer.head.reused)
      ensures answer == null || answer.head.reused ==> store.view == old(store.view)
      ensures answer != null && !answer.head.reused ==>
                Stored(old(store.view), r.idempotencyKey, Entry(hash, answer.Value(), started), store.view)
    {
      hide Valid, HashOf, SoundEntry, Verdict, Declared, Unambiguous, Stored;
      var matches, hashed := HashRequest(r);
      hash := hashed;
      if !matches { return null, SnapshotInvalid, hash; }
      answer, failure := AnswerHashed(r, started, hashed, giveUp, stopBefore, conforms);
    }
  }
}
