/** `JoinTask`: the task of a join phase inside a job. It takes its identity
    from the phase, hands out the receiver of its left or right input, and
    reports its completion through the single-assignment result cell of the
    join operation, which `kill` fails. The join algorithm behind that cell
    and the page protocol of the receivers are not part of this model. */
module JoinTasks {
  import opened Wrappers
  import opened JavaTypes

  /** The phase a join task runs: its id and its name. */
  datatype JoinPhase = JoinPhase(phaseId: int32, name: string)

  /** A receiver of the pages of one input; known here only by identity. */
  datatype PageBucketReceiver = PageBucketReceiver(receiverId: nat)

  /** The cause a task is killed with. */
  datatype Throwable = Throwable(message: string)

  /** What a task reports on completion; the join task always reports 0. */
  datatype CompletionState = CompletionState(value: int64)

  /** The state of a `CompletableFuture`: not yet completed, completed with a
      value, or completed exceptionally. */
  datatype FutureState<T> = Pending | Done(value: T) | Failed(cause: Throwable)

  /** One attempt to complete a future. */
  datatype Completion<T> = Complete(value: T) | CompleteExceptionally(cause: Throwable)

  /** The state after one completion attempt: only a pending future takes it. */
  function Apply<T>(s: FutureState<T>, c: Completion<T>): FutureState<T>
  {
    if !s.Pending? then s
    else match c
      case Complete(v) => Done(v)
      case CompleteExceptionally(t) => Failed(t)
  }

  /** The state after a sequence of completion attempts, in order. */
  function ApplyAll<T>(s: FutureState<T>, cs: seq<Completion<T>>): FutureState<T>
    decreases cs
  {
    if cs == [] then s else ApplyAll(Apply(s, cs[0]), cs[1..])
  }

  /** The state the first attempt leaves behind. */
  function Outcome<T>(c: Completion<T>): FutureState<T>
  {
    Apply(Pending, c)
  }

  /** A completed future ignores every later attempt. */
  lemma {:induction false} SettledStaysSettled<T>(s: FutureState<T>, cs: seq<Completion<T>>)
    requires !s.Pending?
    ensures ApplyAll(s, cs) == s
    decreases cs
  {
    if cs != [] {
      SettledStaysSettled(Apply(s, cs[0]), cs[1..]);
    }
  }

  /** Of several attempts on a pending future, the first one wins. */
  lemma FirstCompletionWins<T>(cs: seq<Completion<T>>)
    ensures cs == [] ==> ApplyAll(Pending, cs) == Pending
    ensures cs != [] ==> ApplyAll(Pending, cs) == Outcome(cs[0]) && !ApplyAll(Pending, cs).Pending?
  {
    if cs != [] {
      SettledStaysSettled(Apply(Pending, cs[0]), cs[1..]);
    }
  }

  /** The state of `future.thenApply(ignored -> new CompletionState(0))`: it
      is pending while the future is, succeeds with `CompletionState(0)` when
      the future succeeds, and fails with the same cause when it fails. */
  function CompletionOf<T>(s: FutureState<T>): (r: FutureState<CompletionState>)
    ensures r.Pending? <==> s.Pending?
    ensures r.Done? <==> s.Done?
    ensures r.Done? ==> r.value == CompletionState(0)
    ensures r.Failed? <==> s.Failed?
    ensures r.Failed? ==> r.cause == s.cause
  {
    match s
    case Pending => Pending
    case Done(_) => Done(CompletionState(0))
    case Failed(t) => Failed(t)
  }

  /** The attempt on the dependent stage that an attempt on the future causes. */
  function CompletionAttempt<T>(c: Completion<T>): Completion<CompletionState>
  {
    match c
    case Complete(_) => Complete(CompletionState(0))
    case CompleteExceptionally(t) => CompleteExceptionally(t)
  }

  function CompletionAttempts<T>(cs: seq<Completion<T>>): (r: seq<Completion<CompletionState>>)
    ensures |r| == |cs| && forall k :: 0 <= k < |cs| ==> r[k] == CompletionAttempt(cs[k])
  {
    if cs == [] then [] else [CompletionAttempt(cs[0])] + CompletionAttempts(cs[1..])
  }

  /** The dependent stage follows the future through any sequence of
      completion attempts. */
  lemma {:induction false} CompletionFollowsResult<T>(s: FutureState<T>, cs: seq<Completion<T>>)
    ensures CompletionOf(ApplyAll(s, cs)) == ApplyAll(CompletionOf(s), CompletionAttempts(cs))
    decreases cs
  {
    if cs != [] {
      CompletionFollowsResult(Apply(s, cs[0]), cs[1..]);
      assert CompletionAttempts(cs)[1..] == CompletionAttempts(cs[1..]);
    }
  }

  /** A `CompletableFuture` as a single-assignment result cell. */
  class ResultFuture<T> {
    var state: FutureState<T>

    constructor ()
      ensures state == Pending
    {
      state := Pending;
    }

    /** `complete(value)`: true when this call completed the future. */
    method Complete(value: T) returns (completed: bool)
      modifies this
      ensures state == Apply(old(state), Completion.Complete(value))
      ensures completed <==> old(state).Pending?
    {
      completed := state.Pending?;
      if completed {
        state := Done(value);
      }
    }

    /** `completeExceptionally(cause)`: true when this call completed the
        future. */
    method CompleteExceptionally(cause: Throwable) returns (completed: bool)
      modifies this
      ensures state == Apply(old(state), Completion.CompleteExceptionally(cause))
      ensures completed <==> old(state).Pending?
    {
      completed := state.Pending?;
      if completed {
        state := Failed(cause);
      }
    }
  }

  class JoinTask<R> {
    const joinPhase: JoinPhase
    const leftPageBucketReceiver: Option<PageBucketReceiver>
    const rightPageBucketReceiver: Option<PageBucketReceiver>
    const resultFuture: ResultFuture<R>

    /** The task takes over the completion future of the join operation;
        either receiver may be absent. */
    constructor (joinPhase: JoinPhase, completionFuture: ResultFuture<R>,
                 leftPageBucketReceiver: Option<PageBucketReceiver>,
                 rightPageBucketReceiver: Option<PageBucketReceiver>)
      ensures Id() == joinPhase.phaseId && Name() == joinPhase.name
      ensures this.leftPageBucketReceiver == leftPageBucketReceiver
      ensures this.rightPageBucketReceiver == rightPageBucketReceiver
      ensures resultFuture == completionFuture
    {
      this.joinPhase := joinPhase;
      this.leftPageBucketReceiver := leftPageBucketReceiver;
      this.rightPageBucketReceiver := rightPageBucketReceiver;
      this.resultFuture := completionFuture;
    }

    /** `start()`: there is nothing to start. */
    method Start()
      ensures unchanged(resultFuture)
    {
    }

    function Name(): string
    {
      joinPhase.name
    }

    function Id(): int32
    {
      joinPhase.phaseId
    }

    /** `getBucketReceiver(inputId)`: input 0 is the left side; every other
        id below 2 (1 and the negative bytes) is the right side. */
    function GetBucketReceiver(inputId: int8): (r: Option<PageBucketReceiver>)
      requires inputId < 2
      ensures inputId == 0 ==> r == leftPageBucketReceiver
      ensures (inputId == 1 || inputId < 0) ==> r == rightPageBucketReceiver
    {
      if inputId == 0 then leftPageBucketReceiver else rightPageBucketReceiver
    }

    /** `completionFuture()`: the state of the stage derived from the result
        future. */
    function CompletionFuture(): FutureState<CompletionState>
      reads resultFuture
    {
      CompletionOf(resultFuture.state)
    }

    /** `kill(throwable)`: fails the result future with the cause, unless it
        has completed already, in which case nothing changes. */
    method Kill(throwable: Throwable)
      modifies resultFuture
      ensures resultFuture.state == Apply(old(resultFuture.state), CompleteExceptionally(throwable))
      ensures old(resultFuture.state).Pending? ==> CompletionFuture() == Failed(throwable)
      ensures !old(resultFuture.state).Pending? ==> resultFuture.state == old(resultFuture.state)
    {
      var _ := resultFuture.CompleteExceptionally(throwable);
    }
  }
}
