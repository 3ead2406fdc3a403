/** The cleanups a Machine registers and the one pass of doCleanup over them,
    seen from a system where other goroutines may register while the pass runs. */
module CleanupStack {

  datatype Failure =
    | LaunchFailed(code: nat)
    | InitTimeout
    | BadExit(status: nat)
    | CleanupFailed(cleanup: nat, code: nat)

  /** Both Start's deferred call and the waiter call doCleanup. */
  datatype Owner = ByStarter | ByWaiter

  /** What one cleanup returned. */
  datatype Answer = Fine | Failed(code: nat)

  /** cleanupOnce together with the loop inside it: `total` is the length the
      range expression saw, `next` counts the iterations made. */
  datatype Once = Unfired | Firing(owner: Owner, total: nat, next: nat) | Fired(owner: Owner, total: nat)

  datatype Stack = Stack(
    registered: nat,         // length of cleanupFuncs; a cleanup is named by its index
    once: Once,
    ran: seq<nat>,           // the index of each cleanup called, in order
    errs: seq<Failure>,      // what multierror.Append has collected
    answers: seq<Answer>,    // history: what each call returned
    shifted: bool)           // history: a registration landed while calls were left to make

  const EMPTY: Stack := Stack(0, Unfired, [], [], [], false)

  function Register(t: Stack, n: nat): Stack {
    t.(registered := t.registered + n,
       shifted := t.shifted || (n > 0 && t.once.Firing? && t.once.next < t.once.total))
  }

  function Enter(t: Stack, owner: Owner): Stack
    requires t.once.Unfired?
  {
    t.(once := Firing(owner, t.registered, 0))
  }

  predicate MoreToCall(t: Stack) {
    t.once.Firing? && t.once.next < t.once.total
  }

  /** The index the next iteration computes: from the length cleanupFuncs has now,
      not from the length the loop started with. */
  function NextIndex(t: Stack): int
    requires t.once.Firing?
  {
    t.registered - 1 - t.once.next
  }

  function Call(t: Stack, answer: Answer): Stack
    requires MoreToCall(t) && 0 <= NextIndex(t)
  {
    Stack(t.registered,
          Firing(t.once.owner, t.once.total, t.once.next + 1),
          t.ran + [NextIndex(t)],
          if answer.Failed? then t.errs + [CleanupFailed(NextIndex(t), answer.code)] else t.errs,
          t.answers + [answer],
          t.shifted)
  }

  function Leave(t: Stack): Stack
    requires t.once.Firing? && !MoreToCall(t)
  {
    t.(once := Fired(t.once.owner, t.once.total))
  }

  // ---------- what every interleaving of these keeps ----------

  function Calls(o: Once): nat {
    match o
    case Unfired => 0
    case Firing(_, _, next) => next
    case Fired(_, total) => total
  }

  function Total(o: Once): nat
    requires !o.Unfired?
  {
    o.total
  }

  /** n-1, n-2, ..., 0. */
  function Countdown(n: nat): (r: seq<nat>)
    ensures |r| == n
    ensures forall i :: 0 <= i < n ==> r[i] == n - 1 - i
  {
    seq(n, i requires 0 <= i < n => n - 1 - i)
  }

  /** The non-nil answers, each with the cleanup it came from, in the order of the calls. */
  function NonNil(ran: seq<nat>, answers: seq<Answer>): seq<Failure>
    requires |ran| == |answers|
  {
    if ran == [] then []
    else
      var last := |ran| - 1;
      NonNil(ran[..last], answers[..last])
      + if answers[last].Failed? then [CleanupFailed(ran[last], answers[last].code)] else []
  }

  /** The positions of the answers that are errors, in order. */
  function Failing(answers: seq<Answer>): (at: seq<nat>)
    ensures forall k :: 0 <= k < |at| ==> at[k] < |answers| && answers[at[k]].Failed?
    ensures forall j, k :: 0 <= j < k < |at| ==> at[j] < at[k]
    ensures forall i :: 0 <= i < |answers| && answers[i].Failed? ==> i in at
  {
    if answers == [] then []
    else
      var last := |answers| - 1;
      Failing(answers[..last]) + if answers[last].Failed? then [last] else []
  }

  /** One failure for each of them, naming the cleanup called there and its code. */
  lemma {:induction false} NonNilListed(ran: seq<nat>, answers: seq<Answer>)
    requires |ran| == |answers|
    ensures var at := Failing(answers);
            && |NonNil(ran, answers)| == |at|
            && forall k :: 0 <= k < |at| ==> NonNil(ran, answers)[k] == CleanupFailed(ran[at[k]], answers[at[k]].code)
    decreases |ran|
  {
    if ran != [] {
      NonNilListed(ran[..|ran| - 1], answers[..|answers| - 1]);
    }
  }

  ghost predicate LogInv(t: Stack) {
    && |t.ran| == Calls(t.once)
    && (t.once.Unfired? ==> !t.shifted)
    && |t.answers| == |t.ran|
    && t.errs == NonNil(t.ran, t.answers)
    && (!t.once.Unfired? ==>
          && Calls(t.once) <= Total(t.once) <= t.registered
          && (forall i :: 0 <= i < |t.ran| ==> Total(t.once) - 1 - i <= t.ran[i] <= t.registered - 1 - i)
          && (if t.shifted then
                && 0 < Total(t.once)
                && (MoreToCall(t) ==> Total(t.once) < t.registered)
                && (!MoreToCall(t) ==> 0 < t.ran[|t.ran| - 1])
              else
                && (MoreToCall(t) ==> t.registered == Total(t.once))
                && forall i :: 0 <= i < |t.ran| ==> t.ran[i] == Total(t.once) - 1 - i))
  }

  lemma {:induction false} RegisterKeeps(t: Stack, n: nat)
    requires LogInv(t)
    ensures LogInv(Register(t, n))
  {
  }

  lemma {:induction false} EnterKeeps(t: Stack, owner: Owner)
    requires LogInv(t) && t.once.Unfired?
    ensures LogInv(Enter(t, owner))
  {
  }

  lemma {:induction false} CallKeeps(t: Stack, answer: Answer)
    requires LogInv(t) && MoreToCall(t)
    ensures 0 <= NextIndex(t) && LogInv(Call(t, answer))
  {
    var u := Call(t, answer);
    assert u.ran[..|u.ran| - 1] == t.ran && u.answers[..|u.answers| - 1] == t.answers;
  }

  lemma {:induction false} LeaveKeeps(t: Stack)
    requires LogInv(t) && t.once.Firing? && !MoreToCall(t)
    ensures LogInv(Leave(t))
  {
  }

  /** A finished pass called every cleanup registered before it exactly once, last
      registered first, exactly when nothing was registered while calls were left;
      otherwise the first cleanup ever registered was never called. */
  lemma {:induction false} PassIsCountdown(t: Stack)
    requires LogInv(t) && t.once.Fired?
    ensures t.ran == Countdown(t.once.total) <==> !t.shifted
    ensures t.shifted ==> 0 < t.once.total && 0 !in t.ran
    ensures |t.answers| == |t.ran| && t.errs == NonNil(t.ran, t.answers)
  {
    if t.shifted {
      forall i | 0 <= i < |t.ran|
        ensures t.ran[i] != 0
      {
      }
    }
  }
}
