/**
 The control pipe (internal/ipc/server.go): Rebind swaps the listener under a running Serve loop, a close may
 finish long after it was requested, and cancellation closes whatever is published. Each action is one atomic
 step. A listener is known by its number in the order of creation; accepting fails only on one that is no longer open.
 */
module PipeListener {
  import opened Text

  datatype Binding = Binding(pipeName: string, sddl: string)

  datatype Status = Open | Closing | Closed

  /** `reinstated`: published again although its close had been requested. */
  datatype Listener = Listener(binding: Binding, status: Status, reinstated: bool)

  datatype RebindPc =
    | Idle
    | Took(want: Binding, prior: Option<nat>, prev: Binding)
    | AwaitClose(want: Binding, prior: Option<nat>, prev: Binding)
    | Bind(want: Binding, prior: Option<nat>, prev: Binding, stuck: bool)
    | Restore(prev: Binding)
    | Publish(ln: nat, binding: Binding)

  datatype ServePc = Poll | Accepting(ln: nat) | Failed(ln: nat) | Returned(ln: nat) | Ended

  datatype State = State(
    listeners: seq<Listener>,
    ln: Option<nat>, stored: Binding,   // guarded by the server's mutex
    rebind: RebindPc, serve: ServePc,
    closing: Option<nat>,               // taken by Close, not closed yet
    cancelled: bool)

  datatype Action =
    | RebindTake(want: Binding)
    | RequestClose
    | CloseSeen
    | CloseTimeout
    | BindOk
    | BindRefused
    | RestoreOk
    | RestoreRefused
    | SetListener
    | FinishClose(ln: nat)
    | ServePoll
    | AcceptOk
    | AcceptError
    | ServeDecide
    | Cancel
    | CloseTake
    | CloseTaken

  predicate Possible(s: State, a: Action) {
    match a
    case RebindTake(_) => s.rebind.Idle?
    case RequestClose => s.rebind.Took? && (s.rebind.prior.Some? ==> s.rebind.prior.value < |s.listeners|)
    case CloseSeen => s.rebind.AwaitClose? && s.rebind.prior.Some? && s.rebind.prior.value < |s.listeners|
                      && s.listeners[s.rebind.prior.value].status.Closed?
    case CloseTimeout => s.rebind.AwaitClose? && s.rebind.prior.Some?
    case BindOk => s.rebind.Bind?
    case BindRefused => s.rebind.Bind? &&
                        (s.rebind.stuck ==> s.rebind.prior.Some? && s.rebind.prior.value < |s.listeners|)
    case RestoreOk => s.rebind.Restore? && s.rebind.prev.sddl != ""
    case RestoreRefused => s.rebind.Restore?
    case SetListener => s.rebind.Publish?
    case FinishClose(i) => i < |s.listeners| && s.listeners[i].status.Closing?
    case ServePoll => s.serve.Poll? && (s.ln.Some? || s.cancelled)
    case AcceptOk => s.serve.Accepting?
    case AcceptError => s.serve.Accepting? && s.serve.ln < |s.listeners| && !s.listeners[s.serve.ln].status.Open?
    case ServeDecide => s.serve.Failed?
    case Cancel => true
    case CloseTake => s.cancelled && s.closing.None?
    case CloseTaken => s.closing.Some? && s.closing.value < |s.listeners|
  }

  function CloseRequested(ls: seq<Listener>, i: nat): seq<Listener>
    requires i < |ls|
  {
    if ls[i].status.Open? then ls[i := ls[i].(status := Closing)] else ls
  }

  function Next(s: State, a: Action): State
    requires Possible(s, a)
  {
    match a
    case RebindTake(want) => s.(rebind := Took(want, s.ln, s.stored), ln := None)
    case RequestClose =>
      var Took(want, prior, prev) := s.rebind;
      if prior.None? then s.(rebind := Bind(want, prior, prev, false))
      else s.(rebind := AwaitClose(want, prior, prev), listeners := CloseRequested(s.listeners, prior.value))
    case CloseSeen => s.(rebind := Bind(s.rebind.want, s.rebind.prior, s.rebind.prev, false))
    case CloseTimeout => s.(rebind := Bind(s.rebind.want, s.rebind.prior, s.rebind.prev, true))
    case BindOk =>
      s.(rebind := Publish(|s.listeners|, s.rebind.want),
         listeners := s.listeners + [Listener(s.rebind.want, Open, false)])
    case BindRefused =>
      if s.rebind.stuck then
        var i := s.rebind.prior.value;
        s.(rebind := Publish(i, s.rebind.prev), listeners := s.listeners[i := s.listeners[i].(reinstated := true)])
      else s.(rebind := Restore(s.rebind.prev))
    case RestoreOk =>
      s.(rebind := Publish(|s.listeners|, s.rebind.prev),
         listeners := s.listeners + [Listener(s.rebind.prev, Open, false)])
    case RestoreRefused => s.(rebind := Idle)
    case SetListener => s.(ln := Some(s.rebind.ln), stored := s.rebind.binding, rebind := Idle)
    case FinishClose(i) => s.(listeners := s.listeners[i := s.listeners[i].(status := Closed)])
    case ServePoll => s.(serve := if s.ln.Some? then Accepting(s.ln.value) else Ended)
    case AcceptOk => s.(serve := Poll)
    case AcceptError => s.(serve := Failed(s.serve.ln))
    case ServeDecide =>
      s.(serve := if s.cancelled then Ended else if s.ln != Some(s.serve.ln) then Poll else Returned(s.serve.ln))
    case Cancel => s.(cancelled := true)
    case CloseTake => s.(closing := s.ln, ln := None)
    case CloseTaken => s.(closing := None, listeners := CloseRequested(s.listeners, s.closing.value))
  }

  function Initial(): State {
    State([], None, Binding("", ""), Idle, Poll, None, false)
  }

  predicate IsRun(s: State, actions: seq<Action>)
    decreases |actions|
  {
    actions == [] || (Possible(s, actions[0]) && IsRun(Next(s, actions[0]), actions[1..]))
  }

  function After(s: State, actions: seq<Action>): State
    requires IsRun(s, actions)
    decreases |actions|
  {
    if actions == [] then s else After(Next(s, actions[0]), actions[1..])
  }

  // ---- the invariant

  predicate Known(s: State, i: nat) {
    i < |s.listeners|
  }

  /** Usable for serving: open, or put back by the stuck-close branch. */
  predicate Sound(s: State, i: nat) {
    Known(s, i) && (s.listeners[i].status.Open? || s.listeners[i].reinstated)
  }

  /** The listener Rebind holds, if any. */
  function Held(s: State): Option<nat> {
    match s.rebind
    case Took(_, prior, _) => prior
    case AwaitClose(_, prior, _) => prior
    case Bind(_, prior, _, _) => prior
    case Publish(ln, _) => Some(ln)
    case _ => None
  }

  function HeldBinding(s: State): Binding {
    match s.rebind
    case Took(_, _, prev) => prev
    case AwaitClose(_, _, prev) => prev
    case Bind(_, _, prev, _) => prev
    case Publish(_, b) => b
    case Restore(prev) => prev
    case Idle => s.stored
  }

  /** What the mutex, Rebind and Close keep, whatever Serve is doing. */
  predicate PipesInv(s: State) {
    && (s.ln.Some? ==> Sound(s, s.ln.value) && s.listeners[s.ln.value].binding == s.stored)
    && (!s.rebind.Idle? ==> s.ln.None?)
    && (Held(s).Some? ==> Known(s, Held(s).value) && s.listeners[Held(s).value].binding == HeldBinding(s))
    && (s.rebind.Took? && s.rebind.prior.Some? ==> Sound(s, s.rebind.prior.value))
    && (s.rebind.Publish? ==> Sound(s, s.rebind.ln))
    && (s.rebind.Bind? && s.rebind.stuck ==> s.rebind.prior.Some?)
    && (s.closing.Some? ==> Known(s, s.closing.value) && s.ln != s.closing && Held(s) != s.closing)
  }

  /** What Serve knows of the listener it is on. */
  predicate ServeInv(ls: seq<Listener>, serve: ServePc) {
    match serve
    case Accepting(i) => i < |ls|
    case Failed(i) => i < |ls| && !ls[i].status.Open?
    case Returned(i) => i < |ls| && ls[i].reinstated
    case _ => true
  }

  function WithoutServe(s: State): State {
    s.(serve := Poll, cancelled := false)
  }

  predicate Inv(s: State) {
    PipesInv(s) && ServeInv(s.listeners, s.serve)
  }

  predicate OfRebind(a: Action) {
    a.RebindTake? || a.RequestClose? || a.CloseSeen? || a.CloseTimeout?
  }

  predicate OfBind(a: Action) {
    a.BindOk? || a.BindRefused? || a.RestoreOk? || a.RestoreRefused? || a.SetListener?
  }

  predicate OfServe(a: Action) {
    a.ServePoll? || a.AcceptOk? || a.AcceptError? || a.ServeDecide? || a.Cancel?
  }

  lemma RebindKeepsPipes(s: State, a: Action)
    requires PipesInv(s) && Possible(s, a) && OfRebind(a)
    ensures PipesInv(Next(s, a))
  {
  }

  lemma BindKeepsPipes(s: State, a: Action)
    requires PipesInv(s) && Possible(s, a) && OfBind(a)
    ensures PipesInv(Next(s, a))
  {
  }

  lemma CloseKeepsPipes(s: State, a: Action)
    requires PipesInv(s) && Possible(s, a) && (a.FinishClose? || a.CloseTake? || a.CloseTaken?)
    ensures PipesInv(Next(s, a))
  {
  }

  lemma PipesInvIgnoresServe(s: State)
    ensures PipesInv(s) <==> PipesInv(WithoutServe(s))
  {
  }

  /** Serve leaves everything but its own place alone. */
  lemma ServeKeepsInv(s: State, a: Action)
    requires Inv(s) && Possible(s, a) && OfServe(a)
    ensures Inv(Next(s, a))
  {
    assert WithoutServe(Next(s, a)) == WithoutServe(s);
    PipesInvIgnoresServe(s);
    PipesInvIgnoresServe(Next(s, a));
  }

  /** No listener is forgotten, reopened or un-reinstated. */
  predicate Grown(before: seq<Listener>, after: seq<Listener>) {
    && |before| <= |after|
    && forall i :: 0 <= i < |before| ==>
         (after[i].status.Open? ==> before[i].status.Open?) && (before[i].reinstated ==> after[i].reinstated)
  }

  lemma StepGrows(s: State, a: Action)
    requires Possible(s, a)
    ensures Grown(s.listeners, Next(s, a).listeners)
  {
  }

  lemma GrownKeepsServe(before: seq<Listener>, after: seq<Listener>, serve: ServePc)
    requires Grown(before, after) && ServeInv(before, serve)
    ensures ServeInv(after, serve)
  {
  }

  lemma PipeStepKeepsPipes(s: State, a: Action)
    requires PipesInv(s) && Possible(s, a) && !OfServe(a)
    ensures PipesInv(Next(s, a)) && Next(s, a).serve == s.serve
  {
    if OfRebind(a) {
      RebindKeepsPipes(s, a);
    } else if OfBind(a) {
      BindKeepsPipes(s, a);
    } else {
      CloseKeepsPipes(s, a);
    }
  }

  lemma StepKeepsInv(s: State, a: Action)
    requires Inv(s) && Possible(s, a)
    ensures Inv(Next(s, a))
  {
    if OfServe(a) {
      ServeKeepsInv(s, a);
    } else {
      PipeStepKeepsPipes(s, a);
      StepGrows(s, a);
      GrownKeepsServe(s.listeners, Next(s, a).listeners, s.serve);
    }
  }

  lemma {:induction false} RunKeepsInv(s: State, actions: seq<Action>)
    requires Inv(s) && IsRun(s, actions)
    ensures Inv(After(s, actions))
    decreases |actions|
  {
    if actions != [] {
      StepKeepsInv(s, actions[0]);
      RunKeepsInv(Next(s, actions[0]), actions[1..]);
    }
  }

  /**
   In every interleaving: the stored name and descriptor are those of the published listener, it is open unless
   the stuck-close branch put it back, and Serve returns on a failed accept only when that branch did.
   */
  lemma ServesThroughRebinds(actions: seq<Action>)
    requires IsRun(Initial(), actions)
    ensures var s := After(Initial(), actions);
            && (s.ln.Some? ==>
                  && s.ln.value < |s.listeners|
                  && s.listeners[s.ln.value].binding == s.stored
                  && (s.listeners[s.ln.value].status.Open? || s.listeners[s.ln.value].reinstated))
            && (s.serve.Returned? ==> s.serve.ln < |s.listeners| && s.listeners[s.serve.ln].reinstated)
  {
    RunKeepsInv(Initial(), actions);
  }

  // ---- Serve goes on

  lemma {:induction false} CancelledExactly(s: State, actions: seq<Action>)
    requires IsRun(s, actions)
    ensures After(s, actions).cancelled <==> s.cancelled || Cancel in actions
    decreases |actions|
  {
    if actions != [] {
      assert actions == [actions[0]] + actions[1..];
      CancelledExactly(Next(s, actions[0]), actions[1..]);
    }
  }

  lemma {:induction false} EndsOnlyCancelled(s: State, actions: seq<Action>)
    requires IsRun(s, actions) && (s.serve.Ended? ==> s.cancelled)
    ensures After(s, actions).serve.Ended? ==> After(s, actions).cancelled
    decreases |actions|
  {
    if actions != [] {
      EndsOnlyCancelled(Next(s, actions[0]), actions[1..]);
    }
  }

  /**
   In every interleaving without a cancellation Serve is there: it waits for a listener, accepts on one, or is about to
   decide what a failed accept means; it has given up only on a listener that the stuck-close branch put back.
   */
  lemma ServesUntilCancelled(actions: seq<Action>)
    requires IsRun(Initial(), actions) && Cancel !in actions
    ensures var s := After(Initial(), actions);
            || s.serve.Poll? || s.serve.Accepting? || s.serve.Failed?
            || (s.serve.Returned? && s.serve.ln < |s.listeners| && s.listeners[s.serve.ln].reinstated)
  {
    CancelledExactly(Initial(), actions);
    EndsOnlyCancelled(Initial(), actions);
    ServesThroughRebinds(actions);
  }

  /**
   A failed accept on a listener that is no longer the published one is survived: Serve polls again, and as soon as a
   replacement is published it accepts on that one. Only a failure of the published listener itself makes it return.
   */
  lemma SwappedListenerIsSurvived(s: State)
    requires s.serve.Failed? && !s.cancelled
    ensures var decided := Next(s, ServeDecide);
            if s.ln == Some(s.serve.ln) then decided.serve == Returned(s.serve.ln)
            else decided.serve.Poll? && (s.ln.Some? ==> Next(decided, ServePoll).serve == Accepting(s.ln.value))
  {
  }

  /** From a listener that was replaced under a blocked accept to the replacement, with no other step in between. */
  lemma AcceptMovesOver(s: State, other: nat)
    requires s.serve.Accepting? && s.serve.ln < |s.listeners| && !s.listeners[s.serve.ln].status.Open?
    requires s.ln == Some(other) && other != s.serve.ln && !s.cancelled
    ensures IsRun(s, [AcceptError, ServeDecide, ServePoll])
    ensures After(s, [AcceptError, ServeDecide, ServePoll]) == s.(serve := Accepting(other))
  {
    var s1 := Next(s, AcceptError);
    var s2 := Next(s1, ServeDecide);
    var s3 := Next(s2, ServePoll);
    assert [AcceptError, ServeDecide, ServePoll][1..] == [ServeDecide, ServePoll];
    assert [ServeDecide, ServePoll][1..] == [ServePoll];
    assert After(s3, []) == s3;
    assert After(s2, [ServePoll]) == s3;
    assert After(s1, [ServeDecide, ServePoll]) == s3;
  }

  /** A cancelled Serve ends: with the next poll when nothing is published, or when its accept fails. */
  lemma CancelledServeEnds(s: State)
    requires s.cancelled
    ensures s.serve.Failed? ==> Next(s, ServeDecide).serve.Ended?
    ensures s.serve.Poll? && s.ln.None? ==> Next(s, ServePoll).serve.Ended?
  {
  }

  // ---- no listener is left behind

  /** Every open listener is published, in the hands of Rebind, or about to be closed by Close. */
  predicate Accounted(s: State) {
    forall i :: 0 <= i < |s.listeners| && s.listeners[i].status.Open? ==>
      || s.ln == Some(i) || s.closing == Some(i)
      || (s.rebind.Took? && s.rebind.prior == Some(i)) || (s.rebind.Publish? && s.rebind.ln == i)
  }

  lemma StepKeepsAccounted(s: State, a: Action)
    requires Inv(s) && Accounted(s) && Possible(s, a)
    ensures Accounted(Next(s, a))
  {
  }

  lemma {:induction false} RunKeepsAccounted(s: State, actions: seq<Action>)
    requires Inv(s) && Accounted(s) && IsRun(s, actions)
    ensures Accounted(After(s, actions))
    decreases |actions|
  {
    if actions != [] {
      StepKeepsInv(s, actions[0]);
      StepKeepsAccounted(s, actions[0]);
      RunKeepsAccounted(Next(s, actions[0]), actions[1..]);
    }
  }

  /** In no interleaving is an open pipe forgotten; between rebinds and closes only the published one is open. */
  lemma NoListenerLeaks(actions: seq<Action>)
    requires IsRun(Initial(), actions)
    ensures Accounted(After(Initial(), actions))
    ensures var s := After(Initial(), actions);
            s.rebind.Idle? && s.closing.None? ==>
              forall i :: 0 <= i < |s.listeners| && s.listeners[i].status.Open? ==> s.ln == Some(i)
  {
    RunKeepsAccounted(Initial(), actions);
  }

  ghost predicate NothingStuck(s: State) {
    && (forall i :: 0 <= i < |s.listeners| ==> !s.listeners[i].reinstated)
    && (s.rebind.Bind? ==> !s.rebind.stuck)
  }

  lemma StepKeepsNothingStuck(s: State, a: Action)
    requires NothingStuck(s) && Possible(s, a) && !a.CloseTimeout?
    ensures NothingStuck(Next(s, a))
  {
  }

  /** While every close finishes within its grace period, nothing is reinstated and Serve never gives up. */
  lemma {:induction false} PromptClosesKeepServing(s: State, actions: seq<Action>)
    requires Inv(s) && NothingStuck(s) && IsRun(s, actions)
    requires forall i :: 0 <= i < |actions| ==> !actions[i].CloseTimeout?
    ensures !After(s, actions).serve.Returned?
    ensures After(s, actions).ln.Some? ==>
              Known(After(s, actions), After(s, actions).ln.value) &&
              After(s, actions).listeners[After(s, actions).ln.value].status.Open?
    decreases |actions|
  {
    if actions == [] {
      assert After(s, actions) == s;
    } else {
      StepKeepsInv(s, actions[0]);
      StepKeepsNothingStuck(s, actions[0]);
      PromptClosesKeepServing(Next(s, actions[0]), actions[1..]);
    }
  }

  // ---- the server's own code: one whole Rebind or Close that no other step interrupts

  /** The first steps of one Rebind: the listener is taken and its close awaited. */
  function CloseOf(s: State, want: Binding, closeReturns: bool): State
    requires s.rebind.Idle? && (s.ln.Some? ==> Known(s, s.ln.value))
  {
    var requested := Next(Next(s, RebindTake(want)), RequestClose);
    if s.ln.None? then requested
    else if !closeReturns then Next(requested, CloseTimeout)
    else if requested.listeners[s.ln.value].status.Closing?
      then Next(Next(requested, FinishClose(s.ln.value)), CloseSeen)
    else Next(requested, CloseSeen)
  }

  /** The steps of one Rebind in the order the code takes them. */
  function RebindOf(s: State, want: Binding, closeReturns: bool, bindOk: bool, restoreOk: bool): State
    requires s.rebind.Idle? && (s.ln.Some? ==> Known(s, s.ln.value))
  {
    var closed := CloseOf(s, want, closeReturns);
    if bindOk then Next(Next(closed, BindOk), SetListener)
    else
      var refused := Next(closed, BindRefused);
      if refused.rebind.Publish? then Next(refused, SetListener)
      else if s.stored.sddl != "" && restoreOk then Next(Next(refused, RestoreOk), SetListener)
      else Next(refused, RestoreRefused)
  }

  datatype Pipes = Pipes(listeners: seq<Listener>, ln: Option<nat>, stored: Binding)

  function AfterClose(p: Pipes, closeReturns: bool): seq<Listener>
    requires p.ln.Some? ==> p.ln.value < |p.listeners|
  {
    if p.ln.None? then p.listeners
    else
      var ls := CloseRequested(p.listeners, p.ln.value);
      if closeReturns then ls[p.ln.value := ls[p.ln.value].(status := Closed)] else ls
  }

  /**
   What one Rebind leaves behind: the new binding, else the stuck listener, else the previous binding made anew.
   It ends with nothing listening only if none of the three was to be had; the stored binding then names the last one.
   */
  function Rebound(p: Pipes, want: Binding, closeReturns: bool, bindOk: bool, restoreOk: bool): (r: Pipes)
    requires p.ln.Some? ==> p.ln.value < |p.listeners| && p.listeners[p.ln.value].binding == p.stored
    ensures r.ln.None? <==> !bindOk && (p.ln.None? || closeReturns) && (p.stored.sddl == "" || !restoreOk)
    ensures r.stored == if bindOk then want else p.stored
    ensures r.ln.Some? ==> r.ln.value < |r.listeners| && r.listeners[r.ln.value].binding == r.stored
    ensures r.ln.Some? && (bindOk || p.ln.None? || closeReturns) ==> r.listeners[r.ln.value].status.Open?
    ensures |p.listeners| <= |r.listeners| <= |p.listeners| + 1
    ensures forall i :: 0 <= i < |p.listeners| && p.ln != Some(i) ==> r.listeners[i] == p.listeners[i]
    ensures p.ln.Some? ==> if closeReturns then r.listeners[p.ln.value].status.Closed?
                           else !r.listeners[p.ln.value].status.Open?
  {
    var ls := AfterClose(p, closeReturns);
    if bindOk then Pipes(ls + [Listener(want, Open, false)], Some(|ls|), want)
    else if p.ln.Some? && !closeReturns
      then Pipes(ls[p.ln.value := ls[p.ln.value].(reinstated := true)], p.ln, p.stored)
    else if p.stored.sddl != "" && restoreOk
      then Pipes(ls + [Listener(p.stored, Open, false)], Some(|ls|), p.stored)
    else Pipes(ls, None, p.stored)
  }

  lemma CloseOfState(s: State, want: Binding, closeReturns: bool)
    requires s.rebind.Idle? && (s.ln.Some? ==> Known(s, s.ln.value))
    ensures CloseOf(s, want, closeReturns)
            == s.(rebind := Bind(want, s.ln, s.stored, s.ln.Some? && !closeReturns), ln := None,
                  listeners := AfterClose(Pipes(s.listeners, s.ln, s.stored), closeReturns))
  {
    var requested := Next(Next(s, RebindTake(want)), RequestClose);
    if s.ln.Some? && closeReturns && !requested.listeners[s.ln.value].status.Closing? {
      assert AfterClose(Pipes(s.listeners, s.ln, s.stored), closeReturns) == requested.listeners;
    }
  }

  /** The uninterrupted code is one of the interleavings. */
  lemma ReboundIsARun(s: State, want: Binding, closeReturns: bool, bindOk: bool, restoreOk: bool)
    requires s.rebind.Idle?
    requires s.ln.Some? ==> Known(s, s.ln.value) && s.listeners[s.ln.value].binding == s.stored
    ensures var r := Rebound(Pipes(s.listeners, s.ln, s.stored), want, closeReturns, bindOk, restoreOk);
            RebindOf(s, want, closeReturns, bindOk, restoreOk)
            == s.(listeners := r.listeners, ln := r.ln, stored := r.stored)
  {
    CloseOfState(s, want, closeReturns);
  }

  /** So is a Close: nothing stays published, and what was is no longer open. */
  lemma CloseIsARun(s: State)
    requires s.cancelled && s.closing.None? && (s.ln.Some? ==> Known(s, s.ln.value))
    ensures s.ln.Some? ==>
              IsRun(s, [CloseTake, CloseTaken])
              && After(s, [CloseTake, CloseTaken])
                 == s.(ln := None, listeners := CloseRequested(s.listeners, s.ln.value))
              && !After(s, [CloseTake, CloseTaken]).listeners[s.ln.value].status.Open?
    ensures s.ln.None? ==> Next(s, CloseTake) == s
  {
    if s.ln.Some? {
      var s1 := Next(s, CloseTake);
      var s2 := Next(s1, CloseTaken);
      assert [CloseTake, CloseTaken][1..] == [CloseTaken];
      assert After(s2, []) == s2;
      assert After(s1, [CloseTaken]) == s2;
    }
  }

  class Server {
    var ln: Option<nat>
    var pipeName: string
    var sddl: string
    var listeners: seq<Listener> // the operating system's side

    ghost predicate Valid()
      reads this
    {
      ln.Some? ==> ln.value < |listeners| && listeners[ln.value].binding == Binding(pipeName, sddl)
    }

    function View(): Pipes
      reads this
    {
      Pipes(listeners, ln, Binding(pipeName, sddl))
    }

    constructor ()
      ensures Valid() && View() == Pipes([], None, Binding("", ""))
    {
      ln, pipeName, sddl, listeners := None, "", "", [];
    }

    method Publish(l: nat, b: Binding)
      modifies this`ln, this`pipeName, this`sddl
      ensures ln == Some(l) && pipeName == b.pipeName && sddl == b.sddl
    {
      ln, pipeName, sddl := Some(l), b.pipeName, b.sddl;
    }

    method ListenPipe(b: Binding, ok: bool) returns (l: Option<nat>)
      modifies this`listeners
      ensures !ok ==> l.None? && listeners == old(listeners)
      ensures ok ==> l == Some(|old(listeners)|) && listeners == old(listeners) + [Listener(b, Open, false)]
    {
      if !ok {
        return None;
      }
      l := Some(|listeners|);
      listeners := listeners + [Listener(b, Open, false)];
    }

    /** Replaces the listener; on a refusal the pipe that can still serve, or the previous binding, comes back. */
    method Rebind(want: Binding, closeReturns: bool, bindOk: bool, restoreOk: bool) returns (ok: bool)
      requires Valid()
      modifies this
      ensures Valid() && ok == bindOk
      ensures View() == Rebound(old(View()), want, closeReturns, bindOk, restoreOk)
    {
      var prior, prev := ln, Binding(pipeName, sddl);
      ln := None;
      var closeStuck := false;
      if prior.Some? {
        listeners := CloseRequested(listeners, prior.value);
        if closeReturns {
          listeners := listeners[prior.value := listeners[prior.value].(status := Closed)];
        } else {
          closeStuck := true;
        }
      }
      var bound := ListenPipe(want, bindOk);
      if bound.Some? {
        Publish(bound.value, want);
        return true;
      }
      if closeStuck {
        listeners := listeners[prior.value := listeners[prior.value].(reinstated := true)];
        Publish(prior.value, prev);
        return false;
      }
      if prev.sddl != "" {
        var back := ListenPipe(prev, restoreOk);
        if back.Some? {
          Publish(back.value, prev);
        }
      }
      return false;
    }

    method Close()
      requires Valid()
      modifies this`ln, this`listeners
      ensures Valid() && ln.None?
      ensures |listeners| == |old(listeners)|
      ensures old(ln).Some? ==> !listeners[old(ln).value].status.Open?
      ensures listeners == if old(ln).Some? then CloseRequested(old(listeners), old(ln).value) else old(listeners)
    {
      var l := ln;
      ln := None;
      if l.Some? {
        listeners := CloseRequested(listeners, l.value);
      }
    }
  }
}
