/** The interception hooks around query execution. Exec hooks wrap the whole
    execution; One/All hooks wrap the binding of rows into a destination.
    A hook is described by what it does once invoked: it is recorded in the
    trace, then either returns an error, returns nil without going on, or
    calls the operation it wraps (a One/All hook possibly with another
    destination). */
module Hooks {
  import opened Values

  /** Where rows are bound: nowhere (a nil destination) or a named variable. */
  datatype Target = NoTarget | Into(name: string)

  datatype ExecAction = ExecAbort(error: Error) | ExecReturn | ExecProceed

  datatype BindAction = BindAbort(error: Error) | BindReturn | BindProceed(substitute: Option<Target>)

  /** A registered hook: a label for the trace and what it does. */
  datatype Hook<A> = Hook(name: string, action: A)

  type ExecHook = Hook<ExecAction>

  type BindHook = Hook<BindAction>

  /** What a run leaves behind: the hooks invoked and the operation run,
      in order. */
  datatype Event = HookCalled(name: string) | OpCalled(target: Target)

  datatype Outcome = Outcome(trace: seq<Event>, status: Status)

  function Prepend(events: seq<Event>, o: Outcome): Outcome
  {
    Outcome(events + o.trace, o.status)
  }

  /** Exec hooks, first-registered outermost, around the run `inner`. */
  function ExecChain(hooks: seq<ExecHook>, inner: Outcome): (r: Outcome)
    ensures hooks != [] ==> r.trace != [] && r.trace[0] == HookCalled(hooks[0].name)
    ensures |r.trace| <= |hooks| + |inner.trace|
  {
    if hooks == [] then inner
    else
      var called := HookCalled(hooks[0].name);
      match hooks[0].action
      case ExecAbort(e) => Outcome([called], Err(e))
      case ExecReturn => Outcome([called], Ok)
      case ExecProceed => Prepend([called], ExecChain(hooks[1..], inner))
  }

  /** One/All hooks, first-registered outermost, around the operation `op`,
      which binds into the destination the innermost hook passes on. */
  function BindChain(hooks: seq<BindHook>, target: Target, op: Target -> Status): (r: Outcome)
    ensures hooks != [] ==> r.trace != [] && r.trace[0] == HookCalled(hooks[0].name)
    ensures 1 <= |r.trace| <= |hooks| + 1
  {
    if hooks == [] then Outcome([OpCalled(target)], op(target))
    else
      var called := HookCalled(hooks[0].name);
      match hooks[0].action
      case BindAbort(e) => Outcome([called], Err(e))
      case BindReturn => Outcome([called], Ok)
      case BindProceed(sub) =>
        var next := if sub.Some? then sub.value else target;
        Prepend([called], BindChain(hooks[1..], next, op))
  }

  /** A run of One or All: the Exec chain wraps the entire One/All chain.
      Row, Rows and Column use it with no One/All hooks. */
  function Run(execHooks: seq<ExecHook>, bindHooks: seq<BindHook>, target: Target, op: Target -> Status): (r: Outcome)
    ensures 1 <= |r.trace| <= |execHooks| + |bindHooks| + 1
    ensures execHooks != [] ==> r.trace[0] == HookCalled(execHooks[0].name)
    ensures execHooks == [] && bindHooks != [] ==> r.trace[0] == HookCalled(bindHooks[0].name)
  {
    ExecChain(execHooks, BindChain(bindHooks, target, op))
  }

  /** The trace of hooks that are each invoked in turn. */
  function Labels<A>(hooks: seq<Hook<A>>): (r: seq<Event>)
    ensures |r| == |hooks|
    ensures forall i :: 0 <= i < |r| ==> r[i] == HookCalled(hooks[i].name)
  {
    if hooks == [] then [] else [HookCalled(hooks[0].name)] + Labels(hooks[1..])
  }

  /** The destination the operation receives when every hook goes on. */
  function FinalTarget(hooks: seq<BindHook>, target: Target): Target
  {
    if hooks == [] then target
    else
      var next := if hooks[0].action.BindProceed? && hooks[0].action.substitute.Some?
                  then hooks[0].action.substitute.value else target;
      FinalTarget(hooks[1..], next)
  }

  predicate OpInvoked(trace: seq<Event>)
  {
    exists i :: 0 <= i < |trace| && trace[i].OpCalled?
  }

  /** Runs the hooks of a registered chain step by step, as the closures do,
      and only then the operation. */
  method Invoke(execHooks: seq<ExecHook>, bindHooks: seq<BindHook>, target: Target, op: Target -> Status)
    returns (out: Outcome)
    ensures out == Run(execHooks, bindHooks, target, op)
  {
    ghost var inner := BindChain(bindHooks, target, op);
    var trace: seq<Event> := [];
    var i := 0;
    while i < |execHooks|
      invariant 0 <= i <= |execHooks|
      invariant Run(execHooks, bindHooks, target, op) == Prepend(trace, ExecChain(execHooks[i..], inner))
    {
      var hook := execHooks[i];
      ExecStep(execHooks[i..], inner);
      assert execHooks[i..][1..] == execHooks[i + 1..];
      PrependTwice(trace, [HookCalled(hook.name)], ExecChain(execHooks[i + 1..], inner));
      trace := trace + [HookCalled(hook.name)];
      match hook.action {
        case ExecAbort(e) =>
          return Outcome(trace, Err(e));
        case ExecReturn =>
          return Outcome(trace, Ok);
        case ExecProceed =>
      }
      i := i + 1;
    }
    assert execHooks[i..] == [];
    assert bindHooks[0..] == bindHooks;
    var current := target;
    var j := 0;
    while j < |bindHooks|
      invariant 0 <= j <= |bindHooks|
      invariant Run(execHooks, bindHooks, target, op) == Prepend(trace, BindChain(bindHooks[j..], current, op))
    {
      var hook := bindHooks[j];
      var next := if hook.action.BindProceed? && hook.action.substitute.Some? then hook.action.substitute.value else current;
      BindStep(bindHooks[j..], current, op);
      assert bindHooks[j..][1..] == bindHooks[j + 1..];
      PrependTwice(trace, [HookCalled(hook.name)], BindChain(bindHooks[j + 1..], next, op));
      trace := trace + [HookCalled(hook.name)];
      match hook.action {
        case BindAbort(e) =>
          return Outcome(trace, Err(e));
        case BindReturn =>
          return Outcome(trace, Ok);
        case BindProceed(_) =>
      }
      current := next;
      j := j + 1;
    }
    assert bindHooks[j..] == [];
    out := Outcome(trace + [OpCalled(current)], op(current));
  }

  lemma PrependTwice(a: seq<Event>, b: seq<Event>, o: Outcome)
    ensures Prepend(a, Prepend(b, o)) == Prepend(a + b, o)
  {
    assert a + (b + o.trace) == (a + b) + o.trace;
  }

  /** One step of the Exec chain. */
  lemma ExecStep(hooks: seq<ExecHook>, inner: Outcome)
    requires hooks != []
    ensures ExecChain(hooks, inner)
            == match hooks[0].action
               case ExecAbort(e) => Outcome([HookCalled(hooks[0].name)], Err(e))
               case ExecReturn => Outcome([HookCalled(hooks[0].name)], Ok)
               case ExecProceed => Prepend([HookCalled(hooks[0].name)], ExecChain(hooks[1..], inner))
  {
  }

  /** One step of the One/All chain. */
  lemma BindStep(hooks: seq<BindHook>, target: Target, op: Target -> Status)
    requires hooks != []
    ensures BindChain(hooks, target, op)
            == match hooks[0].action
               case BindAbort(e) => Outcome([HookCalled(hooks[0].name)], Err(e))
               case BindReturn => Outcome([HookCalled(hooks[0].name)], Ok)
               case BindProceed(sub) =>
                 Prepend([HookCalled(hooks[0].name)], BindChain(hooks[1..], if sub.Some? then sub.value else target, op))
  {
  }

  /** The first Exec hook that does not go on ends the run: the hooks up to
      it are invoked in order, nothing after it runs, and its error (or nil)
      is what the caller gets, unchanged. */
  lemma {:induction false} ExecChainStops(hooks: seq<ExecHook>, inner: Outcome, k: nat)
    requires k < |hooks|
    requires forall i :: 0 <= i < k ==> hooks[i].action.ExecProceed?
    requires !hooks[k].action.ExecProceed?
    ensures ExecChain(hooks, inner).trace == Labels(hooks[..k + 1])
    ensures ExecChain(hooks, inner).status
            == (if hooks[k].action.ExecAbort? then Err(hooks[k].action.error) else Ok)
  {
    if k > 0 {
      ExecChainStops(hooks[1..], inner, k - 1);
      assert hooks[1..][..k] == hooks[1..k + 1];
      assert Labels(hooks[..k + 1]) == [HookCalled(hooks[0].name)] + Labels(hooks[1..k + 1]) by {
        assert hooks[..k + 1][1..] == hooks[1..k + 1];
      }
    }
  }

  /** When every Exec hook goes on, they are all invoked in order and the
      wrapped run's outcome comes back unchanged. */
  lemma {:induction false} ExecChainPassesThrough(hooks: seq<ExecHook>, inner: Outcome)
    requires forall i :: 0 <= i < |hooks| ==> hooks[i].action.ExecProceed?
    ensures ExecChain(hooks, inner) == Prepend(Labels(hooks), inner)
  {
    if hooks != [] {
      ExecChainPassesThrough(hooks[1..], inner);
    }
  }

  /** The same short circuit for One/All hooks: the operation is not run. */
  lemma {:induction false} BindChainStops(hooks: seq<BindHook>, target: Target, op: Target -> Status, k: nat)
    requires k < |hooks|
    requires forall i :: 0 <= i < k ==> hooks[i].action.BindProceed?
    requires !hooks[k].action.BindProceed?
    ensures BindChain(hooks, target, op).trace == Labels(hooks[..k + 1])
    ensures BindChain(hooks, target, op).status
            == (if hooks[k].action.BindAbort? then Err(hooks[k].action.error) else Ok)
  {
    if k > 0 {
      var sub := hooks[0].action.substitute;
      BindChainStops(hooks[1..], if sub.Some? then sub.value else target, op, k - 1);
      assert hooks[1..][..k] == hooks[1..k + 1];
      assert Labels(hooks[..k + 1]) == [HookCalled(hooks[0].name)] + Labels(hooks[1..k + 1]) by {
        assert hooks[..k + 1][1..] == hooks[1..k + 1];
      }
    }
  }

  /** When every One/All hook goes on, the operation runs once, last, on the
      destination the hooks substituted, and its status is returned. */
  lemma {:induction false} BindChainPassesThrough(hooks: seq<BindHook>, target: Target, op: Target -> Status)
    requires forall i :: 0 <= i < |hooks| ==> hooks[i].action.BindProceed?
    ensures BindChain(hooks, target, op)
            == Outcome(Labels(hooks) + [OpCalled(FinalTarget(hooks, target))], op(FinalTarget(hooks, target)))
  {
    if hooks != [] {
      var sub := hooks[0].action.substitute;
      BindChainPassesThrough(hooks[1..], if sub.Some? then sub.value else target, op);
    }
  }

  lemma {:induction false} ExecChainPrefix(hooks: seq<ExecHook>, inner: Outcome)
    ensures ExecChain(hooks, inner).trace <= Labels(hooks) + inner.trace
    ensures |ExecChain(hooks, inner).trace| > |hooks| ==> ExecChain(hooks, inner) == Prepend(Labels(hooks), inner)
  {
    if hooks != [] {
      ExecChainPrefix(hooks[1..], inner);
      assert Labels(hooks) + inner.trace == [HookCalled(hooks[0].name)] + (Labels(hooks[1..]) + inner.trace);
    }
  }

  lemma {:induction false} BindChainPrefix(hooks: seq<BindHook>, target: Target, op: Target -> Status)
    ensures BindChain(hooks, target, op).trace <= Labels(hooks) + [OpCalled(FinalTarget(hooks, target))]
    ensures forall i :: 0 <= i < |hooks| && i < |BindChain(hooks, target, op).trace|
              ==> BindChain(hooks, target, op).trace[i].HookCalled?
  {
    if hooks != [] {
      var next := if hooks[0].action.BindProceed? && hooks[0].action.substitute.Some?
                  then hooks[0].action.substitute.value else target;
      BindChainPrefix(hooks[1..], next, op);
      assert Labels(hooks) + [OpCalled(FinalTarget(hooks, target))]
             == [HookCalled(hooks[0].name)] + (Labels(hooks[1..]) + [OpCalled(FinalTarget(hooks[1..], next))]);
    }
  }

  /** Ordering: whatever the hooks do, the trace of a run is a prefix of
      "every Exec hook, then every One/All hook, then the operation on the
      final destination": Exec hooks are outermost and registration order is
      kept. */
  lemma RunOrder(execHooks: seq<ExecHook>, bindHooks: seq<BindHook>, target: Target, op: Target -> Status)
    ensures Run(execHooks, bindHooks, target, op).trace
            <= Labels(execHooks) + Labels(bindHooks) + [OpCalled(FinalTarget(bindHooks, target))]
  {
    var inner := BindChain(bindHooks, target, op);
    ExecChainPrefix(execHooks, inner);
    BindChainPrefix(bindHooks, target, op);
    var t := Run(execHooks, bindHooks, target, op).trace;
    assert Labels(execHooks) + Labels(bindHooks) + [OpCalled(FinalTarget(bindHooks, target))]
           == Labels(execHooks) + (Labels(bindHooks) + [OpCalled(FinalTarget(bindHooks, target))]);
    if |t| > |execHooks| {
      assert t == Labels(execHooks) + inner.trace;
    }
  }

  /** An Exec hook that does not go on keeps the operation from running. */
  lemma ExecStopNoOp(execHooks: seq<ExecHook>, bindHooks: seq<BindHook>, target: Target, op: Target -> Status, k: nat)
    requires k < |execHooks| && !execHooks[k].action.ExecProceed?
    ensures !OpInvoked(Run(execHooks, bindHooks, target, op).trace)
  {
    var first := FirstStop(execHooks, k);
    ExecChainStops(execHooks, BindChain(bindHooks, target, op), first);
  }

  /** So does a One/All hook that does not go on, under Exec hooks that do. */
  lemma BindStopNoOp(execHooks: seq<ExecHook>, bindHooks: seq<BindHook>, target: Target, op: Target -> Status, k: nat)
    requires forall i :: 0 <= i < |execHooks| ==> execHooks[i].action.ExecProceed?
    requires k < |bindHooks| && !bindHooks[k].action.BindProceed?
    ensures !OpInvoked(Run(execHooks, bindHooks, target, op).trace)
  {
    var inner := BindChain(bindHooks, target, op);
    ExecChainPassesThrough(execHooks, inner);
    var first := FirstBindStop(bindHooks, k);
    BindChainStops(bindHooks, target, op, first);
    var t := Run(execHooks, bindHooks, target, op).trace;
    assert t == Labels(execHooks) + Labels(bindHooks[..first + 1]);
  }

  /** When every hook goes on, the operation is the last event and its status
      is the caller's. */
  lemma AllProceedOp(execHooks: seq<ExecHook>, bindHooks: seq<BindHook>, target: Target, op: Target -> Status)
    requires forall i :: 0 <= i < |execHooks| ==> execHooks[i].action.ExecProceed?
    requires forall i :: 0 <= i < |bindHooks| ==> bindHooks[i].action.BindProceed?
    ensures OpInvoked(Run(execHooks, bindHooks, target, op).trace)
    ensures Run(execHooks, bindHooks, target, op).status == op(FinalTarget(bindHooks, target))
  {
    var inner := BindChain(bindHooks, target, op);
    ExecChainPassesThrough(execHooks, inner);
    BindChainPassesThrough(bindHooks, target, op);
    var t := Run(execHooks, bindHooks, target, op).trace;
    assert t[|t| - 1].OpCalled?;
  }

  /** The operation runs if and only if every hook of both chains goes on;
      it then runs exactly once, and its status is the caller's. */
  lemma RunInvokesOp(execHooks: seq<ExecHook>, bindHooks: seq<BindHook>, target: Target, op: Target -> Status)
    ensures OpInvoked(Run(execHooks, bindHooks, target, op).trace)
            <==> (forall i :: 0 <= i < |execHooks| ==> execHooks[i].action.ExecProceed?)
                 && (forall i :: 0 <= i < |bindHooks| ==> bindHooks[i].action.BindProceed?)
    ensures OpInvoked(Run(execHooks, bindHooks, target, op).trace)
            ==> Run(execHooks, bindHooks, target, op).status == op(FinalTarget(bindHooks, target))
  {
    if k :| 0 <= k < |execHooks| && !execHooks[k].action.ExecProceed? {
      ExecStopNoOp(execHooks, bindHooks, target, op, k);
    } else if k :| 0 <= k < |bindHooks| && !bindHooks[k].action.BindProceed? {
      BindStopNoOp(execHooks, bindHooks, target, op, k);
    } else {
      AllProceedOp(execHooks, bindHooks, target, op);
    }
  }

  /** The first Exec hook that does not go on, given that one exists. */
  function FirstStop(hooks: seq<ExecHook>, k: nat): (first: nat)
    requires k < |hooks| && !hooks[k].action.ExecProceed?
    ensures first <= k && !hooks[first].action.ExecProceed?
    ensures forall i :: 0 <= i < first ==> hooks[i].action.ExecProceed?
  {
    if !hooks[0].action.ExecProceed? then 0
    else 1 + FirstStop(hooks[1..], k - 1)
  }

  /** The first One/All hook that does not go on, given that one exists. */
  function FirstBindStop(hooks: seq<BindHook>, k: nat): (first: nat)
    requires k < |hooks| && !hooks[k].action.BindProceed?
    ensures first <= k && !hooks[first].action.BindProceed?
    ensures forall i :: 0 <= i < first ==> hooks[i].action.BindProceed?
  {
    if !hooks[0].action.BindProceed? then 0
    else 1 + FirstBindStop(hooks[1..], k - 1)
  }
}
