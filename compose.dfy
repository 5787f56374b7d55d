/** The middleware composer. A request is served by one `next` continuation over the
    application's stack: each call of `next` reads the following stack position and either
    throws (nothing usable there) or invokes the middleware found. The model records only
    which middleware is invoked, not the receiver or the argument it is invoked with. */
module Compose {

  /** The middlewares of the default stack, and any other middleware, by identity. What a
      middleware does inside is not modelled. */
  datatype Handler = Log | Write | Rescue | Route | Custom(id: nat)

  /** One stack position as `next` sees it: a falsy value (`undefined`, `null`, `false`,
      `0`, `""`), a truthy value that is not a function, or a middleware function. */
  datatype Entry = Falsy | NonFunction | Fn(handler: Handler)

  /** The errors a chain can fail with: the composer's two, and whatever a middleware throws. */
  datatype Error = NotFound(message: string) | InternalServerError(message: string) | Raised(tag: nat)

  const EndpointMissing := NotFound("Endpoint does not exist")
  const BadHandler := InternalServerError("Bad handler")

  /** What one call of `next` does. */
  datatype Step = Throw(error: Error) | Invoke(handler: Handler)

  /** The call of `next` that finds the cursor at `k`. Past the end the iterator yields
      `undefined`, which is falsy. */
  function StepAt(stack: seq<Entry>, k: nat): Step
  {
    if k >= |stack| || stack[k].Falsy? then Throw(EndpointMissing)
    else if stack[k].NonFunction? then Throw(BadHandler)
    else Invoke(stack[k].handler)
  }

  /** The steps of `n` successive calls of `next`, the first finding the cursor at `k`. */
  function Trace(stack: seq<Entry>, k: nat, n: nat): seq<Step>
    decreases n
  {
    if n == 0 then [] else [StepAt(stack, k)] + Trace(stack, k + 1, n - 1)
  }

  /** The `i`-th of `n` successive calls reads stack position `k + i`: every call
      consumes exactly one position. */
  lemma {:induction false} TraceAt(stack: seq<Entry>, k: nat, n: nat, i: nat)
    requires i < n
    ensures |Trace(stack, k, n)| == n
    ensures Trace(stack, k, n)[i] == StepAt(stack, k + i)
    decreases n
  {
    if i > 0 {
      TraceAt(stack, k + 1, n - 1, i - 1);
    } else if n > 1 {
      TraceAt(stack, k + 1, n - 1, 0);
    }
  }

  /** One more call extends the trace by the step at the next position. */
  lemma {:induction false} TraceSnoc(stack: seq<Entry>, k: nat, n: nat)
    ensures Trace(stack, k, n + 1) == Trace(stack, k, n) + [StepAt(stack, k + n)]
    decreases n
  {
    if n > 0 {
      TraceSnoc(stack, k + 1, n - 1);
      var a := Trace(stack, k + 1, n - 1);
      var x := StepAt(stack, k + n);
      assert Trace(stack, k + 1, n) == a + [x];
      assert Trace(stack, k, n) == [StepAt(stack, k)] + a;
      assert Trace(stack, k, n + 1) == [StepAt(stack, k)] + (a + [x]);
    } else {
      assert Trace(stack, k, 1) == [StepAt(stack, k)] + Trace(stack, k + 1, 0);
    }
  }

  /** Once the cursor is past the end, every further call throws Not-Found. */
  lemma {:induction false} ExhaustedStaysNotFound(stack: seq<Entry>, k: nat, n: nat)
    requires k >= |stack|
    ensures Trace(stack, k, n) == seq(n, _ => Throw(EndpointMissing))
    decreases n
  {
    if n > 0 {
      ExhaustedStaysNotFound(stack, k + 1, n - 1);
    }
  }

  /** A falsy entry throws Not-Found, yet the next call moves on to the following entry. */
  lemma FalsyConsumesPosition(stack: seq<Entry>, k: nat, h: Handler)
    requires k + 1 < |stack| && stack[k].Falsy? && stack[k + 1] == Fn(h)
    ensures Trace(stack, k, 2) == [Throw(EndpointMissing), Invoke(h)]
  {
  }

  /** The steps of calls that meet only middleware functions. */
  function Invocations(entries: seq<Entry>): seq<Step>
    requires forall i :: 0 <= i < |entries| ==> entries[i].Fn?
  {
    seq(|entries|, i requires 0 <= i < |entries| => Invoke(entries[i].handler))
  }

  /** A non-function entry throws "Bad handler" only when the cursor reaches it: every
      function before it is invoked first, in order. */
  lemma {:induction false} BadHandlerOnlyWhenReached(stack: seq<Entry>, k: nat, j: nat)
    requires k <= j < |stack| && stack[j].NonFunction?
    requires forall i :: k <= i < j ==> stack[i].Fn?
    ensures Trace(stack, k, j - k + 1) == Invocations(stack[k..j]) + [Throw(BadHandler)]
    decreases j - k
  {
    if k < j {
      BadHandlerOnlyWhenReached(stack, k + 1, j);
      assert Invocations(stack[k..j]) == [Invoke(stack[k].handler)] + Invocations(stack[k + 1..j]);
    }
  }

  // ---------------------------------------------------------------------------
  // Running a chain

  /** How a middleware behaves when invoked: it responds without calling `next`, it calls
      `next` once and settles as the rest of the chain settles, or it throws. */
  datatype Action = Respond | Delegate | Fail(tag: nat)

  datatype Settled = Resolved | Rejected(error: Error)

  /** The middlewares a chain invoked, in order, and how it settled. */
  datatype ChainRun = ChainRun(invoked: seq<Handler>, settled: Settled)

  /** The chain that starts with a call of `next` at cursor `k`, each middleware acting as
      `behaviour` says. The middlewares it invokes are the stack's entries from `k`, in
      stack order. */
  function Chain(stack: seq<Entry>, k: nat, behaviour: Handler -> Action): (r: ChainRun)
    ensures forall i :: 0 <= i < |r.invoked| ==> k + i < |stack| && stack[k + i] == Fn(r.invoked[i])
    decreases if k <= |stack| then |stack| - k else 0
  {
    match StepAt(stack, k)
    case Throw(e) => ChainRun([], Rejected(e))
    case Invoke(h) =>
      match behaviour(h)
      case Respond => ChainRun([h], Resolved)
      case Fail(tag) => ChainRun([h], Rejected(Raised(tag)))
      case Delegate =>
        var rest := Chain(stack, k + 1, behaviour);
        ChainRun([h] + rest.invoked, rest.settled)
  }

  /** How many times a chain called `next`: once per middleware invoked, and once more
      when the composer itself threw. */
  function Calls(r: ChainRun): nat
  {
    |r.invoked| + if r.settled.Rejected? && !r.settled.error.Raised? then 1 else 0
  }

  /** The middlewares named by entries that are all functions, in order. */
  function Handlers(entries: seq<Entry>): seq<Handler>
    requires forall i :: 0 <= i < |entries| ==> entries[i].Fn?
  {
    seq(|entries|, i requires 0 <= i < |entries| => entries[i].handler)
  }

  /** A chain whose middlewares all delegate settles at the first position from the cursor
      that holds no function: it invokes every middleware before that position, in order,
      and none after it, and fails with Not-Found when that position is falsy or past the
      end, and with "Bad handler" when it holds a truthy non-function. */
  lemma {:induction false} DelegatingChain(stack: seq<Entry>, k: nat, j: nat, behaviour: Handler -> Action)
    requires k <= j <= |stack|
    requires forall i :: k <= i < j ==> stack[i].Fn? && behaviour(stack[i].handler) == Delegate
    requires j == |stack| || !stack[j].Fn?
    ensures Chain(stack, k, behaviour) == ChainRun(Handlers(stack[k..j]),
      Rejected(if j < |stack| && stack[j].NonFunction? then BadHandler else EndpointMissing))
    decreases j - k
  {
    if k < j {
      DelegatingChain(stack, k + 1, j, behaviour);
      assert Handlers(stack[k..j]) == [stack[k].handler] + Handlers(stack[k + 1..j]);
    }
  }

  /** A chain resolves exactly when the last middleware it invoked responded, and fails with
      a middleware's own error exactly when the last one invoked threw it; every middleware
      before the last one delegated. */
  lemma {:induction false} SettledByLast(stack: seq<Entry>, k: nat, behaviour: Handler -> Action)
    ensures var r := Chain(stack, k, behaviour);
      && (r.settled.Resolved? <==> |r.invoked| > 0 && behaviour(r.invoked[|r.invoked| - 1]) == Respond)
      && (r.settled.Rejected? && r.settled.error.Raised? <==>
            |r.invoked| > 0 && behaviour(r.invoked[|r.invoked| - 1]).Fail?)
      && (r.settled.Rejected? && r.settled.error.Raised? ==>
            behaviour(r.invoked[|r.invoked| - 1]) == Fail(r.settled.error.tag))
      && forall i :: 0 <= i < |r.invoked| - 1 ==> behaviour(r.invoked[i]) == Delegate
    decreases if k <= |stack| then |stack| - k else 0
  {
    if StepAt(stack, k).Invoke? && behaviour(StepAt(stack, k).handler) == Delegate {
      SettledByLast(stack, k + 1, behaviour);
      var rest := Chain(stack, k + 1, behaviour);
      var r := Chain(stack, k, behaviour);
      assert r.invoked == [StepAt(stack, k).handler] + rest.invoked;
      assert forall i :: 1 <= i < |r.invoked| ==> r.invoked[i] == rest.invoked[i - 1];
    }
  }

  /** The continuation `next` built for one request over a copy of the stack. The request
      context is kept with it; the steps record only which middleware is invoked. */
  class Composer<C> {
    const stack: seq<Entry>
    const context: C
    /** The position the shared iterator reads on the next call. */
    var cursor: nat
    /** The steps taken so far. */
    ghost var steps: seq<Step>

    ghost predicate Valid()
      reads this
    {
      steps == Trace(stack, 0, cursor)
    }

    constructor(stack: seq<Entry>, context: C)
      ensures Valid()
      ensures this.stack == stack && this.context == context && cursor == 0 && steps == []
    {
      this.stack := stack;
      this.context := context;
      cursor := 0;
      steps := [];
    }

    /** One call of `next`: read the entry at the cursor and move the cursor one on. */
    method Next() returns (step: Step)
      requires Valid()
      modifies this
      ensures Valid()
      ensures cursor == old(cursor) + 1
      ensures step == StepAt(stack, old(cursor))
      ensures steps == old(steps) + [step]
    {
      step := StepAt(stack, cursor);
      TraceSnoc(stack, 0, cursor);
      cursor := cursor + 1;
      steps := steps + [step];
    }

    /** Awaits `next()`: the first call, and whatever the middlewares it reaches do. */
    method Run(behaviour: Handler -> Action) returns (run: ChainRun)
      requires Valid()
      modifies this
      ensures Valid()
      ensures run == Chain(stack, old(cursor), behaviour)
      ensures cursor == old(cursor) + Calls(run)
      decreases if cursor <= |stack| then |stack| - cursor else 0
    {
      var step := Next();
      match step
      case Throw(e) =>
        run := ChainRun([], Rejected(e));
      case Invoke(h) =>
        match behaviour(h)
        case Respond =>
          run := ChainRun([h], Resolved);
        case Fail(tag) =>
          run := ChainRun([h], Rejected(Raised(tag)));
        case Delegate =>
          var rest := Run(behaviour);
          run := ChainRun([h] + rest.invoked, rest.settled);
    }
  }
}
