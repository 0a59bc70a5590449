/** The trailing-trade indicator job: one run picks a symbol, skips it when
    another run holds its lock, otherwise locks it, threads the processing data
    through five steps in a fixed order and unlocks it; every error ends in a
    single catch that either stays silent or sends one alert.

    The step implementations and the lock and alert back-ends are opaque: a
    step is a function that returns new data or the error it threw, the lock
    service is a set of held symbols, the alert channel a list of sent texts. */
module TrailingTradeIndicator {
  import opened Wrappers
  import opened Strings

  // ---- Data threaded through the run ----

  /** A JSON object whose content this job never inspects. */
  type Payload = map<string, string>

  datatype Data = Data(
    globalConfiguration: Payload,
    symbol: string,
    symbolConfiguration: Payload,
    accountInfo: Payload,
    indicators: Payload,
    openOrders: seq<Payload>)

  /** The skeleton every run starts from; the `null` symbol is the empty string. */
  function Skeleton(): Data
  {
    Data(map[], "", map[], map[], map[], [])
  }

  // ---- Errors ----

  /** `err.code`: a number from the exchange, a string from the network layer, or absent. */
  datatype Code = Numeric(n: int) | Named(name: string) | Undefined

  /** A thrown error; `message` and `stack` may be absent (`undefined`). */
  datatype Error = Error(code: Code, message: Option<string>, stack: Option<string>)

  // ---- Steps ----

  type StepFunc = Data -> Result<Data, Error>

  datatype Step = Step(name: string, run: StepFunc)

  /** The collaborators the job imports from its steps module. */
  datatype Collaborators = Collaborators(
    getGlobalConfiguration: StepFunc,
    getNextSymbol: StepFunc,
    getSymbolConfiguration: StepFunc,
    getAccountInfo: StepFunc,
    getIndicators: StepFunc,
    getOpenOrders: StepFunc,
    saveDataToCache: StepFunc)

  const GlobalConfigurationName: string := "get-global-configuration"
  const NextSymbolName: string := "get-next-symbol"

  /** The names of the five locked steps, in the order they run. */
  const StepNames: seq<string> :=
    ["get-symbol-configuration", "get-account-info", "get-indicators",
     "get-open-orders", "save-data-to-cache"]

  function Names(steps: seq<Step>): (names: seq<string>)
    ensures |names| == |steps|
    ensures forall i :: 0 <= i < |steps| ==> names[i] == steps[i].name
  {
    seq(|steps|, i requires 0 <= i < |steps| => steps[i].name)
  }

  /** The two producers that build the context before the lock check. */
  function Producers(c: Collaborators): seq<Step>
  {
    [Step(GlobalConfigurationName, c.getGlobalConfiguration),
     Step(NextSymbolName, c.getNextSymbol)]
  }

  /** Running the producers is calling them one after the other. */
  lemma ProducersChain(c: Collaborators)
    ensures Chain(Producers(c), Skeleton()) ==
              match c.getGlobalConfiguration(Skeleton())
              case Fail(e) => Stopped(e, [GlobalConfigurationName])
              case Ok(d1) =>
                match c.getNextSymbol(d1)
                case Fail(e) => Stopped(e, [GlobalConfigurationName, NextSymbolName])
                case Ok(d2) => Done(d2, [GlobalConfigurationName, NextSymbolName])
  {
    var p := Producers(c);
    assert p[1..] == [Step(NextSymbolName, c.getNextSymbol)];
    assert p[1..][1..] == [];
    match c.getGlobalConfiguration(Skeleton())
    case Fail(e) =>
    case Ok(d1) =>
      assert Chain(p, Skeleton()) == Prefixed([GlobalConfigurationName], Chain(p[1..], d1));
      match c.getNextSymbol(d1)
      case Fail(e) =>
      case Ok(d2) =>
        assert Chain(p[1..], d1) == Prefixed([NextSymbolName], Chain([], d2));
  }

  /** The step list the loop runs under the lock. */
  function Pipeline(c: Collaborators): seq<Step>
  {
    [Step(StepNames[0], c.getSymbolConfiguration),
     Step(StepNames[1], c.getAccountInfo),
     Step(StepNames[2], c.getIndicators),
     Step(StepNames[3], c.getOpenOrders),
     Step(StepNames[4], c.saveDataToCache)]
  }

  // ---- Sequential composition of steps ----

  /** How running a list of steps ends: with the last step's data, or with the
      error of the step that threw. `ran` names the steps that were started. */
  datatype Chained = Done(data: Data, ran: seq<string>) | Stopped(error: Error, ran: seq<string>)

  function Prefixed(names: seq<string>, r: Chained): Chained
  {
    match r
    case Done(d, ran) => Done(d, names + ran)
    case Stopped(e, ran) => Stopped(e, names + ran)
  }

  /** `for (const { stepFunc } of steps) data = await stepFunc(logger, data)`:
      each step gets the previous step's output, and a throw ends the loop. */
  function Chain(steps: seq<Step>, data: Data): (r: Chained)
    ensures r.Done? ==> r.ran == Names(steps)
    ensures r.Stopped? ==> 0 < |r.ran| <= |steps| && r.ran == Names(steps[..|r.ran|])
  {
    if steps == [] then Done(data, [])
    else
      match steps[0].run(data)
      case Fail(e) => Stopped(e, [steps[0].name])
      case Ok(next) =>
        var rest := Chain(steps[1..], next);
        assert rest.Stopped? ==> steps[1..][..|rest.ran|] == steps[1..|rest.ran| + 1];
        Prefixed([steps[0].name], rest)
  }

  /** Running `a + b` is running `a`, then `b` on what `a` produced. */
  lemma {:induction false} ChainAppend(a: seq<Step>, b: seq<Step>, d: Data)
    ensures Chain(a + b, d) ==
              match Chain(a, d)
              case Stopped(e, ran) => Stopped(e, ran)
              case Done(d1, ran) => Prefixed(ran, Chain(b, d1))
    decreases |a|
  {
    if a == [] {
      assert a + b == b;
      PrefixedEmpty(Chain(b, d));
    } else {
      assert (a + b)[0] == a[0] && (a + b)[1..] == a[1..] + b;
      var r := a[0].run(d);
      if r.Ok? {
        var next := r.value;
        ChainAppend(a[1..], b, next);
        var head := Chain(a[1..], next);
        assert Chain(a, d) == Prefixed([a[0].name], head);
        assert Chain(a + b, d) == Prefixed([a[0].name], Chain(a[1..] + b, next));
        if head.Done? {
          PrefixedTwice([a[0].name], head.ran, Chain(b, head.data));
        }
      }
    }
  }

  lemma PrefixedEmpty(r: Chained)
    ensures Prefixed([], r) == r
  {
  }

  lemma PrefixedTwice(n1: seq<string>, n2: seq<string>, r: Chained)
    ensures Prefixed(n1, Prefixed(n2, r)) == Prefixed(n1 + n2, r)
  {
  }

  /** `ds` lists the data seen along `steps`: each step maps `ds[i]` to `ds[i + 1]`. */
  ghost predicate Threads(steps: seq<Step>, ds: seq<Data>)
  {
    |ds| == |steps| + 1 &&
    forall i :: 0 <= i < |steps| ==> steps[i].run(ds[i]) == Ok(ds[i + 1])
  }

  /** Whenever every step succeeds on its predecessor's output, the chain
      finishes with the last output, having run every step. */
  lemma {:induction false} ThreadsChain(steps: seq<Step>, ds: seq<Data>)
    requires Threads(steps, ds)
    ensures Chain(steps, ds[0]) == Done(ds[|steps|], Names(steps))
    decreases |steps|
  {
    if steps != [] {
      assert steps[0].run(ds[0]) == Ok(ds[1]);
      assert Threads(steps[1..], ds[1..]) by {
        forall i | 0 <= i < |steps| - 1
          ensures steps[1..][i].run(ds[1..][i]) == Ok(ds[1..][i + 1])
        {
          assert steps[i + 1].run(ds[i + 1]) == Ok(ds[i + 2]);
        }
      }
      ThreadsChain(steps[1..], ds[1..]);
    }
  }

  /** The data each started step received, followed by the final data when
      every step succeeded. */
  function Trail(steps: seq<Step>, d: Data): (ds: seq<Data>)
    ensures 0 < |ds| && ds[0] == d
  {
    if steps == [] then [d]
    else
      match steps[0].run(d)
      case Fail(_) => [d]
      case Ok(next) => [d] + Trail(steps[1..], next)
  }

  /** Conversely, a chain that finishes was threaded through its trail. */
  lemma {:induction false} ChainDoneThreads(steps: seq<Step>, d: Data)
    requires Chain(steps, d).Done?
    ensures Threads(steps, Trail(steps, d)) && Trail(steps, d)[|steps|] == Chain(steps, d).data
    decreases |steps|
  {
    if steps != [] {
      var next := steps[0].run(d).value;
      ChainDoneThreads(steps[1..], next);
      var ds := Trail(steps[1..], next);
      assert Trail(steps, d) == [d] + ds;
      assert Chain(steps, d).data == Chain(steps[1..], next).data;
    }
  }

  /** A chain that stops was threaded up to the step that threw, which threw
      on its predecessor's output. */
  lemma {:induction false} ChainStoppedThreads(steps: seq<Step>, d: Data)
    requires Chain(steps, d).Stopped?
    ensures var k := |Chain(steps, d).ran| - 1;
            Threads(steps[..k], Trail(steps, d)) &&
            steps[k].run(Trail(steps, d)[k]) == Fail(Chain(steps, d).error)
    decreases |steps|
  {
    match steps[0].run(d)
    case Fail(e) =>
      assert Trail(steps, d) == [d];
    case Ok(next) =>
      var rest := Chain(steps[1..], next);
      ChainStoppedThreads(steps[1..], next);
      var k := |rest.ran| - 1;
      var ds := Trail(steps[1..], next);
      assert Trail(steps, d) == [d] + ds;
      assert |Chain(steps, d).ran| == k + 2;
      assert steps[1..][..k] == steps[1..k + 1];
      assert Threads(steps[..k + 1], [d] + ds);
  }

  // ---- Calls made to collaborators, in order ----

  datatype Call =
    | RunStep(name: string)
    | IsSymbolLocked(symbol: string)
    | LockSymbol(symbol: string)
    | UnlockSymbol(symbol: string)

  function StepCalls(names: seq<string>): (calls: seq<Call>)
    ensures |calls| == |names|
    ensures forall i :: 0 <= i < |names| ==> calls[i] == RunStep(names[i])
  {
    seq(|names|, i requires 0 <= i < |names| => RunStep(names[i]))
  }

  // ---- The catch block ----

  /** The codes the catch block lets pass silently: two exchange codes
      (-1001, an internal error, and -1021, a timestamp outside the receive
      window) and two network codes. Comparison is strict: the string "-1001"
      is not the number -1001. */
  predicate SilencedCode(code: Code)
  {
    code == Numeric(-1001) || code == Numeric(-1021) ||
    code == Named("ECONNRESET") || code == Named("ECONNREFUSED")
  }

  /** The condition of the catch block as written: `err.message.includes(...)`
      is reached only when no silenced code matched, and then throws if the
      error has no message. */
  function SilencedAsWritten(e: Error): Result<bool, Error>
  {
    if SilencedCode(e.code) then Ok(true)
    else
      match e.message
      case None => Fail(TypeError())
      case Some(m) => Ok(Includes(m, "redlock"))
  }

  /** The error the runtime throws for `undefined.includes(...)`. */
  function TypeError(): Error
  {
    Error(Undefined, Some("Cannot read properties of undefined (reading 'includes')"), None)
  }

  /** The catch block as written throws on an error that has neither a
      silenced code nor a message, such as a thrown string. */
  lemma SilencedAsWrittenThrows()
    ensures SilencedAsWritten(Error(Undefined, None, None)).Fail?
    ensures forall e: Error :: SilencedAsWritten(e).Fail? <==> !SilencedCode(e.code) && e.message.None?
  {
  }

  /** The silence decision with a missing message read as not mentioning the
      lock service: such an error is reported. */
  predicate Silenced(e: Error)
  {
    SilencedCode(e.code) || (e.message.Some? && Includes(e.message.value, "redlock"))
  }

  /** The corrected decision agrees with the written one wherever that one
      does not throw, and is stated here without the search function. */
  lemma {:induction false} SilencedMeaning(e: Error)
    ensures SilencedAsWritten(e).Ok? ==> SilencedAsWritten(e).value == Silenced(e)
    ensures Silenced(e) <==>
              e.code in {Numeric(-1001), Numeric(-1021), Named("ECONNRESET"), Named("ECONNREFUSED")} ||
              (e.message.Some? && exists i :: OccursAt(e.message.value, "redlock", i))
  {
    if e.message.Some? {
      IncludesIffOccurs(e.message.value, "redlock");
    }
  }

  /** A template literal renders an absent property as "undefined". */
  function Rendered(s: Option<string>): string
  {
    match s
    case None => "undefined"
    case Some(v) => v
  }

  function CodeText(code: Code): string
  {
    match code
    case Numeric(n) => IntToString(n)
    case Named(name) => name
    case Undefined => "undefined"
  }

  /** The alert text; `timestamp` is the formatted wall-clock time. */
  function AlertText(e: Error, timestamp: string): string
  {
    Concat(AlertParts(e, timestamp))
  }

  function AlertParts(e: Error, timestamp: string): seq<string>
  {
    ["Execution failed (", timestamp, ")\nCode: ", CodeText(e.code),
     "\nMessage:```", Rendered(e.message), "```Stack:```", Rendered(e.stack), "```"]
  }

  /** The alert carries the time, the code, the message and the stack. */
  lemma AlertTextMentions(e: Error, timestamp: string)
    ensures Includes(AlertText(e, timestamp), timestamp)
    ensures Includes(AlertText(e, timestamp), CodeText(e.code))
    ensures Includes(AlertText(e, timestamp), Rendered(e.message))
    ensures Includes(AlertText(e, timestamp), Rendered(e.stack))
  {
    var parts := AlertParts(e, timestamp);
    ConcatIncludesPart(parts, 1);
    ConcatIncludesPart(parts, 3);
    ConcatIncludesPart(parts, 5);
    ConcatIncludesPart(parts, 7);
  }

  // ---- One run, as a function of the collaborators and the held locks ----

  datatype Outcome = Skipped | Finished(data: Data) | Caught(error: Error)

  /** What a run did: the calls it made, the locks held afterwards, how it
      ended, and the alert it sent, if any. */
  datatype Run = Run(calls: seq<Call>, held: set<string>, outcome: Outcome, alert: Option<string>)

  function Catch(calls: seq<Call>, held: set<string>, e: Error, timestamp: string): Run
  {
    Run(calls, held, Caught(e), if Silenced(e) then None else Some(AlertText(e, timestamp)))
  }

  /** What the lock service throws for a call on a symbol, if anything; a
      call that throws leaves the held locks as they were. */
  datatype LockFaults = LockFaults(
    isSymbolLocked: string -> Option<Error>,
    lockSymbol: string -> Option<Error>,
    unlockSymbol: string -> Option<Error>)

  /** `execute(logger)`, with the lock service holding `held` and failing as `faults` says. */
  function Execution(c: Collaborators, faults: LockFaults, held: set<string>, timestamp: string): Run
  {
    match Chain(Producers(c), Skeleton())
    case Stopped(e, ran) => Catch(StepCalls(ran), held, e, timestamp)
    case Done(d, ran) =>
      var symbol := d.symbol;
      var checked := StepCalls(ran) + [IsSymbolLocked(symbol)];
      if faults.isSymbolLocked(symbol).Some? then
        Catch(checked, held, faults.isSymbolLocked(symbol).value, timestamp)
      else if symbol in held then Run(checked, held, Skipped, None)
      else
        var locked := checked + [LockSymbol(symbol)];
        if faults.lockSymbol(symbol).Some? then
          Catch(locked, held, faults.lockSymbol(symbol).value, timestamp)
        else
          match Chain(Pipeline(c), d)
          case Stopped(e, ran') => Catch(locked + StepCalls(ran'), held + {symbol}, e, timestamp)
          case Done(d', ran') =>
            var unlocked := locked + StepCalls(ran') + [UnlockSymbol(symbol)];
            if faults.unlockSymbol(symbol).Some? then
              Catch(unlocked, held + {symbol}, faults.unlockSymbol(symbol).value, timestamp)
            else
              Run(unlocked, held + {symbol} - {symbol}, Finished(d'), None)
  }

  // ---- Properties of a run ----

  /** The configuration producer runs first and the symbol producer second. */
  lemma ProducersRunFirst(c: Collaborators, faults: LockFaults, held: set<string>, timestamp: string)
    ensures var r := Execution(c, faults, held, timestamp);
            |r.calls| >= 1 && r.calls[0] == RunStep(GlobalConfigurationName) &&
            (|r.calls| >= 2 ==> r.calls[1] == RunStep(NextSymbolName))
  {
  }

  /** The symbol the run checks, locks and unlocks is the one the symbol
      producer returned; a producer that throws ends the run at once. */
  lemma LockedSymbolIsProduced(c: Collaborators, faults: LockFaults, held: set<string>, timestamp: string)
    ensures var p := Chain(Producers(c), Skeleton());
            var r := Execution(c, faults, held, timestamp);
            p.Done? ==>
              |r.calls| >= 3 && r.calls[2] == IsSymbolLocked(p.data.symbol) &&
              (|r.calls| > 3 ==> r.calls[3] == LockSymbol(p.data.symbol)) &&
              (r.calls[|r.calls| - 1].UnlockSymbol? ==>
                 r.calls[|r.calls| - 1] == UnlockSymbol(p.data.symbol))
    ensures var p := Chain(Producers(c), Skeleton());
            var r := Execution(c, faults, held, timestamp);
            p.Stopped? ==> r.calls == StepCalls(p.ran) && r.outcome == Caught(p.error) && r.held == held
  {
  }

  /** A run skips exactly when the lock check answers that the chosen symbol
      is held; it then stops after the check, with the locks as they were. */
  lemma SkipWhenLocked(c: Collaborators, faults: LockFaults, held: set<string>, timestamp: string)
    ensures var r := Execution(c, faults, held, timestamp);
            r.outcome.Skipped? <==>
              |r.calls| >= 3 && r.calls[2].IsSymbolLocked? &&
              faults.isSymbolLocked(r.calls[2].symbol).None? && r.calls[2].symbol in held
    ensures var r := Execution(c, faults, held, timestamp);
            r.outcome.Skipped? ==> |r.calls| == 3 && r.held == held && r.alert.None?
  {
  }

  /** The locked steps start only after the symbol is locked, in the fixed
      order; the steps started are a prefix of that order, and an unlock is
      called only after all five. */
  lemma StepsInOrder(c: Collaborators, faults: LockFaults, held: set<string>, timestamp: string)
    ensures var r := Execution(c, faults, held, timestamp);
            |r.calls| > 4 ==>
              r.calls[2].IsSymbolLocked? && r.calls[3] == LockSymbol(r.calls[2].symbol) &&
              exists n :: 0 < n <= |StepNames| && 4 + n <= |r.calls| &&
                r.calls[4..4 + n] == StepCalls(StepNames[..n]) &&
                (|r.calls| == 4 + n ||
                 (n == |StepNames| && |r.calls| == 10 && r.calls[9] == UnlockSymbol(r.calls[2].symbol)))
    ensures var r := Execution(c, faults, held, timestamp);
            r.outcome.Finished? ==> |r.calls| == 10
  {
    var r := Execution(c, faults, held, timestamp);
    var p := Chain(Producers(c), Skeleton());
    if p.Done? {
      var d := p.data;
      var s := d.symbol;
      if faults.isSymbolLocked(s).None? && s !in held && faults.lockSymbol(s).None? {
        var q := Chain(Pipeline(c), d);
        var n := |q.ran|;
        assert Names(Pipeline(c)) == StepNames;
        assert q.ran == StepNames[..n];
        var head := StepCalls(p.ran) + [IsSymbolLocked(s)] + [LockSymbol(s)];
        assert |head| == 4 && head[2] == IsSymbolLocked(s) && head[3] == LockSymbol(s);
        var tail := if q.Done? then [UnlockSymbol(s)] else [];
        assert r.calls == head + StepCalls(q.ran) + tail;
        assert r.calls[4..4 + n] == StepCalls(StepNames[..n]);
        assert q.Done? ==> n == |StepNames|;
        assert q.Stopped? ==> 0 < n;
        assert q.Done? ==> |r.calls| == 10 && r.calls[9] == UnlockSymbol(s);
        assert 0 < n <= |StepNames| && 4 + n <= |r.calls| &&
               r.calls[4..4 + n] == StepCalls(StepNames[..n]) &&
               (|r.calls| == 4 + n ||
                (n == |StepNames| && |r.calls| == 10 && r.calls[9] == UnlockSymbol(r.calls[2].symbol)));
      }
    }
  }

  /** After a finished run the locks are what they were before it, and the
      last call released the symbol the run had locked. */
  lemma SuccessReleasesLock(c: Collaborators, faults: LockFaults, held: set<string>, timestamp: string)
    ensures var r := Execution(c, faults, held, timestamp);
            r.outcome.Finished? ==>
              r.held == held && |r.calls| > 4 &&
              r.calls[|r.calls| - 1] == UnlockSymbol(r.calls[2].symbol) &&
              r.calls[2].symbol !in held && r.alert.None?
  {
  }

  /** A throw after the lock, from a step or from the unlock itself, leaves
      the symbol locked, and no unlock succeeds. A throw up to and including
      the lock call leaves the locks as they were. */
  lemma FailureKeepsLock(c: Collaborators, faults: LockFaults, held: set<string>, timestamp: string)
    ensures var r := Execution(c, faults, held, timestamp);
            r.outcome.Caught? && |r.calls| > 4 ==>
              r.calls[2].symbol !in held && r.held == held + {r.calls[2].symbol} &&
              forall i :: 0 <= i < |r.calls| - 1 ==> !r.calls[i].UnlockSymbol?
    ensures var r := Execution(c, faults, held, timestamp);
            r.outcome.Caught? && |r.calls| <= 4 ==> r.held == held
  {
    var r := Execution(c, faults, held, timestamp);
    var p := Chain(Producers(c), Skeleton());
    if r.outcome.Caught? && |r.calls| > 4 {
      var d := p.data;
      var q := Chain(Pipeline(c), d);
      var tail := if q.Done? then [UnlockSymbol(d.symbol)] else [];
      assert r.calls == StepCalls(p.ran) +
                        [IsSymbolLocked(d.symbol)] + [LockSymbol(d.symbol)] + StepCalls(q.ran) + tail;
    }
  }

  /** A throw from the lock service ends the run in the catch with that
      error: from the check (third call), from the lock (fourth call), or from
      the unlock after all five steps, which leaves the symbol held. */
  lemma LockServiceFailures(c: Collaborators, faults: LockFaults, held: set<string>, timestamp: string)
    ensures var r := Execution(c, faults, held, timestamp);
            |r.calls| >= 3 && r.calls[2].IsSymbolLocked? &&
            faults.isSymbolLocked(r.calls[2].symbol).Some? ==>
              |r.calls| == 3 && r.outcome == Caught(faults.isSymbolLocked(r.calls[2].symbol).value) &&
              r.held == held
    ensures var r := Execution(c, faults, held, timestamp);
            |r.calls| >= 4 && r.calls[3].LockSymbol? && faults.lockSymbol(r.calls[3].symbol).Some? ==>
              |r.calls| == 4 && r.outcome == Caught(faults.lockSymbol(r.calls[3].symbol).value) &&
              r.held == held
    ensures var r := Execution(c, faults, held, timestamp);
            |r.calls| > 4 && r.calls[|r.calls| - 1].UnlockSymbol? &&
            faults.unlockSymbol(r.calls[2].symbol).Some? ==>
              r.calls[4..9] == StepCalls(StepNames) &&
              r.outcome == Caught(faults.unlockSymbol(r.calls[2].symbol).value) &&
              r.held == held + {r.calls[2].symbol}
  {
    var r := Execution(c, faults, held, timestamp);
    StepsInOrder(c, faults, held, timestamp);
    if |r.calls| > 4 && r.calls[|r.calls| - 1].UnlockSymbol? {
      assert StepNames[..5] == StepNames;
    }
  }

  /** One alert is sent exactly when a run ends in an error that is not silenced. */
  lemma AlertUnlessSilenced(c: Collaborators, faults: LockFaults, held: set<string>, timestamp: string)
    ensures var r := Execution(c, faults, held, timestamp);
            r.alert.Some? <==> r.outcome.Caught? && !Silenced(r.outcome.error)
    ensures var r := Execution(c, faults, held, timestamp);
            r.alert.Some? ==> r.alert.value == AlertText(r.outcome.error, timestamp)
  {
  }

  /** A finished run's data is the skeleton threaded through the two producers
      and the five steps, in order. */
  lemma FinishedDataThreaded(c: Collaborators, faults: LockFaults, held: set<string>, timestamp: string)
    ensures var r := Execution(c, faults, held, timestamp);
            r.outcome.Finished? ==>
              exists ds :: Threads(Producers(c) + Pipeline(c), ds) && ds[0] == Skeleton() &&
                           ds[7] == r.outcome.data
  {
    var r := Execution(c, faults, held, timestamp);
    if r.outcome.Finished? {
      ChainAppend(Producers(c), Pipeline(c), Skeleton());
      ChainDoneThreads(Producers(c) + Pipeline(c), Skeleton());
    }
  }

  // ---- The job as it runs: lock service, alert channel, and the run itself ----

  /** The lock service, seen from one run: the set of symbols held, and the
      calls on which its back-end throws. */
  class LockService {
    var held: set<string>
    const faults: LockFaults

    constructor (held: set<string>, faults: LockFaults)
      ensures this.held == held && this.faults == faults
    {
      this.held := held;
      this.faults := faults;
    }

    method IsSymbolLocked(symbol: string) returns (r: Result<bool, Error>)
      ensures faults.isSymbolLocked(symbol).Some? ==> r == Fail(faults.isSymbolLocked(symbol).value)
      ensures faults.isSymbolLocked(symbol).None? ==> r == Ok(symbol in held)
    {
      match faults.isSymbolLocked(symbol)
      case Some(e) => r := Fail(e);
      case None => r := Ok(symbol in held);
    }

    method LockSymbol(symbol: string) returns (thrown: Option<Error>)
      modifies this
      ensures thrown == faults.lockSymbol(symbol)
      ensures held == if thrown.None? then old(held) + {symbol} else old(held)
    {
      thrown := faults.lockSymbol(symbol);
      if thrown.None? {
        held := held + {symbol};
      }
    }

    method UnlockSymbol(symbol: string) returns (thrown: Option<Error>)
      modifies this
      ensures thrown == faults.unlockSymbol(symbol)
      ensures held == if thrown.None? then old(held) - {symbol} else old(held)
    {
      thrown := faults.unlockSymbol(symbol);
      if thrown.None? {
        held := held - {symbol};
      }
    }
  }

  /** The alert transport: the messages sent so far. */
  class AlertChannel {
    var sent: seq<string>

    constructor ()
      ensures sent == []
    {
      sent := [];
    }

    method SendMessage(text: string)
      modifies this
      ensures sent == old(sent) + [text]
    {
      sent := sent + [text];
    }
  }

  /** The `for ... of` loop over the locked steps: each step is awaited on the
      data the previous one returned, and the first throw ends the loop. */
  method RunSteps(steps: seq<Step>, start: Data) returns (r: Chained)
    ensures r == Chain(steps, start)
  {
    var data := start;
    for i := 0 to |steps|
      invariant Chain(steps[..i], start) == Done(data, Names(steps[..i]))
    {
      ChainAppend(steps[..i], [steps[i]], start);
      assert steps[..i] + [steps[i]] == steps[..i + 1];
      var next := steps[i].run(data);
      if next.Fail? {
        r := Stopped(next.error, Names(steps[..i + 1]));
        ChainAppend(steps[..i + 1], steps[i + 1..], start);
        assert steps[..i + 1] + steps[i + 1..] == steps;
        return;
      }
      data := next.value;
    }
    assert steps[..|steps|] == steps;
    r := Done(data, Names(steps));
  }

  /** One run of the job, against the lock service and the alert channel. */
  method Execute(locks: LockService, channel: AlertChannel, c: Collaborators, timestamp: string)
    returns (calls: seq<Call>, outcome: Outcome)
    modifies locks, channel
    ensures var r := Execution(c, locks.faults, old(locks.held), timestamp);
            calls == r.calls && outcome == r.outcome && locks.held == r.held &&
            channel.sent == old(channel.sent) + (if r.alert.Some? then [r.alert.value] else [])
  {
    ghost var spec := Execution(c, locks.faults, locks.held, timestamp);
    ghost var held := locks.held;
    ProducersChain(c);
    var data := Skeleton();
    calls := [];
    outcome := Skipped;
    var thrown: Option<Error> := None;
    label tryBlock: {
      var r := c.getGlobalConfiguration(data);
      calls := calls + [RunStep(GlobalConfigurationName)];
      if r.Fail? {
        thrown := Some(r.error);
        assert calls == StepCalls([GlobalConfigurationName]);
        assert spec == Catch(calls, locks.held, r.error, timestamp);
        break tryBlock;
      }
      data := r.value;
      r := c.getNextSymbol(data);
      calls := calls + [RunStep(NextSymbolName)];
      if r.Fail? {
        thrown := Some(r.error);
        assert calls == StepCalls([GlobalConfigurationName, NextSymbolName]);
        assert spec == Catch(calls, locks.held, r.error, timestamp);
        break tryBlock;
      }
      data := r.value;
      assert calls == StepCalls([GlobalConfigurationName, NextSymbolName]);
      assert Chain(Producers(c), Skeleton()) == Done(data, [GlobalConfigurationName, NextSymbolName]);
      var symbol := data.symbol;
      var check := locks.IsSymbolLocked(symbol);
      calls := calls + [IsSymbolLocked(symbol)];
      if check.Fail? {
        thrown := Some(check.error);
        assert spec == Catch(calls, locks.held, check.error, timestamp);
        break tryBlock;
      }
      if check.value {
        assert spec == Run(calls, locks.held, Skipped, None);
        return;
      }
      var lockError := locks.LockSymbol(symbol);
      calls := calls + [LockSymbol(symbol)];
      if lockError.Some? {
        thrown := lockError;
        assert spec == Catch(calls, locks.held, lockError.value, timestamp);
        break tryBlock;
      }
      var steps := RunSteps(Pipeline(c), data);
      calls := calls + StepCalls(steps.ran);
      if steps.Stopped? {
        thrown := Some(steps.error);
        assert spec == Catch(calls, locks.held, steps.error, timestamp);
        break tryBlock;
      }
      data := steps.data;
      var unlockError := locks.UnlockSymbol(symbol);
      calls := calls + [UnlockSymbol(symbol)];
      if unlockError.Some? {
        thrown := unlockError;
        assert spec == Catch(calls, locks.held, unlockError.value, timestamp);
        break tryBlock;
      }
      outcome := Finished(data);
      assert spec == Run(calls, locks.held, outcome, None);
    }
    assert thrown.Some? ==> spec == Catch(calls, locks.held, thrown.value, timestamp);
    assert thrown.None? ==> spec == Run(calls, locks.held, outcome, None);
    if thrown.Some? {
      var err := thrown.value;
      outcome := Caught(err);
      if !Silenced(err) {
        channel.SendMessage(AlertText(err, timestamp));
      }
    }
  }
}
