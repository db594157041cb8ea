/**
 * The campaign orchestrator of CI/setup-synthesized.js: the walk over
 * contracts, variants 1..numOfVariants and models; the names built for each
 * triple; the skip of a variant whose test is not configured; the reaction of
 * the monitor's `statusChange` handler; and the ledger of exploit outcomes
 * (`successfulExploitsCount`, `failedExploitsCount`, `failedExploits`) fed by
 * the settled exploit results and by the catch block of the deployment
 * pipeline.
 *
 * Everything the orchestrator awaits from other code is an abstract input:
 * whether the environment came up (per contract), what happened to the
 * deployment pipeline of each triple, and which status events the monitor of
 * a deployed triple emits, each with the exploit modules `require` yields.
 * The events of a monitor are delivered at its triple, in order.
 */
module SetupSynthesized {
  import opened Wrappers
  import opened Text

  /** Status labels the handler reacts to. */
  const INITIALIZED := "INITIALIZED"
  const RUNNING := "RUNNING"
  /** Rejection reason of a test module that is not a function. */
  const INCORRECT_MODULE_TYPE := "Incorrect module type"
  /** Message of the error thrown when the environment lacks web3 or envInfo. */
  const ENV_NOT_SET_UP := "Web3 testing environment should be correctly set up."

  // ------------------------------------------------------------------
  // Configuration and names
  // ------------------------------------------------------------------

  datatype ModelRef = ModelRef(id: string, hasResponseRelation: bool)

  /** One entry of `ciConfig.contracts`. */
  datatype ContractEntry = ContractEntry(name: string, numOfVariants: int, models: seq<ModelRef>, tests: seq<string>)

  /** One entry of `ciConfig.tests`; only its name is consulted. */
  datatype TestEntry = TestEntry(name: string)

  datatype CIConfig = CIConfig(contracts: seq<ContractEntry>, tests: seq<TestEntry>)

  /** `contract.name + '-' + variantIndex.toString()` */
  function FullContractFileName(name: string, variantIndex: nat): string
  {
    name + "-" + NatToString(variantIndex)
  }

  /** `contract.name + "Exploit" + '-' + variantIndex.toString() + '.js'` */
  function FullTestName(name: string, variantIndex: nat): string
  {
    name + "Exploit" + "-" + NatToString(variantIndex) + ".js"
  }

  /** The variant index can be read back from both names built for it. */
  lemma VariantIsRecoverable(name: string, v: nat)
    ensures ParseNat(FullContractFileName(name, v)[|name| + 1..]) == Some(v)
    ensures var t := FullTestName(name, v); |t| >= |name| + 11 && ParseNat(t[|name| + 8..|t| - 3]) == Some(v)
  {
    var digits := NatToString(v);
    ParseNatToString(v);
    assert FullContractFileName(name, v)[|name| + 1..] == digits;
    var t := FullTestName(name, v);
    assert t[|name| + 8..|t| - 3] == digits;
  }

  /** Distinct variants of one contract get distinct names. */
  lemma NamesDistinguishVariants(name: string, v1: nat, v2: nat)
    requires v1 != v2
    ensures FullContractFileName(name, v1) != FullContractFileName(name, v2)
    ensures FullTestName(name, v1) != FullTestName(name, v2)
  {
    VariantIsRecoverable(name, v1);
    VariantIsRecoverable(name, v2);
  }

  /** `contract.tests[0]`; None stands for `undefined` when the list is empty. */
  function TestNameOf(c: ContractEntry): Option<string>
  {
    if |c.tests| > 0 then Some(c.tests[0]) else None
  }

  /**
   * `ciConfig.tests.find(t => t.name === testName)`, as the index of the
   * entry found. `undefined` equals no configured name.
   */
  function FindTest(tests: seq<TestEntry>, testName: Option<string>): (r: Option<nat>)
    ensures r.Some? ==> r.value < |tests| && testName == Some(tests[r.value].name)
    ensures r.Some? ==> forall j | 0 <= j < r.value :: testName != Some(tests[j].name)
    ensures r.None? <==> forall j | 0 <= j < |tests| :: testName != Some(tests[j].name)
  {
    FindTestFrom(tests, testName, 0)
  }

  function FindTestFrom(tests: seq<TestEntry>, testName: Option<string>, from: nat): (r: Option<nat>)
    ensures r.Some? ==> from <= r.value < |tests| && testName == Some(tests[r.value].name)
    ensures r.Some? ==> forall j | from <= j < r.value :: testName != Some(tests[j].name)
    ensures r.None? <==> forall j | from <= j < |tests| :: testName != Some(tests[j].name)
    decreases |tests| - from
  {
    if from >= |tests| then None
    else if testName == Some(tests[from].name) then Some(from)
    else FindTestFrom(tests, testName, from + 1)
  }

  // ------------------------------------------------------------------
  // Settled exploit results
  // ------------------------------------------------------------------

  /** The value an exploit's promise fulfils with; only its truthiness matters. */
  datatype JsValue = Undefined | Null | Bool(b: bool) | Number(x: real) | NaN | Str(s: string) | Object

  /** JavaScript truthiness. */
  predicate Truthy(v: JsValue)
  {
    match v
    case Undefined => false
    case Null => false
    case Bool(b) => b
    case Number(x) => x != 0.0
    case NaN => false
    case Str(s) => s != ""
    case Object => true
  }

  /** One element of the array `Promise.allSettled` yields. */
  datatype Settled = Fulfilled(value: JsValue) | Rejected(reason: string)

  /** The test of line 132. */
  predicate IsSuccess(r: Settled)
  {
    r.Fulfilled? && Truthy(r.value)
  }

  /**
   * What `require(testFilePath)` yields: a function whose promise settles as
   * given, something else, or an exception (the module fails to load or the
   * function throws before returning a promise).
   */
  datatype ExploitModule = ExploitFunction(settles: Settled) | NotAFunction | Throws(error: string)

  /** The promise line 126 builds for a module that does not throw. */
  function Launch(m: ExploitModule): Settled
    requires !m.Throws?
  {
    match m
    case ExploitFunction(s) => s
    case NotAFunction => Rejected(INCORRECT_MODULE_TYPE)
  }

  /**
   * `Promise.allSettled(testFiles.map(...))`: one settled result per test
   * file, in order; None when the `map` itself throws, which happens exactly
   * when some module throws.
   */
  function RunExploits(testFiles: seq<string>, load: string -> ExploitModule): (r: Option<seq<Settled>>)
    ensures r.Some? <==> forall i | 0 <= i < |testFiles| :: !load(testFiles[i]).Throws?
    ensures r.Some? ==> |r.value| == |testFiles|
    ensures r.Some? ==> forall i | 0 <= i < |testFiles| :: r.value[i] == Launch(load(testFiles[i]))
  {
    if testFiles == [] then Some([])
    else if load(testFiles[0]).Throws? then None
    else match RunExploits(testFiles[1..], load)
      case None => None
      case Some(rest) => Some([Launch(load(testFiles[0]))] + rest)
  }

  // ------------------------------------------------------------------
  // The ledger
  // ------------------------------------------------------------------

  /** One element of `failedExploits`; `reason` None is `null`. */
  datatype FailureRecord = FailureRecord(contract: string, exploit: string, reason: Option<string>)

  /** The values of `successfulExploitsCount`, `failedExploitsCount` and `failedExploits`. */
  datatype Ledger = Ledger(successful: nat, failed: nat, failures: seq<FailureRecord>)

  const EmptyLedger := Ledger(0, 0, [])

  /** One call of the `forEach` callback (lines 131-141). */
  function Tally(l: Ledger, contract: string, exploit: string, r: Settled): Ledger
  {
    if IsSuccess(r) then l.(successful := l.successful + 1)
    else Ledger(l.successful, l.failed + 1, l.failures + [FailureRecord(contract, exploit, None)])
  }

  /** `results.forEach(...)` over a settled batch. */
  function Aggregate(l: Ledger, contract: string, exploit: string, rs: seq<Settled>): Ledger
    decreases |rs|
  {
    if rs == [] then l else Aggregate(Tally(l, contract, exploit, rs[0]), contract, exploit, rs[1..])
  }

  /** The catch block (lines 158-165). */
  function RecordThrow(l: Ledger, contract: string, exploit: string, error: string): Ledger
  {
    Ledger(l.successful, l.failed + 1, l.failures + [FailureRecord(contract, exploit, Some(error))])
  }

  /**
   * `b` is `a` after further recording: no count drops, records are only
   * appended, and the failure count grows by the number of records appended.
   */
  predicate Grows(a: Ledger, b: Ledger)
  {
    && a.successful <= b.successful
    && a.failed <= b.failed
    && a.failures <= b.failures
    && b.failed - a.failed == |b.failures| - |a.failures|
  }

  /** The number of results of a batch that count as failures. */
  function CountFailing(rs: seq<Settled>): (n: nat)
    ensures n <= |rs|
  {
    if rs == [] then 0
    else CountFailing(rs[..|rs| - 1]) + (if IsSuccess(rs[|rs| - 1]) then 0 else 1)
  }

  lemma {:induction false} CountFailingCons(r: Settled, rs: seq<Settled>)
    ensures CountFailing([r] + rs) == (if IsSuccess(r) then 0 else 1) + CountFailing(rs)
    decreases |rs|
  {
    var all := [r] + rs;
    if rs != [] {
      assert all[..|all| - 1] == [r] + rs[..|rs| - 1];
      CountFailingCons(r, rs[..|rs| - 1]);
    } else {
      assert all[..0] == [];
    }
  }

  /**
   * Folding a settled batch into the ledger: the two counts grow by exactly
   * the size of the batch, the failure count by the number of results that
   * are not fulfilled-and-truthy, and each of those appends one record naming
   * the contract variant and the exploit, with a null reason.
   */
  lemma {:induction false} AggregateSpec(l: Ledger, contract: string, exploit: string, rs: seq<Settled>)
    ensures var l' := Aggregate(l, contract, exploit, rs);
      && Grows(l, l')
      && l'.successful + l'.failed == l.successful + l.failed + |rs|
      && l'.failed == l.failed + CountFailing(rs)
      && forall j | |l.failures| <= j < |l'.failures| :: l'.failures[j] == FailureRecord(contract, exploit, None)
    decreases |rs|
  {
    if rs != [] {
      var l1 := Tally(l, contract, exploit, rs[0]);
      AggregateSpec(l1, contract, exploit, rs[1..]);
      CountFailingCons(rs[0], rs[1..]);
      assert [rs[0]] + rs[1..] == rs;
      var l' := Aggregate(l, contract, exploit, rs);
      assert l.failures <= l1.failures;
      forall j | |l.failures| <= j < |l'.failures|
        ensures l'.failures[j] == FailureRecord(contract, exploit, None)
      {
        if j < |l1.failures| {
          assert l'.failures[j] == l1.failures[j];
        }
      }
    }
  }

  /** Every result of the batch counts as a success exactly when each is fulfilled with a truthy value. */
  lemma AllSucceedExactly(l: Ledger, contract: string, exploit: string, rs: seq<Settled>)
    ensures Aggregate(l, contract, exploit, rs).successful == l.successful + |rs|
        <==> forall i | 0 <= i < |rs| :: IsSuccess(rs[i])
  {
    AggregateSpec(l, contract, exploit, rs);
    CountFailingZero(rs);
  }

  lemma {:induction false} CountFailingZero(rs: seq<Settled>)
    ensures CountFailing(rs) == 0 <==> forall i | 0 <= i < |rs| :: IsSuccess(rs[i])
  {
    if rs != [] {
      var init := rs[..|rs| - 1];
      CountFailingZero(init);
      assert forall i | 0 <= i < |init| :: init[i] == rs[i];
    }
  }

  // ------------------------------------------------------------------
  // Monitors and the statusChange handler
  // ------------------------------------------------------------------

  /**
   * A monitor created for a triple, with what the handler did to it: how
   * often it called `monitor.start()` and whether it called `resolve()` of
   * the promise pushed on `allMonitors`.
   */
  datatype MonitorEntry = MonitorEntry(contract: string, modelId: string, startCalls: nat, resolved: bool)

  /** The variables the handler of one monitor closes over. */
  datatype Closure = Closure(monitor: nat, contractFile: string, testName: string, testFiles: seq<string>)

  /** A triple the loops reached, or a variant they skipped. */
  datatype Visit = Skipped(contract: nat, variant: nat) | Tried(contract: nat, variant: nat, model: nat)

  /**
   * The state of a campaign: the ledger, the monitors in `allMonitors`
   * order, the trace of the loops, and the error that ended the campaign
   * early (None while it runs).
   */
  datatype RunState = RunState(ledger: Ledger, monitors: seq<MonitorEntry>, visited: seq<Visit>, aborted: Option<string>)

  /** The `statusChange` handler (lines 111-155) receiving `newStatus`. */
  function React(s: RunState, cl: Closure, newStatus: string, load: string -> ExploitModule): (r: RunState)
    requires cl.monitor < |s.monitors|
    ensures |r.monitors| == |s.monitors| && r.visited == s.visited && r.aborted == s.aborted
  {
    var m := s.monitors[cl.monitor];
    if newStatus == INITIALIZED then
      s.(monitors := s.monitors[cl.monitor := m.(startCalls := m.startCalls + 1)])
    else if newStatus == RUNNING then
      match RunExploits(cl.testFiles, load)
      case None => s
      case Some(results) =>
        s.(ledger := Aggregate(s.ledger, cl.contractFile, cl.testName, results),
           monitors := s.monitors[cl.monitor := m.(resolved := true)])
    else s
  }

  /**
   * The handler calls `start` exactly on INITIALIZED and then changes nothing
   * else; the ledger changes, and the promise resolves, only on RUNNING, and
   * resolving comes with the batch folded into the ledger; no other monitor
   * is touched.
   */
  lemma HandlerReaction(s: RunState, cl: Closure, newStatus: string, load: string -> ExploitModule)
    requires cl.monitor < |s.monitors|
    ensures var r := React(s, cl, newStatus, load); var k := cl.monitor;
      && (r.monitors[k].startCalls != s.monitors[k].startCalls <==> newStatus == INITIALIZED)
      && (newStatus == INITIALIZED ==>
            r.ledger == s.ledger && r.monitors[k] == s.monitors[k].(startCalls := s.monitors[k].startCalls + 1))
      && (r.ledger != s.ledger || r.monitors[k].resolved != s.monitors[k].resolved ==> newStatus == RUNNING)
      && (newStatus == RUNNING && RunExploits(cl.testFiles, load).Some? ==>
            r.monitors[k].resolved
            && r.ledger == Aggregate(s.ledger, cl.contractFile, cl.testName, RunExploits(cl.testFiles, load).value))
      && (newStatus == RUNNING && RunExploits(cl.testFiles, load).None? ==> r == s)
      && forall j | 0 <= j < |s.monitors| && j != k :: r.monitors[j] == s.monitors[j]
  {
  }

  /** A test module that is not a function is counted as one failure with a null reason. */
  lemma NonFunctionModuleFails(s: RunState, cl: Closure, file: string, load: string -> ExploitModule)
    requires cl.monitor < |s.monitors| && cl.testFiles == [file] && load(file) == NotAFunction
    ensures React(s, cl, RUNNING, load).ledger
         == Ledger(s.ledger.successful, s.ledger.failed + 1, s.ledger.failures + [FailureRecord(cl.contractFile, cl.testName, None)])
  {
    var rs := RunExploits(cl.testFiles, load).value;
    assert rs == [Rejected(INCORRECT_MODULE_TYPE)];
    assert !IsSuccess(rs[0]);
    var l1 := Tally(s.ledger, cl.contractFile, cl.testName, rs[0]);
    assert Aggregate(s.ledger, cl.contractFile, cl.testName, rs) == Aggregate(l1, cl.contractFile, cl.testName, rs[1..]);
    assert rs[1..] == [];
  }

  /** A status event of a monitor, with the modules `require` would yield at that point. */
  datatype Emission = Emission(status: string, load: string -> ExploitModule)

  /** The handler receiving a monitor's events in order. */
  function Drive(s: RunState, cl: Closure, es: seq<Emission>): (r: RunState)
    requires cl.monitor < |s.monitors|
    ensures |r.monitors| == |s.monitors| && r.visited == s.visited && r.aborted == s.aborted
    decreases |es|
  {
    if es == [] then s else Drive(React(s, cl, es[0].status, es[0].load), cl, es[1..])
  }

  /** Whatever events arrive, the handler only appends null-reason records naming its closure. */
  lemma {:induction false} DriveSpec(s: RunState, cl: Closure, es: seq<Emission>)
    requires cl.monitor < |s.monitors|
    ensures var r := Drive(s, cl, es);
      && Grows(s.ledger, r.ledger)
      && forall j | |s.ledger.failures| <= j < |r.ledger.failures| ::
           r.ledger.failures[j] == FailureRecord(cl.contractFile, cl.testName, None)
    decreases |es|
  {
    if es != [] {
      var s1 := React(s, cl, es[0].status, es[0].load);
      if es[0].status == RUNNING && RunExploits(cl.testFiles, es[0].load).Some? {
        AggregateSpec(s.ledger, cl.contractFile, cl.testName, RunExploits(cl.testFiles, es[0].load).value);
      }
      DriveSpec(s1, cl, es[1..]);
      var r := Drive(s, cl, es);
      forall j | |s.ledger.failures| <= j < |r.ledger.failures|
        ensures r.ledger.failures[j] == FailureRecord(cl.contractFile, cl.testName, None)
      {
        if j < |s1.ledger.failures| {
          assert r.ledger.failures[j] == s1.ledger.failures[j];
        }
      }
    }
  }

  /** The event is RUNNING and every test module of the closure loads. */
  predicate RunsExploits(e: Emission, testFiles: seq<string>)
  {
    e.status == RUNNING && RunExploits(testFiles, e.load).Some?
  }

  /** Some event of `es` runs the exploits. */
  ghost predicate SomeRunsExploits(es: seq<Emission>, testFiles: seq<string>)
  {
    exists i | 0 <= i < |es| :: RunsExploits(es[i], testFiles)
  }

  /**
   * The monitor's promise has resolved after the events exactly when it had
   * resolved before or one of them was a RUNNING whose modules all loaded;
   * the other monitors keep their entries.
   */
  lemma {:induction false} DriveResolves(s: RunState, cl: Closure, es: seq<Emission>)
    requires cl.monitor < |s.monitors|
    ensures var r := Drive(s, cl, es);
      && (r.monitors[cl.monitor].resolved <==> s.monitors[cl.monitor].resolved || SomeRunsExploits(es, cl.testFiles))
      && forall j | 0 <= j < |s.monitors| && j != cl.monitor :: r.monitors[j] == s.monitors[j]
    decreases |es|
  {
    if es != [] {
      var s1 := React(s, cl, es[0].status, es[0].load);
      DriveResolves(s1, cl, es[1..]);
      if RunsExploits(es[0], cl.testFiles) {
        assert SomeRunsExploits(es, cl.testFiles);
      }
      if SomeRunsExploits(es[1..], cl.testFiles) {
        var i :| 0 <= i < |es[1..]| && RunsExploits(es[1..][i], cl.testFiles);
        assert RunsExploits(es[i + 1], cl.testFiles);
      }
      if SomeRunsExploits(es, cl.testFiles) && !RunsExploits(es[0], cl.testFiles) {
        var i :| 0 <= i < |es| && RunsExploits(es[i], cl.testFiles);
        assert es[1..][i - 1] == es[i];
      }
    }
  }

  // ------------------------------------------------------------------
  // The loops
  // ------------------------------------------------------------------

  /** How `setupAnvilEnv()` and the check of lines 38-40 turned out for a contract. */
  datatype EnvSetup = EnvReady | EnvIncomplete | EnvThrow(error: string)

  /** What happened to the deployment pipeline of one triple. */
  datatype Attempt =
    | ParamsThrow(error: string)          // `retrieveConstructorParameters` threw: outside the try
    | PipelineThrow(error: string)        // something in lines 81-109 threw: the catch block
    | Deployed(emissions: seq<Emission>)  // a monitor was created; the events it emits

  /** One iteration of the model loop (lines 61-177). */
  function TripleStep(cfg: CIConfig, attempt: (nat, nat, nat) -> Attempt, ci: nat, v: nat, testName: string, mi: nat, s: RunState): RunState
    requires ci < |cfg.contracts| && mi < |cfg.contracts[ci].models|
  {
    var c := cfg.contracts[ci];
    var contractFile := FullContractFileName(c.name, v);
    var s1 := s.(visited := s.visited + [Tried(ci, v, mi)]);
    match attempt(ci, v, mi)
    case ParamsThrow(e) => s1.(aborted := Some(e))
    case PipelineThrow(e) => s1.(ledger := RecordThrow(s1.ledger, contractFile, testName, e))
    case Deployed(es) =>
      var s2 := s1.(monitors := s1.monitors + [MonitorEntry(contractFile, c.models[mi].id, 0, false)]);
      Drive(s2, Closure(|s1.monitors|, contractFile, testName, [FullTestName(c.name, v)]), es)
  }

  /** The model loop from model `mi` on. */
  function Models(cfg: CIConfig, attempt: (nat, nat, nat) -> Attempt, ci: nat, v: nat, testName: string, mi: nat, s: RunState): RunState
    requires ci < |cfg.contracts|
    decreases |cfg.contracts[ci].models| - mi
  {
    if s.aborted.Some? || mi >= |cfg.contracts[ci].models| then s
    else Models(cfg, attempt, ci, v, testName, mi + 1, TripleStep(cfg, attempt, ci, v, testName, mi, s))
  }

  /** One iteration of the variant loop (lines 42-186). */
  function VariantStep(cfg: CIConfig, attempt: (nat, nat, nat) -> Attempt, ci: nat, v: nat, s: RunState): RunState
    requires ci < |cfg.contracts|
  {
    var c := cfg.contracts[ci];
    match FindTest(cfg.tests, TestNameOf(c))
    case None => s.(visited := s.visited + [Skipped(ci, v)])
    case Some(_) => Models(cfg, attempt, ci, v, c.tests[0], 0, s)
  }

  /** The variant loop from variant `v` on. */
  function Variants(cfg: CIConfig, attempt: (nat, nat, nat) -> Attempt, ci: nat, v: nat, s: RunState): RunState
    requires ci < |cfg.contracts|
    decreases cfg.contracts[ci].numOfVariants - v
  {
    if s.aborted.Some? || v > cfg.contracts[ci].numOfVariants then s
    else Variants(cfg, attempt, ci, v + 1, VariantStep(cfg, attempt, ci, v, s))
  }

  /** One iteration of the contract loop (lines 30-187). */
  function ContractStep(cfg: CIConfig, env: nat -> EnvSetup, attempt: (nat, nat, nat) -> Attempt, ci: nat, s: RunState): RunState
    requires ci < |cfg.contracts|
  {
    match env(ci)
    case EnvThrow(e) => s.(aborted := Some(e))
    case EnvIncomplete => s.(aborted := Some(ENV_NOT_SET_UP))
    case EnvReady => Variants(cfg, attempt, ci, 1, s)
  }

  /** The contract loop from contract `ci` on. */
  function Contracts(cfg: CIConfig, env: nat -> EnvSetup, attempt: (nat, nat, nat) -> Attempt, ci: nat, s: RunState): RunState
    decreases |cfg.contracts| - ci
  {
    if s.aborted.Some? || ci >= |cfg.contracts| then s
    else Contracts(cfg, env, attempt, ci + 1, ContractStep(cfg, env, attempt, ci, s))
  }

  /**
   * How the promise `setupAndRunTests` returns ends: rejected by an error
   * thrown outside the try; fulfilled after the report once
   * `Promise.allSettled(allMonitors)` settles, that is once every monitor has
   * resolved; or never settling, when some monitor never reached RUNNING.
   */
  datatype Outcome = Aborted(error: string) | Reported | Waiting

  function OutcomeOf(r: RunState): Outcome
  {
    if r.aborted.Some? then Aborted(r.aborted.value)
    else if forall m | m in r.monitors :: m.resolved then Reported
    else Waiting
  }

  /** The whole of `setupAndRunTests`, from zero counters and empty lists. */
  function RunCampaign(cfg: CIConfig, env: nat -> EnvSetup, attempt: (nat, nat, nat) -> Attempt): RunState
  {
    Contracts(cfg, env, attempt, 0, RunState(EmptyLedger, [], [], None))
  }

  // ------------------------------------------------------------------
  // The order of the walk, stated without the loops
  // ------------------------------------------------------------------

  /** Models `from`..`n - 1` of a variant, in declaration order. */
  function ModelVisits(ci: nat, v: nat, from: nat, n: nat): seq<Visit>
    decreases n - from
  {
    if from >= n then [] else [Tried(ci, v, from)] + ModelVisits(ci, v, from + 1, n)
  }

  /** A variant whose test is configured visits all its models; any other is skipped. */
  function VariantVisits(cfg: CIConfig, ci: nat, v: nat): seq<Visit>
    requires ci < |cfg.contracts|
  {
    var c := cfg.contracts[ci];
    if FindTest(cfg.tests, TestNameOf(c)).None? then [Skipped(ci, v)]
    else ModelVisits(ci, v, 0, |c.models|)
  }

  /** Variants `from`..`numOfVariants` of a contract, in increasing order. */
  function ContractVisits(cfg: CIConfig, ci: nat, from: nat): seq<Visit>
    requires ci < |cfg.contracts|
    decreases cfg.contracts[ci].numOfVariants - from
  {
    if from > cfg.contracts[ci].numOfVariants then []
    else VariantVisits(cfg, ci, from) + ContractVisits(cfg, ci, from + 1)
  }

  /** Contracts `from`.. in configuration order. */
  function CampaignVisits(cfg: CIConfig, from: nat): seq<Visit>
    decreases |cfg.contracts| - from
  {
    if from >= |cfg.contracts| then [] else ContractVisits(cfg, from, 1) + CampaignVisits(cfg, from + 1)
  }

  /**
   * The record names variant `v` of contract `ci`, as the file
   * `<name>-<v>`, and that contract's first test.
   */
  ghost predicate NamesTriple(cfg: CIConfig, f: FailureRecord, ci: nat, v: nat)
  {
    && ci < |cfg.contracts| && v <= cfg.contracts[ci].numOfVariants && |cfg.contracts[ci].tests| > 0
    && f.contract == FullContractFileName(cfg.contracts[ci].name, v)
    && f.exploit == cfg.contracts[ci].tests[0]
  }

  /** The record names a variant `from` or later of contract `ci`. */
  ghost predicate NamesVariantFrom(cfg: CIConfig, f: FailureRecord, ci: nat, from: nat)
  {
    exists v: nat | from <= v :: NamesTriple(cfg, f, ci, v)
  }

  /** The record names a variant 1.. of contract `from` or a later one. */
  ghost predicate NamesContractFrom(cfg: CIConfig, f: FailureRecord, from: nat)
  {
    exists ci: nat | from <= ci :: NamesVariantFrom(cfg, f, ci, 1)
  }

  /**
   * Appending a block after a prefix-bounded step: the general shape of one
   * loop iteration followed by the rest of the loop.
   */
  lemma PrefixCompose(a: seq<Visit>, r1: seq<Visit>, r: seq<Visit>, b1: seq<Visit>, b2: seq<Visit>, stopped: bool)
    requires a <= r1 && r1 <= a + b1 && (!stopped ==> r1 == a + b1)
    requires stopped ==> r == r1
    requires !stopped ==> r1 <= r && r <= r1 + b2
    ensures a <= r && r <= a + (b1 + b2)
  {
    assert a + (b1 + b2) == (a + b1) + b2;
    if stopped {
      assert (a + b1) <= (a + b1) + b2;
    }
  }

  /**
   * One triple: it is recorded as visited, it ends the campaign exactly when
   * the constructor parameters threw, and every record it appends names the
   * contract variant and `contract.tests[0]`: the catch block appends exactly
   * one, carrying the error, and the handler only null-reason ones.
   */
  lemma TripleSpec(cfg: CIConfig, attempt: (nat, nat, nat) -> Attempt, ci: nat, v: nat, testName: string, mi: nat, s: RunState)
    requires ci < |cfg.contracts| && mi < |cfg.contracts[ci].models|
    ensures var r := TripleStep(cfg, attempt, ci, v, testName, mi, s);
      var contractFile := FullContractFileName(cfg.contracts[ci].name, v);
      && Grows(s.ledger, r.ledger)
      && r.visited == s.visited + [Tried(ci, v, mi)]
      && (r.aborted.Some? <==> s.aborted.Some? || attempt(ci, v, mi).ParamsThrow?)
      && (attempt(ci, v, mi).ParamsThrow? ==> r.ledger == s.ledger)
      && (attempt(ci, v, mi).PipelineThrow? ==>
            && r.ledger.successful == s.ledger.successful
            && r.ledger.failed == s.ledger.failed + 1
            && r.ledger.failures == s.ledger.failures + [FailureRecord(contractFile, testName, Some(attempt(ci, v, mi).error))])
      && (forall j | |s.ledger.failures| <= j < |r.ledger.failures| ::
            && r.ledger.failures[j].contract == contractFile
            && r.ledger.failures[j].exploit == testName
            && (attempt(ci, v, mi).Deployed? ==> r.ledger.failures[j].reason.None?))
  {
    var c := cfg.contracts[ci];
    var contractFile := FullContractFileName(c.name, v);
    var s1 := s.(visited := s.visited + [Tried(ci, v, mi)]);
    match attempt(ci, v, mi)
    case ParamsThrow(e) =>
    case PipelineThrow(e) =>
    case Deployed(es) =>
      var s2 := s1.(monitors := s1.monitors + [MonitorEntry(contractFile, c.models[mi].id, 0, false)]);
      DriveSpec(s2, Closure(|s1.monitors|, contractFile, testName, [FullTestName(c.name, v)]), es);
  }

  lemma {:induction false} ModelsSpec(cfg: CIConfig, attempt: (nat, nat, nat) -> Attempt, ci: nat, v: nat, testName: string, mi: nat, s: RunState)
    requires ci < |cfg.contracts| && s.aborted.None?
    ensures var r := Models(cfg, attempt, ci, v, testName, mi, s);
      var full := ModelVisits(ci, v, mi, |cfg.contracts[ci].models|);
      && Grows(s.ledger, r.ledger)
      && s.visited <= r.visited && r.visited <= s.visited + full
      && (r.aborted.None? ==> r.visited == s.visited + full)
      && forall j | |s.ledger.failures| <= j < |r.ledger.failures| ::
           r.ledger.failures[j].contract == FullContractFileName(cfg.contracts[ci].name, v)
           && r.ledger.failures[j].exploit == testName
    decreases |cfg.contracts[ci].models| - mi
  {
    var n := |cfg.contracts[ci].models|;
    if mi < n {
      var s1 := TripleStep(cfg, attempt, ci, v, testName, mi, s);
      TripleSpec(cfg, attempt, ci, v, testName, mi, s);
      var r := Models(cfg, attempt, ci, v, testName, mi, s);
      if s1.aborted.None? {
        ModelsSpec(cfg, attempt, ci, v, testName, mi + 1, s1);
      }
      assert s.visited <= s1.visited && s1.visited <= s.visited + [Tried(ci, v, mi)];
      PrefixCompose(s.visited, s1.visited, r.visited, [Tried(ci, v, mi)], ModelVisits(ci, v, mi + 1, n), s1.aborted.Some?);
      forall j | |s.ledger.failures| <= j < |r.ledger.failures|
        ensures r.ledger.failures[j].contract == FullContractFileName(cfg.contracts[ci].name, v)
        ensures r.ledger.failures[j].exploit == testName
      {
        if j < |s1.ledger.failures| {
          assert r.ledger.failures[j] == s1.ledger.failures[j];
        }
      }
    } else {
      assert s.visited + [] == s.visited;
    }
  }

  /** A variant whose test is not configured changes no count, list or monitor. */
  lemma SkippedVariantChangesNothing(cfg: CIConfig, attempt: (nat, nat, nat) -> Attempt, ci: nat, v: nat, s: RunState)
    requires ci < |cfg.contracts|
    requires forall j | 0 <= j < |cfg.tests| :: TestNameOf(cfg.contracts[ci]) != Some(cfg.tests[j].name)
    ensures var r := VariantStep(cfg, attempt, ci, v, s);
      r.ledger == s.ledger && r.monitors == s.monitors && r.aborted == s.aborted
      && r.visited == s.visited + [Skipped(ci, v)]
  {
  }

  lemma {:induction false} VariantsSpec(cfg: CIConfig, attempt: (nat, nat, nat) -> Attempt, ci: nat, v: nat, s: RunState)
    requires ci < |cfg.contracts| && s.aborted.None?
    ensures var r := Variants(cfg, attempt, ci, v, s);
      var full := ContractVisits(cfg, ci, v);
      && Grows(s.ledger, r.ledger)
      && s.visited <= r.visited && r.visited <= s.visited + full
      && (r.aborted.None? ==> r.visited == s.visited + full)
    decreases cfg.contracts[ci].numOfVariants - v
  {
    var c := cfg.contracts[ci];
    if v <= c.numOfVariants {
      var s1 := VariantStep(cfg, attempt, ci, v, s);
      var block := VariantVisits(cfg, ci, v);
      if FindTest(cfg.tests, TestNameOf(c)).Some? {
        ModelsSpec(cfg, attempt, ci, v, c.tests[0], 0, s);
      }
      assert s.visited <= s1.visited && s1.visited <= s.visited + block;
      var r := Variants(cfg, attempt, ci, v, s);
      assert r == Variants(cfg, attempt, ci, v + 1, s1);
      if s1.aborted.None? {
        VariantsSpec(cfg, attempt, ci, v + 1, s1);
      } else {
        assert r == s1;
      }
      PrefixCompose(s.visited, s1.visited, r.visited, block, ContractVisits(cfg, ci, v + 1), s1.aborted.Some?);
    } else {
      assert s.visited + [] == s.visited;
    }
  }

  lemma {:induction false} ContractsSpec(cfg: CIConfig, env: nat -> EnvSetup, attempt: (nat, nat, nat) -> Attempt, ci: nat, s: RunState)
    requires s.aborted.None?
    ensures var r := Contracts(cfg, env, attempt, ci, s);
      var full := CampaignVisits(cfg, ci);
      && Grows(s.ledger, r.ledger)
      && s.visited <= r.visited && r.visited <= s.visited + full
      && (r.aborted.None? ==> r.visited == s.visited + full)
    decreases |cfg.contracts| - ci
  {
    if ci < |cfg.contracts| {
      var s1 := ContractStep(cfg, env, attempt, ci, s);
      var block := ContractVisits(cfg, ci, 1);
      if env(ci).EnvReady? {
        VariantsSpec(cfg, attempt, ci, 1, s);
        assert s.visited <= s1.visited && s1.visited <= s.visited + block;
      } else {
        assert s1.visited == s.visited;
        assert s.visited <= s.visited + block;
        assert s.visited <= s1.visited && s1.visited <= s.visited + block;
      }
      var r := Contracts(cfg, env, attempt, ci, s);
      assert r == Contracts(cfg, env, attempt, ci + 1, s1);
      if s1.aborted.None? {
        ContractsSpec(cfg, env, attempt, ci + 1, s1);
      } else {
        assert r == s1;
      }
      PrefixCompose(s.visited, s1.visited, r.visited, block, CampaignVisits(cfg, ci + 1), s1.aborted.Some?);
    } else {
      assert s.visited + [] == s.visited;
    }
  }

  /** Every record the variant loop appends names one of the variants it visited and `tests[0]`. */
  lemma {:induction false} VariantsNames(cfg: CIConfig, attempt: (nat, nat, nat) -> Attempt, ci: nat, v: nat, s: RunState, j: nat)
    requires ci < |cfg.contracts|
    requires |s.ledger.failures| <= j < |Variants(cfg, attempt, ci, v, s).ledger.failures|
    ensures NamesVariantFrom(cfg, Variants(cfg, attempt, ci, v, s).ledger.failures[j], ci, v)
    decreases cfg.contracts[ci].numOfVariants - v
  {
    var c := cfg.contracts[ci];
    var r := Variants(cfg, attempt, ci, v, s);
    assert s.aborted.None? && v <= c.numOfVariants;
    var s1 := VariantStep(cfg, attempt, ci, v, s);
    assert r == Variants(cfg, attempt, ci, v + 1, s1);
    if j < |s1.ledger.failures| {
      assert FindTest(cfg.tests, TestNameOf(c)).Some? && |c.tests| > 0;
      ModelsSpec(cfg, attempt, ci, v, c.tests[0], 0, s);
      if s1.aborted.None? {
        VariantsSpec(cfg, attempt, ci, v + 1, s1);
      }
      assert r.ledger.failures[j] == s1.ledger.failures[j];
      assert NamesTriple(cfg, r.ledger.failures[j], ci, v);
    } else {
      VariantsNames(cfg, attempt, ci, v + 1, s1, j);
      var w: nat :| v + 1 <= w && NamesTriple(cfg, r.ledger.failures[j], ci, w);
      assert v <= w && NamesTriple(cfg, r.ledger.failures[j], ci, w);
    }
  }

  /** Every record the contract loop appends names a variant of a contract it visited and that contract's `tests[0]`. */
  lemma {:induction false} ContractsNames(cfg: CIConfig, env: nat -> EnvSetup, attempt: (nat, nat, nat) -> Attempt, ci: nat, s: RunState, j: nat)
    requires |s.ledger.failures| <= j < |Contracts(cfg, env, attempt, ci, s).ledger.failures|
    ensures NamesContractFrom(cfg, Contracts(cfg, env, attempt, ci, s).ledger.failures[j], ci)
    decreases |cfg.contracts| - ci
  {
    var r := Contracts(cfg, env, attempt, ci, s);
    assert s.aborted.None? && ci < |cfg.contracts|;
    var s1 := ContractStep(cfg, env, attempt, ci, s);
    assert r == Contracts(cfg, env, attempt, ci + 1, s1);
    if j < |s1.ledger.failures| {
      assert env(ci).EnvReady? && s1 == Variants(cfg, attempt, ci, 1, s);
      VariantsNames(cfg, attempt, ci, 1, s, j);
      if s1.aborted.None? {
        ContractsSpec(cfg, env, attempt, ci + 1, s1);
      }
      assert r.ledger.failures[j] == s1.ledger.failures[j];
      assert NamesVariantFrom(cfg, r.ledger.failures[j], ci, 1);
    } else {
      ContractsNames(cfg, env, attempt, ci + 1, s1, j);
      var ck: nat :| ci + 1 <= ck && NamesVariantFrom(cfg, r.ledger.failures[j], ck, 1);
      assert ci <= ck && NamesVariantFrom(cfg, r.ledger.failures[j], ck, 1);
    }
  }

  /**
   * The whole campaign: the failure count equals the length of the failure
   * list; the loops visit contracts in order, for each the variants
   * 1..numOfVariants in increasing order, and within a variant every model in
   * declaration order (a skipped variant visits none); a campaign cut short
   * by an error has visited a prefix of that walk, and a complete one all
   * of it; every failure record names a variant `<name>-<v>` (1 <= v <=
   * numOfVariants) of a configured contract and that contract's `tests[0]`.
   */
  lemma CampaignSpec(cfg: CIConfig, env: nat -> EnvSetup, attempt: (nat, nat, nat) -> Attempt)
    ensures var r := RunCampaign(cfg, env, attempt);
      && r.ledger.failed == |r.ledger.failures|
      && r.visited <= CampaignVisits(cfg, 0)
      && (r.aborted.None? ==> r.visited == CampaignVisits(cfg, 0))
      && forall j | 0 <= j < |r.ledger.failures| :: NamesContractFrom(cfg, r.ledger.failures[j], 0)
  {
    var s := RunState(EmptyLedger, [], [], None);
    ContractsSpec(cfg, env, attempt, 0, s);
    assert [] + CampaignVisits(cfg, 0) == CampaignVisits(cfg, 0);
    var r := RunCampaign(cfg, env, attempt);
    forall j | 0 <= j < |r.ledger.failures| ensures NamesContractFrom(cfg, r.ledger.failures[j], 0) {
      ContractsNames(cfg, env, attempt, 0, s, j);
    }
  }

  // ------------------------------------------------------------------
  // Which monitors resolve
  // ------------------------------------------------------------------

  /**
   * The resolve flag the monitor of a visit ends with: a triple whose
   * pipeline deployed has one, set exactly when some event it emitted ran
   * the exploits; any other visit creates no monitor.
   */
  ghost function MonitorFlag(cfg: CIConfig, attempt: (nat, nat, nat) -> Attempt, x: Visit): seq<bool>
  {
    if x.Tried? && x.contract < |cfg.contracts| && attempt(x.contract, x.variant, x.model).Deployed? then
      [SomeRunsExploits(attempt(x.contract, x.variant, x.model).emissions,
                        [FullTestName(cfg.contracts[x.contract].name, x.variant)])]
    else []
  }

  /** The flags of the monitors a trace creates, in creation order. */
  ghost function ExpectedFlags(cfg: CIConfig, attempt: (nat, nat, nat) -> Attempt, vs: seq<Visit>): seq<bool>
    decreases |vs|
  {
    if vs == [] then [] else ExpectedFlags(cfg, attempt, vs[..|vs| - 1]) + MonitorFlag(cfg, attempt, vs[|vs| - 1])
  }

  /** The resolve flags of `allMonitors`, in order. */
  ghost function ResolvedFlags(ms: seq<MonitorEntry>): seq<bool>
  {
    seq(|ms|, k requires 0 <= k < |ms| => ms[k].resolved)
  }

  /** Every monitor of the state carries the flag its triple's events determine. */
  ghost predicate MonitorsTrack(cfg: CIConfig, attempt: (nat, nat, nat) -> Attempt, s: RunState)
  {
    ResolvedFlags(s.monitors) == ExpectedFlags(cfg, attempt, s.visited)
  }

  /** If the visit deployed a monitor, some event of that monitor ran the exploits. */
  ghost predicate DeployedRuns(cfg: CIConfig, attempt: (nat, nat, nat) -> Attempt, x: Visit)
  {
    x.Tried? && x.contract < |cfg.contracts| && attempt(x.contract, x.variant, x.model).Deployed? ==>
      SomeRunsExploits(attempt(x.contract, x.variant, x.model).emissions,
                       [FullTestName(cfg.contracts[x.contract].name, x.variant)])
  }

  lemma ExpectedFlagsAppend(cfg: CIConfig, attempt: (nat, nat, nat) -> Attempt, vs: seq<Visit>, x: Visit)
    ensures ExpectedFlags(cfg, attempt, vs + [x]) == ExpectedFlags(cfg, attempt, vs) + MonitorFlag(cfg, attempt, x)
  {
    assert (vs + [x])[..|vs|] == vs;
  }

  /** Every flag of the list is set. */
  predicate AllSet(bs: seq<bool>)
  {
    forall k | 0 <= k < |bs| :: bs[k]
  }

  /** Every deployed triple of the trace ran the exploits. */
  ghost predicate AllDeployedRun(cfg: CIConfig, attempt: (nat, nat, nat) -> Attempt, vs: seq<Visit>)
  {
    forall k | 0 <= k < |vs| :: DeployedRuns(cfg, attempt, vs[k])
  }

  lemma AllSetAppend(a: seq<bool>, b: seq<bool>)
    ensures AllSet(a + b) <==> AllSet(a) && AllSet(b)
  {
    if AllSet(a + b) {
      forall k | 0 <= k < |a| ensures a[k] {
        assert (a + b)[k] == a[k];
      }
      forall k | 0 <= k < |b| ensures b[k] {
        assert (a + b)[|a| + k] == b[k];
      }
    }
  }

  lemma AllDeployedRunSplit(cfg: CIConfig, attempt: (nat, nat, nat) -> Attempt, vs: seq<Visit>)
    requires vs != []
    ensures AllDeployedRun(cfg, attempt, vs) <==>
      AllDeployedRun(cfg, attempt, vs[..|vs| - 1]) && DeployedRuns(cfg, attempt, vs[|vs| - 1])
  {
    var init := vs[..|vs| - 1];
    if AllDeployedRun(cfg, attempt, vs) {
      forall k | 0 <= k < |init| ensures DeployedRuns(cfg, attempt, init[k]) {
        assert init[k] == vs[k];
      }
    }
    if AllDeployedRun(cfg, attempt, init) && DeployedRuns(cfg, attempt, vs[|vs| - 1]) {
      forall k | 0 <= k < |vs| ensures DeployedRuns(cfg, attempt, vs[k]) {
        if k < |init| { assert vs[k] == init[k]; }
      }
    }
  }

  /** All the flags a trace determines are set exactly when every deployed triple of it ran the exploits. */
  lemma {:induction false} AllFlagsSet(cfg: CIConfig, attempt: (nat, nat, nat) -> Attempt, vs: seq<Visit>)
    ensures AllSet(ExpectedFlags(cfg, attempt, vs)) <==> AllDeployedRun(cfg, attempt, vs)
    decreases |vs|
  {
    if vs != [] {
      var init := vs[..|vs| - 1];
      var f := MonitorFlag(cfg, attempt, vs[|vs| - 1]);
      AllFlagsSet(cfg, attempt, init);
      AllDeployedRunSplit(cfg, attempt, vs);
      AllSetAppend(ExpectedFlags(cfg, attempt, init), f);
      assert AllSet(f) <==> DeployedRuns(cfg, attempt, vs[|vs| - 1]) by {
        if f != [] { assert f[0] <==> AllSet(f); }
      }
    }
  }

  /** One triple keeps every monitor's flag in step with its triple's events. */
  lemma TripleTracks(cfg: CIConfig, attempt: (nat, nat, nat) -> Attempt, ci: nat, v: nat, testName: string, mi: nat, s: RunState)
    requires ci < |cfg.contracts| && mi < |cfg.contracts[ci].models|
    requires MonitorsTrack(cfg, attempt, s)
    ensures MonitorsTrack(cfg, attempt, TripleStep(cfg, attempt, ci, v, testName, mi, s))
  {
    var c := cfg.contracts[ci];
    var x := Tried(ci, v, mi);
    ExpectedFlagsAppend(cfg, attempt, s.visited, x);
    var r := TripleStep(cfg, attempt, ci, v, testName, mi, s);
    match attempt(ci, v, mi)
    case ParamsThrow(_) =>
    case PipelineThrow(_) =>
    case Deployed(es) =>
      var contractFile := FullContractFileName(c.name, v);
      var s2 := s.(visited := s.visited + [x],
                   monitors := s.monitors + [MonitorEntry(contractFile, c.models[mi].id, 0, false)]);
      var cl := Closure(|s.monitors|, contractFile, testName, [FullTestName(c.name, v)]);
      DriveResolves(s2, cl, es);
      var want := ResolvedFlags(s.monitors) + MonitorFlag(cfg, attempt, x);
      forall k | 0 <= k < |r.monitors| ensures ResolvedFlags(r.monitors)[k] == want[k] {
        if k < |s.monitors| {
          assert r.monitors[k] == s2.monitors[k] == s.monitors[k];
        }
      }
      assert ResolvedFlags(r.monitors) == want;
  }

  lemma {:induction false} ModelsTrack(cfg: CIConfig, attempt: (nat, nat, nat) -> Attempt, ci: nat, v: nat, testName: string, mi: nat, s: RunState)
    requires ci < |cfg.contracts| && MonitorsTrack(cfg, attempt, s)
    ensures MonitorsTrack(cfg, attempt, Models(cfg, attempt, ci, v, testName, mi, s))
    decreases |cfg.contracts[ci].models| - mi
  {
    if s.aborted.None? && mi < |cfg.contracts[ci].models| {
      TripleTracks(cfg, attempt, ci, v, testName, mi, s);
      ModelsTrack(cfg, attempt, ci, v, testName, mi + 1, TripleStep(cfg, attempt, ci, v, testName, mi, s));
    }
  }

  lemma {:induction false} VariantsTrack(cfg: CIConfig, attempt: (nat, nat, nat) -> Attempt, ci: nat, v: nat, s: RunState)
    requires ci < |cfg.contracts| && MonitorsTrack(cfg, attempt, s)
    ensures MonitorsTrack(cfg, attempt, Variants(cfg, attempt, ci, v, s))
    decreases cfg.contracts[ci].numOfVariants - v
  {
    var c := cfg.contracts[ci];
    if s.aborted.None? && v <= c.numOfVariants {
      if FindTest(cfg.tests, TestNameOf(c)).Some? {
        ModelsTrack(cfg, attempt, ci, v, c.tests[0], 0, s);
      } else {
        ExpectedFlagsAppend(cfg, attempt, s.visited, Skipped(ci, v));
      }
      VariantsTrack(cfg, attempt, ci, v + 1, VariantStep(cfg, attempt, ci, v, s));
    }
  }

  lemma {:induction false} ContractsTrack(cfg: CIConfig, env: nat -> EnvSetup, attempt: (nat, nat, nat) -> Attempt, ci: nat, s: RunState)
    requires MonitorsTrack(cfg, attempt, s)
    ensures MonitorsTrack(cfg, attempt, Contracts(cfg, env, attempt, ci, s))
    decreases |cfg.contracts| - ci
  {
    if s.aborted.None? && ci < |cfg.contracts| {
      if env(ci).EnvReady? {
        VariantsTrack(cfg, attempt, ci, 1, s);
      }
      ContractsTrack(cfg, env, attempt, ci + 1, ContractStep(cfg, env, attempt, ci, s));
    }
  }

  /** Every monitor has resolved exactly when every resolve flag is set. */
  lemma AllResolved(ms: seq<MonitorEntry>)
    ensures (forall m | m in ms :: m.resolved) <==> AllSet(ResolvedFlags(ms))
  {
    var fs := ResolvedFlags(ms);
    if AllSet(fs) {
      forall m | m in ms ensures m.resolved {
        var k :| 0 <= k < |ms| && ms[k] == m;
        assert fs[k];
      }
    }
  }

  /**
   * `setupAndRunTests` reports exactly when no error ended the loops early
   * and every deployed triple's monitor emitted a RUNNING whose test modules
   * all loaded; otherwise, with no error, its promise never settles.
   */
  lemma CampaignReportsExactly(cfg: CIConfig, env: nat -> EnvSetup, attempt: (nat, nat, nat) -> Attempt)
    ensures var r := RunCampaign(cfg, env, attempt);
      && (OutcomeOf(r) == Reported <==> r.aborted.None? && AllDeployedRun(cfg, attempt, CampaignVisits(cfg, 0)))
      && (OutcomeOf(r) == Waiting <==> r.aborted.None? && !AllDeployedRun(cfg, attempt, CampaignVisits(cfg, 0)))
  {
    var s := RunState(EmptyLedger, [], [], None);
    assert MonitorsTrack(cfg, attempt, s);
    ContractsTrack(cfg, env, attempt, 0, s);
    CampaignSpec(cfg, env, attempt);
    var r := RunCampaign(cfg, env, attempt);
    AllFlagsSet(cfg, attempt, r.visited);
    AllResolved(r.monitors);
  }

  // ------------------------------------------------------------------
  // The imperative orchestrator
  // ------------------------------------------------------------------

  /** The locals of `setupAndRunTests` that its closures update. */
  class Campaign {
    var successfulExploitsCount: nat
    var failedExploitsCount: nat
    var failedExploits: seq<FailureRecord>
    var allMonitors: seq<MonitorEntry>
    /** The triples and skipped variants the loops reached, in order. */
    ghost var visited: seq<Visit>

    ghost predicate Valid()
      reads this
    {
      failedExploitsCount == |failedExploits|
    }

    function Counts(): Ledger
      reads this
    {
      Ledger(successfulExploitsCount, failedExploitsCount, failedExploits)
    }

    ghost function State(): RunState
      reads this
    {
      RunState(Counts(), allMonitors, visited, None)
    }

    /** Lines 25-28. */
    constructor ()
      ensures Valid()
      ensures State() == RunState(EmptyLedger, [], [], None)
    {
      successfulExploitsCount := 0;
      failedExploitsCount := 0;
      failedExploits := [];
      allMonitors := [];
      visited := [];
    }

    /** `results.forEach(...)` (lines 131-141). */
    method RecordSettled(contract: string, exploit: string, results: seq<Settled>)
      requires Valid()
      modifies this
      ensures Valid()
      ensures Counts() == Aggregate(old(Counts()), contract, exploit, results)
      ensures allMonitors == old(allMonitors) && visited == old(visited)
    {
      var i := 0;
      while i < |results|
        invariant 0 <= i <= |results|
        invariant Valid()
        invariant Aggregate(Counts(), contract, exploit, results[i..]) == Aggregate(old(Counts()), contract, exploit, results)
        invariant allMonitors == old(allMonitors) && visited == old(visited)
      {
        var result := results[i];
        assert results[i..][1..] == results[i + 1..];
        if result.Fulfilled? && Truthy(result.value) {
          successfulExploitsCount := successfulExploitsCount + 1;
        } else {
          failedExploitsCount := failedExploitsCount + 1;
          failedExploits := failedExploits + [FailureRecord(contract, exploit, None)];
        }
        i := i + 1;
      }
    }

    /** The catch block (lines 158-165). */
    method RecordPipelineFailure(contract: string, exploit: string, error: string)
      requires Valid()
      modifies this
      ensures Valid()
      ensures Counts() == RecordThrow(old(Counts()), contract, exploit, error)
      ensures allMonitors == old(allMonitors) && visited == old(visited)
    {
      failedExploitsCount := failedExploitsCount + 1;
      failedExploits := failedExploits + [FailureRecord(contract, exploit, Some(error))];
    }

    /** `allMonitors.push(new Promise(...))` for a new monitor (lines 109-110). */
    method AddMonitor(contract: string, modelId: string) returns (k: nat)
      modifies this
      ensures k == |old(allMonitors)|
      ensures allMonitors == old(allMonitors) + [MonitorEntry(contract, modelId, 0, false)]
      ensures Counts() == old(Counts()) && visited == old(visited)
    {
      k := |allMonitors|;
      allMonitors := allMonitors + [MonitorEntry(contract, modelId, 0, false)];
    }

    /** The `statusChange` handler of the monitor of `cl` (lines 111-155). */
    method OnStatusChange(cl: Closure, newStatus: string, load: string -> ExploitModule)
      requires Valid() && cl.monitor < |allMonitors|
      modifies this
      ensures Valid()
      ensures State() == React(old(State()), cl, newStatus, load)
    {
      var m := allMonitors[cl.monitor];
      if newStatus == INITIALIZED {
        allMonitors := allMonitors[cl.monitor := m.(startCalls := m.startCalls + 1)];
      } else if newStatus == RUNNING {
        var results := RunExploits(cl.testFiles, load);
        if results.Some? {
          RecordSettled(cl.contractFile, cl.testName, results.value);
          allMonitors := allMonitors[cl.monitor := m.(resolved := true)];
        }
      }
    }
    /** A monitor's events, delivered in order to its handler. */
    method DeliverEvents(cl: Closure, emissions: seq<Emission>)
      requires Valid() && cl.monitor < |allMonitors|
      modifies this
      ensures Valid()
      ensures State() == Drive(old(State()), cl, emissions)
    {
      var j := 0;
      while j < |emissions|
        invariant 0 <= j <= |emissions|
        invariant Valid() && cl.monitor < |allMonitors|
        invariant Drive(State(), cl, emissions[j..]) == Drive(old(State()), cl, emissions)
      {
        assert emissions[j..][1..] == emissions[j + 1..];
        OnStatusChange(cl, emissions[j].status, emissions[j].load);
        j := j + 1;
      }
    }

    /**
     * One iteration of the model loop (lines 61-177); `error` is what
     * `retrieveConstructorParameters` threw, outside the try.
     */
    method TryTriple(cfg: CIConfig, attempt: (nat, nat, nat) -> Attempt, ci: nat, v: nat, testName: string, mi: nat)
      returns (error: Option<string>)
      requires Valid() && ci < |cfg.contracts| && mi < |cfg.contracts[ci].models|
      modifies this
      ensures Valid()
      ensures State().(aborted := error) == TripleStep(cfg, attempt, ci, v, testName, mi, old(State()))
    {
      var contract := cfg.contracts[ci];
      var fullContractFileName := FullContractFileName(contract.name, v);
      var fullTestName := FullTestName(contract.name, v);
      error := None;
      visited := visited + [Tried(ci, v, mi)];
      match attempt(ci, v, mi) {
        case ParamsThrow(e) =>
          error := Some(e);
        case PipelineThrow(e) =>
          RecordPipelineFailure(fullContractFileName, testName, e);
        case Deployed(emissions) =>
          var k := AddMonitor(fullContractFileName, contract.models[mi].id);
          DeliverEvents(Closure(k, fullContractFileName, testName, [fullTestName]), emissions);
      }
    }

    /**
     * One iteration of the variant loop (lines 42-186): the test lookup, the
     * skip, and the model loop.
     */
    method VisitVariant(cfg: CIConfig, attempt: (nat, nat, nat) -> Attempt, ci: nat, v: nat)
      returns (error: Option<string>)
      requires Valid() && ci < |cfg.contracts|
      modifies this
      ensures Valid()
      ensures State().(aborted := error) == VariantStep(cfg, attempt, ci, v, old(State()))
    {
      var contract := cfg.contracts[ci];
      var testName := TestNameOf(contract);
      var test := FindTest(cfg.tests, testName);
      error := None;
      if test.None? {
        visited := visited + [Skipped(ci, v)];
        assert State() == VariantStep(cfg, attempt, ci, v, old(State()));
        return;
      }
      assert VariantStep(cfg, attempt, ci, v, old(State())) == Models(cfg, attempt, ci, v, testName.value, 0, old(State()));
      var mi := 0;
      while mi < |contract.models|
        invariant 0 <= mi <= |contract.models|
        invariant Valid() && error.None?
        invariant Models(cfg, attempt, ci, v, testName.value, 0, old(State()))
               == Models(cfg, attempt, ci, v, testName.value, mi, State())
      {
        ghost var before := State();
        error := TryTriple(cfg, attempt, ci, v, testName.value, mi);
        if error.Some? {
          ghost var stopped := State().(aborted := error);
          assert Models(cfg, attempt, ci, v, testName.value, mi, before)
              == Models(cfg, attempt, ci, v, testName.value, mi + 1, stopped);
          assert Models(cfg, attempt, ci, v, testName.value, mi + 1, stopped) == stopped;
          return;
        }
        mi := mi + 1;
      }
      assert Models(cfg, attempt, ci, v, testName.value, mi, State()) == State();
    }
  }

  /**
   * `setupAndRunTests`: the nested loops over contracts, variants and
   * models, then the wait for every monitor. The campaign's counters, lists
   * and trace are those `RunCampaign` describes, and so is how it ends.
   */
  method SetupAndRunTests(cfg: CIConfig, env: nat -> EnvSetup, attempt: (nat, nat, nat) -> Attempt)
    returns (campaign: Campaign, outcome: Outcome)
    ensures campaign.Valid()
    ensures campaign.State().(aborted := RunCampaign(cfg, env, attempt).aborted) == RunCampaign(cfg, env, attempt)
    ensures outcome == OutcomeOf(RunCampaign(cfg, env, attempt))
  {
    campaign := new Campaign();
    ghost var final := RunCampaign(cfg, env, attempt);
    var ci := 0;
    while ci < |cfg.contracts|
      invariant 0 <= ci <= |cfg.contracts|
      invariant campaign.Valid()
      invariant Contracts(cfg, env, attempt, ci, campaign.State()) == final
    {
      var contract := cfg.contracts[ci];
      match env(ci) {
        case EnvThrow(e) =>
          outcome := Aborted(e);
          return;
        case EnvIncomplete =>
          outcome := Aborted(ENV_NOT_SET_UP);
          return;
        case EnvReady =>
      }
      var variantIndex: nat := 1;
      while variantIndex <= contract.numOfVariants
        invariant campaign.Valid()
        invariant Contracts(cfg, env, attempt, ci + 1, Variants(cfg, attempt, ci, variantIndex, campaign.State())) == final
        decreases contract.numOfVariants - variantIndex
      {
        var error := campaign.VisitVariant(cfg, attempt, ci, variantIndex);
        if error.Some? {
          outcome := Aborted(error.value);
          return;
        }
        variantIndex := variantIndex + 1;
      }
      ci := ci + 1;
    }
    outcome := if forall m | m in campaign.allMonitors :: m.resolved then Reported else Waiting;
  }
}
