/**
 * Start-up of a disposable `solana-test-validator` node
 * (CI/envs/solana-test-validator/index.js): the reader that accumulates the
 * node's standard output until the node announces readiness, the extraction
 * of the JSON-RPC address from that output, the pool of ten keypairs handed
 * back to the caller, the promise that settles once, and the choice of a
 * free port.
 *
 * Spawning the process, the Solana and Web3 clients, the airdrops and key
 * generation are outside the model: the process is the sequence of data
 * events it emits, and key generation is a function from the index of the
 * call to the keypair it produced.
 */
module SolanaTestValidator {
  import opened Wrappers
  import opened Text

  /** Substring of the node's output that announces readiness. */
  const READY_MARKER := "WebSocket PubSub URL:"
  /** Literal part of `/JSON RPC URL: http:\/\/(\d+\.\d+\.\d+\.\d+:\d+)/`. */
  const RPC_PREFIX := "JSON RPC URL: http://"
  /** Separators between the five digit runs of `\d+\.\d+\.\d+\.\d+:\d+`. */
  const ADDRESS_SEPARATORS: string := ['.', '.', '.'] + [':']
  /** Number of keypairs generated once the node is ready. */
  const POOL_SIZE := 10
  /** Prefix of the rejection reason built from stderr data. */
  const STDERR_PREFIX := "Error: "
  /** Message of the error `setupEnv` throws when no port is free. */
  const NO_FREE_PORTS := "No free ports found!"

  // ------------------------------------------------------------------
  // The RPC address: `output.match(...)`, capture group 1 or null
  // ------------------------------------------------------------------

  /** End of the maximal run of digits that starts at `i` (a greedy `\d*`). */
  function DigitRunEnd(s: string, i: nat): (j: nat)
    requires i <= |s|
    ensures i <= j <= |s|
    ensures forall k | i <= k < j :: IsDigit(s[k])
    ensures j < |s| ==> !IsDigit(s[j])
    decreases |s| - i
  {
    if i < |s| && IsDigit(s[i]) then DigitRunEnd(s, i + 1) else i
  }

  /**
   * Matches `\d+`, then each separator of `seps` followed by another `\d+`,
   * starting at `i`, and returns where the match ends. A greedy `\d+` never
   * has to give a digit back here: a separator is not a digit, so a shorter
   * run is never followed by one, and the last run is therefore maximal.
   */
  function MatchAddressFrom(s: string, i: nat, seps: string): (r: Option<nat>)
    requires i <= |s|
    ensures r.Some? ==> i < r.value <= |s| && (r.value < |s| ==> !IsDigit(s[r.value]))
    decreases |seps|
  {
    var j := DigitRunEnd(s, i);
    if j == i then None
    else if |seps| == 0 then Some(j)
    else if j < |s| && s[j] == seps[0] then MatchAddressFrom(s, j + 1, seps[1..])
    else None
  }

  /**
   * Where the capture group ends when `prefix` followed by the digit runs
   * joined by `seps` matches at `p`.
   */
  function PatternMatchAt(s: string, p: nat, prefix: string, seps: string): (r: Option<nat>)
    requires p <= |s|
    ensures r.Some? ==> p + |prefix| < r.value <= |s|
  {
    if p + |prefix| <= |s| && s[p..p + |prefix|] == prefix
    then MatchAddressFrom(s, p + |prefix|, seps)
    else None
  }

  /** The leftmost position at or after `from` where the pattern matches. */
  function FirstPatternMatch(s: string, from: nat, prefix: string, seps: string): (r: Option<nat>)
    ensures r.Some? ==> from <= r.value <= |s| && PatternMatchAt(s, r.value, prefix, seps).Some?
    ensures r.Some? ==> forall q | from <= q < r.value :: PatternMatchAt(s, q, prefix, seps).None?
    ensures r.None? ==> forall q | from <= q <= |s| :: PatternMatchAt(s, q, prefix, seps).None?
    decreases |s| + 1 - from
  {
    if from > |s| then None
    else if PatternMatchAt(s, from, prefix, seps).Some? then Some(from)
    else FirstPatternMatch(s, from + 1, prefix, seps)
  }

  /** The capture group of the leftmost match, or null. */
  function FirstCapture(s: string, prefix: string, seps: string): Option<string>
  {
    match FirstPatternMatch(s, 0, prefix, seps)
    case None => None
    case Some(p) => Some(s[p + |prefix|..PatternMatchAt(s, p, prefix, seps).value])
  }

  /** `rpcAddressMatch ? rpcAddressMatch[1] : null` (lines 24-25). */
  function ExtractRpcAddress(output: string): Option<string>
  {
    FirstCapture(output, RPC_PREFIX, ADDRESS_SEPARATORS)
  }

  /**
   * `a` is non-empty digit runs joined by the separators of `seps`, in order.
   * This is the shape of the capture group, stated without the scanner.
   */
  ghost predicate Separated(a: string, seps: string)
    decreases |seps|, 1
  {
    if |seps| == 0 then |a| > 0 && AllDigits(a)
    else exists j: nat :: SplitAt(a, seps, j)
  }

  /** `a` is a non-empty digit run, `seps[0]` at `j`, and the rest separated by `seps[1..]`. */
  ghost predicate SplitAt(a: string, seps: string, j: nat)
    requires |seps| > 0
    decreases |seps|, 0
  {
    0 < j < |a| && AllDigits(a[..j]) && a[j] == seps[0] && Separated(a[j + 1..], seps[1..])
  }

  /** digits.digits.digits.digits:digits */
  ghost predicate IsAddress(a: string) {
    Separated(a, ADDRESS_SEPARATORS)
  }

  /**
   * `s` shows `prefix` at `p`, then `a`, which is digit runs joined by `seps`
   * and is not followed by a further digit.
   */
  ghost predicate ShownAt(s: string, p: nat, a: string, prefix: string, seps: string) {
    var start := p + |prefix|;
    && start + |a| <= |s|
    && s[p..start] == prefix
    && s[start..start + |a|] == a
    && Separated(a, seps)
    && (start + |a| < |s| ==> !IsDigit(s[start + |a|]))
  }

  /** A run of digits from `i` to `k` that no digit follows is what `DigitRunEnd` finds. */
  lemma {:induction false} DigitRunEndAt(s: string, i: nat, k: nat)
    requires i <= k <= |s|
    requires forall m | i <= m < k :: IsDigit(s[m])
    requires k < |s| ==> !IsDigit(s[k])
    ensures DigitRunEnd(s, i) == k
    decreases k - i
  {
    if i < k {
      DigitRunEndAt(s, i + 1, k);
    }
  }

  /** What the scanner matches has the shape the pattern describes. */
  lemma {:induction false} MatchedIsSeparated(s: string, i: nat, seps: string)
    requires i <= |s| && MatchAddressFrom(s, i, seps).Some?
    ensures Separated(s[i..MatchAddressFrom(s, i, seps).value], seps)
    decreases |seps|
  {
    var e := MatchAddressFrom(s, i, seps).value;
    var j := DigitRunEnd(s, i);
    var a := s[i..e];
    if |seps| == 0 {
      assert AllDigits(a);
    } else {
      MatchedIsSeparated(s, j + 1, seps[1..]);
      var w := j - i;
      assert a[..w] == s[i..j];
      assert a[w] == s[j];
      assert a[w + 1..] == s[j + 1..e];
      assert SplitAt(a, seps, w);
    }
  }

  /** A digit run of `a` laid out in `s` at `i`, and not followed by a digit there, is what `DigitRunEnd` finds. */
  lemma DigitRunOf(s: string, i: nat, a: string, j: nat)
    requires i + |a| <= |s| && s[i..i + |a|] == a && j <= |a|
    requires AllDigits(a[..j])
    requires i + j < |s| ==> !IsDigit(s[i + j])
    ensures DigitRunEnd(s, i) == i + j
  {
    assert forall m | i <= m < i + j :: s[m] == a[..j][m - i];
    DigitRunEndAt(s, i, i + j);
  }

  /** Conversely, the scanner matches every text of that shape that no digit follows. */
  lemma {:induction false} SeparatedIsMatched(s: string, i: nat, a: string, seps: string)
    requires i + |a| <= |s| && s[i..i + |a|] == a
    requires Separated(a, seps)
    requires forall m | 0 <= m < |seps| :: !IsDigit(seps[m])
    requires i + |a| < |s| ==> !IsDigit(s[i + |a|])
    ensures MatchAddressFrom(s, i, seps) == Some(i + |a|)
    decreases |seps|
  {
    if |seps| == 0 {
      assert a[..|a|] == a;
      DigitRunOf(s, i, a, |a|);
    } else {
      var j: nat :| SplitAt(a, seps, j);
      assert s[i + j] == a[j];
      DigitRunOf(s, i, a, j);
      assert s[i + j + 1..i + |a|] == a[j + 1..];
      SeparatedIsMatched(s, i + j + 1, a[j + 1..], seps[1..]);
    }
  }

  lemma MatchIsShown(s: string, p: nat, prefix: string, seps: string)
    requires p <= |s| && PatternMatchAt(s, p, prefix, seps).Some?
    ensures ShownAt(s, p, s[p + |prefix|..PatternMatchAt(s, p, prefix, seps).value], prefix, seps)
  {
    MatchedIsSeparated(s, p + |prefix|, seps);
  }

  lemma ShownIsMatched(s: string, p: nat, a: string, prefix: string, seps: string)
    requires forall m | 0 <= m < |seps| :: !IsDigit(seps[m])
    requires ShownAt(s, p, a, prefix, seps)
    ensures PatternMatchAt(s, p, prefix, seps) == Some(p + |prefix| + |a|)
  {
    SeparatedIsMatched(s, p + |prefix|, a, seps);
  }

  /** Where the pattern does not match, nothing shows it. */
  lemma NotShownWhereUnmatched(s: string, q: nat, prefix: string, seps: string)
    requires forall m | 0 <= m < |seps| :: !IsDigit(seps[m])
    requires q <= |s| && PatternMatchAt(s, q, prefix, seps).None?
    ensures forall a: string :: !ShownAt(s, q, a, prefix, seps)
  {
    forall a: string ensures !ShownAt(s, q, a, prefix, seps) {
      if ShownAt(s, q, a, prefix, seps) {
        ShownIsMatched(s, q, a, prefix, seps);
      }
    }
  }

  /** `s` shows the pattern with `a` at `p`, and at no earlier position. */
  ghost predicate LeftmostShown(s: string, p: nat, a: string, prefix: string, seps: string) {
    && ShownAt(s, p, a, prefix, seps)
    && forall q: nat, b: string | q < p :: !ShownAt(s, q, b, prefix, seps)
  }

  /** The capture is that of the leftmost place showing the pattern; null when there is none. */
  lemma FirstCaptureIsLeftmost(s: string, prefix: string, seps: string)
    requires forall m | 0 <= m < |seps| :: !IsDigit(seps[m])
    ensures FirstCapture(s, prefix, seps).None? <==> forall q: nat, a: string :: !ShownAt(s, q, a, prefix, seps)
    ensures FirstCapture(s, prefix, seps).Some? ==>
      exists p: nat | p <= |s| :: LeftmostShown(s, p, FirstCapture(s, prefix, seps).value, prefix, seps)
  {
    match FirstPatternMatch(s, 0, prefix, seps)
    case None =>
      forall q: nat, a: string ensures !ShownAt(s, q, a, prefix, seps) {
        if q <= |s| {
          NotShownWhereUnmatched(s, q, prefix, seps);
        }
      }
    case Some(p) =>
      MatchIsShown(s, p, prefix, seps);
      forall q: nat, a: string | q < p ensures !ShownAt(s, q, a, prefix, seps) {
        NotShownWhereUnmatched(s, q, prefix, seps);
      }
      assert LeftmostShown(s, p, FirstCapture(s, prefix, seps).value, prefix, seps);
  }

  lemma SeparatorsAreNotDigits()
    ensures forall m | 0 <= m < |ADDRESS_SEPARATORS| :: !IsDigit(ADDRESS_SEPARATORS[m])
  {
  }

  /**
   * The extracted address is that of the leftmost place where the output
   * shows `JSON RPC URL: http://` followed by an address that no digit
   * follows, and it is null exactly when the output shows none.
   */
  lemma ExtractRpcAddressSpec(output: string)
    ensures ExtractRpcAddress(output).None? <==>
      forall q: nat, a: string :: !ShownAt(output, q, a, RPC_PREFIX, ADDRESS_SEPARATORS)
    ensures ExtractRpcAddress(output).Some? ==>
      exists p: nat | p <= |output| ::
        LeftmostShown(output, p, ExtractRpcAddress(output).value, RPC_PREFIX, ADDRESS_SEPARATORS)
  {
    SeparatorsAreNotDigits();
    FirstCaptureIsLeftmost(output, RPC_PREFIX, ADDRESS_SEPARATORS);
  }

  /** A digit run, a separator and a separated rest are separated by the longer list. */
  lemma SeparatedCons(d: string, sep: char, rest: string, seps: string)
    requires |d| > 0 && AllDigits(d) && Separated(rest, seps)
    ensures Separated(d + [sep] + rest, [sep] + seps)
  {
    var a := d + [sep] + rest;
    assert a[..|d|] == d && a[|d| + 1..] == rest;
    assert ([sep] + seps)[1..] == seps;
    assert SplitAt(a, [sep] + seps, |d|);
  }

  /** Any five non-empty digit runs joined as `d1.d2.d3.d4:d5` form an address. */
  lemma AddressFromRuns(d1: string, d2: string, d3: string, d4: string, d5: string)
    requires |d1| > 0 && |d2| > 0 && |d3| > 0 && |d4| > 0 && |d5| > 0
    requires AllDigits(d1) && AllDigits(d2) && AllDigits(d3) && AllDigits(d4) && AllDigits(d5)
    ensures IsAddress(d1 + ['.'] + (d2 + ['.'] + (d3 + ['.'] + (d4 + [':'] + d5))))
  {
    var s4 := [':'] + [];
    var s3 := ['.'] + s4;
    var s2 := ['.'] + s3;
    var a4 := d4 + [':'] + d5;
    var a3 := d3 + ['.'] + a4;
    var a2 := d2 + ['.'] + a3;
    assert Separated(d5, []);
    SeparatedCons(d4, ':', d5, []);
    SeparatedCons(d3, '.', a4, s4);
    SeparatedCons(d2, '.', a3, s3);
    SeparatedCons(d1, '.', a2, s2);
    assert ['.'] + s2 == ADDRESS_SEPARATORS;
  }

  /** Round trip: an output that opens with the RPC line yields that line's address. */
  lemma ExtractFromBanner(a: string, post: string)
    requires IsAddress(a)
    requires post == [] || !IsDigit(post[0])
    ensures ExtractRpcAddress(RPC_PREFIX + a + post) == Some(a)
  {
    var s := RPC_PREFIX + a + post;
    assert s[0..|RPC_PREFIX|] == RPC_PREFIX;
    assert s[|RPC_PREFIX|..|RPC_PREFIX| + |a|] == a;
    assert ShownAt(s, 0, a, RPC_PREFIX, ADDRESS_SEPARATORS);
    SeparatorsAreNotDigits();
    ShownIsMatched(s, 0, a, RPC_PREFIX, ADDRESS_SEPARATORS);
  }

  // ------------------------------------------------------------------
  // The keypair pool
  // ------------------------------------------------------------------

  type Bytes = seq<bv8>

  /** A generated Solana keypair; the keys are opaque byte strings here. */
  datatype Keypair = Keypair(publicKey: Bytes, secretKey: Bytes)

  /**
   * The `for (let i = 0; i < 10; i++)` loop: `keygen(i)` is the keypair the
   * i-th call of `Keypair.generate()` returns. Every account and private key
   * comes from the keypair at the same index.
   */
  method BuildPool(keygen: nat -> Keypair) returns (keypairs: seq<Keypair>, privateKeys: seq<Bytes>, accounts: seq<Bytes>)
    ensures |keypairs| == |privateKeys| == |accounts| == POOL_SIZE
    ensures forall i | 0 <= i < POOL_SIZE ::
      && keypairs[i] == keygen(i)
      && privateKeys[i] == keypairs[i].secretKey
      && accounts[i] == keypairs[i].publicKey
  {
    keypairs, privateKeys, accounts := [], [], [];
    var i := 0;
    while i < POOL_SIZE
      invariant 0 <= i <= POOL_SIZE
      invariant |keypairs| == |privateKeys| == |accounts| == i
      invariant forall k | 0 <= k < i ::
        && keypairs[k] == keygen(k)
        && privateKeys[k] == keypairs[k].secretKey
        && accounts[k] == keypairs[k].publicKey
    {
      keypairs := keypairs + [keygen(i)];
      privateKeys := privateKeys + [keypairs[i].secretKey];
      accounts := accounts + [keypairs[i].publicKey];
      i := i + 1;
    }
  }

  // ------------------------------------------------------------------
  // The reader: stdout accumulation, readiness, settle-once promise
  // ------------------------------------------------------------------

  /** The object the promise resolves with. */
  datatype EnvInfo = EnvInfo(accounts: seq<Bytes>, privateKeys: seq<Bytes>, rpcAddress: Option<string>, pid: int)

  /** How the promise of `extractSTVInfo` settled. */
  datatype Settlement = Resolved(info: EnvInfo) | Rejected(reason: string)

  /** A `data` event of the node's stdout or stderr, already decoded to text. */
  datatype StreamEvent = Stdout(chunk: string) | Stderr(chunk: string)

  /**
   * The reader's state: the accumulated `output`, whether the stdout `data`
   * listener is still attached, and the promise's settlement (None: pending).
   */
  datatype Reader = Reader(output: string, listening: bool, settled: Option<Settlement>)

  const Initial := Reader("", true, None)

  /** A promise settles once: later `resolve`/`reject` calls are ignored. */
  function SettleOnce(s: Option<Settlement>, v: Settlement): Option<Settlement>
  {
    if s.Some? then s else Some(v)
  }

  /** What the promise resolves with once `output` is ready. */
  function ReadyInfo(output: string, keygen: nat -> Keypair, pid: int): EnvInfo
  {
    EnvInfo(seq(POOL_SIZE, i requires 0 <= i => keygen(i).publicKey), seq(POOL_SIZE, i requires 0 <= i => keygen(i).secretKey), ExtractRpcAddress(output), pid)
  }

  /** The effect of one event on the reader. */
  function Step(r: Reader, e: StreamEvent, keygen: nat -> Keypair, pid: int): Reader
  {
    match e
    case Stdout(chunk) =>
      if !r.listening then r
      else if Contains(r.output + chunk, READY_MARKER) then
        Reader(r.output + chunk, false, SettleOnce(r.settled, Resolved(ReadyInfo(r.output + chunk, keygen, pid))))
      else r.(output := r.output + chunk)
    case Stderr(chunk) =>
      r.(settled := SettleOnce(r.settled, Rejected(STDERR_PREFIX + chunk)))
  }

  /** The reader after a sequence of events, in order. */
  function Feed(r: Reader, events: seq<StreamEvent>, keygen: nat -> Keypair, pid: int): Reader
  {
    if events == [] then r
    else Step(Feed(r, events[..|events| - 1], keygen, pid), events[|events| - 1], keygen, pid)
  }

  /** The stdout chunks among the events, in order. */
  function StdoutChunks(events: seq<StreamEvent>): seq<string>
  {
    if events == [] then []
    else
      var last := events[|events| - 1];
      StdoutChunks(events[..|events| - 1]) + (if last.Stdout? then [last.chunk] else [])
  }

  /** One `STVProcess` with its two listeners attached. */
  class StartupReader {
    var output: string
    var listening: bool
    var settled: Option<Settlement>
    const pid: int
    const keygen: nat -> Keypair

    function State(): Reader
      reads this
    {
      Reader(output, listening, settled)
    }

    constructor (pid: int, keygen: nat -> Keypair)
      ensures State() == Initial
      ensures this.pid == pid && this.keygen == keygen
    {
      this.pid := pid;
      this.keygen := keygen;
      output := "";
      listening := true;
      settled := None;
    }

    /** The stdout `data` listener (lines 18-49). */
    method OnStdout(data: string)
      modifies this
      ensures State() == Step(old(State()), Stdout(data), keygen, pid)
    {
      if listening {
        output := output + data;
        if Contains(output, READY_MARKER) {
          listening := false;
          var rpcAddress := ExtractRpcAddress(output);
          var keypairs, privateKeys, accounts := BuildPool(keygen);
          assert accounts == seq(POOL_SIZE, i requires 0 <= i => keygen(i).publicKey);
          assert privateKeys == seq(POOL_SIZE, i requires 0 <= i => keygen(i).secretKey);
          if settled.None? {
            settled := Some(Resolved(EnvInfo(accounts, privateKeys, rpcAddress, pid)));
          }
        }
      }
    }

    /** The stderr `data` listener (lines 51-53). */
    method OnStderr(data: string)
      modifies this
      ensures State() == Step(old(State()), Stderr(data), keygen, pid)
    {
      if settled.None? {
        settled := Some(Rejected(STDERR_PREFIX + data));
      }
    }
  }

  /**
   * `extractSTVInfo`: the node's output events are delivered to the two
   * listeners in order; the result is how the promise stands afterwards
   * (None: still pending).
   */
  method ExtractSTVInfo(pid: int, keygen: nat -> Keypair, events: seq<StreamEvent>) returns (settled: Option<Settlement>)
    ensures settled == Feed(Initial, events, keygen, pid).settled
  {
    var reader := new StartupReader(pid, keygen);
    var i := 0;
    while i < |events|
      invariant 0 <= i <= |events|
      invariant reader.pid == pid && reader.keygen == keygen
      invariant reader.State() == Feed(Initial, events[..i], keygen, pid)
    {
      assert events[..i + 1][..i] == events[..i];
      match events[i] {
        case Stdout(d) => reader.OnStdout(d);
        case Stderr(d) => reader.OnStderr(d);
      }
      i := i + 1;
    }
    assert events[..|events|] == events;
    settled := reader.settled;
  }

  // ------------------------------------------------------------------
  // Properties of the reader
  // ------------------------------------------------------------------

  /**
   * `output` is the concatenation of the first `k` stdout chunks, where `k`
   * is the first count after which the text holds the readiness marker (all
   * chunks if it never does); later chunks leave it unchanged. The listener
   * is detached exactly when the accumulated text holds the marker.
   */
  lemma {:induction false} OutputIsReadPrefix(events: seq<StreamEvent>, keygen: nat -> Keypair, pid: int) returns (k: nat)
    ensures var r := Feed(Initial, events, keygen, pid); var cs := StdoutChunks(events);
      && k <= |cs|
      && r.output == Concat(cs[..k])
      && (r.listening <==> !Contains(r.output, READY_MARKER))
      && (r.listening ==> k == |cs|)
      && (forall j | 0 <= j < k :: !Contains(Concat(cs[..j]), READY_MARKER))
  {
    if events == [] {
      k := 0;
      assert !OccursAt("", READY_MARKER, 0);
    } else {
      var init := events[..|events| - 1];
      var e := events[|events| - 1];
      var k0 := OutputIsReadPrefix(init, keygen, pid);
      var r0 := Feed(Initial, init, keygen, pid);
      var cs0 := StdoutChunks(init);
      var cs := StdoutChunks(events);
      match e
      case Stderr(_) =>
        k := k0;
        assert cs == cs0;
      case Stdout(chunk) =>
        assert cs == cs0 + [chunk];
        assert forall j | 0 <= j <= |cs0| :: cs[..j] == cs0[..j];
        if r0.listening {
          k := |cs|;
          assert cs[..k] == cs;
          assert cs[..k][..k - 1] == cs0;
        } else {
          k := k0;
        }
    }
  }

  /**
   * Readiness is looked for in the accumulated text: a marker that occurs in the
   * joined stdout, even split across chunks, detaches the listener.
   */
  lemma MarkerIsDetected(events: seq<StreamEvent>, keygen: nat -> Keypair, pid: int)
    requires Contains(Concat(StdoutChunks(events)), READY_MARKER)
    ensures !Feed(Initial, events, keygen, pid).listening
  {
    var cs := StdoutChunks(events);
    var k := OutputIsReadPrefix(events, keygen, pid);
    assert cs[..|cs|] == cs;
  }

  /** Once the promise has settled, no later event changes how it settled. */
  lemma {:induction false} SettledIsFinal(r: Reader, prefix: seq<StreamEvent>, rest: seq<StreamEvent>, keygen: nat -> Keypair, pid: int)
    requires Feed(r, prefix, keygen, pid).settled.Some?
    ensures Feed(r, prefix + rest, keygen, pid).settled == Feed(r, prefix, keygen, pid).settled
    decreases |rest|
  {
    if rest != [] {
      var all := prefix + rest;
      assert all[..|all| - 1] == prefix + rest[..|rest| - 1];
      SettledIsFinal(r, prefix, rest[..|rest| - 1], keygen, pid);
    } else {
      assert prefix + rest == prefix;
    }
  }

  /** Stderr data received while the promise is pending rejects it with `'Error: ' + data`. */
  lemma StderrBeforeReadinessRejects(events: seq<StreamEvent>, k: nat, keygen: nat -> Keypair, pid: int)
    requires k < |events| && events[k].Stderr?
    requires Feed(Initial, events[..k], keygen, pid).settled.None?
    ensures Feed(Initial, events, keygen, pid).settled == Some(Rejected(STDERR_PREFIX + events[k].chunk))
  {
    assert events[..k + 1][..k] == events[..k];
    SettledIsFinal(Initial, events[..k + 1], events[k + 1..], keygen, pid);
    assert events[..k + 1] + events[k + 1..] == events;
  }

  /**
   * A resolved promise carries exactly ten accounts and ten private keys, the
   * i-th of each taken from the i-th generated keypair, the address extracted
   * from the final output (null when the pattern does not match), and the pid.
   */
  lemma {:induction false} ResolvedCarriesPool(events: seq<StreamEvent>, keygen: nat -> Keypair, pid: int)
    ensures var r := Feed(Initial, events, keygen, pid);
      r.settled.Some? && r.settled.value.Resolved? ==>
        var info := r.settled.value.info;
        && !r.listening
        && Contains(r.output, READY_MARKER)
        && |info.accounts| == POOL_SIZE && |info.privateKeys| == POOL_SIZE
        && (forall i | 0 <= i < POOL_SIZE ::
              info.accounts[i] == keygen(i).publicKey && info.privateKeys[i] == keygen(i).secretKey)
        && info.rpcAddress == ExtractRpcAddress(r.output)
        && info.pid == pid
  {
    if events != [] {
      ResolvedCarriesPool(events[..|events| - 1], keygen, pid);
      var _ := OutputIsReadPrefix(events, keygen, pid);
      var _ := OutputIsReadPrefix(events[..|events| - 1], keygen, pid);
    }
  }

  /**
   * Without stderr data, the promise is pending while the listener is
   * attached and resolved once the marker is seen, whether or not the RPC
   * pattern matched.
   */
  lemma {:induction false} StdoutOnlyResolvesOnReadiness(events: seq<StreamEvent>, keygen: nat -> Keypair, pid: int)
    requires forall i | 0 <= i < |events| :: events[i].Stdout?
    ensures var r := Feed(Initial, events, keygen, pid);
      r.settled == if r.listening then None else Some(Resolved(ReadyInfo(r.output, keygen, pid)))
  {
    if events != [] {
      StdoutOnlyResolvesOnReadiness(events[..|events| - 1], keygen, pid);
    }
  }

  /**
   * A marker split across two chunks: the first chunk alone does not hold
   * it, so the reader keeps listening after it, and the promise resolves on
   * the second with the output of both.
   */
  lemma SplitMarkerIsDetected(first: string, second: string, keygen: nat -> Keypair, pid: int)
    requires !Contains(first, READY_MARKER) && Contains(first + second, READY_MARKER)
    ensures Feed(Initial, [Stdout(first)], keygen, pid) == Reader(first, true, None)
    ensures Feed(Initial, [Stdout(first), Stdout(second)], keygen, pid)
         == Reader(first + second, false, Some(Resolved(ReadyInfo(first + second, keygen, pid))))
  {
    var events := [Stdout(first), Stdout(second)];
    var one := [Stdout(first)];
    assert one[..0] == [];
    assert [] + first == first;
    assert Feed(Initial, one, keygen, pid) == Step(Initial, Stdout(first), keygen, pid);
    assert events[..1] == one;
  }

  // ------------------------------------------------------------------
  // setupEnv: the port
  // ------------------------------------------------------------------

  /** `Math.floor(random * n)` for `random` in [0, 1). */
  function RandomIndex(random: real, n: nat): (i: nat)
    requires 0.0 <= random < 1.0 && n > 0
    ensures i < n
  {
    var x := random * n as real;
    ScaledBelow(random, n as real);
    FloorBelow(x, n);
    x.Floor
  }

  /** The floor of an amount in [0, n) is an index below `n`. */
  lemma FloorBelow(x: real, n: nat)
    requires 0.0 <= x < n as real
    ensures 0 <= x.Floor < n
  {
    var f := x.Floor;
    assert f as real <= x < f as real + 1.0;
    assert f as real < n as real;
  }

  /** Scaling a positive amount by a fraction below one leaves it smaller. */
  lemma ScaledBelow(r: real, m: real)
    requires 0.0 <= r < 1.0 && m > 0.0
    ensures 0.0 <= r * m < m
  {
    var gap := 1.0 - r;
    assert gap > 0.0;
    assert gap * m > 0.0;
    assert m - r * m == gap * m;
  }

  /**
   * The port `setupEnv` hands to the node: an error when the free-port list
   * is empty, otherwise the element at a random index of the list.
   */
  function ChoosePort(freePorts: seq<int>, random: real): (r: Result<int, string>)
    requires 0.0 <= random < 1.0
    ensures r.Failure? <==> |freePorts| == 0
    ensures r.Failure? ==> r.error == NO_FREE_PORTS
    ensures r.Success? ==> r.value in freePorts
  {
    if |freePorts| == 0 then Failure(NO_FREE_PORTS)
    else Success(freePorts[RandomIndex(random, |freePorts|)])
  }

  /** Every free port is chosen for some value of `Math.random()`. */
  lemma EveryFreePortCanBeChosen(freePorts: seq<int>, i: nat)
    requires i < |freePorts|
    ensures ChoosePort(freePorts, i as real / |freePorts| as real) == Success(freePorts[i])
  {
    var n := |freePorts| as real;
    var random := i as real / n;
    assert random * n == i as real;
    assert (random * n).Floor == i;
    assert RandomIndex(random, |freePorts|) == i;
  }
}
