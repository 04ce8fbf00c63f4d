/**
 * The speech service's recorder thread: it reads the microphone in chunks of
 * at most one buffer, gathers the chunks into packages of about 100 ms of
 * audio, and feeds each non-empty package to the speech engine, stopping when
 * recording is switched off or the engine refuses a package.
 *
 * The microphone and the engine are parameters: `outcomes` is what the successive
 * `read` calls return, and `replies[k]` is the engine's answer to the k-th
 * package. The run flag and the thread's interrupt status are modelled as
 * "every supplied read has been made": the loops stop exactly when `outcomes` is
 * exhausted.
 */
module FramePackaging {
  import opened Wrappers

  const SAMPLE_RATE: nat := 16000
  const CHANNEL_NUM: nat := 1
  const BYTES_PER_SAMPLE: nat := 2
  /** Package length in milliseconds. */
  const DEFAULT_PACKAGE_DURATION: nat := 100
  /** The read buffer: 80 ms of audio, `(16000 * 0.08f * 2 * 1).toInt()` = 2560 bytes. */
  const BUFFER_SIZE: nat := 2560
  /** The bytes a package gathers before it is fed: 100 ms of audio (see `PackageSizeIsDuration`). */
  const PACKAGE_SIZE: nat := 3200

  /** The package budget is `SAMPLE_RATE * CHANNEL_NUM * BYTES_PER_SAMPLE * DEFAULT_PACKAGE_DURATION / 1000`. */
  lemma PackageSizeIsDuration()
    ensures PACKAGE_SIZE == SAMPLE_RATE * CHANNEL_NUM * BYTES_PER_SAMPLE * DEFAULT_PACKAGE_DURATION / 1000
    ensures BUFFER_SIZE < PACKAGE_SIZE
  {
  }

  /** One microphone `read`: the bytes it filled (possibly none), or a negative error code. */
  datatype ReadOutcome = Bytes(data: seq<bv8>) | ReadError(code: int)

  /** A read never fills more than the buffer, and errors are negative. */
  predicate WellFormedRead(r: ReadOutcome) {
    match r
    case Bytes(data) => |data| <= BUFFER_SIZE
    case ReadError(code) => code < 0
  }

  /** Why a package stopped growing. */
  datatype Cut = BudgetReached | AfterReadError | StopRequested

  datatype Package = Package(data: seq<bv8>, cut: Cut)

  /** Why the thread's loop ended: recording was switched off, or the engine refused a package. */
  datatype Exit = Stopped | FeedRejected(reply: Option<int>)

  /** The bytes a read contributes to the stream. */
  function ReadBytes(r: ReadOutcome): seq<bv8> {
    if r.Bytes? then r.data else []
  }

  /** Everything the microphone delivered over the first `n` reads, in order. */
  function Captured(outcomes: seq<ReadOutcome>, n: nat): seq<bv8>
    requires n <= |outcomes|
  {
    if n == 0 then [] else Captured(outcomes, n - 1) + ReadBytes(outcomes[n - 1])
  }

  /** The packages' bytes, in order. */
  function Flatten(packages: seq<Package>): seq<bv8> {
    if packages == [] then [] else Flatten(packages[..|packages| - 1]) + packages[|packages| - 1].data
  }

  /** `speechEngine?.feedAudio(...)` for the k-th package: no reply when there is no engine. */
  function FeedReply(hasEngine: bool, replies: seq<int>, k: nat): (r: Option<int>)
    requires k < |replies|
    ensures r == Some(0) <==> hasEngine && replies[k] == 0
  {
    if hasEngine then Some(replies[k]) else None
  }

  /**
   * A fed package is never empty, is cut as soon as it reaches the budget, and
   * so overshoots the budget by less than one buffer.
   */
  predicate PackageShape(p: Package) {
    && 0 < |p.data| < PACKAGE_SIZE + BUFFER_SIZE
    && (p.cut == BudgetReached <==> |p.data| >= PACKAGE_SIZE)
  }

  lemma FlattenStep(packages: seq<Package>, p: Package)
    ensures Flatten(packages + [p]) == Flatten(packages) + p.data
  {
    assert (packages + [p])[..|packages|] == packages;
  }

  /**
   * The package the inner loop gathers from read `i` on, having gathered `acc`
   * so far: its bytes, why it was cut, and the index of the first read not made.
   * Reading goes on while reads remain and the budget is not reached, and stops
   * right after a failed read.
   */
  function Gather(outcomes: seq<ReadOutcome>, i: nat, acc: seq<bv8>): (g: (seq<bv8>, Cut, nat))
    requires i <= |outcomes|
    ensures i <= g.2 <= |outcomes|
    ensures i < |outcomes| && |acc| < PACKAGE_SIZE ==> i < g.2
    decreases |outcomes| - i
  {
    if i < |outcomes| && |acc| < PACKAGE_SIZE then
      if outcomes[i].ReadError? then (acc, AfterReadError, i + 1)
      else Gather(outcomes, i + 1, acc + outcomes[i].data)
    else (acc, if |acc| >= PACKAGE_SIZE then BudgetReached else StopRequested, i)
  }

  /**
   * The packages the outer loop has fed once it has gone on from read `i`, with
   * `acc` fed before, when the engine accepts every one: each package as
   * `Gather` cuts it, the empty ones skipped.
   */
  function PackagesFrom(outcomes: seq<ReadOutcome>, i: nat, acc: seq<Package>): seq<Package>
    requires i <= |outcomes|
    decreases |outcomes| - i
  {
    if i == |outcomes| then acc
    else
      var g := Gather(outcomes, i, []);
      PackagesFrom(outcomes, g.2, if g.0 != [] then acc + [Package(g.0, g.1)] else acc)
  }

  /** The packages the recorder thread feeds over all reads when the engine accepts every one. */
  function Packages(outcomes: seq<ReadOutcome>): seq<Package> {
    PackagesFrom(outcomes, 0, [])
  }

  /** Going on only ever adds packages after those already fed. */
  lemma {:induction false} PackagesFromExtends(outcomes: seq<ReadOutcome>, i: nat, acc: seq<Package>)
    requires i <= |outcomes|
    ensures |acc| <= |PackagesFrom(outcomes, i, acc)| && PackagesFrom(outcomes, i, acc)[..|acc|] == acc
    decreases |outcomes| - i
  {
    if i < |outcomes| {
      var g := Gather(outcomes, i, []);
      var acc' := if g.0 != [] then acc + [Package(g.0, g.1)] else acc;
      PackagesFromExtends(outcomes, g.2, acc');
      assert acc'[..|acc|] == acc;
    }
  }

  /** A package in the making holds what reads `start` up to `i` captured; so does the finished package. */
  lemma {:induction false} GatherCaptures(outcomes: seq<ReadOutcome>, start: nat, i: nat, acc: seq<bv8>)
    requires start <= i <= |outcomes|
    requires Captured(outcomes, i) == Captured(outcomes, start) + acc
    ensures var g := Gather(outcomes, i, acc);
            Captured(outcomes, g.2) == Captured(outcomes, start) + g.0
    decreases |outcomes| - i
  {
    if i < |outcomes| && |acc| < PACKAGE_SIZE {
      if outcomes[i].ReadError? {
        assert Captured(outcomes, i + 1) == Captured(outcomes, i) + [];
      } else {
        assert Captured(outcomes, i + 1) == Captured(outcomes, start) + (acc + outcomes[i].data);
        GatherCaptures(outcomes, start, i + 1, acc + outcomes[i].data);
      }
    }
  }

  /** What holds of the size and the reads of a package in the making, `acc` gathered from reads `start` up to `i`. */
  predicate Gathering(outcomes: seq<ReadOutcome>, start: nat, i: nat, acc: seq<bv8>) {
    && start <= i <= |outcomes|
    && |acc| < PACKAGE_SIZE + BUFFER_SIZE
    && (i == start ==> acc == [])
    && (forall k :: start <= k < i ==> outcomes[k].Bytes?)
    && (i > start ==> |acc| - |ReadBytes(outcomes[i - 1])| < PACKAGE_SIZE)
  }

  /**
   * A finished package is cut by the budget exactly when it reached it, by a
   * read error exactly when the last read failed, and by a stop request only
   * when no reads remain; every read but the last returned bytes, and the
   * package was below its budget before the last read.
   */
  lemma {:induction false} GatherCuts(outcomes: seq<ReadOutcome>, start: nat, i: nat, acc: seq<bv8>)
    requires forall k :: 0 <= k < |outcomes| ==> WellFormedRead(outcomes[k])
    requires Gathering(outcomes, start, i, acc)
    ensures var g := Gather(outcomes, i, acc);
            && |g.0| < PACKAGE_SIZE + BUFFER_SIZE
            && (g.1 == BudgetReached <==> |g.0| >= PACKAGE_SIZE)
            && (g.2 > start ==> (g.1 == AfterReadError <==> outcomes[g.2 - 1].ReadError?))
            && (g.1 == StopRequested ==> g.2 == |outcomes|)
            && (forall k :: start <= k < g.2 - 1 ==> outcomes[k].Bytes?)
            && (g.2 > start ==> |g.0| - |ReadBytes(outcomes[g.2 - 1])| < PACKAGE_SIZE)
    decreases |outcomes| - i
  {
    var g := Gather(outcomes, i, acc);
    if i < |outcomes| && |acc| < PACKAGE_SIZE {
      if outcomes[i].ReadError? {
        assert g == (acc, AfterReadError, i + 1);
      } else {
        assert g == Gather(outcomes, i + 1, acc + outcomes[i].data);
        assert WellFormedRead(outcomes[i]);
        assert Gathering(outcomes, start, i + 1, acc + outcomes[i].data);
        GatherCuts(outcomes, start, i + 1, acc + outcomes[i].data);
      }
    } else {
      assert g == (acc, if |acc| >= PACKAGE_SIZE then BudgetReached else StopRequested, i);
      if i > start {
        assert outcomes[i - 1].Bytes?;
      }
    }
  }

  /**
   * The inner loop of `RecorderThread.run`: reads from `start` on until the
   * package reaches its budget, a read fails, or recording is switched off.
   * At least one read is made; every read but the last returned bytes, and
   * the package was below its budget before the last read.
   */
  method GatherPackage(outcomes: seq<ReadOutcome>, start: nat) returns (pkg: seq<bv8>, cut: Cut, consumed: nat)
    requires forall k :: 0 <= k < |outcomes| ==> WellFormedRead(outcomes[k])
    requires start < |outcomes|
    ensures (pkg, cut, consumed) == Gather(outcomes, start, [])
    ensures start < consumed <= |outcomes|
    ensures Captured(outcomes, consumed) == Captured(outcomes, start) + pkg
    ensures |pkg| < PACKAGE_SIZE + BUFFER_SIZE
    ensures cut == BudgetReached <==> |pkg| >= PACKAGE_SIZE
    ensures cut == AfterReadError <==> outcomes[consumed - 1].ReadError?
    ensures cut == StopRequested ==> consumed == |outcomes|
    ensures pkg != [] ==> PackageShape(Package(pkg, cut))
    ensures forall k :: start <= k < consumed - 1 ==> outcomes[k].Bytes?
    ensures |pkg| - |ReadBytes(outcomes[consumed - 1])| < PACKAGE_SIZE
  {
    pkg, cut, consumed := [], StopRequested, start;
    while consumed < |outcomes| && |pkg| < PACKAGE_SIZE
      invariant start <= consumed <= |outcomes|
      invariant cut == StopRequested
      invariant Gather(outcomes, start, []) == Gather(outcomes, consumed, pkg)
      decreases |outcomes| - consumed
    {
      var r := outcomes[consumed];
      consumed := consumed + 1;
      if r.ReadError? {
        cut := AfterReadError;
        break;
      }
      pkg := pkg + r.data;
    }
    if cut != AfterReadError && |pkg| >= PACKAGE_SIZE {
      cut := BudgetReached;
    }
    GatherCaptures(outcomes, start, start, []);
    GatherCuts(outcomes, start, start, []);
  }

  /**
   * A failed first read ends the package at once, empty, and the reads after it
   * go into the next package.
   */
  lemma ReadErrorCutsPackage()
    ensures Gather([ReadError(-1), Bytes([1]), Bytes([2])], 0, []) == ([], AfterReadError, 1)
    ensures Packages([ReadError(-1), Bytes([1]), Bytes([2])]) == [Package([1, 2], StopRequested)]
  {
    var outcomes := [ReadError(-1), Bytes([1]), Bytes([2])];
    assert Gather(outcomes, 1, []) == ([1, 2], StopRequested, 3) by {
      var one: seq<bv8> := [1];
      assert [] + one == one;
      assert Gather(outcomes, 1, []) == Gather(outcomes, 2, one);
      var both: seq<bv8> := [1, 2];
      assert one + [2] == both;
      assert Gather(outcomes, 2, one) == Gather(outcomes, 3, both);
    }
    assert PackagesFrom(outcomes, 1, []) == PackagesFrom(outcomes, 3, [Package([1, 2], StopRequested)]);
  }

  /** The engine accepted each of the first `n` packages (so, if there was one, an engine exists). */
  predicate AllAccepted(hasEngine: bool, replies: seq<int>, n: nat) {
    && n <= |replies|
    && (n > 0 ==> hasEngine)
    && forall k :: 0 <= k < n ==> replies[k] == 0
  }

  /** An accepted package extends the run of accepted ones. */
  lemma AcceptedStep(hasEngine: bool, replies: seq<int>, n: nat)
    requires AllAccepted(hasEngine, replies, n) && n < |replies|
    requires FeedReply(hasEngine, replies, n) == Some(0)
    ensures AllAccepted(hasEngine, replies, n + 1)
  {
  }

  /**
   * What holds after the packages `fed` were fed from the first `consumed`
   * reads: they hold exactly the captured bytes, each has the package shape,
   * only the last may have been cut by a stop request, and going on from there
   * gives the packages `Packages` cuts.
   */
  predicate Fed(outcomes: seq<ReadOutcome>, fed: seq<Package>, consumed: nat) {
    && |fed| <= consumed <= |outcomes|
    && Flatten(fed) == Captured(outcomes, consumed)
    && Shaped(fed, consumed, |outcomes|)
    && PackagesFrom(outcomes, consumed, fed) == Packages(outcomes)
  }

  /** The shape of the packages fed, after `consumed` of `n` reads. */
  predicate Shaped(fed: seq<Package>, consumed: nat, n: nat) {
    && (forall k :: 0 <= k < |fed| ==> PackageShape(fed[k]))
    && (forall k :: 0 <= k < |fed| - 1 ==> fed[k].cut != StopRequested)
    && (fed != [] && fed[|fed| - 1].cut == StopRequested ==> consumed == n)
  }

  /** Feeding one more well-shaped package, cut by a stop request only at the end of the reads, keeps `Shaped`. */
  lemma ShapedStep(fed: seq<Package>, p: Package, consumed: nat, next: nat, n: nat)
    requires Shaped(fed, consumed, n) && consumed < n
    requires PackageShape(p) && (p.cut == StopRequested ==> next == n)
    ensures Shaped(fed + [p], next, n)
  {
    var fed' := fed + [p];
    forall k | 0 <= k < |fed'| - 1
      ensures fed'[k].cut != StopRequested
    {
      assert fed'[k] == fed[k];
    }
  }

  /** Gathering one more package, and feeding it when it is not empty, keeps `Fed`. */
  lemma FedStep(outcomes: seq<ReadOutcome>, fed: seq<Package>, consumed: nat, pkg: seq<bv8>, cut: Cut, next: nat)
    requires forall k :: 0 <= k < |outcomes| ==> WellFormedRead(outcomes[k])
    requires Fed(outcomes, fed, consumed) && consumed < |outcomes|
    requires (pkg, cut, next) == Gather(outcomes, consumed, [])
    ensures pkg != [] ==> Fed(outcomes, fed + [Package(pkg, cut)], next)
    ensures pkg == [] ==> Fed(outcomes, fed, next)
  {
    var g := Gather(outcomes, consumed, []);
    GatherCaptures(outcomes, consumed, consumed, []);
    GatherCuts(outcomes, consumed, consumed, []);
    if g.0 != [] {
      var p := Package(g.0, g.1);
      FlattenStep(fed, p);
      ShapedStep(fed, p, consumed, g.2, |outcomes|);
      assert PackagesFrom(outcomes, g.2, fed + [p]) == Packages(outcomes);
    } else {
      assert PackagesFrom(outcomes, g.2, fed) == Packages(outcomes);
    }
  }

  /**
   * `RecorderThread.run`, from the first read on. Every captured byte is fed, in
   * order, unless the engine refuses a package, after which nothing more is
   * read; every package but the last was accepted and was cut by the budget or
   * by a read error, never by a stop request. The packages fed are those
   * `Packages` cuts, up to the first one refused.
   */
  method RecordAndFeed(outcomes: seq<ReadOutcome>, hasEngine: bool, replies: seq<int>)
    returns (fed: seq<Package>, consumed: nat, exit: Exit)
    requires forall k :: 0 <= k < |outcomes| ==> WellFormedRead(outcomes[k])
    requires |replies| >= |outcomes|
    ensures |fed| <= consumed <= |outcomes|
    ensures Flatten(fed) == Captured(outcomes, consumed)
    ensures forall k :: 0 <= k < |fed| ==> PackageShape(fed[k])
    ensures forall k :: 0 <= k < |fed| - 1 ==> fed[k].cut != StopRequested
    ensures exit.Stopped? ==> consumed == |outcomes| && AllAccepted(hasEngine, replies, |fed|)
    ensures exit.FeedRejected? ==>
              && fed != [] && AllAccepted(hasEngine, replies, |fed| - 1)
              && exit.reply == FeedReply(hasEngine, replies, |fed| - 1) && exit.reply != Some(0)
    ensures |fed| <= |Packages(outcomes)| && fed == Packages(outcomes)[..|fed|]
    ensures exit.Stopped? ==> fed == Packages(outcomes)
  {
    fed, consumed, exit := [], 0, Stopped;
    while consumed < |outcomes| && exit.Stopped?
      invariant Fed(outcomes, fed, consumed)
      invariant exit.Stopped? ==> AllAccepted(hasEngine, replies, |fed|)
      invariant exit.FeedRejected? ==>
                  && fed != [] && AllAccepted(hasEngine, replies, |fed| - 1)
                  && exit.reply == FeedReply(hasEngine, replies, |fed| - 1) && exit.reply != Some(0)
      decreases |outcomes| - consumed
    {
      var pkg, cut, next := GatherPackage(outcomes, consumed);
      FedStep(outcomes, fed, consumed, pkg, cut, next);
      consumed := next;
      if pkg != [] {
        var reply := FeedReply(hasEngine, replies, |fed|);
        fed := fed + [Package(pkg, cut)];
        if reply != Some(0) {
          exit := FeedRejected(reply);
        } else {
          AcceptedStep(hasEngine, replies, |fed| - 1);
        }
      }
    }
    PackagesFromExtends(outcomes, consumed, fed);
  }
}
