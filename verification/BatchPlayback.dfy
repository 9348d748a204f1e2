/**
 * Bounded playback of a completion timeline.
 *
 * The simulator keeps a FIFO buffer of unit durations, starts once fifteen seconds are buffered and
 * drains the buffer in real time between arrivals. The specification is the closed-form law of a
 * queue reflected at zero, and the meaning of that law is stated in continuous time.
 */
module BatchPlayback {
  import opened Basics
  import opened Wrappers
  import opened BatchContracts

  const STARTUP_LEAD_SECONDS: real := 15.0
  const MAXIMUM_BUFFER_SECONDS: real := 40.0
  const MAXIMUM_QUEUED_UNITS: nat := 2

  datatype PlaybackArrival = PlaybackArrival(
    completionNanoseconds: int,
    publishedSequence: int,
    sampleCount: int,
    sampleRateHz: int,
    stale: bool)

  datatype PlaybackSimulation = PlaybackSimulation(
    startupWallSeconds: real,
    startupPlayableSeconds: real,
    playedSeconds: real,
    minimumBufferSeconds: real,
    peakBufferSeconds: real,
    underrunCount: nat,
    bufferingSeconds: real,
    bufferingSecondsPerMinute: real,
    peakQueuedUnits: nat,
    peakActiveBatches: nat,
    stalePlayedUnits: nat)

  // ---------------------------------------------------------------- sequences of durations

  ghost predicate AllPositive(ds: seq<real>) {
    forall i :: 0 <= i < |ds| ==> ds[i] > 0.0
  }

  /** What is left of a list of units after `p` seconds were played; a unit fully played is gone. */
  ghost function After(ds: seq<real>, p: real): seq<real> {
    if ds == [] then []
    else if p < ds[0] then [ds[0] - p] + ds[1..]
    else After(ds[1..], p - ds[0])
  }

  lemma {:induction false} SumNonNegative(ds: seq<real>)
    requires AllPositive(ds)
    ensures Sum(ds) >= 0.0
    ensures ds != [] ==> Sum(ds) > 0.0
  {
    if ds != [] {
      SumNonNegative(ds[1..]);
    }
  }

  lemma {:induction false} AfterSum(ds: seq<real>, p: real)
    requires AllPositive(ds) && 0.0 <= p <= Sum(ds)
    ensures AllPositive(After(ds, p))
    ensures Sum(After(ds, p)) == Sum(ds) - p
    ensures p == Sum(ds) <==> After(ds, p) == []
  {
    SumNonNegative(ds);
    if ds != [] {
      if p < ds[0] {
        SumNonNegative(ds[1..]);
        assert ([ds[0] - p] + ds[1..])[1..] == ds[1..];
      } else {
        AfterSum(ds[1..], p - ds[0]);
      }
    }
  }

  lemma {:induction false} SumOfPrefix(ds: seq<real>, m: nat)
    requires m < |ds|
    ensures Sum(ds[..m + 1]) == ds[0] + Sum(ds[1..][..m])
  {
    assert ds[..m + 1][1..] == ds[1..][..m];
  }

  /** The tail after `p` seconds is a suffix of the units whose first unit is played up to `p`. */
  lemma {:induction false} AfterIsTail(ds: seq<real>, p: real)
    requires AllPositive(ds) && 0.0 <= p < Sum(ds)
    ensures 0 < |After(ds, p)| <= |ds|
    ensures var m := |ds| - |After(ds, p)|;
      && Sum(ds[..m]) <= p < Sum(ds[..m + 1])
      && After(ds, p) == [Sum(ds[..m + 1]) - p] + ds[m + 1..]
  {
    if p < ds[0] {
      assert ds[..1] == [ds[0]] && ds[..0] == [];
    } else {
      AfterIsTail(ds[1..], p - ds[0]);
      var m := |ds[1..]| - |After(ds[1..], p - ds[0])|;
      SumOfPrefix(ds, m);
      SumOfPrefix(ds, m + 1);
      assert ds[1..][m + 1..] == ds[m + 2..];
    }
  }

  lemma {:induction false} AfterAppend(ds: seq<real>, p: real, d: real)
    requires AllPositive(ds) && 0.0 <= p <= Sum(ds) && d > 0.0
    ensures After(ds + [d], p) == After(ds, p) + [d]
  {
    if ds != [] {
      assert (ds + [d])[1..] == ds[1..] + [d] && (ds + [d])[0] == ds[0];
      if p < ds[0] {
        Assoc([ds[0] - p], ds[1..], [d]);
      } else {
        AfterAppend(ds[1..], p - ds[0], d);
      }
    } else {
      assert [d - p] + [d][1..] == [] + [d];
    }
  }

  lemma {:induction false} AfterCompose(ds: seq<real>, p: real, q: real)
    requires 0.0 <= q
    ensures After(After(ds, p), q) == After(ds, p + q)
  {
    if ds != [] {
      if p < ds[0] {
        assert ([ds[0] - p] + ds[1..])[1..] == ds[1..];
      } else {
        AfterCompose(ds[1..], p - ds[0], q);
      }
    }
  }

  lemma {:induction false} AfterZero(ds: seq<real>)
    requires AllPositive(ds)
    ensures After(ds, 0.0) == ds
  {
    if ds != [] {
      assert [ds[0] - 0.0] + ds[1..] == ds;
    }
  }

  /** Playing from the head: a unit that ends is popped, one that does not is shortened. */
  lemma {:induction false} DrainHead(ds: seq<real>, seconds: real)
    requires AllPositive(ds) && ds != [] && seconds > 0.0
    ensures var consumed := Min(ds[0], seconds);
      var rest := if ds[0] - consumed == 0.0 then ds[1..] else ds[0 := ds[0] - consumed];
      && 0.0 < consumed <= Sum(ds)
      && rest == After(ds, consumed)
      && AllPositive(rest)
      && Sum(rest) == Sum(ds) - consumed
  {
    var consumed := Min(ds[0], seconds);
    SumNonNegative(ds[1..]);
    if ds[0] == consumed {
      AfterZero(ds[1..]);
    } else {
      assert ds[0 := ds[0] - consumed] == [ds[0] - consumed] + ds[1..];
    }
    AfterSum(ds, consumed);
  }

  // ---------------------------------------------------------------- the closed-form law

  function Duration(arrival: PlaybackArrival): real {
    MediaSeconds(arrival.sampleCount, arrival.sampleRateHz)
  }

  lemma {:induction false} DurationPositive(arrival: PlaybackArrival)
    requires arrival.sampleCount > 0 && arrival.sampleRateHz > 0
    ensures Duration(arrival) > 0.0
  {
    var count, rate := arrival.sampleCount as real, arrival.sampleRateHz as real;
    Quotient(count, rate);
  }

  function Previous(a: seq<PlaybackArrival>, j: nat): int
    requires j <= |a|
  {
    if j == 0 then 0 else a[j - 1].completionNanoseconds
  }

  predicate ValidArrival(a: seq<PlaybackArrival>, j: nat)
    requires j < |a|
  {
    && Previous(a, j) <= a[j].completionNanoseconds
    && a[j].publishedSequence == j
    && a[j].sampleCount > 0
    && a[j].sampleRateHz > 0
    && !a[j].stale
  }

  /** Every arrival before `i` passes the per-arrival validation. */
  ghost predicate ValidPrefix(a: seq<PlaybackArrival>, i: nat)
    requires i <= |a|
  {
    forall j: nat :: j < i ==> ValidArrival(a, j)
  }

  ghost function Durations(a: seq<PlaybackArrival>, i: nat): seq<real>
    requires i <= |a|
  {
    seq(i, j requires 0 <= j < i => Duration(a[j]))
  }

  /** The media carried by the first `i` arrivals. */
  ghost function Media(a: seq<PlaybackArrival>, i: nat): real
    requires i <= |a|
  {
    if i == 0 then 0.0 else Media(a, i - 1) + Duration(a[i - 1])
  }

  /** Wall-clock time of arrival `j`. */
  ghost function Wall(a: seq<PlaybackArrival>, j: nat): real
    requires j < |a|
  {
    Seconds(a[j].completionNanoseconds)
  }

  /** Playback starts with the first arrival, from `j` on, that reaches the lead, or with the last one. */
  ghost function StartFrom(a: seq<PlaybackArrival>, j: nat): (k: nat)
    requires j < |a|
    ensures j <= k < |a|
    decreases |a| - j
  {
    if Media(a, j + 1) >= STARTUP_LEAD_SECONDS || j == |a| - 1 then j else StartFrom(a, j + 1)
  }

  ghost function Start(a: seq<PlaybackArrival>): (k: nat)
    requires a != []
    ensures k < |a|
  {
    StartFrom(a, 0)
  }

  /** How late arrival `j` comes when playback has run without a pause since the start. */
  ghost function Lateness(a: seq<PlaybackArrival>, j: nat): real
    requires a != [] && j < |a|
  {
    Wall(a, j) - Wall(a, Start(a)) - Media(a, j)
  }

  /** Total buffering after the first `i` arrivals: the queue reflected at zero. */
  ghost function Stall(a: seq<PlaybackArrival>, i: nat): real
    requires a != [] && i <= |a|
  {
    if i <= Start(a) + 1 then 0.0 else Max(Stall(a, i - 1), Lateness(a, i - 1))
  }

  /** Seconds played when arrival `i - 1` is in the buffer. */
  ghost function Played(a: seq<PlaybackArrival>, i: nat): real
    requires a != [] && i <= |a|
  {
    if i <= Start(a) then 0.0 else Wall(a, i - 1) - Wall(a, Start(a)) - Stall(a, i)
  }

  ghost function Buffered(a: seq<PlaybackArrival>, i: nat): real
    requires a != [] && i <= |a|
  {
    Media(a, i) - Played(a, i)
  }

  /** The buffer content: what the played seconds leave of the concatenated units. */
  ghost function Queue(a: seq<PlaybackArrival>, i: nat): seq<real>
    requires a != [] && i <= |a|
  {
    After(Durations(a, i), Played(a, i))
  }

  /** Complete units waiting; once playback has started the head is being played. */
  ghost function Waiting(a: seq<PlaybackArrival>, i: nat): int
    requires a != [] && i <= |a|
  {
    if i <= Start(a) || |Queue(a, i)| == 0 then |Queue(a, i)| else |Queue(a, i)| - 1
  }

  /** Arrivals after startup that set a new record of lateness. */
  ghost function Underruns(a: seq<PlaybackArrival>, i: nat): nat
    requires a != [] && i <= |a|
  {
    if i <= Start(a) + 1 then 0
    else Underruns(a, i - 1) + if Lateness(a, i - 1) > Stall(a, i - 1) then 1 else 0
  }

  /** Why arrival `j` is refused, if it is. */
  ghost function Verdict(a: seq<PlaybackArrival>, j: nat): Option<FailureCode>
    requires j < |a|
  {
    if !ValidArrival(a, j) then Some(if a[j].stale then StaleIdentity else InvalidOutput)
    else if Waiting(a, j + 1) > MAXIMUM_QUEUED_UNITS || Buffered(a, j + 1) > MAXIMUM_BUFFER_SECONDS then
      Some(ResourceLimit)
    else None
  }

  /** The verdict on the first refused arrival from `j` on. */
  ghost function FirstVerdict(a: seq<PlaybackArrival>, j: nat): Option<FailureCode>
    requires j <= |a|
    decreases |a| - j
  {
    if j == |a| then None
    else if Verdict(a, j).Some? then Verdict(a, j)
    else FirstVerdict(a, j + 1)
  }

  ghost predicate Accepted(a: seq<PlaybackArrival>) {
    a != [] && FirstVerdict(a, 0).None?
  }

  // ---------------------------------------------------------------- lemmas about the law

  lemma {:induction false} AcceptedEverywhere(a: seq<PlaybackArrival>, i: nat)
    requires i <= |a| && FirstVerdict(a, i).None?
    ensures forall h: nat :: i <= h < |a| ==> Verdict(a, h).None? && ValidArrival(a, h)
    decreases |a| - i
  {
    if i < |a| {
      AcceptedEverywhere(a, i + 1);
    }
  }

  lemma {:induction false} StartCharacterised(a: seq<PlaybackArrival>, j: nat)
    requires j < |a|
    ensures forall h: nat :: j < h <= StartFrom(a, j) ==> Media(a, h) < STARTUP_LEAD_SECONDS
    ensures Media(a, StartFrom(a, j) + 1) >= STARTUP_LEAD_SECONDS || StartFrom(a, j) == |a| - 1
    decreases |a| - j
  {
    if !(Media(a, j + 1) >= STARTUP_LEAD_SECONDS || j == |a| - 1) {
      StartCharacterised(a, j + 1);
    }
  }

  lemma {:induction false} StartReached(a: seq<PlaybackArrival>, i: nat)
    requires a != [] && i < |a| && i <= Start(a)
    ensures i == Start(a) <==> Media(a, i + 1) >= STARTUP_LEAD_SECONDS || i == |a| - 1
  {
    StartCharacterised(a, 0);
    if i < Start(a) {
      assert Media(a, i + 1) < STARTUP_LEAD_SECONDS;
    }
  }

  lemma {:induction false} DurationsMedia(a: seq<PlaybackArrival>, i: nat)
    requires i <= |a| && ValidPrefix(a, i)
    ensures AllPositive(Durations(a, i)) && Sum(Durations(a, i)) == Media(a, i) >= 0.0
    ensures i > 0 ==>
      Media(a, i) > Media(a, i - 1) >= 0.0 && Durations(a, i) == Durations(a, i - 1) + [Duration(a[i - 1])]
  {
    if i > 0 {
      DurationsMedia(a, i - 1);
      assert ValidArrival(a, i - 1);
      DurationPositive(a[i - 1]);
      assert Durations(a, i) == Durations(a, i - 1) + [Duration(a[i - 1])];
      SumAppend(Durations(a, i - 1), [Duration(a[i - 1])]);
      assert Sum([Duration(a[i - 1])]) == Duration(a[i - 1]);
    }
  }

  lemma {:induction false} StallBounded(a: seq<PlaybackArrival>, i: nat)
    requires a != [] && i <= |a| && ValidPrefix(a, i)
    ensures 0.0 <= Stall(a, i)
    ensures i > Start(a) ==> Stall(a, i) <= Wall(a, i - 1) - Wall(a, Start(a))
  {
    if i > Start(a) + 1 {
      StallBounded(a, i - 1);
      assert ValidArrival(a, i - 1);
      assert ValidPrefix(a, i - 1);
      DurationsMedia(a, i - 1);
    }
  }

  /**
   * The state of the buffer at every loop head: the queue is the tail of the concatenated units after
   * the played seconds, nothing is lost or created, and wall time is played time plus buffering.
   */
  lemma {:induction false} BufferConservation(a: seq<PlaybackArrival>, i: nat)
    requires a != [] && i <= |a| && ValidPrefix(a, i)
    ensures 0.0 <= Played(a, i) <= Media(a, i)
    ensures i > 0 ==> Buffered(a, i) > 0.0
    ensures AllPositive(Queue(a, i)) && Sum(Queue(a, i)) == Buffered(a, i)
    ensures Queue(a, i) == [] <==> Buffered(a, i) == 0.0
    ensures i > Start(a) ==> Wall(a, i - 1) - Wall(a, Start(a)) == Played(a, i) + Stall(a, i)
  {
    DurationsMedia(a, i);
    StallBounded(a, i);
    if i > 0 {
      DurationsMedia(a, i - 1);
    }
    AfterSum(Durations(a, i), Played(a, i));
  }

  lemma {:induction false} DurationsPrefix(a: seq<PlaybackArrival>, i: nat, m: nat)
    requires m <= i <= |a| && ValidPrefix(a, i)
    ensures Sum(Durations(a, i)[..m]) == Media(a, m)
  {
    assert Durations(a, i)[..m] == Durations(a, m);
    DurationsMedia(a, m);
  }

  /** The queue is a suffix of the units, and only its head is partly played. */
  lemma {:induction false} QueueIsTail(a: seq<PlaybackArrival>, i: nat)
    requires a != [] && i <= |a| && ValidPrefix(a, i) && i > 0
    ensures 0 < |Queue(a, i)| <= i
    ensures var m := i - |Queue(a, i)|;
      && Media(a, m) <= Played(a, i) < Media(a, m + 1)
      && Queue(a, i) == [Media(a, m + 1) - Played(a, i)] + Durations(a, i)[m + 1..]
  {
    BufferConservation(a, i);
    DurationsMedia(a, i);
    AfterIsTail(Durations(a, i), Played(a, i));
    var m := i - |Queue(a, i)|;
    DurationsPrefix(a, i, m);
    DurationsPrefix(a, i, m + 1);
  }

  /** The seconds played between arrivals `i - 1` and `i`: the elapsed time, as far as the buffer reaches. */
  ghost function Taken(a: seq<PlaybackArrival>, i: nat): real
    requires a != [] && i < |a|
  {
    if i <= Start(a) then 0.0 else Min(Wall(a, i) - Wall(a, i - 1), Buffered(a, i))
  }

  /** One loop iteration plays what it can, stalls for the rest and appends the new unit. */
  lemma {:induction false} PlaybackStep(a: seq<PlaybackArrival>, i: nat)
    requires a != [] && i < |a| && ValidPrefix(a, i + 1)
    ensures 0.0 <= Taken(a, i) <= Buffered(a, i)
    ensures Played(a, i + 1) == Played(a, i) + Taken(a, i)
    ensures i > Start(a) ==>
      var elapsed := Wall(a, i) - Wall(a, i - 1);
      && 0.0 <= elapsed
      && Stall(a, i + 1) == Stall(a, i) + (elapsed - Taken(a, i))
      && (elapsed > Buffered(a, i) <==> Lateness(a, i) > Stall(a, i))
    ensures Queue(a, i + 1) == After(Queue(a, i), Taken(a, i)) + [Duration(a[i])]
  {
    assert ValidArrival(a, i);
    DurationsMedia(a, i);
    DurationsMedia(a, i + 1);
    BufferConservation(a, i);
    StallBounded(a, i);
    if i > Start(a) {
      assert Previous(a, i) <= a[i].completionNanoseconds;
    }
    AfterCompose(Durations(a, i), Played(a, i), Taken(a, i));
    AfterAppend(Durations(a, i), Played(a, i + 1), Duration(a[i]));
  }

  // ---------------------------------------------------------------- what the law means

  /** Reflection at zero is the running maximum of the lateness, cut off at zero. */
  lemma {:induction false} StallIsMaximum(a: seq<PlaybackArrival>, i: nat)
    requires a != [] && i <= |a|
    ensures Stall(a, i) >= 0.0
    ensures forall j: nat :: Start(a) < j < i ==> Lateness(a, j) <= Stall(a, i)
    ensures Stall(a, i) > 0.0 ==> exists j: nat :: Start(a) < j < i && Lateness(a, j) == Stall(a, i)
  {
    if i > Start(a) + 1 {
      StallIsMaximum(a, i - 1);
      if Stall(a, i) != Stall(a, i - 1) {
        assert Lateness(a, i - 1) == Stall(a, i);
      }
    }
  }

  /** The media of the first `i` arrivals that are there at wall time `t`. */
  ghost function ArrivedMedia(a: seq<PlaybackArrival>, i: nat, t: real): real
    requires i <= |a|
  {
    if i == 0 then 0.0
    else ArrivedMedia(a, i - 1, t) + if Wall(a, i - 1) <= t then Duration(a[i - 1]) else 0.0
  }

  /**
   * Playback that starts `delay` seconds after the startup arrival and then never pauses has, at every
   * instant before the last arrival, played no more than what has arrived.
   */
  ghost predicate Uninterrupted(a: seq<PlaybackArrival>, delay: real)
    requires a != []
  {
    var begin := Wall(a, Start(a)) + delay;
    forall t: real :: begin <= t < Wall(a, |a| - 1) ==> t - begin <= ArrivedMedia(a, |a|, t)
  }

  lemma {:induction false} WallMonotone(a: seq<PlaybackArrival>, i: nat, j: nat)
    requires i <= j < |a| && ValidPrefix(a, |a|)
    ensures Wall(a, i) <= Wall(a, j)
    decreases j
  {
    if i < j {
      WallMonotone(a, i, j - 1);
      assert ValidArrival(a, j);
    }
  }

  lemma {:induction false} ArrivedIsPrefix(a: seq<PlaybackArrival>, i: nat, n: nat, t: real)
    requires i <= n <= |a| && ValidPrefix(a, |a|)
    requires i < |a| ==> t < Wall(a, i)
    ensures ArrivedMedia(a, n, t) == ArrivedMedia(a, i, t) <= Media(a, i)
    ensures i > 0 && Wall(a, i - 1) <= t ==> ArrivedMedia(a, i, t) == Media(a, i)
    decreases n
  {
    if i < n {
      WallMonotone(a, i, n - 1);
      ArrivedIsPrefix(a, i, n - 1, t);
    } else {
      ArrivedWithin(a, i, t);
    }
  }

  lemma {:induction false} ArrivedWithin(a: seq<PlaybackArrival>, i: nat, t: real)
    requires i <= |a| && ValidPrefix(a, |a|)
    ensures ArrivedMedia(a, i, t) <= Media(a, i)
    ensures i > 0 && Wall(a, i - 1) <= t ==> ArrivedMedia(a, i, t) == Media(a, i)
  {
    if i > 0 {
      ArrivedWithin(a, i - 1, t);
      assert ValidArrival(a, i - 1);
      DurationPositive(a[i - 1]);
      if i > 1 {
        WallMonotone(a, i - 2, i - 1);
      }
    }
  }

  /** The first arrival strictly after wall time `t`. */
  lemma {:induction false} NextArrival(a: seq<PlaybackArrival>, i: nat, t: real) returns (j: nat)
    requires i < |a| && Wall(a, i) <= t < Wall(a, |a| - 1)
    ensures i < j < |a| && Wall(a, j - 1) <= t < Wall(a, j)
    decreases |a| - i
  {
    if t < Wall(a, i + 1) {
      j := i + 1;
    } else {
      j := NextArrival(a, i + 1, t);
    }
  }

  /**
   * Total buffering is exactly the least extra start delay with which playback never pauses: a delay
   * works in continuous time if and only if it is at least the reported buffering.
   */
  lemma {:induction false} BufferingIsLeastDelay(a: seq<PlaybackArrival>, delay: real)
    requires a != [] && ValidPrefix(a, |a|) && delay >= 0.0
    ensures Uninterrupted(a, delay) <==> delay >= Stall(a, |a|)
  {
    var k := Start(a);
    var begin := Wall(a, k) + delay;
    StallIsMaximum(a, |a|);
    if delay >= Stall(a, |a|) {
      forall t: real | begin <= t < Wall(a, |a| - 1)
        ensures t - begin <= ArrivedMedia(a, |a|, t)
      {
        var j := NextArrival(a, k, t);
        ArrivedIsPrefix(a, j, |a|, t);
        assert Lateness(a, j) <= delay;
      }
    } else {
      var j: nat :| k < j < |a| && Lateness(a, j) == Stall(a, |a|);
      var t := (Media(a, j) + begin + Wall(a, j)) / 2.0;
      DurationsMedia(a, j);
      WallMonotone(a, j, |a| - 1);
      ArrivedIsPrefix(a, j, |a|, t);
      assert t - begin > ArrivedMedia(a, |a|, t);
    }
  }

  /** Underruns are the strict lateness records, so they vanish exactly when buffering does. */
  lemma {:induction false} UnderrunsAndBuffering(a: seq<PlaybackArrival>, i: nat)
    requires a != [] && i <= |a|
    ensures Underruns(a, i) == 0 <==> Stall(a, i) == 0.0
  {
    if i > Start(a) + 1 {
      UnderrunsAndBuffering(a, i - 1);
      StallIsMaximum(a, i - 1);
    }
  }

  /** The distinct completion times after startup among the first `i` arrivals. */
  ghost function LaterCompletions(a: seq<PlaybackArrival>, i: nat): set<int>
    requires a != [] && i <= |a|
  {
    if i <= Start(a) + 1 then {} else LaterCompletions(a, i - 1) + {a[i - 1].completionNanoseconds}
  }

  lemma {:induction false} LaterCompletionsBounded(a: seq<PlaybackArrival>, i: nat, t: int)
    requires a != [] && i <= |a| && ValidPrefix(a, |a|)
    requires t in LaterCompletions(a, i)
    ensures i > 0 && t <= a[i - 1].completionNanoseconds
  {
    if i > Start(a) + 1 && t != a[i - 1].completionNanoseconds {
      LaterCompletionsBounded(a, i - 1, t);
      assert ValidArrival(a, i - 1);
    }
  }

  /** Arrivals that share a completion time cause at most one underrun between them. */
  lemma {:induction false} UnderrunsPerCompletion(a: seq<PlaybackArrival>, i: nat)
    requires a != [] && i <= |a| && ValidPrefix(a, |a|)
    ensures Underruns(a, i) <= |LaterCompletions(a, i)|
  {
    if i > Start(a) + 1 {
      UnderrunsPerCompletion(a, i - 1);
      var t := a[i - 1].completionNanoseconds;
      if Lateness(a, i - 1) > Stall(a, i - 1) {
        PlaybackStep(a, i - 1);
        BufferConservation(a, i - 1);
        assert Previous(a, i - 1) < t;
        if t in LaterCompletions(a, i - 1) {
          LaterCompletionsBounded(a, i - 1, t);
        }
      }
      OneMore(LaterCompletions(a, i - 1), t);
    }
  }

  lemma {:induction false} QueueBeforeStart(a: seq<PlaybackArrival>, i: nat)
    requires a != [] && i <= Start(a) && ValidPrefix(a, i)
    ensures Queue(a, i) == Durations(a, i) && Waiting(a, i) == i
  {
    DurationsMedia(a, i);
    if i > 0 {
      assert Durations(a, i)[0] > 0.0;
      assert [Durations(a, i)[0] - 0.0] + Durations(a, i)[1..] == Durations(a, i);
    }
  }

  // ---------------------------------------------------------------- which arrivals are accepted

  /** When arrival `i - 1` is in the buffer, playback has reached the beginning of unit `j`. */
  ghost predicate Begun(a: seq<PlaybackArrival>, i: nat, j: nat)
    requires a != [] && j < i <= |a|
  {
    Start(a) < i && Media(a, j) <= Played(a, i)
  }

  /** How many of the first `n` arrived units are not begun. */
  ghost function NotBegun(a: seq<PlaybackArrival>, i: nat, n: nat): nat
    requires a != [] && n <= i <= |a|
  {
    if n == 0 then 0 else NotBegun(a, i, n - 1) + if Begun(a, i, n - 1) then 0 else 1
  }

  lemma {:induction false} NotBegunBeforeStart(a: seq<PlaybackArrival>, i: nat, n: nat)
    requires a != [] && n <= i <= |a| && i <= Start(a)
    ensures NotBegun(a, i, n) == n
  {
    if n > 0 {
      NotBegunBeforeStart(a, i, n - 1);
    }
  }

  lemma {:induction false} MediaMonotone(a: seq<PlaybackArrival>, j: nat, i: nat)
    requires j <= i <= |a| && ValidPrefix(a, i)
    ensures Media(a, j) <= Media(a, i)
  {
    if j < i {
      MediaMonotone(a, j, i - 1);
      DurationsMedia(a, i);
    }
  }

  lemma {:induction false} NotBegunAfter(a: seq<PlaybackArrival>, i: nat, m: nat, n: nat)
    requires a != [] && n <= i <= |a| && ValidPrefix(a, i) && Start(a) < i && m < i
    requires Media(a, m) <= Played(a, i) < Media(a, m + 1)
    ensures NotBegun(a, i, n) == if n <= m + 1 then 0 else n - m - 1
  {
    if n > 0 {
      NotBegunAfter(a, i, m, n - 1);
      assert ValidPrefix(a, n) && ValidPrefix(a, m);
      if n - 1 <= m {
        MediaMonotone(a, n - 1, m);
      } else {
        MediaMonotone(a, m + 1, n - 1);
      }
    }
  }

  /**
   * The units counted against the queue limit are the arrived units that playback has not begun: all of
   * them before startup, and after it those behind the unit that is being played.
   */
  lemma {:induction false} WaitingCountsNotBegun(a: seq<PlaybackArrival>, i: nat)
    requires a != [] && i <= |a| && ValidPrefix(a, i)
    ensures Waiting(a, i) == NotBegun(a, i, i)
    ensures i <= Start(a) ==> Waiting(a, i) == i
    ensures i > Start(a) ==> exists m: nat :: BeingPlayed(a, i, m) && Waiting(a, i) == i - 1 - m
  {
    if i <= Start(a) {
      QueueBeforeStart(a, i);
      NotBegunBeforeStart(a, i, i);
    } else {
      QueueIsTail(a, i);
      var m := i - |Queue(a, i)|;
      NotBegunAfter(a, i, m, i);
      assert BeingPlayed(a, i, m);
    }
  }

  /** Unit `m` has begun and has not ended. */
  ghost predicate BeingPlayed(a: seq<PlaybackArrival>, i: nat, m: nat)
    requires a != [] && i <= |a|
  {
    m < i && Media(a, m) <= Played(a, i) < Media(a, m + 1)
  }

  /** The verdict on an arrival after valid ones, with all its limits. */
  lemma {:induction false} VerdictWrittenOut(a: seq<PlaybackArrival>, i: nat)
    requires i < |a| && ValidPrefix(a, i)
    ensures Verdict(a, i) ==
      if a[i].stale then Some(StaleIdentity)
      else if a[i].completionNanoseconds < (if i == 0 then 0 else a[i - 1].completionNanoseconds)
        || a[i].publishedSequence != i || a[i].sampleCount <= 0 || a[i].sampleRateHz <= 0 then Some(InvalidOutput)
      else if NotBegun(a, i + 1, i + 1) > 2 || Media(a, i + 1) - Played(a, i + 1) > 40.0 then Some(ResourceLimit)
      else None
  {
    if ValidArrival(a, i) {
      WaitingCountsNotBegun(a, i + 1);
    }
  }

  /** Playback starts when fifteen seconds have arrived, or at the last arrival, and not before. */
  lemma {:induction false} StartWrittenOut(a: seq<PlaybackArrival>)
    requires a != []
    ensures Media(a, Start(a) + 1) >= 15.0 || Start(a) == |a| - 1
    ensures forall h: nat :: 0 < h <= Start(a) ==> Media(a, h) < 15.0
  {
    StartCharacterised(a, 0);
  }

  // ---------------------------------------------------------------- the simulator

  /** `peak` is the largest buffer level seen over the first `i` arrivals. */
  ghost predicate PeakBuffer(a: seq<PlaybackArrival>, i: nat, peak: real)
    requires a != [] && i <= |a|
  {
    && (forall j: nat :: 0 < j <= i ==> Buffered(a, j) <= peak)
    && if i == 0 then peak == 0.0 else exists j: nat :: 0 < j <= i && Buffered(a, j) == peak
  }

  /** `peak` is the largest number of waiting units seen over the first `i` arrivals. */
  ghost predicate PeakWaiting(a: seq<PlaybackArrival>, i: nat, peak: nat)
    requires a != [] && i <= |a|
  {
    && (forall j: nat :: 0 < j <= i ==> Waiting(a, j) <= peak)
    && if i == 0 then peak == 0 else exists j: nat :: 0 < j <= i && Waiting(a, j) == peak
  }

  lemma {:induction false} PeaksStep(a: seq<PlaybackArrival>, i: nat, peakBuffer: real, peakWaiting: nat)
    requires a != [] && i < |a| && ValidPrefix(a, i + 1)
    requires PeakBuffer(a, i, peakBuffer) && PeakWaiting(a, i, peakWaiting)
    ensures 0 <= Waiting(a, i + 1)
    ensures PeakBuffer(a, i + 1, Max(peakBuffer, Buffered(a, i + 1)))
    ensures PeakWaiting(a, i + 1, if Waiting(a, i + 1) > peakWaiting then Waiting(a, i + 1) else peakWaiting)
  {
    BufferConservation(a, i + 1);
    if i > 0 {
      var j: nat :| 0 < j <= i && Buffered(a, j) == peakBuffer;
      var h: nat :| 0 < h <= i && Waiting(a, h) == peakWaiting;
      assert 0 < j <= i + 1 && 0 < h <= i + 1;
    }
    assert 0 < i + 1 <= i + 1;
  }

  /** Buffering seconds per minute of media. */
  function PerMinute(buffering: real, media: real): (rate: real)
    ensures media > 0.0 ==> rate * media == buffering * 60.0
    ensures media <= 0.0 ==> rate == 0.0
  {
    if media > 0.0 then Quotient(buffering * 60.0, media); buffering * 60.0 / media else 0.0
  }

  /** What an accepted timeline reports. */
  ghost predicate Summarises(a: seq<PlaybackArrival>, s: PlaybackSimulation) {
    && Figures(a, s)
    && PeakBuffer(a, |a|, s.peakBufferSeconds)
    && PeakWaiting(a, |a|, s.peakQueuedUnits)
  }

  /** All that is reported but the peaks. */
  ghost predicate Figures(a: seq<PlaybackArrival>, s: PlaybackSimulation) {
    && a != []
    && s.startupWallSeconds == Wall(a, Start(a))
    && s.startupPlayableSeconds == Media(a, Start(a) + 1)
    && s.playedSeconds == Media(a, |a|)
    && s.minimumBufferSeconds == 0.0
    && s.underrunCount == Underruns(a, |a|)
    && s.bufferingSeconds == Stall(a, |a|)
    && s.bufferingSecondsPerMinute == PerMinute(s.bufferingSeconds, Media(a, |a|))
    && s.peakActiveBatches == 1
    && s.stalePlayedUnits == 0
  }

  /** The accumulators of one simulation. */
  class PlaybackRun {
    var queued: seq<real>
    var buffered: real
    var totalMedia: real
    var played: real
    var minimumBuffer: Option<real>
    var peakBuffer: real
    var peakQueued: nat
    var buffering: real
    var underruns: nat
    var started: bool
    var startupWall: real
    var startupPlayable: real

    ghost predicate Valid()
      reads this
    {
      && AllPositive(queued)
      && buffered == Sum(queued) >= 0.0
      && (started ==> minimumBuffer.Some?)
      && (minimumBuffer.Some? ==> minimumBuffer.value >= 0.0)
    }

    /** The accumulators agree with the closed-form law after the first `i` arrivals. */
    ghost predicate Follows(a: seq<PlaybackArrival>, i: nat)
      requires a != [] && i <= |a|
      reads this
    {
      && Valid()
      && queued == Queue(a, i)
      && played == Played(a, i)
      && buffered == Buffered(a, i)
      && totalMedia == Media(a, i)
      && buffering == Stall(a, i)
      && underruns == Underruns(a, i)
      && (started <==> Start(a) < i)
      && (started ==> startupWall == Wall(a, Start(a)) && startupPlayable == Media(a, Start(a) + 1))
    }

    /** The loop invariant: the accumulators and the peaks over the first `i` arrivals. */
    ghost predicate Tracks(a: seq<PlaybackArrival>, i: nat)
      requires a != [] && i <= |a|
      reads this
    {
      ValidPrefix(a, i) && Follows(a, i) && PeakBuffer(a, i, peakBuffer) && PeakWaiting(a, i, peakQueued)
    }

    constructor (ghost a: seq<PlaybackArrival>)
      requires a != []
      ensures Tracks(a, 0)
    {
      queued, buffered, totalMedia, played := [], 0.0, 0.0, 0.0;
      minimumBuffer, peakBuffer, peakQueued, buffering, underruns := None, 0.0, 0, 0.0, 0;
      started, startupWall, startupPlayable := false, 0.0, 0.0;
    }

    /** Plays up to `seconds`, popping units that end and shortening the one that does not. */
    method Consume(seconds: real)
      requires Valid()
      modifies this`queued, this`buffered, this`played
      ensures Valid()
      ensures var taken := Max(0.0, Min(seconds, old(buffered)));
        && queued == After(old(queued), taken)
        && buffered == old(buffered) - taken
        && played == old(played) + taken
    {
      var remaining := seconds;
      ghost var spent := 0.0;
      AfterZero(queued);
      SumNonNegative(queued);
      while remaining > 0.0 && queued != []
        invariant AllPositive(queued) && buffered == Sum(queued) >= 0.0
        invariant remaining == seconds - spent && 0.0 <= spent
        invariant spent == 0.0 || spent <= seconds
        invariant queued == After(old(queued), spent)
        invariant buffered == old(buffered) - spent && played == old(played) + spent
        decreases |queued|, if remaining > 0.0 then 1 else 0
      {
        ghost var consumed := Min(queued[0], remaining);
        remaining := PlayHead(remaining);
        AfterCompose(old(queued), spent, consumed);
        spent := spent + consumed;
      }
    }

    /** Plays the head of the queue, at most for the remaining seconds. */
    method PlayHead(seconds: real) returns (remaining: real)
      requires AllPositive(queued) && buffered == Sum(queued) && queued != [] && seconds > 0.0
      modifies this`queued, this`buffered, this`played
      ensures AllPositive(queued) && buffered == Sum(queued) >= 0.0
      ensures |queued| < old(|queued|) || (|queued| == old(|queued|) && remaining == 0.0)
      ensures var consumed := Min(old(queued[0]), seconds);
        && 0.0 < consumed
        && remaining == seconds - consumed
        && queued == After(old(queued), consumed)
        && buffered == old(buffered) - consumed && played == old(played) + consumed
    {
      DrainHead(queued, seconds);
      var head := queued[0];
      var consumed := Min(head, seconds);
      head := head - consumed;
      remaining := seconds - consumed;
      buffered := buffered - consumed;
      played := played + consumed;
      if head == 0.0 {
        queued := queued[1..];
      } else {
        queued := queued[0 := head];
      }
      SumNonNegative(queued);
    }

    /** Wall time passes after startup: what the buffer cannot cover is buffering and one underrun. */
    method Elapse(elapsed: real)
      requires Valid() && elapsed >= 0.0
      modifies this`queued, this`buffered, this`played, this`buffering, this`underruns, this`minimumBuffer
      ensures Valid()
      ensures var taken := Min(elapsed, old(buffered));
        && queued == After(old(queued), taken)
        && buffered == old(buffered) - taken
        && played == old(played) + taken
        && buffering == old(buffering) + (elapsed - taken)
        && underruns == old(underruns) + if elapsed > old(buffered) then 1 else 0
    {
      var available := buffered;
      Consume(Min(elapsed, available));
      if elapsed > available {
        buffering := buffering + (elapsed - available);
        underruns := underruns + 1;
      }
      minimumBuffer := if minimumBuffer.None? then Some(buffered) else Some(Min(minimumBuffer.value, buffered));
    }

    /** A unit of `duration` arrives; the first one to reach the lead, or the last one, starts playback. */
    method Append(duration: real, wall: real, last: bool)
      requires Valid() && duration > 0.0
      modifies this`queued, this`buffered, this`totalMedia, this`started, this`startupWall, this`startupPlayable,
        this`minimumBuffer
      ensures Valid()
      ensures queued == old(queued) + [duration]
      ensures buffered == old(buffered) + duration && totalMedia == old(totalMedia) + duration
      ensures started == (old(started) || buffered >= STARTUP_LEAD_SECONDS || last)
      ensures old(started) ==> startupWall == old(startupWall) && startupPlayable == old(startupPlayable)
      ensures started && !old(started) ==> startupWall == wall && startupPlayable == buffered
    {
      SumAppend(queued, [duration]);
      queued := queued + [duration];
      buffered := buffered + duration;
      totalMedia := totalMedia + duration;
      if !started && (buffered >= STARTUP_LEAD_SECONDS || last) {
        started := true;
        startupWall := wall;
        startupPlayable := buffered;
        minimumBuffer := Some(buffered);
      }
    }

    /** Playback up to one valid arrival, `elapsed` seconds after the previous one, and its unit. */
    method Receive(a: seq<PlaybackArrival>, i: nat, elapsed: real)
      requires a != [] && i < |a| && ValidPrefix(a, i + 1)
      requires Follows(a, i)
      requires i > 0 ==> elapsed == Wall(a, i) - Wall(a, i - 1)
      modifies this`queued, this`buffered, this`totalMedia, this`played, this`buffering, this`underruns,
        this`started, this`startupWall, this`startupPlayable, this`minimumBuffer
      ensures Follows(a, i + 1)
    {
      assert ValidArrival(a, i);
      PlaybackStep(a, i);
      AfterZero(queued);
      if i <= Start(a) {
        StartReached(a, i);
      }
      if started {
        Elapse(elapsed);
      }
      assert queued == After(Queue(a, i), Taken(a, i)) && buffered == Buffered(a, i) - Taken(a, i);
      DurationPositive(a[i]);
      Append(Duration(a[i]), Seconds(a[i].completionNanoseconds), i == |a| - 1);
    }

    /** The queue and buffer limits decide whether the arrival is accepted; the peaks follow. */
    method Accept(ghost a: seq<PlaybackArrival>, ghost i: nat) returns (accepted: bool)
      requires a != [] && i < |a| && ValidPrefix(a, i + 1) && ValidArrival(a, i)
      requires Follows(a, i + 1) && PeakBuffer(a, i, peakBuffer) && PeakWaiting(a, i, peakQueued)
      modifies this`peakBuffer, this`peakQueued
      ensures Verdict(a, i) == if accepted then None else Some(ResourceLimit)
      ensures accepted ==> PeakBuffer(a, i + 1, peakBuffer) && PeakWaiting(a, i + 1, peakQueued)
    {
      PeaksStep(a, i, peakBuffer, peakQueued);
      var queuedComplete: nat := if started then (if |queued| == 0 then 0 else |queued| - 1) else |queued|;
      assert queuedComplete == Waiting(a, i + 1);
      accepted := !(queuedComplete > MAXIMUM_QUEUED_UNITS || buffered > MAXIMUM_BUFFER_SECONDS);
      if accepted {
        peakQueued := if queuedComplete > peakQueued then queuedComplete else peakQueued;
        peakBuffer := Max(peakBuffer, buffered);
      }
    }

    /** One loop iteration: validation, playback up to the arrival, and the limits. */
    method Advance(a: seq<PlaybackArrival>, i: nat, previousCompletion: int) returns (error: Option<FailureCode>)
      requires a != [] && i < |a| && Tracks(a, i) && previousCompletion == Previous(a, i)
      modifies this
      ensures error == Verdict(a, i)
      ensures error == None ==> Tracks(a, i + 1)
    {
      var arrival := a[i];
      if arrival.completionNanoseconds < previousCompletion
         || arrival.publishedSequence != i
         || arrival.sampleCount <= 0
         || arrival.sampleRateHz <= 0
         || arrival.stale
      {
        return Some(if arrival.stale then StaleIdentity else InvalidOutput);
      }
      assert ValidArrival(a, i);
      Receive(a, i, Seconds(arrival.completionNanoseconds - previousCompletion));
      var accepted := Accept(a, i);
      error := if accepted then None else Some(ResourceLimit);
    }

    /** Replays the arrivals in order up to the first one that is refused. */
    method Replay(a: seq<PlaybackArrival>) returns (error: Option<FailureCode>)
      requires a != [] && Tracks(a, 0)
      modifies this
      ensures error == FirstVerdict(a, 0)
      ensures error == None ==> Tracks(a, |a|)
    {
      var previousCompletion := 0;
      for index := 0 to |a|
        invariant Tracks(a, index)
        invariant FirstVerdict(a, 0) == FirstVerdict(a, index)
        invariant previousCompletion == Previous(a, index)
      {
        error := Advance(a, index, previousCompletion);
        if error.Some? {
          return;
        }
        previousCompletion := a[index].completionNanoseconds;
      }
      error := None;
    }

    /** The final drain plays everything that is left. */
    method Finish(ghost a: seq<PlaybackArrival>) returns (s: PlaybackSimulation)
      requires a != [] && Tracks(a, |a|)
      modifies this
      ensures queued == [] && buffered == 0.0 && played == Media(a, |a|)
      ensures Summarises(a, s)
    {
      DurationsMedia(a, |a|);
      Consume(buffered);
      SumNonNegative(queued);
      var minimum := if minimumBuffer.None? then 0.0 else Min(minimumBuffer.value, buffered);
      s := PlaybackSimulation(
        startupWall, startupPlayable, played, minimum, peakBuffer, underruns,
        buffering, PerMinute(buffering, totalMedia), peakQueued, 1, 0);
    }
  }

  /** The reported queue peak is the largest number of units not begun, over all arrivals. */
  lemma {:induction false} PeakCountsNotBegun(a: seq<PlaybackArrival>, peak: nat)
    requires a != [] && ValidPrefix(a, |a|) && PeakWaiting(a, |a|, peak)
    ensures LargestNotBegun(a, peak)
  {
    forall i: nat | 0 < i <= |a|
      ensures Waiting(a, i) == NotBegun(a, i, i)
    {
      assert ValidPrefix(a, i);
      WaitingCountsNotBegun(a, i);
    }
    var i: nat :| 0 < i <= |a| && Waiting(a, i) == peak;
    assert NotBegun(a, i, i) == peak;
  }

  /** The reported buffer peak is the largest amount of media that has arrived and is not played. */
  lemma {:induction false} PeakMeasuresBuffer(a: seq<PlaybackArrival>, peak: real)
    requires a != [] && PeakBuffer(a, |a|, peak)
    ensures LargestBuffer(a, peak)
  {
    forall i: nat | 0 < i <= |a|
      ensures Media(a, i) - Played(a, i) <= peak
    {
      assert Buffered(a, i) <= peak;
    }
    var i: nat :| 0 < i <= |a| && Buffered(a, i) == peak;
    assert Media(a, i) - Played(a, i) == peak;
  }

  /** The bounds every accepted timeline keeps, on all inputs the simulator accepts. */
  lemma {:induction false} AcceptedTimelineBounds(a: seq<PlaybackArrival>)
    requires Accepted(a)
    ensures ValidPrefix(a, |a|) && Start(a) <= 2
    ensures forall i: nat :: 0 < i <= |a| ==> Waiting(a, i) == NotBegun(a, i, i) <= 2
    ensures forall i: nat :: 0 < i <= |a| ==> 0.0 < Media(a, i) - Played(a, i) <= 40.0
  {
    AcceptedEverywhere(a, 0);
    assert |a| > 2 ==> Verdict(a, 2).None?;
    if Start(a) > 2 {
      QueueBeforeStart(a, 3);
    }
    forall i: nat | 0 < i <= |a|
      ensures Waiting(a, i) == NotBegun(a, i, i) <= 2
      ensures 0.0 < Media(a, i) - Played(a, i) <= 40.0
    {
      WaitingCountsNotBegun(a, i);
      assert Verdict(a, i - 1).None?;
      BufferConservation(a, i);
    }
  }

  /** What the reported numbers promise to a listener. */
  ghost predicate Promises(a: seq<PlaybackArrival>, s: PlaybackSimulation) {
    && a != [] && Start(a) <= 2
    && s.peakQueuedUnits <= 2
    && 0.0 < s.peakBufferSeconds <= 40.0
    && (s.underrunCount == 0 <==> s.bufferingSeconds == 0.0)
    && s.underrunCount <= |LaterCompletions(a, |a|)|
    && forall delay: real :: delay >= 0.0 ==> (Uninterrupted(a, delay) <==> delay >= s.bufferingSeconds)
  }

  /** `peak` is the largest number of arrived units not begun, over all arrivals. */
  ghost predicate LargestNotBegun(a: seq<PlaybackArrival>, peak: nat)
    requires a != []
  {
    && (forall i: nat :: 0 < i <= |a| ==> NotBegun(a, i, i) <= peak)
    && exists i: nat :: 0 < i <= |a| && NotBegun(a, i, i) == peak
  }

  /** `peak` is the largest difference of media arrived and media played, over all arrivals. */
  ghost predicate LargestBuffer(a: seq<PlaybackArrival>, peak: real)
    requires a != []
  {
    && (forall i: nat :: 0 < i <= |a| ==> Media(a, i) - Played(a, i) <= peak)
    && exists i: nat :: 0 < i <= |a| && Media(a, i) - Played(a, i) == peak
  }

  /** The reported peaks. */
  lemma {:induction false} ReportedPeaks(a: seq<PlaybackArrival>)
    requires a != [] && ValidPrefix(a, |a|)
    ensures forall s :: Summarises(a, s) ==>
      LargestNotBegun(a, s.peakQueuedUnits) && LargestBuffer(a, s.peakBufferSeconds)
  {
    forall s | Summarises(a, s)
      ensures LargestNotBegun(a, s.peakQueuedUnits) && LargestBuffer(a, s.peakBufferSeconds)
    {
      PeakCountsNotBegun(a, s.peakQueuedUnits);
      PeakMeasuresBuffer(a, s.peakBufferSeconds);
    }
  }

  /** What the other reported numbers are. */
  lemma {:induction false} ReportWrittenOut(a: seq<PlaybackArrival>, s: PlaybackSimulation)
    requires ValidPrefix(a, |a|) && Figures(a, s)
    ensures s.startupWallSeconds * 1_000_000_000.0 == a[Start(a)].completionNanoseconds as real
    ensures s.startupPlayableSeconds == Media(a, Start(a) + 1) && s.playedSeconds == Media(a, |a|)
    ensures s.minimumBufferSeconds == 0.0 && s.peakActiveBatches == 1 && s.stalePlayedUnits == 0
    ensures Media(a, |a|) > 0.0 && s.bufferingSecondsPerMinute == PerMinute(s.bufferingSeconds, Media(a, |a|))
  {
    DurationsMedia(a, |a|);
    DurationsMedia(a, |a| - 1);
  }

  /** Whatever the simulator reports about an accepted timeline keeps these promises. */
  lemma {:induction false} AcceptedReportKeepsPromises(a: seq<PlaybackArrival>)
    requires Accepted(a)
    ensures forall s :: Summarises(a, s) ==> Promises(a, s)
  {
    AcceptedTimelineBounds(a);
    assert 0 < 1 <= |a|;
    UnderrunsAndBuffering(a, |a|);
    UnderrunsPerCompletion(a, |a|);
    forall delay: real | delay >= 0.0
      ensures Uninterrupted(a, delay) <==> delay >= Stall(a, |a|)
    {
      BufferingIsLeastDelay(a, delay);
    }
  }

  method SimulateBoundedPlayback(arrivals: seq<PlaybackArrival>) returns (r: Result<PlaybackSimulation, FailureCode>)
    ensures arrivals == [] ==> r == Failure(InvalidOutput)
    ensures arrivals != [] ==>
      match FirstVerdict(arrivals, 0)
      case Some(code) => r == Failure(code)
      case None => r.Success? && Summarises(arrivals, r.value)
  {
    if arrivals == [] {
      return Failure(InvalidOutput);
    }
    var run := new PlaybackRun(arrivals);
    var error := run.Replay(arrivals);
    if error.Some? {
      return Failure(error.value);
    }
    var summary := run.Finish(arrivals);
    r := Success(summary);
  }
}
