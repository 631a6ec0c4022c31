/** Probe outcomes recorded one after another: the confirmation threshold and the
  * certificate-warning memory against simple functions of the outcome sequence.
  */
module Probes {
  import opened Model
  import opened Rows

  // What one probe saw.
  datatype Observation = Observation(
    ok: bool,
    latencyMs: Option<int>,
    error: string,
    tlsExpiresAt: Option<Instant>,
    nextProbeAt: Time,
    now: Instant)

  // The outcome the prober computes from its claim of the row.
  function Outcome(m: Monitor, seen: Observation, threshold: int): (o: ProbeOutcome)
    ensures Fresh(m, o)
  {
    ProbeOutcome(seen.ok, seen.latencyMs, seen.error, seen.tlsExpiresAt, threshold, Some(m.state), m.failStreak,
                 m.tlsWarnedExpiresAt, seen.nextProbeAt, seen.now)
  }

  function RowAfter(m: Monitor, seen: seq<Observation>, threshold: int): Monitor {
    if |seen| == 0 then m
    else
      var before := RowAfter(m, seen[..|seen| - 1], threshold);
      ProbeChange(before, Outcome(before, seen[|seen| - 1], threshold)).row
  }

  // The events written by the j-th probe.
  function EmitsAt(m: Monitor, seen: seq<Observation>, threshold: int, j: nat): seq<Emit>
    requires j < |seen|
  {
    var before := RowAfter(m, seen[..j], threshold);
    ProbeChange(before, Outcome(before, seen[j], threshold)).emits
  }

  predicate Writes(emits: seq<Emit>, typ: EventType) {
    exists k :: 0 <= k < |emits| && emits[k].typ == typ
  }

  function ThresholdOf(threshold: int): (k: int)
    ensures k >= 1
  {
    if threshold <= 0 then 2 else threshold
  }

  // Length of the failure run that ends the sequence.
  function Trailing(seen: seq<Observation>): nat {
    if |seen| == 0 || seen[|seen| - 1].ok then 0 else 1 + Trailing(seen[..|seen| - 1])
  }

  // A monitor that has not been probed.
  predicate Unprobed(m: Monitor) {
    m.failStreak == 0 && m.state.New?
  }

  // fail_streak is the length of the trailing failure run, and the state is `down` exactly
  // while that run has reached the threshold.
  lemma {:induction false} StreakIsTrailingRun(m: Monitor, seen: seq<Observation>, threshold: int)
    requires Unprobed(m)
    ensures RowAfter(m, seen, threshold).failStreak == Trailing(seen)
    ensures RowAfter(m, seen, threshold).state.Down? <==> Trailing(seen) >= ThresholdOf(threshold)
  {
    if |seen| > 0 { StreakIsTrailingRun(m, seen[..|seen| - 1], threshold); }
  }

  lemma WritesTransition(row: Monitor, o: ProbeOutcome, typ: EventType)
    requires typ.DownEvent? || typ.UpEvent?
    ensures Writes(ProbeChange(row, o).emits, typ) <==> |TransitionEmits(o)| == 1 && TransitionEmits(o)[0].typ == typ
  {
    var emits := ProbeChange(row, o).emits;
    assert emits == TransitionEmits(o) + TlsEmits(o);
    if |TransitionEmits(o)| == 1 { assert emits[0] == TransitionEmits(o)[0]; }
  }

  // A `down` event is written exactly where a failure run reaches the threshold, and an
  // `up` event exactly at the success that ends such a run.
  lemma TransitionsAtThreshold(m: Monitor, seen: seq<Observation>, threshold: int, j: nat)
    requires Unprobed(m) && j < |seen|
    ensures Writes(EmitsAt(m, seen, threshold, j), DownEvent) <==> Trailing(seen[..j + 1]) == ThresholdOf(threshold)
    ensures Writes(EmitsAt(m, seen, threshold, j), UpEvent) <==> seen[j].ok && Trailing(seen[..j]) >= ThresholdOf(threshold)
  {
    var row := RowAfter(m, seen[..j], threshold);
    var o := Outcome(row, seen[j], threshold);
    StreakIsTrailingRun(m, seen[..j], threshold);
    assert seen[..j + 1][..j] == seen[..j];
    WritesTransition(row, o, DownEvent);
    WritesTransition(row, o, UpEvent);
  }

  // Number of probes that wrote a `down` event.
  function Downs(m: Monitor, seen: seq<Observation>, threshold: int): nat {
    if |seen| == 0 then 0
    else Downs(m, seen[..|seen| - 1], threshold) + if Writes(EmitsAt(m, seen, threshold, |seen| - 1), DownEvent) then 1 else 0
  }

  predicate AllFailed(seen: seq<Observation>, from: nat, to: nat)
    requires from <= to <= |seen|
  {
    forall j :: from <= j < to ==> !seen[j].ok
  }

  // A maximal failure run of length at least k begins at s.
  predicate BeginsLongRun(seen: seq<Observation>, k: nat, s: nat) {
    s + k <= |seen| && (s == 0 || seen[s - 1].ok) && AllFailed(seen, s, s + k)
  }

  function LongRuns(seen: seq<Observation>, k: nat): set<nat> {
    set s | 0 <= s <= |seen| && BeginsLongRun(seen, k, s)
  }

  lemma {:induction false} TrailingRun(seen: seq<Observation>)
    ensures Trailing(seen) <= |seen| && AllFailed(seen, |seen| - Trailing(seen), |seen|)
    ensures Trailing(seen) < |seen| ==> seen[|seen| - Trailing(seen) - 1].ok
  {
    if |seen| > 0 && !seen[|seen| - 1].ok {
      var front := seen[..|seen| - 1];
      TrailingRun(front);
      forall j | |seen| - Trailing(seen) <= j < |seen|
        ensures !seen[j].ok
      {
        if j < |front| { assert front[j] == seen[j]; }
      }
    }
  }

  lemma FrontBegins(seen: seq<Observation>, k: nat, s: nat)
    requires |seen| > 0 && k > 0
    ensures BeginsLongRun(seen, k, s) <==>
            (BeginsLongRun(seen[..|seen| - 1], k, s) || (Trailing(seen) == k && s == |seen| - k))
    ensures s == |seen| - k ==> !BeginsLongRun(seen[..|seen| - 1], k, s)
  {
    var front := seen[..|seen| - 1];
    if s + k <= |front| {
      assert AllFailed(front, s, s + k) <==> AllFailed(seen, s, s + k) by {
        assert forall j :: s <= j < s + k ==> front[j] == seen[j];
      }
    } else if s + k == |seen| {
      TrailingRun(seen);
      if BeginsLongRun(seen, k, s) { RunOfLength(seen, s); }
    }
  }

  // One more probe begins to count a run exactly when its length reaches k.
  lemma LongRunsGrow(seen: seq<Observation>, k: nat)
    requires |seen| > 0 && k > 0
    ensures |LongRuns(seen, k)| == |LongRuns(seen[..|seen| - 1], k)| + if Trailing(seen) == k then 1 else 0
  {
    var front := seen[..|seen| - 1];
    TrailingRun(seen);
    forall s: nat
      ensures BeginsLongRun(seen, k, s) <==> (BeginsLongRun(front, k, s) || (Trailing(seen) == k && s == |seen| - k))
    {
      FrontBegins(seen, k, s);
    }
    if Trailing(seen) == k {
      FrontBegins(seen, k, |seen| - k);
      assert LongRuns(seen, k) == LongRuns(front, k) + {|seen| - k};
    } else {
      assert LongRuns(seen, k) == LongRuns(front, k);
    }
  }

  lemma {:induction false} RunOfLength(seen: seq<Observation>, s: nat)
    requires s <= |seen| && (s == 0 || seen[s - 1].ok) && AllFailed(seen, s, |seen|)
    ensures Trailing(seen) == |seen| - s
    decreases |seen|
  {
    if s < |seen| { RunOfLength(seen[..|seen| - 1], s); }
  }

  lemma DownsGrow(m: Monitor, seen: seq<Observation>, threshold: int)
    requires Unprobed(m) && |seen| > 0
    ensures Downs(m, seen, threshold) ==
            Downs(m, seen[..|seen| - 1], threshold) + if Trailing(seen) == ThresholdOf(threshold) then 1 else 0
  {
    TransitionsAtThreshold(m, seen, threshold, |seen| - 1);
    assert seen[..|seen| - 1 + 1] == seen;
  }

  // The number of `down` events is the number of maximal failure runs that reach the threshold.
  lemma {:induction false} DownsAreLongRuns(m: Monitor, seen: seq<Observation>, threshold: int)
    requires Unprobed(m)
    ensures Downs(m, seen, threshold) == |LongRuns(seen, ThresholdOf(threshold))|
  {
    if |seen| > 0 {
      DownsAreLongRuns(m, seen[..|seen| - 1], threshold);
      LongRunsGrow(seen, ThresholdOf(threshold));
      DownsGrow(m, seen, threshold);
    } else {
      assert LongRuns(seen, ThresholdOf(threshold)) == {};
    }
  }

  // ------------------------------------------------------------ certificate warnings

  // The certificate expiries seen within fourteen days of the probe.
  function ExpiriesInWindow(seen: seq<Observation>): seq<Instant> {
    if |seen| == 0 then []
    else
      var last := seen[|seen| - 1];
      ExpiriesInWindow(seen[..|seen| - 1]) +
      if last.tlsExpiresAt.Some? && last.tlsExpiresAt.value - last.now <= 1_209_600_000_000_000 then [last.tlsExpiresAt.value] else []
  }

  // The expiries that were warned about.
  function Warned(m: Monitor, seen: seq<Observation>, threshold: int): seq<Instant> {
    if |seen| == 0 then []
    else
      var front := seen[..|seen| - 1];
      Warned(m, front, threshold) + WarnedIn(EmitsAt(m, seen, threshold, |seen| - 1))
  }

  function WarnedIn(emits: seq<Emit>): seq<Instant> {
    if |emits| == 0 then []
    else
      var last := emits[|emits| - 1];
      WarnedIn(emits[..|emits| - 1]) + if last.typ.TlsExpiryEvent? && last.meta.Some? then [last.meta.value] else []
  }

  // The second of the expiry before the one that follows xs.
  function PreviousSecond(first: Option<int>, xs: seq<Instant>): Option<int> {
    if |xs| == 0 then first else Some(WholeSecond(xs[|xs| - 1]))
  }

  // Drops each expiry in the same whole second as the one before it.
  function WithoutRepeats(first: Option<int>, xs: seq<Instant>): seq<Instant> {
    if |xs| == 0 then []
    else
      var n := |xs| - 1;
      WithoutRepeats(first, xs[..n]) + if PreviousSecond(first, xs[..n]) == Some(WholeSecond(xs[n])) then [] else [xs[n]]
  }

  function SecondOf(warned: Option<Instant>): Option<int> {
    if warned.Some? then Some(WholeSecond(warned.value)) else None
  }

  // Storing an expiry with microsecond precision keeps its second.
  lemma StoredKeepsSecond(t: Instant)
    ensures WholeSecond(Stored(t)) == WholeSecond(t)
  {
    var q, r := t / SECOND, t % SECOND;
    assert t == q * SECOND + r;
    assert t % 1000 == r % 1000;
    assert Stored(t) == q * SECOND + (r - r % 1000);
  }

  lemma WarnedInProbe(row: Monitor, o: ProbeOutcome)
    ensures WarnedIn(ProbeChange(row, o).emits) == if WarnsTls(o) then [o.tlsExpiresAt.value] else []
  {
    var emits, t := ProbeChange(row, o).emits, TransitionEmits(o);
    assert WarnedIn(t) == [] by {
      if |t| == 1 { assert t[..0] == []; }
    }
    if WarnsTls(o) {
      assert emits[..|emits| - 1] == t;
    } else {
      assert emits == t;
    }
  }

  // Over any sequential probes, the warnings sent are the in-window expiries without
  // consecutive repeats of a whole second, starting from the one stored.
  lemma {:induction false} WarningsAreNewExpiries(m: Monitor, seen: seq<Observation>, threshold: int)
    ensures Warned(m, seen, threshold) == WithoutRepeats(SecondOf(m.tlsWarnedExpiresAt), ExpiriesInWindow(seen))
    ensures SecondOf(RowAfter(m, seen, threshold).tlsWarnedExpiresAt) ==
            PreviousSecond(SecondOf(m.tlsWarnedExpiresAt), ExpiriesInWindow(seen))
  {
    if |seen| > 0 {
      var front, last := seen[..|seen| - 1], seen[|seen| - 1];
      WarningsAreNewExpiries(m, front, threshold);
      var row := RowAfter(m, front, threshold);
      var o := Outcome(row, last, threshold);
      WarnedInProbe(row, o);
      var xs := ExpiriesInWindow(front);
      if InWindow(o) {
        StoredKeepsSecond(last.tlsExpiresAt.value);
        assert (xs + [last.tlsExpiresAt.value])[..|xs|] == xs;
      } else {
        assert xs + [] == xs;
      }
    }
  }
}
