/** What one row of the ledger guarantees over any sequence of sightings and marks. */
module TrafficRows {
  import opened Outcome
  import opened Text
  import opened TrafficLedger
  import opened TrafficTouches

  /** Both counters of one observation. */
  type Sighting = (int, int)

  function SightOf(t: Touch): seq<Sighting> {
    if t.Seen? then [(t.st.up, t.st.down)] else []
  }

  /** Everything that a row's touches see, in order. */
  function Sights(touches: seq<Touch>): seq<Sighting> {
    if touches == [] then [] else Sights(touches[..|touches| - 1]) + SightOf(touches[|touches| - 1])
  }

  predicate NoBytes(s: Sighting) {
    s.0 <= 0 && s.1 <= 0
  }

  predicate AllNonzero(trail: seq<Sighting>) {
    forall i :: 0 <= i < |trail| ==> trail[i] != (0, 0)
  }

  function Ups(trail: seq<Sighting>): seq<int> {
    seq(|trail|, i requires 0 <= i < |trail| => trail[i].0)
  }

  function Downs(trail: seq<Sighting>): seq<int> {
    seq(|trail|, i requires 0 <= i < |trail| => trail[i].1)
  }

  /** The sum of max(0, x[k] - x[k - 1]). */
  function Gains(x: seq<int>): nat {
    if |x| < 2 then 0 else Gains(x[..|x| - 1]) + Gain(x[|x| - 1], x[|x| - 2])
  }

  lemma {:induction false} GainsWithoutDrop(x: seq<int>)
    requires x != [] && forall i :: 0 < i < |x| ==> x[i - 1] <= x[i]
    ensures Gains(x) == x[|x| - 1] - x[0]
  {
    if |x| > 1 {
      GainsWithoutDrop(x[..|x| - 1]);
    }
  }

  // ---------- Where a row stands ----------

  /** The next sighting only sets the baseline: there is no row, or one on which nothing has been counted. */
  predicate Uncounted(current: Option<Row>) {
    current.None? || MissingRawBaseline(current.value)
  }

  function Totals(current: Option<Row>): (int, int) {
    if current.Some? then (current.value.totalUp, current.value.totalDown) else (0, 0)
  }

  function Raw(current: Option<Row>): Sighting {
    if current.Some? then (current.value.rawUp, current.value.rawDown) else (0, 0)
  }

  /** The counters that a run from this row counts on. */
  function Base(current: Option<Row>): seq<Sighting> {
    if Uncounted(current) then [] else [Raw(current)]
  }

  function Trail(current: Option<Row>, touches: seq<Touch>): seq<Sighting> {
    Base(current) + Sights(touches)
  }

  function Last(trail: seq<Sighting>): Sighting {
    if trail == [] then (0, 0) else trail[|trail| - 1]
  }

  /** The row holds the last counters of the trail. */
  predicate Stands(current: Option<Row>, trail: seq<Sighting>) {
    Raw(current) == Last(trail) && (trail != [] ==> current.Some?)
  }

  /** How far the totals fall short of the gains along the trail. */
  function ShortUp(current: Option<Row>, start: (int, int), trail: seq<Sighting>): int {
    start.0 + Gains(Ups(trail)) - Totals(current).0
  }

  function ShortDown(current: Option<Row>, start: (int, int), trail: seq<Sighting>): int {
    start.1 + Gains(Downs(trail)) - Totals(current).1
  }

  /** The totals have grown by exactly the gains along the trail. */
  predicate Tracks(current: Option<Row>, start: (int, int), trail: seq<Sighting>) {
    Stands(current, trail) && ShortUp(current, start, trail) == 0 && ShortDown(current, start, trail) == 0
  }

  /** What a counter holds if it began at zero. */
  function Bytes(raw: int): int {
    Gain(raw, 0)
  }

  /** What one sighting adds to the shortfall: bytes are lost if the row forgot its trail, and old ones leak in if it has none. */
  function Error(uncounted: bool, unseen: bool, raw: int): int {
    if uncounted == unseen then 0 else if uncounted then Bytes(raw) else -Bytes(raw)
  }

  lemma GainsOneMore(x: seq<int>, y: int)
    ensures Gains(x + [y]) == Gains(x) + (if x == [] then 0 else Gain(y, x[|x| - 1]))
  {
    assert (x + [y])[..|x|] == x;
  }

  lemma SeenStep(current: Option<Row>, t: Touch, start: (int, int), trail: seq<Sighting>)
    requires t.Seen? && Stands(current, trail)
    ensures var r, longer := Some(Touched(current, t)), trail + SightOf(t);
            && Stands(r, longer)
            && ShortUp(r, start, longer) == ShortUp(current, start, trail) + Error(Uncounted(current), trail == [], t.st.up)
            && ShortDown(r, start, longer) == ShortDown(current, start, trail) + Error(Uncounted(current), trail == [], t.st.down)
  {
    hide BaselineOnlyStatus, CounterReset, SuppressRecoveredRate, Elapsed, Trim, Gains;
    var longer := trail + SightOf(t);
    assert Ups(longer) == Ups(trail) + [t.st.up] && Downs(longer) == Downs(trail) + [t.st.down];
    GainsOneMore(Ups(trail), t.st.up);
    GainsOneMore(Downs(trail), t.st.down);
  }

  lemma NotedStep(current: Option<Row>, t: Touch, start: (int, int), trail: seq<Sighting>)
    requires t.Noted? && Stands(current, trail)
    ensures var r := Some(Touched(current, t));
            && trail + SightOf(t) == trail && Stands(r, trail)
            && ShortUp(r, start, trail) == ShortUp(current, start, trail) && ShortDown(r, start, trail) == ShortDown(current, start, trail)
  {
    hide Gains;
  }

  /** The sighting holds no bytes, or the row is uncounted exactly if nothing has been seen on it. */
  predicate Fair(current: Option<Row>, trail: seq<Sighting>, t: Touch) {
    t.Seen? && !NoBytes((t.st.up, t.st.down)) ==> (Uncounted(current) <==> trail == [])
  }

  lemma FairStep(current: Option<Row>, t: Touch, start: (int, int), trail: seq<Sighting>)
    requires Tracks(current, start, trail)
    ensures Tracks(Some(Touched(current, t)), start, trail + SightOf(t)) <==> Fair(current, trail, t)
  {
    hide Touched, Uncounted, ShortUp, ShortDown;
    if t.Seen? {
      SeenStep(current, t, start, trail);
    } else {
      NotedStep(current, t, start, trail);
    }
  }

  // ---------- Touches of one row ----------

  lemma SightsOneMore(touches: seq<Touch>, n: nat)
    requires n < |touches|
    ensures Sights(touches[..n + 1]) == Sights(touches[..n]) + SightOf(touches[n])
  {
    assert touches[..n + 1][..n] == touches[..n];
  }

  ghost predicate TracksFirst(current: Option<Row>, touches: seq<Touch>, n: nat)
    requires n <= |touches|
  {
    Tracks(RowRun(current, touches[..n]), Totals(current), Trail(current, touches[..n]))
  }

  predicate FairAt(current: Option<Row>, touches: seq<Touch>, i: nat)
    requires i < |touches|
  {
    Fair(RowRun(current, touches[..i]), Trail(current, touches[..i]), touches[i])
  }

  lemma StartTracks(current: Option<Row>)
    ensures Tracks(current, Totals(current), Base(current))
  {
    hide BaselineOnlyStatus;
  }

  lemma TrackOneMore(current: Option<Row>, touches: seq<Touch>, n: nat)
    requires n < |touches| && TracksFirst(current, touches, n)
    ensures TracksFirst(current, touches, n + 1) <==> FairAt(current, touches, n)
  {
    hide Touched, Tracks, Base, Fair;
    var before, t := RowRun(current, touches[..n]), touches[n];
    assert touches[..n + 1][..n] == touches[..n];
    SightsOneMore(touches, n);
    assert Trail(current, touches[..n + 1]) == Trail(current, touches[..n]) + SightOf(t);
    FairStep(before, t, Totals(current), Trail(current, touches[..n]));
  }

  lemma {:induction false} FairMeansTracks(current: Option<Row>, touches: seq<Touch>, n: nat)
    requires n <= |touches| && forall i :: 0 <= i < n ==> FairAt(current, touches, i)
    ensures TracksFirst(current, touches, n)
    decreases n
  {
    hide FairAt, TracksFirst;
    if n == 0 {
      NothingTracks(current, touches);
    } else {
      FairMeansTracks(current, touches, n - 1);
      TrackOneMore(current, touches, n - 1);
    }
  }

  lemma NothingTracks(current: Option<Row>, touches: seq<Touch>)
    ensures TracksFirst(current, touches, 0)
  {
    hide Tracks, Base;
    StartTracks(current);
    assert touches[..0] == [] && Base(current) + [] == Base(current);
  }

  /**
   The ledger is right at every point of a row's history if and only if every sighting with bytes
   finds the row uncounted exactly when nothing has been seen on it: no bytes are forgotten and none
   from before leak in. Times, statuses, repeated keys and counters are arbitrary.
   */
  lemma TracksIffFair(current: Option<Row>, touches: seq<Touch>)
    ensures (forall n :: 0 <= n <= |touches| ==> TracksFirst(current, touches, n))
       <==> (forall i :: 0 <= i < |touches| ==> FairAt(current, touches, i))
  {
    hide FairAt, TracksFirst;
    if forall i :: 0 <= i < |touches| ==> FairAt(current, touches, i) {
      forall n | 0 <= n <= |touches| ensures TracksFirst(current, touches, n) {
        FairMeansTracks(current, touches, n);
      }
    }
    if forall n :: 0 <= n <= |touches| ==> TracksFirst(current, touches, n) {
      forall i | 0 <= i < |touches| ensures FairAt(current, touches, i) {
        assert TracksFirst(current, touches, i) && TracksFirst(current, touches, i + 1);
        TrackOneMore(current, touches, i);
      }
    }
  }

  /** Every sighting with bytes finds a row that counts it. */
  predicate Counted(current: Option<Row>, touches: seq<Touch>) {
    forall i :: 0 <= i < |touches| && touches[i].Seen? && !NoBytes((touches[i].st.up, touches[i].st.down)) ==> !Uncounted(RowRun(current, touches[..i]))
  }

  lemma CountedOneMore(current: Option<Row>, touches: seq<Touch>)
    requires touches != []
    ensures var init, t := touches[..|touches| - 1], touches[|touches| - 1];
            (Counted(current, touches)
             <==> Counted(current, init) && (t.Seen? && !NoBytes((t.st.up, t.st.down)) ==> !Uncounted(RowRun(current, init))))
  {
    hide RowRun, Uncounted;
    var init := touches[..|touches| - 1];
    assert forall i :: 0 <= i < |init| ==> init[..i] == touches[..i] && init[i] == touches[i];
    var n := |touches| - 1;
    if Counted(current, touches) {
      assert touches[n].Seen? && !NoBytes((touches[n].st.up, touches[n].st.down)) ==> !Uncounted(RowRun(current, touches[..n]));
    }
  }

  /** Once something has been seen the totals can only fall short, and they do exactly if a sighting with bytes is not counted. */
  lemma {:induction false} LossesAddUp(current: Option<Row>, trail: seq<Sighting>, start: (int, int), touches: seq<Touch>)
    requires trail != [] && Stands(current, trail)
    ensures var r, longer := RowRun(current, touches), trail + Sights(touches);
            && Stands(r, longer)
            && ShortUp(r, start, longer) >= ShortUp(current, start, trail) && ShortDown(r, start, longer) >= ShortDown(current, start, trail)
            && ((ShortUp(r, start, longer) == ShortUp(current, start, trail) && ShortDown(r, start, longer) == ShortDown(current, start, trail))
                <==> Counted(current, touches))
    decreases |touches|
  {
    hide Touched, Uncounted, Stands, ShortUp, ShortDown, Counted;
    if touches == [] {
      assert trail + [] == trail;
      NothingToCount(current);
    } else {
      var init, t := touches[..|touches| - 1], touches[|touches| - 1];
      var seen := trail + Sights(init);
      LossesAddUp(current, trail, start, init);
      CountedOneMore(current, touches);
      assert trail + Sights(touches) == seen + SightOf(t);
      if t.Seen? {
        SeenStep(RowRun(current, init), t, start, seen);
      } else {
        NotedStep(RowRun(current, init), t, start, seen);
      }
    }
  }

  lemma NothingToCount(current: Option<Row>)
    ensures Counted(current, [])
  {
  }

  // ---------- Which rows are uncounted ----------

  /** Sightings are later than everything that happened to the row before. */
  predicate Clocked(current: Option<Row>, touches: seq<Touch>) {
    && (forall i, j :: 0 <= i < j < |touches| && touches[j].Seen? ==> touches[i].now < touches[j].now)
    && (current.Some? ==> current.value.seenAt.Some? && forall j :: 0 <= j < |touches| && touches[j].Seen? ==> current.value.seenAt.value < touches[j].now)
  }

  /**
   The history after which a row has nothing counted on it: its last counters are zero, and then a
   marker that only speaks of a missing baseline, or no more than its very first sighting.
   */
  predicate Blank(current: Option<Row>, touches: seq<Touch>) {
    if touches == [] then Uncounted(current)
    else
      match touches[|touches| - 1]
      case Noted(status, message, _) => Last(Trail(current, touches)) == (0, 0) && BaselineOnlyStatus(status, message)
      case Seen(st, _, _) => current.None? && |touches| == 1 && (st.up, st.down) == (0, 0) && BaselineOnlyStatus(st.status, st.message)
  }

  lemma {:induction false} RowStands(current: Option<Row>, touches: seq<Touch>)
    ensures Stands(RowRun(current, touches), Trail(current, touches))
    decreases |touches|
  {
    hide Touched, Stands, ShortUp, ShortDown, Base, Uncounted;
    if touches == [] {
      StartTracks(current);
      assert Base(current) + [] == Base(current);
    } else {
      var init, t := touches[..|touches| - 1], touches[|touches| - 1];
      RowStands(current, init);
      assert Trail(current, touches) == Trail(current, init) + SightOf(t);
      if t.Seen? {
        SeenStep(RowRun(current, init), t, (0, 0), Trail(current, init));
      } else {
        NotedStep(RowRun(current, init), t, (0, 0), Trail(current, init));
      }
    }
  }

  lemma NotedIsUncounted(current: Option<Row>, t: Touch)
    requires t.Noted?
    ensures Uncounted(Some(Touched(current, t))) <==> Raw(current) == (0, 0) && BaselineOnlyStatus(t.status, t.message)
    ensures Touched(current, t).seenAt == Some(t.now)
  {
    hide BaselineOnlyStatus;
  }

  lemma TrimmedSame(status: string, message: string)
    ensures BaselineOnlyStatus(status, Trim(message)) == BaselineOnlyStatus(status, message)
  {
    TrimSettles(message);
    hide Trim, Contains;
  }

  lemma SeenIsUncounted(current: Option<Row>, t: Touch)
    requires t.Seen?
    ensures current.None? ==>
              (Uncounted(Some(Touched(current, t))) <==> (t.st.up, t.st.down) == (0, 0) && BaselineOnlyStatus(t.st.status, t.st.message))
    ensures current.Some? && current.value.seenAt.Some? && current.value.seenAt.value < t.now ==> !Uncounted(Some(Touched(current, t)))
    ensures (t.st.up, t.st.down) != (0, 0) ==> !Uncounted(Some(Touched(current, t)))
    ensures Touched(current, t).seenAt == Some(t.now)
  {
    TrimmedSame(t.st.status, t.st.message);
    hide BaselineOnlyStatus, Trim, SuppressRecoveredRate;
  }

  /** On a clock that moves on between sightings, the history alone tells whether a row is uncounted. */
  lemma UncountedIffBlank(current: Option<Row>, touches: seq<Touch>)
    requires Clocked(current, touches)
    ensures Uncounted(RowRun(current, touches)) <==> Blank(current, touches)
  {
    hide Touched, Uncounted, Stands, BaselineOnlyStatus, Base;
    if touches != [] {
      var n := |touches| - 1;
      var before, t := RowRun(current, touches[..n]), touches[n];
      if t.Noted? {
        RowStands(current, touches[..n]);
        RawOfNote(current, touches, before);
        NotedIsUncounted(before, t);
      } else {
        SeenIsUncounted(before, t);
        if n > 0 {
          assert touches[n - 1].now < t.now;
          TouchedAt(current, touches[..n]);
        } else {
          assert touches[..0] == [];
        }
      }
    }
  }

  lemma RawOfNote(current: Option<Row>, touches: seq<Touch>, before: Option<Row>)
    requires touches != [] && touches[|touches| - 1].Noted? && Stands(before, Trail(current, touches[..|touches| - 1]))
    ensures Raw(before) == Last(Trail(current, touches))
  {
    hide Uncounted;
    assert Sights(touches) == Sights(touches[..|touches| - 1]) + [];
  }

  lemma TouchedAt(current: Option<Row>, touches: seq<Touch>)
    requires touches != []
    ensures RowRun(current, touches).Some? && RowRun(current, touches).value.seenAt == Some(touches[|touches| - 1].now)
  {
    hide Touched, Uncounted;
    var before, t := RowRun(current, touches[..|touches| - 1]), touches[|touches| - 1];
    if t.Seen? {
      SeenIsUncounted(before, t);
    } else {
      NotedIsUncounted(before, t);
    }
  }

  /** Once nonzero counters have been seen, sightings and marks keep the row counted as long as the counters stay off zero. */
  lemma {:induction false} NonzeroStaysCounted(current: Option<Row>, touches: seq<Touch>)
    requires Raw(current) != (0, 0) && AllNonzero(Sights(touches))
    ensures Raw(RowRun(current, touches)) != (0, 0) && !Uncounted(RowRun(current, touches))
    decreases |touches|
  {
    hide Touched;
    if touches != [] {
      var init, t := touches[..|touches| - 1], touches[|touches| - 1];
      assert forall i :: 0 <= i < |Sights(init)| ==> Sights(init)[i] == Sights(touches)[i];
      NonzeroStaysCounted(current, init);
      var before := RowRun(current, init);
      if t.Seen? {
        assert Sights(touches)[|Sights(init)|] == (t.st.up, t.st.down);
        TouchedRaw(before, t);
      } else {
        TouchedRaw(before, t);
      }
    }
  }

  lemma TouchedRaw(current: Option<Row>, t: Touch)
    ensures Raw(Some(Touched(current, t))) == (if t.Seen? then (t.st.up, t.st.down) else Raw(current))
  {
    hide MissingRawBaseline, CounterReset, SuppressRecoveredRate, Elapsed, Trim;
  }

  lemma {:induction false} SightsOfPrefix(touches: seq<Touch>, n: nat)
    requires n <= |touches|
    ensures Sights(touches[..n]) <= Sights(touches)
    decreases |touches|
  {
    if n == |touches| {
      assert touches[..n] == touches;
    } else {
      SightsOfPrefix(touches[..|touches| - 1], n);
      assert touches[..|touches| - 1][..n] == touches[..n];
    }
  }

  lemma NonzeroCounts(current: Option<Row>, touches: seq<Touch>)
    requires Raw(current) != (0, 0) && AllNonzero(Sights(touches))
    ensures Counted(current, touches)
  {
    hide RowRun, Uncounted, Raw;
    forall i | 0 <= i < |touches| ensures !Uncounted(RowRun(current, touches[..i])) {
      SightsOfPrefix(touches, i);
      NonzeroStaysCounted(current, touches[..i]);
    }
  }
}
