/** What the ledger guarantees over whole runs of observations, markers and resets. */
module TrafficRuns {
  import opened Outcome
  import opened Text
  import opened TrafficLedger
  import opened TrafficTouches
  import opened TrafficRows

  // ---------- Whole runs ----------

  /** What the run does to the scope. */
  function History(rows: Rows, events: seq<Event>, key: Key): seq<Touch> {
    Touches(key in rows, events, key)
  }

  /**
   From any counted row, over any run: each total has grown by exactly the sum of max(0, raw[k] - raw[k - 1])
   over everything seen of the scope if and only if every sighting with bytes finds the row counted.
   Otherwise the totals are smaller.
   */
  lemma LedgerContinues(rows: Rows, events: seq<Event>, key: Key)
    requires key in rows && !Uncounted(Some(rows[key]))
    requires QuietRun(rows, events, key)
    ensures var current, touches, r := Some(rows[key]), History(rows, events, key), Lookup(Run(rows, events), key);
            && Stands(r, Trail(current, touches))
            && ShortUp(r, Totals(current), Trail(current, touches)) >= 0 && ShortDown(r, Totals(current), Trail(current, touches)) >= 0
            && (Tracks(r, Totals(current), Trail(current, touches)) <==> Counted(current, touches))
  {
    hide QuietRun, Uncounted, Touches, RowRun, Stands, ShortUp, ShortDown, Counted, Run;
    var current := Some(rows[key]);
    RunTouches(rows, events, key);
    StartTracks(current);
    LossesAddUp(current, Base(current), Totals(current), History(rows, events, key));
  }

  /** With counters that are never both zero nothing is lost, whatever the clock does. */
  lemma NonzeroLedgerContinues(rows: Rows, events: seq<Event>, key: Key)
    requires key in rows && (rows[key].rawUp, rows[key].rawDown) != (0, 0)
    requires QuietRun(rows, events, key)
    requires AllNonzero(Sights(History(rows, events, key)))
    ensures var current := Some(rows[key]);
            Tracks(Lookup(Run(rows, events), key), Totals(current), [Raw(current)] + Sights(History(rows, events, key)))
  {
    hide QuietRun, Touches, Tracks, Counted, BaselineOnlyStatus, Run, AllNonzero;
    LedgerContinues(rows, events, key);
    NonzeroCounts(Some(rows[key]), History(rows, events, key));
  }

  /** The place of the first sighting. */
  function FirstSeen(touches: seq<Touch>): (k: nat)
    ensures k <= |touches| && (k < |touches| ==> touches[k].Seen?)
    ensures forall i :: 0 <= i < k ==> touches[i].Noted?
  {
    if touches == [] || touches[0].Seen? then 0 else 1 + FirstSeen(touches[1..])
  }

  lemma {:induction false} NotesSeeNothing(touches: seq<Touch>)
    requires forall i :: 0 <= i < |touches| ==> touches[i].Noted?
    ensures Sights(touches) == []
    decreases |touches|
  {
    if touches != [] {
      NotesSeeNothing(touches[..|touches| - 1]);
    }
  }

  lemma {:induction false} NotesMoveNothing(current: Option<Row>, notes: seq<Touch>)
    requires forall i :: 0 <= i < |notes| ==> notes[i].Noted?
    ensures Raw(RowRun(current, notes)) == Raw(current) && Totals(RowRun(current, notes)) == Totals(current)
    decreases |notes|
  {
    if notes != [] {
      NotesMoveNothing(current, notes[..|notes| - 1]);
    }
  }

  /** Markers leave an uncounted row uncounted exactly if the last one says no more than that the baseline is missing. */
  predicate Harmless(notes: seq<Touch>) {
    notes != [] && notes[|notes| - 1].Noted? ==> BaselineOnlyStatus(notes[|notes| - 1].status, notes[|notes| - 1].message)
  }

  lemma HarmlessNotes(current: Option<Row>, notes: seq<Touch>)
    requires Uncounted(current) && forall i :: 0 <= i < |notes| ==> notes[i].Noted?
    ensures Uncounted(RowRun(current, notes)) <==> Harmless(notes)
  {
    if notes != [] {
      var init, t := notes[..|notes| - 1], notes[|notes| - 1];
      NotesMoveNothing(current, init);
      NotedIsUncounted(RowRun(current, init), t);
    }
    hide BaselineOnlyStatus, Touched, RowRun;
  }

  lemma {:induction false} SightsConcat(a: seq<Touch>, b: seq<Touch>)
    ensures Sights(a + b) == Sights(a) + Sights(b)
    decreases |b|
  {
    if b == [] {
      assert a + b == a;
    } else {
      assert (a + b)[..|a + b| - 1] == a + b[..|b| - 1];
      SightsConcat(a, b[..|b| - 1]);
    }
  }

  lemma OneSight(t: Touch)
    requires t.Seen?
    ensures Sights([t]) == [(t.st.up, t.st.down)]
  {
    var one: seq<Touch> := [t];
    assert one[..0] == [];
  }

  /** A row at the first sighting, with the markers before it. */
  lemma FirstStep(current: Option<Row>, notes: seq<Touch>, t: Touch)
    requires Uncounted(current) && t.Seen? && forall i :: 0 <= i < |notes| ==> notes[i].Noted?
    ensures var after, sight := Some(Touched(RowRun(current, notes), t)), (t.st.up, t.st.down);
            && Stands(after, [sight])
            && ShortUp(after, Totals(current), [sight]) == (if Harmless(notes) then 0 else -Bytes(t.st.up))
            && ShortDown(after, Totals(current), [sight]) == (if Harmless(notes) then 0 else -Bytes(t.st.down))
  {
    hide Touched, Harmless, BaselineOnlyStatus;
    var before := RowRun(current, notes);
    NotesMoveNothing(current, notes);
    HarmlessNotes(current, notes);
    hide RowRun;
    assert [] + SightOf(t) == [(t.st.up, t.st.down)];
    NoGains();
    SeenStep(before, t, Totals(current), []);
  }

  /** Markers, the first sighting, and what follows it. */
  lemma SplitAtFirst(current: Option<Row>, notes: seq<Touch>, t: Touch, later: seq<Touch>)
    requires t.Seen? && forall i :: 0 <= i < |notes| ==> notes[i].Noted?
    ensures RowRun(current, notes + [t] + later) == RowRun(Some(Touched(RowRun(current, notes), t)), later)
    ensures Sights(notes + [t] + later) == [(t.st.up, t.st.down)] + Sights(later)
  {
    hide Touched;
    RowRunConcat(current, notes + [t], later);
    RowRunConcat(current, notes, [t]);
    RowRunOne(RowRun(current, notes), t);
    SightsConcat(notes + [t], later);
    SightsConcat(notes, [t]);
    NotesSeeNothing(notes);
    OneSight(t);
    hide RowRun, Sights;
    assert [] + [(t.st.up, t.st.down)] == [(t.st.up, t.st.down)];
  }

  lemma AfterFirst(current: Option<Row>, touches: seq<Touch>)
    requires FirstSeen(touches) < |touches|
    ensures var k := FirstSeen(touches);
            && RowRun(current, touches) == RowRun(Started(current, touches), touches[k + 1..])
            && Sights(touches) == [(touches[k].st.up, touches[k].st.down)] + Sights(touches[k + 1..])
  {
    hide Touched, Sights, RowRun, FirstSeen;
    var k := FirstSeen(touches);
    assert touches == touches[..k] + [touches[k]] + touches[k + 1..];
    SplitAtFirst(current, touches[..k], touches[k], touches[k + 1..]);
  }

  lemma NoGains()
    ensures Gains(Ups([])) == 0 && Gains(Downs([])) == 0
  {
  }

  /** The first sighting holds no bytes, or the markers before it are harmless. */
  predicate CleanStart(touches: seq<Touch>) {
    var k := FirstSeen(touches);
    k < |touches| && !NoBytes((touches[k].st.up, touches[k].st.down)) ==> Harmless(touches[..k])
  }

  /** The row that the first sighting leaves. */
  function Started(current: Option<Row>, touches: seq<Touch>): Option<Row>
    requires FirstSeen(touches) < |touches|
  {
    Some(Touched(RowRun(current, touches[..FirstSeen(touches)]), touches[FirstSeen(touches)]))
  }

  /**
   From an absent or uncounted row: if the start is clean, the totals are the gains over everything seen
   if and only if every later sighting with bytes finds the row counted. A start that is not clean
   takes the whole counters of the first sighting as gain.
   */
  lemma LedgerFromBlank(rows: Rows, events: seq<Event>, key: Key)
    requires Uncounted(Lookup(rows, key)) && QuietRun(rows, events, key)
    ensures var current, touches, r := Lookup(rows, key), History(rows, events, key), Lookup(Run(rows, events), key);
            var k := FirstSeen(touches);
            if k == |touches| then Totals(r) == Totals(current)
            else
              && (CleanStart(touches) ==>
                    (Tracks(r, Totals(current), Sights(touches)) <==> Counted(Started(current, touches), touches[k + 1..])))
              && (Counted(Started(current, touches), touches[k + 1..]) ==>
                    (Tracks(r, Totals(current), Sights(touches)) <==> CleanStart(touches)))
  {
    hide QuietRun, Uncounted, Touches, Touched, Stands, ShortUp, ShortDown, Counted, Harmless, FirstSeen, Sights, Run;
    var current, touches := Lookup(rows, key), History(rows, events, key);
    RunTouches(rows, events, key);
    var k := FirstSeen(touches);
    if k == |touches| {
      NotesMoveNothing(current, touches);
    } else {
      AfterFirst(current, touches);
      FirstStep(current, touches[..k], touches[k]);
      hide RowRun;
      LossesAddUp(Started(current, touches), [(touches[k].st.up, touches[k].st.down)], Totals(current), touches[k + 1..]);
    }
  }

  /**
   A scope first seen with nonzero counters, and never seen at zero after that: the totals are the sums
   of max(0, raw[k] - raw[k - 1]) since its first sight if and only if that one holds no bytes or the last
   marker before it says no more than that the baseline is missing, as the markers of a sync do.
   */
  lemma NonzeroFromFirstSight(rows: Rows, events: seq<Event>, key: Key)
    requires Uncounted(Lookup(rows, key)) && QuietRun(rows, events, key)
    requires AllNonzero(Sights(History(rows, events, key)))
    ensures var touches := History(rows, events, key);
            FirstSeen(touches) < |touches| ==>
              (Tracks(Lookup(Run(rows, events), key), Totals(Lookup(rows, key)), Sights(touches)) <==> CleanStart(touches))
  {
    hide QuietRun, Uncounted, Touches, Tracks, Counted, CleanStart, Run, Touched, RowRun, Sights, FirstSeen;
    LedgerFromBlank(rows, events, key);
    var current, touches := Lookup(rows, key), History(rows, events, key);
    var k := FirstSeen(touches);
    if k < |touches| {
      AfterFirst(current, touches);
      var later := Sights(touches[k + 1..]);
      assert Sights(touches)[0] == (touches[k].st.up, touches[k].st.down);
      assert forall i :: 0 <= i < |later| ==> later[i] == Sights(touches)[i + 1];
      TouchedRaw(RowRun(current, touches[..k]), touches[k]);
      NonzeroCounts(Started(current, touches), touches[k + 1..]);
    }
  }

  /** A sighting with bytes finds nothing counted on the row, as its history tells, exactly if nothing has been seen on it. */
  predicate HeardFairly(current: Option<Row>, touches: seq<Touch>, i: nat)
    requires i < |touches|
  {
    var t := touches[i];
    t.Seen? && !NoBytes((t.st.up, t.st.down)) ==> (Blank(current, touches[..i]) <==> Trail(current, touches[..i]) == [])
  }

  /**
   The exact condition for every row, every run and every counter, zeros included, when times increase from
   sighting to sighting: the row tracks its trail all along the run if and only if its history is fair.
   */
  lemma LedgerRightIff(rows: Rows, events: seq<Event>, key: Key)
    requires QuietRun(rows, events, key)
    requires Clocked(Lookup(rows, key), History(rows, events, key))
    ensures var current, touches := Lookup(rows, key), History(rows, events, key);
            && Lookup(Run(rows, events), key) == RowRun(current, touches)
            && (RightThroughout(current, touches) <==> forall i :: 0 <= i < |touches| ==> HeardFairly(current, touches, i))
  {
    hide QuietRun, Touches, Run, RowRun, TracksFirst, Blank, Trail, Uncounted;
    var current, touches := Lookup(rows, key), History(rows, events, key);
    RunTouches(rows, events, key);
    TracksIffFair(current, touches);
    forall i | 0 <= i < |touches| ensures FairAt(current, touches, i) <==> HeardFairly(current, touches, i) {
      ClockedPrefix(current, touches, i);
      UncountedIffBlank(current, touches[..i]);
    }
  }

  /** From the m-th touch on, no sighting with bytes comes on a history that makes the row forget it was counted. */
  predicate NoneForgottenFrom(current: Option<Row>, touches: seq<Touch>, m: nat) {
    forall i :: m <= i < |touches| ==> StillCounted(current, touches, i)
  }

  predicate StillCounted(current: Option<Row>, touches: seq<Touch>, i: nat)
    requires i < |touches|
  {
    touches[i].Seen? && !NoBytes((touches[i].st.up, touches[i].st.down)) ==> !Blank(current, touches[..i])
  }

  /** The row tracks its trail after every touch. */
  ghost predicate RightThroughout(current: Option<Row>, touches: seq<Touch>) {
    forall n :: 0 <= n <= |touches| ==> TracksFirst(current, touches, n)
  }

  /**
   From an absent or uncounted row, markers before the first sighting included: totals are the sums since
   that sighting, all along the run, if and only if it holds no bytes or the last marker before it says no
   more than that the baseline is missing, and no later bytes come on a row that forgot it was counted.
   */
  lemma LedgerFromFirstSight(rows: Rows, events: seq<Event>, key: Key)
    requires Uncounted(Lookup(rows, key)) && QuietRun(rows, events, key)
    requires Clocked(Lookup(rows, key), History(rows, events, key))
    ensures var current, touches := Lookup(rows, key), History(rows, events, key);
            && Lookup(Run(rows, events), key) == RowRun(current, touches)
            && (RightThroughout(current, touches) <==> CleanStart(touches) && NoneForgottenFrom(current, touches, FirstSeen(touches) + 1))
  {
    hide QuietRun, Touches, Run, RowRun, TracksFirst, Clocked;
    LedgerRightIff(rows, events, key);
    FairFromBlank(Lookup(rows, key), History(rows, events, key));
  }

  /** When a touch is heard fairly, by its place. */
  ghost predicate FairWhen(current: Option<Row>, touches: seq<Touch>, i: nat)
    requires i < |touches|
  {
    var k := FirstSeen(touches);
    if i < k then true else if i == k then CleanStart(touches) else StillCounted(current, touches, i)
  }

  lemma HeardWhen(current: Option<Row>, touches: seq<Touch>, i: nat)
    requires Uncounted(current) && i < |touches|
    ensures HeardFairly(current, touches, i) <==> FairWhen(current, touches, i)
  {
    var k := FirstSeen(touches);
    if i == k {
      StartHeard(current, touches);
    } else if i > k {
      SomethingSeen(current, touches[..i], k);
    }
    hide Blank, Trail, NoBytes, CleanStart, FirstSeen, Uncounted;
  }

  lemma FairFromBlank(current: Option<Row>, touches: seq<Touch>)
    requires Uncounted(current)
    ensures (forall i :: 0 <= i < |touches| ==> HeardFairly(current, touches, i))
       <==> CleanStart(touches) && NoneForgottenFrom(current, touches, FirstSeen(touches) + 1)
  {
    hide HeardFairly, StillCounted, CleanStart, FirstSeen, Uncounted;
    forall i | 0 <= i < |touches| ensures HeardFairly(current, touches, i) <==> FairWhen(current, touches, i) {
      HeardWhen(current, touches, i);
    }
    CleanUnlessSeen(touches);
    var k := FirstSeen(touches);
    if forall i :: 0 <= i < |touches| ==> HeardFairly(current, touches, i) {
      forall i | k < i < |touches| ensures StillCounted(current, touches, i) {
        assert HeardFairly(current, touches, i);
      }
      assert k < |touches| ==> HeardFairly(current, touches, k);
    }
  }

  lemma CleanUnlessSeen(touches: seq<Touch>)
    ensures FirstSeen(touches) == |touches| ==> CleanStart(touches)
  {
  }

  lemma StartHeard(current: Option<Row>, touches: seq<Touch>)
    requires Uncounted(current) && FirstSeen(touches) < |touches|
    ensures HeardFairly(current, touches, FirstSeen(touches)) <==> CleanStart(touches)
  {
    BlankStart(current, touches[..FirstSeen(touches)]);
    hide Blank, Trail, Uncounted, Harmless, FirstSeen, NoBytes;
  }

  lemma BlankStart(current: Option<Row>, notes: seq<Touch>)
    requires Uncounted(current) && AllNoted(notes)
    ensures Trail(current, notes) == [] && (Blank(current, notes) <==> Harmless(notes))
  {
    NotesSeeNothing(notes);
    hide MissingRawBaseline, BaselineOnlyStatus;
  }

  lemma {:induction false} SomethingSeen(current: Option<Row>, touches: seq<Touch>, k: nat)
    requires k < |touches| && touches[k].Seen?
    ensures Trail(current, touches) != []
    decreases |touches|
  {
    hide Base;
    if k < |touches| - 1 {
      SomethingSeen(current, touches[..|touches| - 1], k);
    }
  }

  // ---------- Sightings at zero ----------

  /** Nothing but sightings, under statuses that say nothing about counters, as a sync reports them. */
  predicate Unmarked(touches: seq<Touch>) {
    forall i :: 0 <= i < |touches| ==> touches[i].Seen? && BaselineOnlyStatus(touches[i].st.status, touches[i].st.message)
  }

  lemma ClockedPrefix(current: Option<Row>, touches: seq<Touch>, n: nat)
    requires Clocked(current, touches) && n <= |touches|
    ensures Clocked(current, touches[..n])
  {
  }

  lemma {:induction false} SightsAt(touches: seq<Touch>, i: nat)
    requires i < |touches| && forall j :: 0 <= j < |touches| ==> touches[j].Seen?
    ensures |Sights(touches)| == |touches| && Sights(touches)[i] == (touches[i].st.up, touches[i].st.down)
    decreases |touches|
  {
    if |touches| > 1 {
      SightsAt(touches[..|touches| - 1], if i == |touches| - 1 then 0 else i);
    } else {
      OneSight(touches[0]);
      assert touches == [touches[0]];
    }
  }

  /**
   Exactly when a scope's first bytes are lost: a new scope that is only sighted, at increasing times, has the
   gains as totals if and only if its first counters are not both zero or its second ones hold no bytes.
   */
  lemma ZeroStart(rows: Rows, events: seq<Event>, key: Key)
    requires key !in rows && QuietRun(rows, events, key)
    requires Unmarked(History(rows, events, key)) && Clocked(None, History(rows, events, key))
    ensures var trail := Sights(History(rows, events, key));
            |trail| > 0 ==>
              (Tracks(Lookup(Run(rows, events), key), (0, 0), trail) <==> |trail| == 1 || trail[0] != (0, 0) || NoBytes(trail[1]))
  {
    hide QuietRun, Touches, Tracks, Run, Touched, RowRun, Sights, BaselineOnlyStatus, MissingRawBaseline;
    LedgerFromBlank(rows, events, key);
    var touches := History(rows, events, key);
    if touches != [] {
      assert FirstSeen(touches) == 0;
      assert CleanStart(touches);
      SightsAt(touches, 0);
      if |touches| > 1 {
        SightsAt(touches, 1);
      }
      var first, later := Started(None, touches), touches[1..];
      forall i | 0 <= i < |later| ensures Uncounted(RowRun(first, later[..i])) <==> i == 0 && Sights(touches)[0] == (0, 0) {
        StartedThen(touches, i);
      }
      CountedUnless(first, later, Sights(touches)[0] == (0, 0));
    } else {
      assert Sights(touches) == [] by { NotesSeeNothing(touches); }
    }
  }

  lemma CountedUnless(current: Option<Row>, touches: seq<Touch>, blank: bool)
    requires forall i :: 0 <= i < |touches| ==> touches[i].Seen?
    requires forall i :: 0 <= i < |touches| ==> (Uncounted(RowRun(current, touches[..i])) <==> i == 0 && blank)
    ensures Counted(current, touches) <==> touches == [] || !blank || NoBytes((touches[0].st.up, touches[0].st.down))
  {
    hide RowRun, Uncounted;
    if touches != [] && blank && !NoBytes((touches[0].st.up, touches[0].st.down)) {
      assert Uncounted(RowRun(current, touches[..0]));
      var i := 0;
      assert 0 <= i < |touches| && touches[i].Seen? && Uncounted(RowRun(current, touches[..i]));
    }
  }

  lemma StartedThen(touches: seq<Touch>, i: nat)
    requires Unmarked(touches) && Clocked(None, touches) && i + 1 < |touches|
    ensures Uncounted(RowRun(Started(None, touches), touches[1..][..i])) <==> i == 0 && Sights(touches)[0] == (0, 0)
  {
    hide Touched, Uncounted, BaselineOnlyStatus, Sights;
    SightsAt(touches, 0);
    var n := i + 1;
    ClockedPrefix(None, touches, n);
    UncountedIffBlank(None, touches[..n]);
    var one: seq<Touch> := [touches[0]];
    assert touches[..n] == one + touches[1..][..i];
    RowRunConcat(None, one, touches[1..][..i]);
    RowRunOne(None, touches[0]);
    assert touches[..0] == [];
  }

  // ---------- Markers ----------

  function WithoutMarkers(events: seq<Event>): seq<Event> {
    if events == [] then []
    else
      var e := events[|events| - 1];
      WithoutMarkers(events[..|events| - 1]) + (if e.Unavailable? || e.Scopes? then [] else [e])
  }

  /** The sightings among the touches. */
  function OnlySeen(touches: seq<Touch>): seq<Touch> {
    if touches == [] then []
    else OnlySeen(touches[..|touches| - 1]) + (if touches[|touches| - 1].Seen? then [touches[|touches| - 1]] else [])
  }

  lemma {:induction false} OnlySeenConcat(a: seq<Touch>, b: seq<Touch>)
    ensures OnlySeen(a + b) == OnlySeen(a) + OnlySeen(b)
    decreases |b|
  {
    if b == [] {
      assert a + b == a;
    } else {
      assert (a + b)[..|a + b| - 1] == a + b[..|b| - 1];
      OnlySeenConcat(a, b[..|b| - 1]);
    }
  }

  predicate AllSeen(touches: seq<Touch>) {
    forall i :: 0 <= i < |touches| ==> touches[i].Seen?
  }

  predicate AllNoted(touches: seq<Touch>) {
    forall i :: 0 <= i < |touches| ==> touches[i].Noted?
  }

  lemma {:induction false} OnlySeenAll(touches: seq<Touch>)
    ensures AllSeen(touches) ==> OnlySeen(touches) == touches
    ensures AllNoted(touches) ==> OnlySeen(touches) == []
    decreases |touches|
  {
    if touches != [] {
      OnlySeenAll(touches[..|touches| - 1]);
    }
  }

  lemma {:induction false} OnlySeenSights(touches: seq<Touch>)
    ensures Sights(OnlySeen(touches)) == Sights(touches)
    decreases |touches|
  {
    if touches != [] {
      var init, t := touches[..|touches| - 1], touches[|touches| - 1];
      OnlySeenSights(init);
      if t.Seen? {
        SightsConcat(OnlySeen(init), [t]);
        OneSight(t);
      } else {
        assert OnlySeen(touches) == OnlySeen(init);
      }
    }
  }

  ghost predicate OccursIn(t: Touch, touches: seq<Touch>) {
    exists i :: 0 <= i < |touches| && touches[i] == t
  }

  lemma OccursMore(t: Touch, touches: seq<Touch>)
    requires touches != [] && OccursIn(t, touches[..|touches| - 1])
    ensures OccursIn(t, touches)
  {
    var i :| 0 <= i < |touches| - 1 && touches[..|touches| - 1][i] == t;
    assert touches[i] == t;
  }

  lemma {:induction false} OnlySeenOccurs(touches: seq<Touch>)
    ensures forall t :: t in OnlySeen(touches) ==> t.Seen? && OccursIn(t, touches)
    decreases |touches|
  {
    if touches != [] {
      var init, last := touches[..|touches| - 1], touches[|touches| - 1];
      OnlySeenOccurs(init);
      forall t | t in OnlySeen(touches) ensures t.Seen? && OccursIn(t, touches) {
        if t in OnlySeen(init) {
          OccursMore(t, touches);
        } else {
          assert touches[|touches| - 1] == t;
        }
      }
    }
  }

  lemma {:induction false} OnlySeenClocked(current: Option<Row>, touches: seq<Touch>)
    requires Clocked(current, touches)
    ensures Clocked(current, OnlySeen(touches))
    decreases |touches|
  {
    if touches != [] {
      var init, t := touches[..|touches| - 1], touches[|touches| - 1];
      ClockedPrefix(current, touches, |init|);
      OnlySeenClocked(current, init);
      OnlySeenOccurs(init);
      ClockedOneMore(current, OnlySeen(init), touches);
    }
  }

  lemma ClockedOneMore(current: Option<Row>, kept: seq<Touch>, touches: seq<Touch>)
    requires touches != [] && Clocked(current, touches) && Clocked(current, kept)
    requires forall t :: t in kept ==> OccursIn(t, touches[..|touches| - 1])
    ensures var t := touches[|touches| - 1]; Clocked(current, kept + if t.Seen? then [t] else [])
  {
    var t := touches[|touches| - 1];
    if t.Seen? {
      forall i | 0 <= i < |kept| ensures kept[i].now < t.now {
        assert kept[i] in kept;
        assert OccursIn(kept[i], touches[..|touches| - 1]);
        var j :| 0 <= j < |touches| - 1 && touches[..|touches| - 1][j] == kept[i];
        assert touches[j].now < touches[|touches| - 1].now;
      }
    } else {
      assert kept + [] == kept;
    }
  }

  lemma {:induction false} SeenInSeen(stats: seq<Stat>, key: Key, now: int)
    ensures forall i :: 0 <= i < |SeenIn(stats, key, now)| ==> SeenIn(stats, key, now)[i].Seen?
    decreases |stats|
  {
    if stats != [] {
      SeenInSeen(stats[..|stats| - 1], key, now);
    }
  }

  lemma {:induction false} NotesInNoted(markers: seq<Marker>, key: Key, now: int)
    ensures forall i :: 0 <= i < |NotesIn(markers, key, now)| ==> NotesIn(markers, key, now)[i].Noted?
    decreases |markers|
  {
    hide MarkerKey, StatusOr;
    if markers != [] {
      NotesInNoted(markers[..|markers| - 1], key, now);
    }
  }

  lemma EventWithoutMarkers(e: Event, key: Key)
    ensures OnlySeen(TouchesOf(true, e, key)) == if e.Unavailable? || e.Scopes? then [] else TouchesOf(true, e, key)
  {
    hide Normalize, Token, StatusOr, Trim, OnlySeen, SeenIn, NotesIn;
    OnlySeenAll(TouchesOf(true, e, key));
    match e
    case Observe(raws, _, now) => SeenInSeen(Normalize(raws), key, now);
    case Scopes(markers, now) => NotesInNoted(markers, key, now);
    case Unavailable(_, _, _, _) =>
    case Reset(_, _, _, _) =>
  }

  lemma {:induction false} TouchesWithoutMarkers(events: seq<Event>, key: Key)
    ensures Touches(true, WithoutMarkers(events), key) == OnlySeen(Touches(true, events, key))
    ensures forall i :: 0 <= i < |WithoutMarkers(events)| ==> WithoutMarkers(events)[i] in events
    decreases |events|
  {
    hide TouchesOf, OnlySeen;
    if events != [] {
      var init, e := events[..|events| - 1], events[|events| - 1];
      TouchesWithoutMarkers(init, key);
      EventWithoutMarkers(e, key);
      OnlySeenConcat(Touches(true, init, key), TouchesOf(true, e, key));
      var kept := WithoutMarkers(init);
      if e.Unavailable? || e.Scopes? {
        assert WithoutMarkers(events) == kept;
      } else {
        assert (kept + [e])[..|kept|] == kept;
      }
      assert forall x :: x in init ==> x in events;
    } else {
      OnlySeenAll([]);
    }
  }

  /** On a counted row sightings alone, at increasing times, lose nothing, zeros included. */
  lemma SeenAloneCounts(current: Option<Row>, touches: seq<Touch>)
    requires current.Some? && !Uncounted(current) && Clocked(current, touches)
    requires forall i :: 0 <= i < |touches| ==> touches[i].Seen?
    ensures Counted(current, touches)
  {
    hide RowRun, Uncounted, BaselineOnlyStatus;
    forall i | 0 <= i < |touches| ensures !Uncounted(RowRun(current, touches[..i])) {
      ClockedPrefix(current, touches, i);
      UncountedIffBlank(current, touches[..i]);
    }
  }

  /** No sighting with bytes comes right after a marker that makes a zero row forget that it was counted. */
  predicate NoneForgotten(current: Option<Row>, touches: seq<Touch>) {
    NoneForgottenFrom(current, touches, 0)
  }

  lemma CountedIffNoneForgotten(current: Option<Row>, touches: seq<Touch>)
    requires Clocked(current, touches)
    ensures Counted(current, touches) <==> NoneForgotten(current, touches)
  {
    hide RowRun, Uncounted, Blank;
    forall i | 0 <= i < |touches| ensures Uncounted(RowRun(current, touches[..i])) <==> Blank(current, touches[..i]) {
      ClockedPrefix(current, touches, i);
      UncountedIffBlank(current, touches[..i]);
    }
    if NoneForgotten(current, touches) {
      forall i | 0 <= i < |touches| && touches[i].Seen? && !NoBytes((touches[i].st.up, touches[i].st.down)) ensures !Uncounted(RowRun(current, touches[..i])) {
        assert StillCounted(current, touches, i);
      }
    } else {
      var i :| 0 <= i < |touches| && !StillCounted(current, touches, i);
      assert touches[i].Seen? && Uncounted(RowRun(current, touches[..i]));
    }
  }

  /**
   On a counted row and at increasing times, deleting every marker from a run leaves totals and last counters
   as they are if and only if no sighting with bytes comes right after a marker on a zero row whose status
   only speaks of a missing baseline.
   */
  lemma MarkersIrrelevantIff(rows: Rows, events: seq<Event>, key: Key)
    requires key in rows && !Uncounted(Some(rows[key])) && QuietRun(rows, events, key) && QuietRun(rows, WithoutMarkers(events), key)
    requires Clocked(Some(rows[key]), History(rows, events, key))
    ensures var marked, plain := Lookup(Run(rows, events), key), Lookup(Run(rows, WithoutMarkers(events)), key);
            && marked.Some? && plain.Some? && Raw(marked) == Raw(plain)
            && (Totals(marked) == Totals(plain) <==> NoneForgotten(Some(rows[key]), History(rows, events, key)))
  {
    hide QuietRun, Touches, Run, RowRun, Uncounted, Sights, Counted, NoneForgotten, Clocked, OnlySeen, Base, Tracks, Stands, WithoutMarkers;
    var current, touches := Some(rows[key]), History(rows, events, key);
    var kept := WithoutMarkers(events);
    TouchesWithoutMarkers(events, key);
    OnlySeenSights(touches);
    OnlySeenOccurs(touches);
    OnlySeenClocked(current, touches);
    SeenAloneCounts(current, OnlySeen(touches));
    LedgerContinues(rows, events, key);
    LedgerContinues(rows, kept, key);
    CountedIffNoneForgotten(current, touches);
    CountedBase(current);
    var marked, plain := Lookup(Run(rows, events), key), Lookup(Run(rows, kept), key);
    assert Trail(current, History(rows, kept, key)) == Trail(current, touches);
    SameTrail(marked, plain, Totals(current), Trail(current, touches));
  }

  /** Of two rows on one trail of which one has the gains as totals, the other agrees exactly if it has them too. */
  lemma SameTrail(a: Option<Row>, b: Option<Row>, start: (int, int), trail: seq<Sighting>)
    requires trail != [] && Stands(a, trail) && Tracks(b, start, trail)
    ensures a.Some? && b.Some? && Raw(a) == Raw(b) && (Totals(a) == Totals(b) <==> Tracks(a, start, trail))
  {
    hide Gains, Ups, Downs;
  }

  lemma CountedBase(current: Option<Row>)
    requires !Uncounted(current)
    ensures Base(current) == [Raw(current)]
  {
  }

  // ---------- Resets ----------

  /** The counters from which a reset client is counted again; none when the reset had no usable baseline. */
  function BaselineTrail(e: Event, key: Key): seq<Sighting>
    requires e.Reset?
  {
    var m := BaselineByEngine(e.statsKey, e.baselines);
    if key.engine in m && (m[key.engine].up, m[key.engine].down) != (0, 0) then [(m[key.engine].up, m[key.engine].down)] else []
  }

  lemma ResetGivesRow(rows: Rows, e: Event, key: Key)
    requires e.Reset? && key == Key(key.engine, "client", e.statsKey) && key.engine in ResetEngines(rows, e.statsKey, e.expected, e.baselines)
    ensures var m := BaselineByEngine(e.statsKey, e.baselines);
            key in Apply(rows, e) && Apply(rows, e)[key] == ResetRow(if key.engine in m then Some(m[key.engine]) else None, e.now)
  {
    hide ResetEngines, BaselineByEngine, ResetRow;
    var m, engines := BaselineByEngine(e.statsKey, e.baselines), ResetEngines(rows, e.statsKey, e.expected, e.baselines);
    assert key in ResetRows(engines, m, e.statsKey, e.now);
  }

  lemma NoBaselineNote()
    ensures Token(NO_BASELINE) == NO_BASELINE
  {
    hide Token, Trim;
    TokenKeeps(NO_BASELINE);
  }

  lemma NoBaselineIsUncounted()
    ensures BaselineOnlyStatus("unavailable", NO_BASELINE)
  {
    NoBaselineNote();
    hide Token;
    assert "baseline unavailable" <= NO_BASELINE;
    assert Contains(NO_BASELINE, "baseline unavailable");
    assert Trim("unavailable") == "unavailable";
  }

  lemma WaitingIsUncounted(message: string)
    ensures BaselineOnlyStatus("waiting", message)
  {
    hide Contains, Token;
    assert Trim("waiting") == "waiting";
  }

  /** The markers of a sync for scopes that it expects but has not seen keep the start clean, whatever they say. */
  lemma WaitingIsClean(touches: seq<Touch>)
    requires forall i :: 0 <= i < FirstSeen(touches) ==> touches[i].status == "waiting"
    ensures CleanStart(touches)
  {
    hide BaselineOnlyStatus, NoBytes;
    var k := FirstSeen(touches);
    if k > 0 {
      WaitingIsUncounted(touches[k - 1].message);
    }
  }

  lemma ResetRowStands(baseline: Option<RawStat>, now: int)
    ensures var r := ResetRow(baseline, now);
            && Totals(Some(r)) == (0, 0)
            && Raw(Some(r)) == (if baseline.Some? then (baseline.value.up, baseline.value.down) else (0, 0))
            && (Raw(Some(r)) == (0, 0) <==> Uncounted(Some(r)))
  {
    hide BaselineOnlyStatus;
    NoBaselineIsUncounted();
    WaitingIsUncounted("baseline reset");
  }

  /** Where a reset leaves the client: at zero totals, counting from the baseline if there is one. */
  lemma ResetStands(rows: Rows, reset: Event, key: Key)
    requires reset.Reset? && key == Key(key.engine, "client", reset.statsKey)
    requires key.engine in ResetEngines(rows, reset.statsKey, reset.expected, reset.baselines)
    ensures var after := Lookup(Apply(rows, reset), key);
            after.Some? && Totals(after) == (0, 0) && Base(after) == BaselineTrail(reset, key)
  {
    hide ResetEngines, BaselineByEngine, ResetClient, ResetRow, MissingRawBaseline;
    ResetGivesRow(rows, reset, key);
    var m := BaselineByEngine(reset.statsKey, reset.baselines);
    ResetRowStands(if key.engine in m then Some(m[key.engine]) else None, reset.now);
  }

  /**
   At the end of any later run, whatever the times: with a baseline the totals are right if and only if every
   sighting with bytes is counted, and without one the same holds after a clean start.
   */
  lemma ResetThenAnything(rows: Rows, reset: Event, events: seq<Event>, key: Key)
    requires reset.Reset? && key == Key(key.engine, "client", reset.statsKey)
    requires key.engine in ResetEngines(rows, reset.statsKey, reset.expected, reset.baselines)
    requires QuietRun(Apply(rows, reset), events, key)
    ensures var after := Apply(rows, reset);
            var touches, base, r := History(after, events, key), BaselineTrail(reset, key), Lookup(Run(after, events), key);
            var k := FirstSeen(touches);
            && (base != [] ==> (Tracks(r, (0, 0), base + Sights(touches)) <==> Counted(Lookup(after, key), touches)))
            && (base == [] && k < |touches| && CleanStart(touches) ==>
                  (Tracks(r, (0, 0), Sights(touches)) <==> Counted(Started(Lookup(after, key), touches), touches[k + 1..])))
  {
    hide QuietRun, Touches, Tracks, Run, Sights, FirstSeen, CleanStart, ResetEngines, BaselineTrail, Apply, Counted, Touched, RowRun;
    ResetStands(rows, reset, key);
    var after := Apply(rows, reset);
    if BaselineTrail(reset, key) != [] {
      CountedFromBaseline(Lookup(after, key), reset, key);
      LedgerContinues(after, events, key);
    } else {
      LedgerFromBlank(after, events, key);
    }
    hide Uncounted;
  }

  lemma CountedFromBaseline(current: Option<Row>, reset: Event, key: Key)
    requires reset.Reset? && Base(current) == BaselineTrail(reset, key) != []
    ensures BaselineTrail(reset, key) == [Raw(current)] && Raw(current) != (0, 0)
  {
    hide BaselineByEngine, MissingRawBaseline;
  }

  /**
   A reset is clean for good, zeros included and at increasing times: over any later run, with whatever happens
   to others and however the client is marked, its totals count from the baseline, or from the first sighting when
   there was none, and nothing counted before comes back, if and only if no bytes come on a row that
   forgot it was counted and, without a baseline, the start is clean.
   */
  lemma ResetThenRun(rows: Rows, reset: Event, events: seq<Event>, key: Key)
    requires reset.Reset? && key == Key(key.engine, "client", reset.statsKey)
    requires key.engine in ResetEngines(rows, reset.statsKey, reset.expected, reset.baselines)
    requires QuietRun(Apply(rows, reset), events, key)
    requires Clocked(Lookup(Apply(rows, reset), key), History(Apply(rows, reset), events, key))
    ensures var after := Lookup(Apply(rows, reset), key);
            var touches := History(Apply(rows, reset), events, key);
            && Totals(after) == (0, 0) && Base(after) == BaselineTrail(reset, key)
            && Lookup(Run(Apply(rows, reset), events), key) == RowRun(after, touches)
            && (RightThroughout(after, touches) <==>
                  if BaselineTrail(reset, key) != [] then NoneForgotten(after, touches)
                  else CleanStart(touches) && NoneForgottenFrom(after, touches, FirstSeen(touches) + 1))
  {
    hide QuietRun, Touches, Run, RowRun, Clocked, FirstSeen, CleanStart, ResetEngines, BaselineTrail, Apply, NoneForgottenFrom,
         RightThroughout, MissingRawBaseline, HeardFairly;
    ResetStands(rows, reset, key);
    var u := Apply(rows, reset);
    if BaselineTrail(reset, key) != [] {
      LedgerRightIff(u, events, key);
      FairFromCounted(Lookup(u, key), History(u, events, key));
    } else {
      LedgerFromFirstSight(u, events, key);
    }
  }

  lemma FairFromCounted(current: Option<Row>, touches: seq<Touch>)
    requires !Uncounted(current)
    ensures (forall i :: 0 <= i < |touches| ==> HeardFairly(current, touches, i)) <==> NoneForgotten(current, touches)
  {
    hide Blank, Sights, Uncounted, NoBytes;
    forall i | 0 <= i < |touches| ensures HeardFairly(current, touches, i) <==> StillCounted(current, touches, i) {
      assert Trail(current, touches[..i])[0] == Raw(current);
    }
    hide HeardFairly, StillCounted;
    if NoneForgotten(current, touches) {
      assert forall i :: 0 <= i < |touches| ==> StillCounted(current, touches, i);
    }
  }

  /** Any later sightings, zeros included, at increasing times: after a reset with a baseline only a marker on a zero row can make it forget. */
  lemma BaselineThenRun(rows: Rows, reset: Event, events: seq<Event>, key: Key)
    requires reset.Reset? && key == Key(key.engine, "client", reset.statsKey) && BaselineTrail(reset, key) != []
    requires key.engine in ResetEngines(rows, reset.statsKey, reset.expected, reset.baselines)
    requires QuietRun(Apply(rows, reset), events, key)
    requires Clocked(Lookup(Apply(rows, reset), key), History(Apply(rows, reset), events, key))
    ensures var after := Apply(rows, reset);
            var touches := History(after, events, key);
            Tracks(Lookup(Run(after, events), key), (0, 0), BaselineTrail(reset, key) + Sights(touches)) <==> NoneForgotten(Lookup(after, key), touches)
  {
    hide QuietRun, Touches, Tracks, Run, Sights, NoneForgotten, ResetEngines, BaselineTrail, Apply, Clocked, Counted;
    ResetStands(rows, reset, key);
    var after := Apply(rows, reset);
    CountedFromBaseline(Lookup(after, key), reset, key);
    hide MissingRawBaseline;
    LedgerContinues(after, events, key);
    CountedIffNoneForgotten(Lookup(after, key), History(after, events, key));
  }

  /** What the first sighting after markers adds to an uncounted row: nothing if they are harmless, and otherwise its whole counters. */
  lemma FirstGain(current: Option<Row>, notes: seq<Touch>, t: Touch)
    requires Uncounted(current) && AllNoted(notes) && t.Seen?
    ensures var before := Totals(current);
            Totals(RowRun(current, notes + [t])) == if Harmless(notes) then before else (before.0 + Bytes(t.st.up), before.1 + Bytes(t.st.down))
  {
    hide Uncounted, Harmless, Touched, Sights;
    FirstStep(current, notes, t);
    NoGainsYet((t.st.up, t.st.down));
    RowRunConcat(current, notes, [t]);
    RowRunOne(RowRun(current, notes), t);
    hide RowRun;
  }

  lemma FirstGainAfterMarkers(rows: Rows, events: seq<Event>, key: Key, notes: seq<Touch>, t: Touch)
    requires Uncounted(Lookup(rows, key)) && QuietRun(rows, events, key)
    requires History(rows, events, key) == notes + [t] && AllNoted(notes) && t.Seen?
    ensures var before, r := Totals(Lookup(rows, key)), Totals(Lookup(Run(rows, events), key));
            r == if Harmless(notes) then before else (before.0 + Bytes(t.st.up), before.1 + Bytes(t.st.down))
  {
    hide QuietRun, Touches, Run, Uncounted, Harmless, RowRun, Totals;
    RunTouches(rows, events, key);
    FirstGain(Lookup(rows, key), notes, t);
  }

  lemma NoGainsYet(s: Sighting)
    ensures Gains(Ups([s])) == 0 && Gains(Downs([s])) == 0
  {
  }
}
