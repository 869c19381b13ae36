/**
 * The polling loops behind the observable properties share one shape: at
 * every tick they read the hardware if the system is operational (and
 * otherwise keep the value read last), then decide whether to publish.
 * This module defines that shape once, as functions over the ticks a loop
 * sees, together with what the loops promise about it.
 */
module Streams {
  import opened Common
  import opened Tolerance

  /** The value a loop holds after a tick: the fresh reading, or the held one while degraded. */
  function Hold<T>(current: T, t: Tick<T>): T
  {
    if t.operational then t.reading else current
  }

  /** The value held at each tick, starting from `current`. */
  function HeldReadings<T>(ticks: seq<Tick<T>>, current: T): (r: seq<T>)
    ensures |r| == |ticks|
    decreases |ticks|
  {
    if ticks == [] then [] else [Hold(current, ticks[0])] + HeldReadings(ticks[1..], Hold(current, ticks[0]))
  }

  /** A held value is the most recent operational reading, or the start value if there is none. */
  lemma {:induction false} HeldIsLastOperationalReading<T>(ticks: seq<Tick<T>>, current: T, k: nat)
    requires k < |ticks|
    ensures HeldReadings(ticks, current)[k]
            == if ticks[k].operational then ticks[k].reading
               else if k == 0 then current
               else HeldReadings(ticks, current)[k - 1]
    decreases k
  {
    var next := Hold(current, ticks[0]);
    if k > 0 {
      HeldIsLastOperationalReading(ticks[1..], next, k - 1);
      if k > 1 {
        assert HeldReadings(ticks, current)[k - 1] == HeldReadings(ticks[1..], next)[k - 2];
      }
    }
  }

  // ---------------------------------------------------------------------
  // Change detection on booleans

  /**
   * The state of a change-detecting loop: the value it holds (`new_*`) and
   * the value it last published (the sentinel before the first).
   */
  datatype Watch<T> = Watch(current: T, last: T)

  /** The values published for `ticks`: a held value goes out whenever it differs from the last one sent. */
  function BoolChanges(ticks: seq<Tick<bool>>, w: Watch<bool>): seq<bool>
    decreases |ticks|
  {
    if ticks == [] then []
    else
      var now := Hold(w.current, ticks[0]);
      if now != w.last then [now] + BoolChanges(ticks[1..], Watch(now, now))
      else BoolChanges(ticks[1..], Watch(now, w.last))
  }

  /** The changes from tick `k` on are the change at tick `k`, if any, then the changes after it. */
  lemma BoolChangesStep(ticks: seq<Tick<bool>>, k: nat, w: Watch<bool>)
    requires k < |ticks|
    ensures var now := Hold(w.current, ticks[k]);
            BoolChanges(ticks[k..], w)
            == if now != w.last then [now] + BoolChanges(ticks[k + 1..], Watch(now, now))
               else BoolChanges(ticks[k + 1..], Watch(now, w.last))
  {
    assert ticks[k..][0] == ticks[k] && ticks[k..][1..] == ticks[k + 1..];
  }

  /** After `emitted`, the changes `whole` go on as the changes of `ticks[i..]` from state `w`. */
  ghost predicate BoolResumes(ticks: seq<Tick<bool>>, i: nat, w: Watch<bool>, whole: seq<bool>, emitted: seq<bool>)
  {
    i <= |ticks| && emitted + BoolChanges(ticks[i..], w) == whole
  }

  /** One tick moves a resumed boolean stream on, emitting the held value when it changed. */
  lemma BoolResumesStep(ticks: seq<Tick<bool>>, i: nat, w: Watch<bool>, whole: seq<bool>, emitted: seq<bool>)
    requires i < |ticks| && BoolResumes(ticks, i, w, whole, emitted)
    ensures var now := Hold(w.current, ticks[i]);
            if now != w.last then BoolResumes(ticks, i + 1, Watch(now, now), whole, emitted + [now])
            else BoolResumes(ticks, i + 1, Watch(now, w.last), whole, emitted)
  {
    BoolChangesStep(ticks, i, w);
    var now := Hold(w.current, ticks[i]);
    if now != w.last {
      var rest := BoolChanges(ticks[i + 1..], Watch(now, now));
      assert BoolChanges(ticks[i..], w) == [now] + rest;
      assert emitted + ([now] + rest) == (emitted + [now]) + rest;
    }
  }

  /** A stream resumed past its last tick has emitted everything. */
  lemma BoolResumesEnd(ticks: seq<Tick<bool>>, w: Watch<bool>, whole: seq<bool>, emitted: seq<bool>)
    requires BoolResumes(ticks, |ticks|, w, whole, emitted)
    ensures emitted == whole
  {
    assert ticks[|ticks|..] == [];
  }

  /** Reference definition: the values of `values` that differ from their predecessor (`last` for the first). */
  function Dedup(values: seq<bool>, last: bool): seq<bool>
    decreases |values|
  {
    if values == [] then []
    else if values[0] != last then [values[0]] + Dedup(values[1..], values[0])
    else Dedup(values[1..], last)
  }

  /** A boolean stream publishes exactly the changes of the held values. */
  lemma {:induction false} BoolChangesIsDedup(ticks: seq<Tick<bool>>, current: bool, last: bool)
    ensures BoolChanges(ticks, Watch(current, last)) == Dedup(HeldReadings(ticks, current), last)
    decreases |ticks|
  {
    if ticks != [] {
      var now := Hold(current, ticks[0]);
      var held := HeldReadings(ticks, current);
      assert held[0] == now && held[1..] == HeldReadings(ticks[1..], now);
      if now != last {
        BoolChangesIsDedup(ticks[1..], now, now);
      } else {
        BoolChangesIsDedup(ticks[1..], now, last);
      }
    }
  }

  /** Consecutive published values always differ. */
  lemma {:induction false} DedupAlternates(values: seq<bool>, last: bool)
    ensures forall i :: 0 <= i < |Dedup(values, last)| ==> Dedup(values, last)[i] == if i % 2 == 0 then !last else last
    decreases |values|
  {
    if values != [] {
      if values[0] != last {
        DedupAlternates(values[1..], values[0]);
        var rest := Dedup(values[1..], values[0]);
        assert Dedup(values, last) == [values[0]] + rest;
        forall i | 0 <= i < |Dedup(values, last)|
          ensures Dedup(values, last)[i] == if i % 2 == 0 then !last else last
        {
          if i > 0 {
            assert Dedup(values, last)[i] == rest[i - 1];
          }
        }
      } else {
        DedupAlternates(values[1..], last);
      }
    }
  }

  /**
   * The sentinel `not first` of a boolean stream: the first tick publishes
   * exactly when the value it holds still equals the value read at
   * subscription; a flip between the two reads is swallowed.
   */
  lemma FirstBoolPublished(first: bool, t: Tick<bool>, rest: seq<Tick<bool>>)
    ensures var out := BoolChanges([t] + rest, Watch(first, !first));
            (Hold(first, t) == first ==> out != [] && out[0] == first)
            && (Hold(first, t) != first ==> out == BoolChanges(rest, Watch(!first, !first)))
  {
    assert ([t] + rest)[0] == t && ([t] + rest)[1..] == rest;
  }

  // ---------------------------------------------------------------------
  // Change detection on reals, up to a relative tolerance

  /** The value a real-valued loop publishes at tick `t`, if any. */
  predicate RealEmits(w: Watch<real>, t: Tick<real>, relTol: real)
  {
    !IsClose(Hold(w.current, t), w.last, relTol)
  }

  /** The loop's state after tick `t`: a published value becomes the new reference. */
  function RealStep(w: Watch<real>, t: Tick<real>, relTol: real): (r: Watch<real>)
    ensures r.current == Hold(w.current, t)
    ensures r.last == if RealEmits(w, t, relTol) then r.current else w.last
  {
    var now := Hold(w.current, t);
    if !IsClose(now, w.last, relTol) then Watch(now, now) else Watch(now, w.last)
  }

  /** The values published for `ticks`. */
  function RealChanges(ticks: seq<Tick<real>>, w: Watch<real>, relTol: real): seq<real>
    decreases |ticks|
  {
    if ticks == [] then []
    else (if RealEmits(w, ticks[0], relTol) then [Hold(w.current, ticks[0])] else [])
         + RealChanges(ticks[1..], RealStep(w, ticks[0], relTol), relTol)
  }

  /** The changes from tick `k` on are the change at tick `k`, if any, then the changes after it. */
  lemma RealChangesStep(ticks: seq<Tick<real>>, k: nat, w: Watch<real>, relTol: real)
    requires k < |ticks|
    ensures RealChanges(ticks[k..], w, relTol)
            == (if RealEmits(w, ticks[k], relTol) then [Hold(w.current, ticks[k])] else [])
               + RealChanges(ticks[k + 1..], RealStep(w, ticks[k], relTol), relTol)
  {
    assert ticks[k..][0] == ticks[k] && ticks[k..][1..] == ticks[k + 1..];
  }

  /** After `emitted`, the changes `whole` go on as the changes of `ticks[i..]` from state `w`. */
  ghost predicate RealResumes(ticks: seq<Tick<real>>, i: nat, w: Watch<real>, relTol: real, whole: seq<real>, emitted: seq<real>)
  {
    i <= |ticks| && emitted + RealChanges(ticks[i..], w, relTol) == whole
  }

  /** One tick moves a resumed real stream on, emitting the held value when it moved out of tolerance. */
  lemma RealResumesStep(ticks: seq<Tick<real>>, i: nat, w: Watch<real>, relTol: real, whole: seq<real>, emitted: seq<real>)
    requires i < |ticks| && RealResumes(ticks, i, w, relTol, whole, emitted)
    ensures var next := RealStep(w, ticks[i], relTol);
            RealResumes(ticks, i + 1, next, relTol, whole,
                        emitted + if RealEmits(w, ticks[i], relTol) then [next.current] else [])
  {
    RealChangesStep(ticks, i, w, relTol);
    var next := RealStep(w, ticks[i], relTol);
    var now: seq<real> := if RealEmits(w, ticks[i], relTol) then [next.current] else [];
    var rest := RealChanges(ticks[i + 1..], next, relTol);
    assert RealChanges(ticks[i..], w, relTol) == now + rest;
    assert emitted + (now + rest) == (emitted + now) + rest;
  }

  /** A stream resumed past its last tick has emitted everything. */
  lemma RealResumesEnd(ticks: seq<Tick<real>>, w: Watch<real>, relTol: real, whole: seq<real>, emitted: seq<real>)
    requires RealResumes(ticks, |ticks|, w, relTol, whole, emitted)
    ensures emitted == whole
  {
    assert ticks[|ticks|..] == [];
  }

  /** The held value is within tolerance of the last published one. */
  predicate Settled(w: Watch<real>, relTol: real)
  {
    IsClose(w.current, w.last, relTol)
  }

  /** Every tick leaves the loop settled. */
  lemma RealStepSettles(w: Watch<real>, t: Tick<real>, relTol: real)
    requires relTol >= 0.0
    ensures Settled(RealStep(w, t, relTol), relTol)
  {
    if RealEmits(w, t, relTol) {
      IsCloseReflexive(Hold(w.current, t), relTol);
    }
  }

  /** While degraded, a settled loop neither reads nor publishes. */
  lemma {:induction false} DegradedSettledIsQuiet(ticks: seq<Tick<real>>, w: Watch<real>, relTol: real)
    requires Settled(w, relTol)
    requires forall k :: 0 <= k < |ticks| ==> !ticks[k].operational
    ensures RealChanges(ticks, w, relTol) == []
    decreases |ticks|
  {
    if ticks != [] {
      assert !RealEmits(w, ticks[0], relTol) && RealStep(w, ticks[0], relTol) == w;
      DegradedSettledIsQuiet(ticks[1..], w, relTol);
    }
  }

  /** Once the system degrades after the first tick, at most the first tick ever published. */
  lemma DegradedAfterFirstTick(ticks: seq<Tick<real>>, w: Watch<real>, relTol: real)
    requires relTol >= 0.0 && ticks != []
    requires forall k :: 1 <= k < |ticks| ==> !ticks[k].operational
    ensures |RealChanges(ticks, w, relTol)| <= 1
  {
    RealStepSettles(w, ticks[0], relTol);
    DegradedSettledIsQuiet(ticks[1..], RealStep(w, ticks[0], relTol), relTol);
  }

  /** The first published value differs from the reference, and so does each from the one before it. */
  lemma {:induction false} RealChangesDiffer(ticks: seq<Tick<real>>, w: Watch<real>, relTol: real)
    ensures var out := RealChanges(ticks, w, relTol);
            (out != [] ==> !IsClose(out[0], w.last, relTol))
            && forall i :: 0 < i < |out| ==> !IsClose(out[i], out[i - 1], relTol)
    decreases |ticks|
  {
    if ticks != [] {
      var next := RealStep(w, ticks[0], relTol);
      RealChangesDiffer(ticks[1..], next, relTol);
      var rest := RealChanges(ticks[1..], next, relTol);
      var out := RealChanges(ticks, w, relTol);
      if RealEmits(w, ticks[0], relTol) {
        assert out == [next.current] + rest;
        forall i | 0 < i < |out|
          ensures !IsClose(out[i], out[i - 1], relTol)
        {
          assert out[i] == rest[i - 1];
          if i > 1 {
            assert out[i - 1] == rest[i - 2];
          }
        }
      } else {
        assert out == rest && next.last == w.last;
      }
    }
  }
}
