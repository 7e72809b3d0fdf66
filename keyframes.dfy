/**
 * The keyframe table of the 3D penguin and its Catmull-Rom interpolation.
 *
 * The table is a fixed array of KEYFRAME_MAX slots with a watermark
 * `maxValid`, the index of the last valid keyframe.  The user-interface
 * keyframe (`STATE`, called `joint_ui_data` in the starter copy) is the
 * `state` field.  A DOF vector is a `seq<real>` of length `dofCount`
 * (NUM_JOINT_ENUM), and its operations are componentwise.
 *
 * Saving and loading are modelled at the level of the tokens the file
 * holds: one integer token for the watermark, then per keyframe an integer
 * for its id, a real for its time and one real per DOF.
 */
module Keyframes {
  import opened Wrappers

  const KEYFRAME_MIN: int := 0
  const KEYFRAME_MAX: int := 32

  datatype Keyframe = Keyframe(id: int, time: real, dofs: seq<real>)

  // ---------------------------------------------------------------------
  // Componentwise vector operations
  // ---------------------------------------------------------------------

  function Plus(u: seq<real>, v: seq<real>): (r: seq<real>)
    requires |u| == |v|
    ensures |r| == |u| && forall k :: 0 <= k < |r| ==> r[k] == u[k] + v[k]
  {
    seq(|u|, k requires 0 <= k < |u| => u[k] + v[k])
  }

  function Minus(u: seq<real>, v: seq<real>): (r: seq<real>)
    requires |u| == |v|
    ensures |r| == |u| && forall k :: 0 <= k < |r| ==> r[k] == u[k] - v[k]
  {
    seq(|u|, k requires 0 <= k < |u| => u[k] - v[k])
  }

  function Times(u: seq<real>, c: real): (r: seq<real>)
    ensures |r| == |u| && forall k :: 0 <= k < |r| ==> r[k] == u[k] * c
  {
    seq(|u|, k requires 0 <= k < |u| => u[k] * c)
  }

  // ---------------------------------------------------------------------
  // Cubic Hermite evaluation
  // ---------------------------------------------------------------------

  /**
   * The cubic Hermite curve through p0 at u = 0 and p1 at u = 1 with end
   * tangents t0 and t1, in Horner form: each component is the scalar cubic
   * with the coefficients of getInterpolatedJointDOFS.
   */
  function Hermite(p0: seq<real>, p1: seq<real>, t0: seq<real>, t1: seq<real>, u: real): (r: seq<real>)
    requires |p1| == |p0| && |t0| == |p0| && |t1| == |p0|
    ensures |r| == |p0|
    ensures forall k :: 0 <= k < |p0| ==>
              var a2 := -3.0 * p0[k] + 3.0 * p1[k] - 2.0 * t0[k] - t1[k];
              var a3 := 2.0 * p0[k] - 2.0 * p1[k] + t0[k] + t1[k];
              r[k] == ((a3 * u + a2) * u + t0[k]) * u + p0[k]
  {
    var a0 := p0;
    var a1 := t0;
    var a2 := Plus(Plus(Plus(Times(p0, -3.0), Times(p1, 3.0)), Times(t0, -2.0)), Times(t1, -1.0));
    var a3 := Plus(Plus(Plus(Times(p0, 2.0), Times(p1, -2.0)), t0), t1);
    Plus(Times(Plus(Times(Plus(Times(a3, u), a2), u), a1), u), a0)
  }

  /** The curve starts at p0 and ends at p1: a segment passes through both of its keyframes. */
  lemma HermiteEnds(p0: seq<real>, p1: seq<real>, t0: seq<real>, t1: seq<real>)
    requires |p1| == |p0| && |t0| == |p0| && |t1| == |p0|
    ensures Hermite(p0, p1, t0, t1, 1.0) == p1
    ensures Hermite(p0, p1, t0, t1, 0.0) == p0
  {
    var h1, h0 := Hermite(p0, p1, t0, t1, 1.0), Hermite(p0, p1, t0, t1, 0.0);
    forall k | 0 <= k < |p0|
      ensures h1[k] == p1[k] && h0[k] == p0[k]
    {
      var a2 := -3.0 * p0[k] + 3.0 * p1[k] - 2.0 * t0[k] - t1[k];
      var a3 := 2.0 * p0[k] - 2.0 * p1[k] + t0[k] + t1[k];
      assert h1[k] == ((a3 * 1.0 + a2) * 1.0 + t0[k]) * 1.0 + p0[k];
    }
  }

  // ---------------------------------------------------------------------
  // The interpolation, as a specification on the table's contents
  // ---------------------------------------------------------------------

  /** Every slot of the table holds a DOF vector of length n. */
  predicate Sized(kfs: seq<Keyframe>, n: nat)
  {
    forall k :: 0 <= k < |kfs| ==> |kfs[k].dofs| == n
  }

  /**
   * The bracketing scan from slot i: the least index r >= i that is past the
   * watermark or whose time is not before t.
   */
  function ScanFrom(kfs: seq<Keyframe>, maxValid: int, t: real, i: nat): (r: nat)
    requires maxValid < |kfs| && (i == 0 || i <= maxValid + 1)
    ensures i <= r && (r == i || r <= maxValid + 1)
    ensures r <= maxValid ==> t <= kfs[r].time
    ensures forall k :: i <= k < r ==> k <= maxValid && kfs[k].time < t
    decreases maxValid + 1 - i
  {
    if i <= maxValid && kfs[i].time < t then ScanFrom(kfs, maxValid, t, i + 1) else i
  }

  /**
   * The scan of getInterpolatedJointDOFS: the least index that is past the
   * watermark or whose time is not before t, so every valid key before it
   * is earlier than t.
   */
  function Scan(kfs: seq<Keyframe>, maxValid: int, t: real): (r: nat)
    requires maxValid < |kfs|
    ensures r == 0 || r <= maxValid + 1
    ensures r <= maxValid ==> t <= kfs[r].time
    ensures forall k :: 0 <= k < r ==> k <= maxValid && kfs[k].time < t
  {
    ScanFrom(kfs, maxValid, t, 0)
  }

  /** The normalised parameter of t within the segment ending at slot i. */
  function SegmentParam(kfs: seq<Keyframe>, i: int, t: real): (u: real)
    requires 0 < i < |kfs| && kfs[i - 1].time < t <= kfs[i].time
    ensures 0.0 < u <= 1.0
    ensures t == kfs[i].time ==> u == 1.0
  {
    RatioWithin(t - kfs[i - 1].time, kfs[i].time - kfs[i - 1].time);
    (t - kfs[i - 1].time) / (kfs[i].time - kfs[i - 1].time)
  }

  /**
   * The tangents of the segment ending at slot i: one-sided at the first
   * segment, one-sided at the last, centred otherwise.  The first-segment
   * case is checked first, so a table of two keyframes uses it.
   */
  function Tangents(kfs: seq<Keyframe>, maxValid: int, i: int, n: nat): (r: (seq<real>, seq<real>))
    requires |kfs| == KEYFRAME_MAX && Sized(kfs, n) && 1 <= i <= maxValid < KEYFRAME_MAX
    ensures |r.0| == n && |r.1| == n
  {
    if i == 1 then
      (Minus(kfs[i].dofs, kfs[i - 1].dofs), Times(Minus(kfs[i + 1].dofs, kfs[i - 1].dofs), 0.5))
    else if i == maxValid then
      (Times(Minus(kfs[i].dofs, kfs[i - 2].dofs), 0.5), Minus(kfs[i].dofs, kfs[i - 1].dofs))
    else
      (Times(Minus(kfs[i].dofs, kfs[i - 2].dofs), 0.5), Times(Minus(kfs[i + 1].dofs, kfs[i - 1].dofs), 0.5))
  }

  /** getInterpolatedJointDOFS: the pose at time t. */
  function PoseAt(kfs: seq<Keyframe>, maxValid: int, t: real, n: nat): (r: seq<real>)
    requires |kfs| == KEYFRAME_MAX && Sized(kfs, n) && maxValid < KEYFRAME_MAX
    ensures |r| == n
  {
    var i := Scan(kfs, maxValid, t);
    if i == 0 then kfs[0].dofs
    else if i > maxValid then kfs[maxValid].dofs
    else
      var u := SegmentParam(kfs, i, t);
      var tangents := Tangents(kfs, maxValid, i, n);
      Hermite(kfs[i - 1].dofs, kfs[i].dofs, tangents.0, tangents.1, u)
  }

  /** Clamp policy, both ways: the first pose up to the first key, the last pose past the last key. */
  lemma ClampEnds(kfs: seq<Keyframe>, maxValid: int, t: real, n: nat)
    requires |kfs| == KEYFRAME_MAX && Sized(kfs, n) && maxValid < KEYFRAME_MAX
    ensures Scan(kfs, maxValid, t) == 0 <==> maxValid < 0 || t <= kfs[0].time
    ensures Scan(kfs, maxValid, t) > maxValid <==> forall k :: 0 <= k <= maxValid ==> kfs[k].time < t
    ensures Scan(kfs, maxValid, t) == 0 ==> PoseAt(kfs, maxValid, t, n) == kfs[0].dofs
    ensures 0 < Scan(kfs, maxValid, t) && Scan(kfs, maxValid, t) > maxValid
            ==> PoseAt(kfs, maxValid, t, n) == kfs[maxValid].dofs
  {
    var i := Scan(kfs, maxValid, t);
    if maxValid >= 0 && kfs[0].time < t {
      assert i == ScanFrom(kfs, maxValid, t, 1);
    }
    if i <= maxValid {
      assert t <= kfs[i].time;
    }
  }

  /**
   * Inside the keyed range the scan brackets t: time[i-1] < t <= time[i],
   * so the denominator is positive and the parameter lies in (0, 1].  No
   * ordering of the times is needed.
   */
  lemma InteriorSegment(kfs: seq<Keyframe>, maxValid: int, t: real)
    requires |kfs| == KEYFRAME_MAX && maxValid < KEYFRAME_MAX
    requires 0 < Scan(kfs, maxValid, t) <= maxValid
    ensures var i := Scan(kfs, maxValid, t);
            && kfs[i - 1].time < t <= kfs[i].time
            && kfs[i].time - kfs[i - 1].time > 0.0
            && 0.0 < SegmentParam(kfs, i, t) <= 1.0
  {
    var i := Scan(kfs, maxValid, t);
    var a, b := kfs[i - 1].time, kfs[i].time;
    assert a < t <= b;
    RatioWithin(t - a, b - a);
  }

  /** 0 < x <= y gives 0 < x / y <= 1. */
  lemma RatioWithin(x: real, y: real)
    requires 0.0 < x <= y
    ensures 0.0 < x / y <= 1.0
  {
    var q := x / y;
    assert q * y == x;
    if q > 1.0 {
      PositiveProduct(q - 1.0, y);
      assert (q - 1.0) * y == q * y - y;
    }
    if q <= 0.0 {
      PositiveProduct(-q, y);
    }
  }

  lemma PositiveProduct(p: real, q: real)
    requires p >= 0.0 && q > 0.0
    ensures p * q >= 0.0 && (p > 0.0 ==> p * q > 0.0)
  {
  }

  /** At the time of the key that ends the segment, the curve returns that key's pose. */
  lemma HitsRightKey(kfs: seq<Keyframe>, maxValid: int, t: real, n: nat)
    requires |kfs| == KEYFRAME_MAX && Sized(kfs, n) && maxValid < KEYFRAME_MAX
    requires 0 < Scan(kfs, maxValid, t) <= maxValid && t == kfs[Scan(kfs, maxValid, t)].time
    ensures PoseAt(kfs, maxValid, t, n) == kfs[Scan(kfs, maxValid, t)].dofs
  {
    var i := Scan(kfs, maxValid, t);
    InteriorSegment(kfs, maxValid, t);
    assert SegmentParam(kfs, i, t) == 1.0;
    var tangents := Tangents(kfs, maxValid, i, n);
    HermiteEnds(kfs[i - 1].dofs, kfs[i].dofs, tangents.0, tangents.1);
  }

  predicate Increasing(kfs: seq<Keyframe>, maxValid: int)
    requires maxValid < |kfs|
  {
    forall j, k :: 0 <= j < k <= maxValid ==> kfs[j].time < kfs[k].time
  }

  /** With increasing times, the scan for a key's own time stops at that key. */
  lemma {:induction false} ScanFindsKey(kfs: seq<Keyframe>, maxValid: int, k: nat, i: nat)
    requires maxValid < |kfs| && Increasing(kfs, maxValid) && k <= maxValid && i <= k
    ensures ScanFrom(kfs, maxValid, kfs[k].time, i) == k
    decreases k - i
  {
    if i < k {
      assert kfs[i].time < kfs[k].time;
      ScanFindsKey(kfs, maxValid, k, i + 1);
    }
  }

  /** With increasing times, the curve passes through every valid keyframe's pose. */
  lemma InterpolatesKeys(kfs: seq<Keyframe>, maxValid: int, k: nat, n: nat)
    requires |kfs| == KEYFRAME_MAX && Sized(kfs, n) && maxValid < KEYFRAME_MAX
    requires Increasing(kfs, maxValid) && k <= maxValid
    ensures PoseAt(kfs, maxValid, kfs[k].time, n) == kfs[k].dofs
  {
    ScanFindsKey(kfs, maxValid, k, 0);
    if k > 0 {
      HitsRightKey(kfs, maxValid, kfs[k].time, n);
    }
  }

  /**
   * The scan never runs past the slot after the watermark, so with the
   * watermark inside the array every slot it compares is a slot of the
   * array.  The slots the branches after it read are in the array by
   * PoseAt's and Tangents' own well-formedness: their index expressions
   * are checked under their preconditions.
   */
  lemma ReadsInBounds(kfs: seq<Keyframe>, maxValid: int, t: real)
    requires |kfs| == KEYFRAME_MAX && 0 <= maxValid < KEYFRAME_MAX
    ensures Scan(kfs, maxValid, t) <= maxValid + 1 <= KEYFRAME_MAX
  {
  }

  /**
   * The first segment of a two-keyframe table reads slot 2, past the
   * watermark: its end slope is the centred difference through slot 2.
   */
  lemma FirstSegmentReadsPastWatermark(kfs: seq<Keyframe>, t: real, n: nat)
    requires |kfs| == KEYFRAME_MAX && Sized(kfs, n) && Scan(kfs, 1, t) == 1
    ensures Tangents(kfs, 1, 1, n).1 == Times(Minus(kfs[2].dofs, kfs[0].dofs), 0.5)
  {
  }

  /** A table of keyframes k at time k, with one DOF equal to k. */
  function Ramp(): seq<Keyframe>
  {
    seq(KEYFRAME_MAX, k => Keyframe(k, k as real, [k as real]))
  }

  function Bumped(): seq<Keyframe>
  {
    Ramp()[2 := Keyframe(2, 2.0, [4.0])]
  }

  lemma RampPose()
    ensures Sized(Ramp(), 1) && PoseAt(Ramp(), 1, 0.5, 1) == [0.5]
  {
    var a := Ramp();
    assert a[0] == Keyframe(0, 0.0, [0.0]) && a[1] == Keyframe(1, 1.0, [1.0]) && a[2] == Keyframe(2, 2.0, [2.0]);
    assert Scan(a, 1, 0.5) == 1 by {
      assert ScanFrom(a, 1, 0.5, 1) == 1;
    }
    assert SegmentParam(a, 1, 0.5) == 0.5;
    var ta := Tangents(a, 1, 1, 1);
    assert ta.0 == [1.0] && ta.1 == [1.0];
    assert Hermite([0.0], [1.0], ta.0, ta.1, 0.5)[0] == 0.5;
  }

  lemma BumpedPose()
    ensures Sized(Bumped(), 1) && PoseAt(Bumped(), 1, 0.5, 1) == [0.375]
  {
    var b := Bumped();
    assert b[0] == Keyframe(0, 0.0, [0.0]) && b[1] == Keyframe(1, 1.0, [1.0]) && b[2] == Keyframe(2, 2.0, [4.0]);
    assert Scan(b, 1, 0.5) == 1 by {
      assert ScanFrom(b, 1, 0.5, 1) == 1;
    }
    assert SegmentParam(b, 1, 0.5) == 0.5;
    var tb := Tangents(b, 1, 1, 1);
    assert tb.0 == [1.0] && tb.1 == [2.0];
    assert Hermite([0.0], [1.0], tb.0, tb.1, 0.5)[0] == 0.375;
  }

  /**
   * With the watermark at 1, changing slot 2 (not a valid keyframe) changes
   * the pose halfway between keys 0 and 1: 0.5 against 0.375.
   */
  lemma PoseDependsOnSlotPastWatermark()
    ensures Sized(Ramp(), 1) && Sized(Bumped(), 1)
    ensures forall k :: 0 <= k <= 1 ==> Ramp()[k] == Bumped()[k]
    ensures PoseAt(Ramp(), 1, 0.5, 1) != PoseAt(Bumped(), 1, 0.5, 1)
  {
    RampPose();
    BumpedPose();
  }

  // ---------------------------------------------------------------------
  // Animation clock
  // ---------------------------------------------------------------------

  /**
   * The time display uses for a frame: the elapsed time, unless it has
   * reached the last keyframe's time, in which case the timer restarts and
   * the reading just after the restart is used.
   */
  function FrameTime(elapsed: real, lastKeyTime: real, afterRestart: real): (r: real)
    ensures r == elapsed || r == afterRestart
    ensures afterRestart < lastKeyTime ==> r < lastKeyTime
  {
    if elapsed >= lastKeyTime then afterRestart else elapsed
  }

  /**
   * When the reading just after a restart is before the last key, every
   * frame time is before the last key, and the interpolation never uses its
   * past-the-end clamp.
   */
  lemma FrameTimeBeforeLastKey(kfs: seq<Keyframe>, maxValid: int, elapsed: real, afterRestart: real)
    requires |kfs| == KEYFRAME_MAX && 0 <= maxValid < KEYFRAME_MAX
    requires afterRestart < kfs[maxValid].time
    ensures FrameTime(elapsed, kfs[maxValid].time, afterRestart) < kfs[maxValid].time
    ensures Scan(kfs, maxValid, FrameTime(elapsed, kfs[maxValid].time, afterRestart)) <= maxValid
  {
  }

  // ---------------------------------------------------------------------
  // The save / load token format
  // ---------------------------------------------------------------------

  datatype Token = IntTok(i: int) | RealTok(r: real)

  function RealTokens(v: seq<real>): (r: seq<Token>)
    ensures |r| == |v| && forall j :: 0 <= j < |v| ==> r[j] == RealTok(v[j])
  {
    seq(|v|, j requires 0 <= j < |v| => RealTok(v[j]))
  }

  /** One record: the id, the time, then one real per DOF. */
  function RecordTokens(k: Keyframe): seq<Token>
  {
    [IntTok(k.id), RealTok(k.time)] + RealTokens(k.dofs)
  }

  function RecordsTokens(ks: seq<Keyframe>): seq<Token>
  {
    if ks == [] then [] else RecordTokens(ks[0]) + RecordsTokens(ks[1..])
  }

  /** saveKeyframesToFileButton: the watermark, then the records of slots 0 to maxValid. */
  function SaveTokens(kfs: seq<Keyframe>, maxValid: int): (r: seq<Token>)
    requires -1 <= maxValid < |kfs|
    ensures |r| >= 1 && r[0] == IntTok(maxValid)
  {
    [IntTok(maxValid)] + RecordsTokens(kfs[..maxValid + 1])
  }

  /** Reads n real tokens: on success, exactly the first n tokens are consumed. */
  function ParseReals(ts: seq<Token>, n: nat): (r: Option<(seq<real>, seq<Token>)>)
    ensures r.Some? ==> |r.value.0| == n && n <= |ts| && r.value.1 == ts[n..]
    decreases n
  {
    if n == 0 then Some(([], ts))
    else if ts == [] || !ts[0].RealTok? then None
    else match ParseReals(ts[1..], n - 1)
      case None => None
      case Some((v, rest)) => Some(([ts[0].r] + v, rest))
  }

  /** One record: on success it has n DOFs and exactly 2 + n tokens are consumed. */
  function ParseRecord(ts: seq<Token>, n: nat): (r: Option<(Keyframe, seq<Token>)>)
    ensures r.Some? ==> |r.value.0.dofs| == n && 2 + n <= |ts| && r.value.1 == ts[2 + n..]
  {
    if |ts| < 2 || !ts[0].IntTok? || !ts[1].RealTok? then None
    else match ParseReals(ts[2..], n)
      case None => None
      case Some((v, rest)) => Some((Keyframe(ts[0].i, ts[1].r, v), rest))
  }

  /** `count` records: on success, that many, each with n DOFs. */
  function ParseRecords(ts: seq<Token>, count: nat, n: nat): (r: Option<(seq<Keyframe>, seq<Token>)>)
    ensures r.Some? ==> |r.value.0| == count && Sized(r.value.0, n)
    decreases count
  {
    if count == 0 then Some(([], ts))
    else match ParseRecord(ts, n)
      case None => None
      case Some((k, rest)) =>
        match ParseRecords(rest, count - 1, n)
        case None => None
        case Some((ks, rest')) => Some(([k] + ks, rest'))
  }

  /**
   * loadKeyframesFromFileButton's reading order: the watermark m, then the
   * records of slots 0 to m.  Tokens after the last record are not read.
   */
  function ParseFile(ts: seq<Token>, n: nat): (r: Option<(int, seq<Keyframe>)>)
    ensures r.Some? ==> |r.value.1| == (if r.value.0 < 0 then 0 else r.value.0 + 1)
  {
    if ts == [] || !ts[0].IntTok? then None
    else
      var m := ts[0].i;
      var count: nat := if m < 0 then 0 else m + 1;
      match ParseRecords(ts[1..], count, n)
      case None => None
      case Some((ks, _)) => if |ks| == count then Some((m, ks)) else None
  }

  lemma {:induction false} ParseRealsRoundTrip(v: seq<real>, rest: seq<Token>)
    ensures ParseReals(RealTokens(v) + rest, |v|) == Some((v, rest))
    decreases |v|
  {
    if v != [] {
      var ts := RealTokens(v) + rest;
      assert ts[0] == RealTok(v[0]);
      assert ts[1..] == RealTokens(v[1..]) + rest;
      ParseRealsRoundTrip(v[1..], rest);
      assert ParseReals(ts[1..], |v| - 1) == Some((v[1..], rest));
      assert [v[0]] + v[1..] == v;
    } else {
      assert RealTokens(v) + rest == rest;
    }
  }

  lemma ParseRecordRoundTrip(k: Keyframe, rest: seq<Token>)
    ensures ParseRecord(RecordTokens(k) + rest, |k.dofs|) == Some((k, rest))
  {
    var ts := RecordTokens(k) + rest;
    assert ts[2..] == RealTokens(k.dofs) + rest;
    ParseRealsRoundTrip(k.dofs, rest);
  }

  lemma {:induction false} ParseRecordsRoundTrip(ks: seq<Keyframe>, rest: seq<Token>, n: nat)
    requires forall j :: 0 <= j < |ks| ==> |ks[j].dofs| == n
    ensures ParseRecords(RecordsTokens(ks) + rest, |ks|, n) == Some((ks, rest))
    decreases |ks|
  {
    if ks != [] {
      var tail := RecordsTokens(ks[1..]) + rest;
      assert RecordsTokens(ks) + rest == RecordTokens(ks[0]) + tail;
      ParseRecordRoundTrip(ks[0], tail);
      assert ParseRecord(RecordsTokens(ks) + rest, n) == Some((ks[0], tail));
      ParseRecordsRoundTrip(ks[1..], rest, n);
      assert ParseRecords(tail, |ks| - 1, n) == Some((ks[1..], rest));
      assert [ks[0]] + ks[1..] == ks;
    } else {
      assert RecordsTokens(ks) + rest == rest;
    }
  }

  /** Loading what was saved gives back the watermark and slots 0 to maxValid. */
  lemma SaveLoadRoundTrip(kfs: seq<Keyframe>, maxValid: int, n: nat)
    requires -1 <= maxValid < |kfs| && Sized(kfs, n)
    ensures ParseFile(SaveTokens(kfs, maxValid), n) == Some((maxValid, kfs[..maxValid + 1]))
  {
    var ts := SaveTokens(kfs, maxValid);
    var ks := kfs[..maxValid + 1];
    assert ts[1..] == RecordsTokens(ks) + [];
    ParseRecordsRoundTrip(ks, [], n);
  }

  lemma {:induction false} RecordsTokensSnoc(ks: seq<Keyframe>, k: Keyframe)
    ensures RecordsTokens(ks + [k]) == RecordsTokens(ks) + RecordTokens(k)
    decreases |ks|
  {
    if ks == [] {
      assert [] + [k] == [k];
      assert [k][1..] == [];
    } else {
      assert (ks + [k])[0] == ks[0];
      assert (ks + [k])[1..] == ks[1..] + [k];
      RecordsTokensSnoc(ks[1..], k);
    }
  }

  /**
   * The slots the source's load loop writes, and the watermark it leaves,
   * when the file starts with an integer: slots 0 to m, with no bound check.
   */
  function LoadSlotsAsWritten(ts: seq<Token>, oldMaxValid: int): (r: (int, seq<int>))
    ensures var m := r.0;
            |r.1| == (if m < 0 then 0 else m + 1) && forall j :: 0 <= j < |r.1| ==> r.1[j] == j
  {
    var m := if ts != [] && ts[0].IntTok? then ts[0].i else oldMaxValid;
    var count: nat := if m < 0 then 0 else m + 1;
    (m, seq(count, j => j))
  }

  /**
   * A file whose first token is KEYFRAME_MAX makes the source's loop write
   * slot KEYFRAME_MAX, one past the array; a file whose first token is -1
   * leaves a negative watermark, which display then uses as an index.
   */
  lemma LoadAsWrittenOverruns(rest: seq<Token>, oldMaxValid: int)
    ensures KEYFRAME_MAX in LoadSlotsAsWritten([IntTok(KEYFRAME_MAX)] + rest, oldMaxValid).1
    ensures LoadSlotsAsWritten([IntTok(-1)] + rest, oldMaxValid).0 < KEYFRAME_MIN
  {
    var r := LoadSlotsAsWritten([IntTok(KEYFRAME_MAX)] + rest, oldMaxValid);
    assert r.1[KEYFRAME_MAX] == KEYFRAME_MAX;
  }

  // ---------------------------------------------------------------------
  // The table
  // ---------------------------------------------------------------------

  class KeyframeTable {
    /** NUM_JOINT_ENUM, the number of DOFs in a keyframe. */
    const dofCount: nat
    const keyframes: array<Keyframe>
    /** Index of the last valid keyframe. */
    var maxValid: int
    /** The keyframe the user interface edits. */
    var state: Keyframe

    ghost predicate Valid()
      reads this, keyframes
    {
      && keyframes.Length == KEYFRAME_MAX
      && KEYFRAME_MIN <= maxValid < KEYFRAME_MAX
      && Sized(keyframes[..], dofCount)
      && |state.dofs| == dofCount
    }

    /** initDS: every slot is a default keyframe whose id is its index. */
    constructor(blank: Keyframe)
      ensures Valid() && dofCount == |blank.dofs| && maxValid == 0 && state == blank
      ensures forall i :: 0 <= i < KEYFRAME_MAX ==> keyframes[i] == blank.(id := i)
      ensures fresh(keyframes)
    {
      dofCount := |blank.dofs|;
      var a := new Keyframe[KEYFRAME_MAX](_ => blank);
      for i := 0 to KEYFRAME_MAX
        invariant forall k :: 0 <= k < i ==> a[k] == blank.(id := k)
        invariant forall k :: i <= k < KEYFRAME_MAX ==> a[k] == blank
      {
        a[i] := a[i].(id := i);
      }
      keyframes := a;
      maxValid := 0;
      state := blank;
    }

    /** loadKeyframeButton: the user-interface keyframe becomes a copy of slot `state.id`. */
    method LoadKeyframe()
      requires Valid() && KEYFRAME_MIN <= state.id < KEYFRAME_MAX
      modifies this
      ensures Valid()
      ensures state == old(keyframes[state.id])
      ensures maxValid == old(maxValid) && keyframes[..] == old(keyframes[..])
    {
      state := keyframes[state.id];
    }

    /**
     * updateKeyframeButton: slot `state.id` becomes a copy of the
     * user-interface keyframe and the watermark moves to that slot, down as
     * well as up.
     */
    method UpdateKeyframe()
      requires Valid() && KEYFRAME_MIN <= state.id < KEYFRAME_MAX
      modifies this, keyframes
      ensures Valid()
      ensures maxValid == state.id && state == old(state)
      ensures keyframes[..] == old(keyframes[..])[state.id := state]
    {
      maxValid := state.id;
      keyframes[state.id] := state;
    }

    /** The loop of getInterpolatedJointDOFS, with the branches that follow it. */
    method Interpolate(t: real) returns (pose: seq<real>)
      requires Valid()
      ensures pose == PoseAt(keyframes[..], maxValid, t, dofCount)
    {
      var i := ScanKeys(t);
      if i == 0 {
        return keyframes[0].dofs;
      }
      if i > maxValid {
        return keyframes[maxValid].dofs;
      }
      ghost var kfs := keyframes[..];
      assert kfs[i - 1].time < t <= kfs[i].time;
      var u := (t - keyframes[i - 1].time) / (keyframes[i].time - keyframes[i - 1].time);
      assert u == SegmentParam(kfs, i, t);
      var t0, t1 := SegmentTangents(i);
      pose := Hermite(keyframes[i - 1].dofs, keyframes[i].dofs, t0, t1, u);
    }

    /** The bracketing loop: the first slot, up to one past the watermark, whose time is not before t. */
    method ScanKeys(t: real) returns (i: int)
      requires Valid()
      ensures i == Scan(keyframes[..], maxValid, t)
    {
      ghost var kfs := keyframes[..];
      i := 0;
      while i <= maxValid && keyframes[i].time < t
        invariant 0 <= i <= maxValid + 1
        invariant ScanFrom(kfs, maxValid, t, i) == Scan(kfs, maxValid, t)
      {
        i := i + 1;
      }
    }

    /** The tangents at both ends of the segment ending at slot i. */
    method SegmentTangents(i: int) returns (t0: seq<real>, t1: seq<real>)
      requires Valid() && 1 <= i <= maxValid
      ensures (t0, t1) == Tangents(keyframes[..], maxValid, i, dofCount)
    {
      if i == 1 {
        t0 := Minus(keyframes[i].dofs, keyframes[i - 1].dofs);
        t1 := Times(Minus(keyframes[i + 1].dofs, keyframes[i - 1].dofs), 0.5);
      } else if i == maxValid {
        t0 := Times(Minus(keyframes[i].dofs, keyframes[i - 2].dofs), 0.5);
        t1 := Minus(keyframes[i].dofs, keyframes[i - 1].dofs);
      } else {
        t0 := Times(Minus(keyframes[i].dofs, keyframes[i - 2].dofs), 0.5);
        t1 := Times(Minus(keyframes[i + 1].dofs, keyframes[i - 1].dofs), 0.5);
      }
    }

    /**
     * The animation step of display: restart the timer once the last
     * keyframe's time is reached, then pose the user-interface keyframe at
     * the frame time.  The table is left alone.
     */
    method AnimationStep(elapsed: real, afterRestart: real) returns (restarted: bool)
      requires Valid()
      modifies this
      ensures Valid()
      ensures restarted <==> elapsed >= keyframes[maxValid].time
      ensures maxValid == old(maxValid) && keyframes[..] == old(keyframes[..])
      ensures var t := FrameTime(elapsed, keyframes[maxValid].time, afterRestart);
              state == old(state).(time := t, dofs := PoseAt(keyframes[..], maxValid, t, dofCount))
    {
      var curTime := elapsed;
      restarted := curTime >= keyframes[maxValid].time;
      if restarted {
        curTime := afterRestart;
      }
      var pose := Interpolate(curTime);
      state := state.(dofs := pose);
      state := state.(time := curTime);
    }

    /**
     * saveKeyframesToFileButton: the tokens written, or nothing when the
     * file cannot be opened.
     */
    method Save(canOpen: bool) returns (tokens: seq<Token>)
      requires Valid()
      ensures canOpen ==> tokens == SaveTokens(keyframes[..], maxValid)
      ensures !canOpen ==> tokens == []
    {
      if !canOpen {
        return [];
      }
      tokens := [IntTok(maxValid)];
      var i := 0;
      while i <= maxValid
        invariant 0 <= i <= maxValid + 1
        invariant tokens == [IntTok(maxValid)] + RecordsTokens(keyframes[..i])
      {
        var k := keyframes[i];
        var record := [IntTok(k.id), RealTok(k.time)];
        var j := 0;
        while j < dofCount
          invariant 0 <= j <= dofCount
          invariant record == [IntTok(k.id), RealTok(k.time)] + RealTokens(k.dofs[..j])
        {
          record := record + [RealTok(k.dofs[j])];
          j := j + 1;
        }
        assert k.dofs[..dofCount] == k.dofs;
        RecordsTokensSnoc(keyframes[..i], k);
        assert keyframes[..i] + [k] == keyframes[..i + 1];
        tokens := tokens + record;
        i := i + 1;
      }
    }

    /**
     * loadKeyframesFromFileButton with the bound check it lacks: a file
     * that cannot be opened, a malformed token stream or a watermark
     * outside [KEYFRAME_MIN, KEYFRAME_MAX) leaves the table alone;
     * otherwise slots 0 to m are overwritten in place, in order, and the
     * watermark becomes m.
     */
    method Load(canOpen: bool, ts: seq<Token>) returns (loaded: bool)
      requires Valid()
      modifies this, keyframes
      ensures Valid() && state == old(state)
      ensures loaded <==> canOpen && ParseFile(ts, dofCount).Some?
                          && KEYFRAME_MIN <= ParseFile(ts, dofCount).value.0 < KEYFRAME_MAX
      ensures loaded ==> var m := ParseFile(ts, dofCount).value.0;
                         maxValid == m
                         && keyframes[..] == ParseFile(ts, dofCount).value.1 + old(keyframes[..])[m + 1..]
      ensures !loaded ==> maxValid == old(maxValid) && keyframes[..] == old(keyframes[..])
    {
      if !canOpen {
        return false;
      }
      var parsed := ParseFile(ts, dofCount);
      if parsed.None? || !(KEYFRAME_MIN <= parsed.value.0 < KEYFRAME_MAX) {
        return false;
      }
      var m := parsed.value.0;
      var ks := parsed.value.1;
      ParsedSized(ts, dofCount);
      CopyIn(ks);
      maxValid := m;
      assert keyframes[..] == ks + old(keyframes[..])[m + 1..];
      loaded := true;
    }

    /** The load loop: slots 0 to |ks| - 1 are overwritten in order, the rest kept. */
    method CopyIn(ks: seq<Keyframe>)
      requires Valid() && |ks| <= KEYFRAME_MAX && Sized(ks, dofCount)
      modifies keyframes
      ensures Valid()
      ensures forall k :: 0 <= k < |ks| ==> keyframes[k] == ks[k]
      ensures forall k :: |ks| <= k < KEYFRAME_MAX ==> keyframes[k] == old(keyframes[k])
    {
      for i := 0 to |ks|
        invariant forall k :: 0 <= k < i ==> keyframes[k] == ks[k]
        invariant forall k :: i <= k < KEYFRAME_MAX ==> keyframes[k] == old(keyframes[k])
      {
        keyframes[i] := ks[i];
      }
    }

    /** Saving and loading back restores the table and its watermark. */
    method SaveThenLoad() returns (loaded: bool)
      requires Valid()
      modifies this, keyframes
      ensures Valid() && loaded
      ensures maxValid == old(maxValid) && keyframes[..] == old(keyframes[..]) && state == old(state)
    {
      var tokens := Save(true);
      SaveLoadRoundTrip(keyframes[..], maxValid, dofCount);
      ghost var before := keyframes[..];
      loaded := Load(true, tokens);
      assert before[..maxValid + 1] + before[maxValid + 1..] == before;
    }
  }

  /** Every record a parse returns has n DOFs. */
  lemma ParsedSized(ts: seq<Token>, n: nat)
    requires ParseFile(ts, n).Some?
    ensures Sized(ParseFile(ts, n).value.1, n)
  {
  }

}
