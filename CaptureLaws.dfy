/** Properties of the capturer model over single calls and over whole runs of
    host calls. */
module CaptureLaws {
  import opened StereoGeometry
  import opened CapturePaths
  import opened CaptureModel

  lemma InitialSatisfiesInv()
    ensures Inv(Initial())
  {
  }

  lemma InvPreserved(s: Capturer, call: HostCall)
    requires Inv(s)
    ensures Inv(Apply(s, call))
  {
  }

  /** Every state reachable from a valid one is valid. */
  lemma {:induction false} InvAlongRun(s: Capturer, calls: seq<HostCall>)
    requires Inv(s)
    ensures Inv(Run(s, calls))
    decreases |calls|
  {
    if |calls| > 0 {
      InvPreserved(s, calls[0]);
      InvAlongRun(Apply(s, calls[0]), calls[1..]);
    }
  }

  /** In a valid state Tick's controller test never decides anything: a tick
      captures exactly when the capturer is armed, which is what
      IsTickableWhenPaused reports. */
  lemma TickRunsIffArmed(s: Capturer)
    requires Inv(s)
    ensures TickRuns(s) <==> s.isTicking
  {
  }

  /** One tick captures at most once: a second tick without re-arming does
      nothing. */
  lemma SecondTickIsNoOp(s: Capturer, v1: Viewpoint, l1: Texels, r1: Texels, t1: int,
                         v2: Viewpoint, l2: Texels, r2: Texels, t2: int)
    ensures var once := Tick(s, v1, l1, r1, t1); Tick(once, v2, l2, r2, t2) == once
  {
  }

  /** An arm refused for a missing controller or game mode is followed by a
      tick that writes nothing. */
  lemma RejectedArmCapturesNothing(s: Capturer, ctx: HostContext, character: CharacterId, stamp: string,
                                   now: int, view: Viewpoint, lf: Texels, rf: Texels, later: int)
    requires !s.isTicking
    requires ctx.controller.None? || ctx.gameMode.None?
    ensures var armed := SetInitialState(s, ctx, character, stamp, now);
      Tick(armed, view, lf, rf, later).log == s.log
  {
  }

  /** An arm followed by a tick saves the left then the right frame under the
      timestamp stamped at arm time, then cleans up the character. */
  lemma ArmThenTickSavesUnderStamp(s: Capturer, ctx: HostContext, character: CharacterId, stamp: string,
                                   now: int, view: Viewpoint, lf: Texels, rf: Texels, later: int)
    requires !s.isTicking && ctx.controller.Some? && ctx.gameMode.Some?
    ensures var t := Tick(SetInitialState(s, ctx, character, stamp, now), view, lf, rf, later);
      && |t.log| == |s.log| + 5
      && t.log[|s.log| + 2] == Save(FramePath(stamp, "Left"), Readback(lf), CaptureWidth, CaptureHeight, Png)
      && t.log[|s.log| + 3] == Save(FramePath(stamp, "Right"), Readback(rf), CaptureWidth, CaptureHeight, Png)
      && t.log[|s.log| + 4] == Cleanup(Some(character))
      && !t.isTicking && t.startTime == later && t.overallStartTime == now
  {
  }

  /** No permanent lock-out: after any tick, a new arm with a full context
      leaves the capturer armed and, from a valid state, a tick then captures. */
  lemma RearmAfterTick(s: Capturer, view: Viewpoint, lf: Texels, rf: Texels, now: int,
                       ctx: HostContext, character: CharacterId, stamp: string, later: int)
    requires ctx.controller.Some? && ctx.gameMode.Some?
    ensures SetInitialState(Tick(s, view, lf, rf, now), ctx, character, stamp, later).isTicking
    ensures Inv(s) ==> TickRuns(SetInitialState(Tick(s, view, lf, rf, now), ctx, character, stamp, later))
  {
  }

  /** In a valid armed state the two eyes are placed symmetrically about the
      viewpoint, with the same rotation. */
  lemma TickPlacesEyesSymmetrically(s: Capturer, view: Viewpoint, lf: Texels, rf: Texels, now: int)
    requires Inv(s) && s.isTicking
    ensures var t := Tick(s, view, lf, rf, now);
      && t.left.location == EyeLocation(LeftEye, view.location)
      && t.right.location == EyeLocation(RightEye, view.location)
      && (t.left.location.y + t.right.location.y) / 2.0 == view.location.y
      && t.right.location.y - t.left.location.y == 2.0 * EyeOffset
      && t.left.rotation == t.right.rotation == view.rotation
  {
    EyeLocationsSymmetric(view.location);
  }

  /** Reset does not disarm: an armed capturer that is reset still captures on
      the next tick, with unrooted components. */
  lemma ResetKeepsArmed(s: Capturer, view: Viewpoint, lf: Texels, rf: Texels, now: int)
    requires TickRuns(s)
    ensures TickRuns(Reset(s))
    ensures var t := Tick(Reset(s), view, lf, rf, now); !t.left.rooted && !t.right.rooted && Cleanups(t.log) == Cleanups(s.log) + 1
  {
    var t := Tick(Reset(s), view, lf, rf, now);
    TickAddsOneCleanup(s.log, t.log);
  }

  lemma {:induction false} CleanupsAppend(a: seq<Event>, b: seq<Event>)
    ensures Cleanups(a + b) == Cleanups(a) + Cleanups(b)
    decreases |b|
  {
    if b != [] {
      var b' := b[..|b| - 1];
      assert (a + b)[..|a + b| - 1] == a + b';
      CleanupsAppend(a, b');
    } else {
      assert a + b == a;
    }
  }

  lemma {:induction false} NoCleanups(log: seq<Event>)
    requires forall i :: 0 <= i < |log| ==> !log[i].Cleanup?
    ensures Cleanups(log) == 0
    decreases |log|
  {
    if log != [] {
      NoCleanups(log[..|log| - 1]);
    }
  }

  /** The five events a running tick appends hold exactly one cleanup. */
  lemma TickAddsOneCleanup(before: seq<Event>, after: seq<Event>)
    requires |after| == |before| + 5 && after[..|before|] == before
    requires forall i :: |before| <= i < |before| + 4 ==> after[i].Read? || after[i].Save?
    requires after[|before| + 4].Cleanup?
    ensures Cleanups(after) == Cleanups(before) + 1
  {
    var added := after[|before|..];
    NoCleanups(added[..4]);
    assert added[..|added| - 1] == added[..4];
    CleanupsAppend(before, added);
    assert before + added == after;
  }

  /** One call either arms (adding a pending capture), completes the pending
      capture (adding one cleanup), or changes neither count. */
  lemma StepBalance(s: Capturer, call: HostCall)
    ensures Cleanups(Apply(s, call).log) + Pending(Apply(s, call))
         == Cleanups(s.log) + Pending(s) + (if Arms(s, call) then 1 else 0)
  {
    if call.TickCall? && TickRuns(s) {
      TickAddsOneCleanup(s.log, Apply(s, call).log);
    }
  }

  /** Conservation along a run: completed captures plus the pending one grow
      exactly by the number of successful arms. */
  lemma {:induction false} CapturesMatchArmings(s: Capturer, calls: seq<HostCall>)
    ensures Cleanups(Run(s, calls).log) + Pending(Run(s, calls))
         == Cleanups(s.log) + Pending(s) + Armings(s, calls)
    decreases |calls|
  {
    if |calls| > 0 {
      StepBalance(s, calls[0]);
      CapturesMatchArmings(Apply(s, calls[0]), calls[1..]);
    }
  }

  /** From construction on, there are never more captures than arms. */
  lemma AtMostOneCapturePerArm(calls: seq<HostCall>)
    ensures Cleanups(Run(Initial(), calls).log) <= Armings(Initial(), calls)
  {
    CapturesMatchArmings(Initial(), calls);
  }

  /** From construction on, the capturer is armed (and IsTickableWhenPaused
      answers true) exactly when some successful arm has not yet been followed
      by its capture. */
  lemma ArmedIffCaptureOutstanding(calls: seq<HostCall>)
    ensures var t := Run(Initial(), calls);
      t.isTicking <==> Cleanups(t.log) < Armings(Initial(), calls)
  {
    CapturesMatchArmings(Initial(), calls);
  }

  /** Every frame written to disk holds one pixel per texel of a
      CaptureWidth x CaptureHeight target. */
  ghost predicate FullFrames(log: seq<Event>)
  {
    forall i :: 0 <= i < |log| && log[i].Save? ==>
      |log[i].pixels| == log[i].width * log[i].height == CaptureWidth * CaptureHeight
  }

  lemma FullFramesStep(s: Capturer, call: HostCall)
    requires FullFrames(s.log)
    ensures FullFrames(Apply(s, call).log)
  {
    var log := Apply(s, call).log;
    forall i | 0 <= i < |log| && log[i].Save?
      ensures |log[i].pixels| == log[i].width * log[i].height == CaptureWidth * CaptureHeight
    {
      if i < |s.log| {
        assert log[i] == s.log[i];
      }
    }
  }

  /** Whatever the engine's render targets hold, every saved frame has
      exactly the capture size. */
  lemma {:induction false} SavedFramesAreFull(s: Capturer, calls: seq<HostCall>)
    requires FullFrames(s.log)
    ensures FullFrames(Run(s, calls).log)
    decreases |calls|
  {
    if |calls| > 0 {
      FullFramesStep(s, calls[0]);
      SavedFramesAreFull(Apply(s, calls[0]), calls[1..]);
    }
  }

  /** Once registered, a component stays in its first world through any run,
      so GetTickableGameObjectWorld keeps answering that world. */
  lemma {:induction false} FirstWorldKept(s: Capturer, calls: seq<HostCall>)
    requires s.left.world.Some? && s.right.world.Some?
    ensures Run(s, calls).left.world == s.left.world
    ensures Run(s, calls).right.world == s.right.world
    decreases |calls|
  {
    if |calls| > 0 {
      FirstWorldKept(Apply(s, calls[0]), calls[1..]);
    }
  }

  /** The stored eye separation influences nothing: two capturers that differ
      only in it stay that way through any run. */
  lemma {:induction false} EyeSeparationUnused(s: Capturer, calls: seq<HostCall>, e: real)
    ensures Run(s.(eyeSeparation := e), calls) == Run(s, calls).(eyeSeparation := e)
    decreases |calls|
  {
    if |calls| > 0 {
      assert Apply(s.(eyeSeparation := e), calls[0]) == Apply(s, calls[0]).(eyeSeparation := e);
      EyeSeparationUnused(Apply(s, calls[0]), calls[1..], e);
    }
  }
}
