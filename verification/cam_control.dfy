/**
 * The control state of the camera component and the pure pieces around it:
 * the three state updaters passed to React's setters, the capability update,
 * the constraint record sent to getUserMedia, and the behaviour of arbitrary
 * sequences of commands.
 */
module CamControl {
  import opened Wrappers

  /** Which physical camera is requested ("environment" or "user"). */
  datatype FacingMode = Environment | User

  /** The three pieces of React state the component keeps. */
  datatype ControlState = ControlState(zoomLevel: int, maxZoom: real, facingMode: FacingMode)

  /** The `zoom` capability of a video track: only its `max` is read. */
  datatype ZoomRange = ZoomRange(max: real)

  /** What `getCapabilities()` reports; `zoom` is absent on cameras without zoom. */
  datatype Capabilities = Capabilities(zoom: Option<ZoomRange>)

  /** `{ ideal: n }` */
  datatype IdealSize = IdealSize(ideal: int)

  /** One entry of the `advanced` list. */
  datatype AdvancedZoom = AdvancedZoom(zoom: int)

  /** The `video` member of the constraint record. */
  datatype VideoConstraints = VideoConstraints(
    facingMode: FacingMode,
    width: IdealSize,
    height: IdealSize,
    advanced: seq<AdvancedZoom>)

  /** The record passed to getUserMedia: only `video` is set. */
  datatype MediaStreamConstraints = MediaStreamConstraints(video: VideoConstraints)

  /** A state change the component can undergo. */
  datatype Command = ZoomIn | ZoomOut | SwitchFacingMode | CapabilityUpdate(caps: Capabilities)

  /** The state on first render: zoom 1, maximum zoom 1, facing mode from the prop. */
  function Initial(facingMode: FacingMode): (s: ControlState)
    ensures s.zoomLevel == 1 && s.maxZoom == 1.0 && s.facingMode == facingMode
  {
    ControlState(1, 1.0, facingMode)
  }

  /** The updater of `zoomIn`: one step up, only if that stays within `maxZoom`. */
  function ZoomInStep(prev: int, maxZoom: real): (r: int)
    ensures prev <= r <= prev + 1
    ensures r == prev + 1 <==> (prev + 1) as real <= maxZoom
    ensures prev as real <= maxZoom ==> r as real <= maxZoom
  {
    if (prev + 1) as real <= maxZoom then prev + 1 else prev
  }

  /** The updater of `zoomOut`: one step down, never below 1. */
  function ZoomOutStep(prev: int): (r: int)
    ensures prev - 1 <= r <= prev
    ensures r == prev - 1 <==> prev > 1
    ensures prev >= 1 ==> r >= 1
  {
    if prev > 1 then prev - 1 else prev
  }

  /** The updater of `switchFacingMode`. */
  function Toggle(m: FacingMode): (r: FacingMode)
    ensures r != m
  {
    if m == Environment then User else Environment
  }

  /** The new `maxZoom` after a stream reports its capabilities. */
  function UpdateMaxZoom(maxZoom: real, caps: Capabilities): (r: real)
    ensures caps.zoom.Some? ==> r == caps.zoom.value.max
    ensures caps.zoom.None? ==> r == maxZoom
  {
    match caps.zoom
    case Some(range) => range.max
    case None => maxZoom
  }

  /** JavaScript's `size || 500`: `undefined` and 0 are falsy. */
  function OrDefaultSize(size: Option<int>): (r: int)
    ensures r != 0
    ensures size.Some? && size.value != 0 ==> r == size.value
    ensures size.None? || size.value == 0 ==> r == 500
  {
    match size
    case Some(n) => if n != 0 then n else 500
    case None => 500
  }

  /** The constraint record built at the start of the effect. */
  function BuildConstraints(facingMode: FacingMode, width: Option<int>, height: Option<int>, zoomLevel: int)
    : (c: MediaStreamConstraints)
    ensures c.video.facingMode == facingMode
    ensures c.video.width.ideal == OrDefaultSize(width) && c.video.height.ideal == OrDefaultSize(height)
    ensures |c.video.advanced| == 1 && c.video.advanced[0].zoom == zoomLevel
  {
    MediaStreamConstraints(
      VideoConstraints(facingMode, IdealSize(OrDefaultSize(width)), IdealSize(OrDefaultSize(height)),
                       [AdvancedZoom(zoomLevel)]))
  }

  /** One command applied to the state. */
  function Apply(s: ControlState, c: Command): (t: ControlState)
  {
    match c
    case ZoomIn => s.(zoomLevel := ZoomInStep(s.zoomLevel, s.maxZoom))
    case ZoomOut => s.(zoomLevel := ZoomOutStep(s.zoomLevel))
    case SwitchFacingMode => s.(facingMode := Toggle(s.facingMode))
    case CapabilityUpdate(caps) => s.(maxZoom := UpdateMaxZoom(s.maxZoom, caps))
  }

  /** A sequence of commands applied in order. */
  function Run(s: ControlState, cmds: seq<Command>): ControlState
    decreases |cmds|
  {
    if cmds == [] then s else Run(Apply(s, cmds[0]), cmds[1..])
  }

  /** No command of the sequence is a capability update. */
  predicate NoCapabilityUpdate(cmds: seq<Command>)
  {
    forall i :: 0 <= i < |cmds| ==> !cmds[i].CapabilityUpdate?
  }

  /** How many commands of the sequence switch the facing mode. */
  function CountSwitches(cmds: seq<Command>): nat
    decreases |cmds|
  {
    if cmds == [] then 0
    else (if cmds[0] == SwitchFacingMode then 1 else 0) + CountSwitches(cmds[1..])
  }

  /** `k` copies of the same command. */
  function Repeat(c: Command, k: nat): (r: seq<Command>)
    ensures |r| == k
  {
    if k == 0 then [] else [c] + Repeat(c, k - 1)
  }

  function Min(a: int, b: int): int { if a <= b then a else b }
  function Max(a: int, b: int): int { if a >= b then a else b }

  // ---------------------------------------------------------------------
  // Single commands
  // ---------------------------------------------------------------------

  /** Each command touches only its own piece of state. */
  lemma ApplyFrame(s: ControlState, c: Command)
    ensures c.ZoomIn? || c.ZoomOut? ==>
              Apply(s, c).maxZoom == s.maxZoom && Apply(s, c).facingMode == s.facingMode
    ensures c.SwitchFacingMode? ==>
              Apply(s, c).zoomLevel == s.zoomLevel && Apply(s, c).maxZoom == s.maxZoom
    ensures c.CapabilityUpdate? ==>
              Apply(s, c).zoomLevel == s.zoomLevel && Apply(s, c).facingMode == s.facingMode
  {
  }

  /** Switching twice restores the facing mode and leaves the zoom state alone. */
  lemma SwitchTwiceRestores(s: ControlState)
    ensures Apply(Apply(s, SwitchFacingMode), SwitchFacingMode) == s
    ensures Toggle(Environment) == User && Toggle(User) == Environment
  {
  }

  /** Zooming out undoes a zoom-in that took effect, and zooming in undoes a zoom-out that took effect. */
  lemma ZoomInOutInverse(s: ControlState)
    ensures (s.zoomLevel + 1) as real <= s.maxZoom && s.zoomLevel >= 1 ==>
              Apply(Apply(s, ZoomIn), ZoomOut) == s
    ensures s.zoomLevel > 1 && s.zoomLevel as real <= s.maxZoom ==>
              Apply(Apply(s, ZoomOut), ZoomIn) == s
  {
  }

  /** A capability update lowering maxZoom below the current zoom does not clamp the zoom level. */
  lemma CapabilityUpdateDoesNotClamp()
    ensures var s := Apply(ControlState(3, 3.0, Environment), CapabilityUpdate(Capabilities(Some(ZoomRange(2.0)))));
            s.zoomLevel == 3 && s.maxZoom == 2.0 && s.zoomLevel as real > s.maxZoom
  {
  }

  // ---------------------------------------------------------------------
  // Sequences of commands
  // ---------------------------------------------------------------------

  /** From any state with zoom at least 1, every command sequence keeps zoom at least 1. */
  lemma {:induction false} RunKeepsZoomPositive(s: ControlState, cmds: seq<Command>)
    requires s.zoomLevel >= 1
    ensures Run(s, cmds).zoomLevel >= 1
    decreases |cmds|
  {
    if cmds != [] {
      RunKeepsZoomPositive(Apply(s, cmds[0]), cmds[1..]);
    }
  }

  /** Without capability updates, maxZoom never changes and a zoom within it stays within it. */
  lemma {:induction false} RunStaysWithinMaxZoom(s: ControlState, cmds: seq<Command>)
    requires NoCapabilityUpdate(cmds)
    requires s.zoomLevel as real <= s.maxZoom
    ensures Run(s, cmds).maxZoom == s.maxZoom
    ensures Run(s, cmds).zoomLevel as real <= s.maxZoom
    decreases |cmds|
  {
    if cmds != [] {
      assert !cmds[0].CapabilityUpdate?;
      assert NoCapabilityUpdate(cmds[1..]) by {
        forall i | 0 <= i < |cmds[1..]| ensures !cmds[1..][i].CapabilityUpdate? {
          assert cmds[1..][i] == cmds[i + 1];
        }
      }
      RunStaysWithinMaxZoom(Apply(s, cmds[0]), cmds[1..]);
    }
  }

  /** From the initial state zoom stays 1 until a capability update raises maxZoom. */
  lemma InitialZoomFixedWithoutCapabilities(facingMode: FacingMode, cmds: seq<Command>)
    requires NoCapabilityUpdate(cmds)
    ensures Run(Initial(facingMode), cmds).zoomLevel == 1
    ensures Run(Initial(facingMode), cmds).maxZoom == 1.0
  {
    RunKeepsZoomPositive(Initial(facingMode), cmds);
    RunStaysWithinMaxZoom(Initial(facingMode), cmds);
  }

  /** The facing mode after a sequence depends only on the parity of the number of switches. */
  lemma {:induction false} RunFacingModeParity(s: ControlState, cmds: seq<Command>)
    ensures Run(s, cmds).facingMode ==
              if CountSwitches(cmds) % 2 == 0 then s.facingMode else Toggle(s.facingMode)
    decreases |cmds|
  {
    if cmds != [] {
      RunFacingModeParity(Apply(s, cmds[0]), cmds[1..]);
    }
  }

  /** Zoom state after a sequence does not depend on the facing mode. */
  lemma {:induction false} RunZoomIgnoresFacingMode(s: ControlState, f: FacingMode, cmds: seq<Command>)
    ensures Run(s.(facingMode := f), cmds).zoomLevel == Run(s, cmds).zoomLevel
    ensures Run(s.(facingMode := f), cmds).maxZoom == Run(s, cmds).maxZoom
    decreases |cmds|
  {
    if cmds != [] {
      var t := Apply(s, cmds[0]);
      var f' := Apply(s.(facingMode := f), cmds[0]).facingMode;
      assert Apply(s.(facingMode := f), cmds[0]) == t.(facingMode := f');
      RunZoomIgnoresFacingMode(t, f', cmds[1..]);
    }
  }

  /** `k` zoom-ins climb one step each until the largest whole zoom within maxZoom. */
  lemma {:induction false} RepeatedZoomInReachesCeiling(s: ControlState, k: nat)
    ensures Run(s, Repeat(ZoomIn, k)).zoomLevel ==
              if s.zoomLevel >= s.maxZoom.Floor then s.zoomLevel
              else Min(s.zoomLevel + k, s.maxZoom.Floor)
    ensures Run(s, Repeat(ZoomIn, k)).maxZoom == s.maxZoom
    decreases k
  {
    if k > 0 {
      var cmds := Repeat(ZoomIn, k);
      assert cmds[0] == ZoomIn && cmds[1..] == Repeat(ZoomIn, k - 1);
      RepeatedZoomInReachesCeiling(Apply(s, ZoomIn), k - 1);
    }
  }

  /** `k` zoom-outs descend one step each down to 1. */
  lemma {:induction false} RepeatedZoomOutReachesFloor(s: ControlState, k: nat)
    ensures Run(s, Repeat(ZoomOut, k)).zoomLevel ==
              if s.zoomLevel <= 1 then s.zoomLevel else Max(s.zoomLevel - k, 1)
    ensures Run(s, Repeat(ZoomOut, k)).maxZoom == s.maxZoom
    decreases k
  {
    if k > 0 {
      var cmds := Repeat(ZoomOut, k);
      assert cmds[0] == ZoomOut && cmds[1..] == Repeat(ZoomOut, k - 1);
      RepeatedZoomOutReachesFloor(Apply(s, ZoomOut), k - 1);
    }
  }

  /** The constraint record determines the facing mode and zoom it was built from. */
  lemma ConstraintsDetermineState(f1: FacingMode, f2: FacingMode, w: Option<int>, h: Option<int>, z1: int, z2: int)
    ensures BuildConstraints(f1, w, h, z1) == BuildConstraints(f2, w, h, z2) <==> f1 == f2 && z1 == z2
  {
  }
}
