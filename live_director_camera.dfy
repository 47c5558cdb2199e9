/**
 * The live director camera: which preset shot the camera uses (before the game, live play,
 * a goal kick, a corner), when it snaps to the preset, and what the live shot follows (the
 * ball, or a dribbling agent, with a ten-second pause after each dribble).
 */
module LiveDirector {

  datatype CameraType = BeforeLive | Live | GoalKick | Corner

  /** An agent, by identity. */
  type AgentId = nat

  /** What the live shot follows. */
  datatype Target = NoTarget | Ball | Agent(agent: AgentId)

  /** The seconds after a dribble stops during which a new dribble does not take the shot. */
  const DribbleListenerGap: real := 10.0

  /**
   * The camera's state: whether it directs; the shot and whether it changed since the camera
   * last snapped to a preset; the team of the last goal kick; what the live shot follows and
   * whether that was settled; when the last dribble stopped and the game time; and whether
   * the presets (`cameras` in the source, built by the first update while enabled) exist.
   */
  datatype Director = Director(enabled: bool, cameraType: CameraType, changed: bool, isLeftTeam: bool,
                               target: Target, initializedTarget: bool, lastDribbleStopTime: real,
                               time: real, presetsBuilt: bool)

  /** The camera as constructed: disabled, before live, nothing followed, no presets yet. */
  const Initial := Director(false, BeforeLive, false, false, NoTarget, false, 0.0, 0.0, false)

  /**
   * `changeCameraType`: switching to the current shot does nothing; any other shot becomes
   * the current one and is flagged as changed.
   */
  function ChangeType(d: Director, t: CameraType): (r: Director)
    ensures r.cameraType == t
    ensures r.changed <==> d.changed || d.cameraType != t
    ensures r.(cameraType := d.cameraType, changed := d.changed) == d
  {
    if d.cameraType == t then d else d.(cameraType := t, changed := true)
  }

  /** Asking twice for a shot is asking once. */
  lemma ChangeTypeIdempotent(d: Director, t: CameraType)
    ensures ChangeType(ChangeType(d, t), t) == ChangeType(d, t)
  {
  }

  /** Asking for the current shot changes nothing. */
  lemma ChangeTypeToCurrent(d: Director)
    ensures ChangeType(d, d.cameraType) == d
  {
  }

  /**
   * Where an operation puts the camera: nowhere, at a shot's preset, or nowhere because the
   * presets do not exist yet (the source dereferences a null `cameras`).
   */
  datatype Placement = NotPlaced | PlacedAt(preset: CameraType) | Failed

  /**
   * `setEnabled`: the camera directs or stops directing; when it starts, it takes the live
   * shot if the game state is initialised and the before-live shot otherwise.
   */
  function Enabled(d: Director, enable: bool, gameInitialized: bool): (r: Director)
    ensures r.enabled == enable
    ensures enable ==> r.cameraType == (if gameInitialized then Live else BeforeLive)
    ensures enable ==> (r.changed <==> d.changed || d.cameraType != r.cameraType)
    ensures !enable ==> r == d.(enabled := false)
    ensures enable ==> r.(enabled := d.enabled, cameraType := d.cameraType, changed := d.changed) == d
  {
    var e := d.(enabled := enable);
    if enable then ChangeType(e, if gameInitialized then Live else BeforeLive) else e
  }

  /** Where `setEnabled` puts the camera: at the new shot's preset, which fails before the first enabled update. */
  function EnabledPlacement(d: Director, enable: bool, gameInitialized: bool): (p: Placement)
    ensures !enable ==> p == NotPlaced
    ensures enable && !d.presetsBuilt ==> p == Failed
    ensures enable && d.presetsBuilt ==> p == PlacedAt(Enabled(d, enable, gameInitialized).cameraType)
  {
    if !enable then NotPlaced
    else if !d.presetsBuilt then Failed
    else PlacedAt(Enabled(d, enable, gameInitialized).cameraType)
  }

  /** The feed `update` runs after the presets: following a target live, easing into the goal kick, or none. */
  datatype Feed = NoFeed | LiveFeed | GoalKickFeed

  /**
   * `update`: nothing while disabled. Enabled, it rebuilds the presets, snaps the camera to
   * the current shot's preset if the shot changed, clearing the flag, and runs the shot's
   * feed; the live feed first settles the target on the ball once the game state is
   * initialised.
   */
  function Updated(d: Director, gameInitialized: bool): (r: Director)
    ensures !d.enabled ==> r == d
    ensures d.enabled ==> !r.changed && r.presetsBuilt
    ensures r.cameraType == d.cameraType && r.enabled == d.enabled
    ensures r.target != d.target ==> r.target == Ball
    ensures var init := d.enabled && d.cameraType == Live && !d.initializedTarget && gameInitialized;
            r.target == (if init then Ball else d.target) &&
            r.initializedTarget == (init || d.initializedTarget)
    ensures r.(presetsBuilt := d.presetsBuilt, changed := d.changed, target := d.target,
               initializedTarget := d.initializedTarget) == d
  {
    if !d.enabled then d
    else
      var built := d.(presetsBuilt := true, changed := false);
      if d.cameraType == Live && !d.initializedTarget && gameInitialized then
        built.(target := Ball, initializedTarget := true)
      else built
  }

  /** The preset `update` snaps the camera to, if any. */
  function UpdatePlacement(d: Director): (p: Placement)
    ensures p != Failed
    ensures p.PlacedAt? <==> d.enabled && d.changed
    ensures p.PlacedAt? ==> p.preset == d.cameraType
  {
    if d.enabled && d.changed then PlacedAt(d.cameraType) else NotPlaced
  }

  /** The feed `update` runs. */
  function UpdateFeed(d: Director): (f: Feed)
    ensures f.LiveFeed? <==> d.enabled && d.cameraType == Live
    ensures f.GoalKickFeed? <==> d.enabled && d.cameraType == GoalKick
  {
    if !d.enabled then NoFeed
    else if d.cameraType == Live then LiveFeed
    else if d.cameraType == GoalKick then GoalKickFeed
    else NoFeed
  }

  /** A second update snaps nowhere: the first one consumed the change. */
  lemma UpdateSnapsOnce(d: Director, gameInitialized: bool)
    ensures UpdatePlacement(Updated(d, gameInitialized)) == NotPlaced
  {
  }

  /** After one enabled update the presets exist, so a later `setEnabled(true)` places the camera. */
  lemma UpdateBuildsPresets(d: Director, gameInitialized: bool, later: bool)
    requires d.enabled
    ensures EnabledPlacement(Updated(d, gameInitialized), true, later).PlacedAt?
  {
  }

  /** `goalKickReceived`: the kicking team becomes the camera's side and the shot turns to the goal kick. */
  function GoalKicked(d: Director, team: int): (r: Director)
    ensures r.isLeftTeam <==> team == 1
    ensures r.cameraType == GoalKick
    ensures r.changed <==> d.changed || d.cameraType != GoalKick
    ensures r.target == d.target && r.enabled == d.enabled
    ensures r.(isLeftTeam := d.isLeftTeam, cameraType := d.cameraType, changed := d.changed) == d
  {
    ChangeType(d.(isLeftTeam := team == 1), GoalKick)
  }

  /** `playOnReceived`: play resumes, and the shot turns to live. */
  function PlayedOn(d: Director): (r: Director)
    ensures r.cameraType == Live
    ensures r.changed <==> d.changed || d.cameraType != Live
    ensures r.isLeftTeam == d.isLeftTeam && r.target == d.target
    ensures r.(cameraType := d.cameraType, changed := d.changed) == d
  {
    ChangeType(d, Live)
  }

  /**
   * `dribbleStartReceived`: the live shot takes the dribbler only when more than
   * `DribbleListenerGap` seconds have passed since the last dribble stopped.
   */
  function DribbleStarted(d: Director, dribbler: AgentId): (r: Director)
    ensures r.target == Agent(dribbler) || r.target == d.target
    ensures r.target == (if d.time - d.lastDribbleStopTime > DribbleListenerGap then Agent(dribbler) else d.target)
    ensures r.(target := d.target) == d
  {
    if d.time - d.lastDribbleStopTime > DribbleListenerGap then d.(target := Agent(dribbler)) else d
  }

  /** `dribbleStopReceived`: the stop time is recorded and the live shot returns to the ball. */
  function DribbleStopped(d: Director): (r: Director)
    ensures r.target == Ball && r.lastDribbleStopTime == d.time
    ensures r.(target := d.target, lastDribbleStopTime := d.lastDribbleStopTime) == d
  {
    d.(lastDribbleStopTime := d.time, target := Ball)
  }

  /** `gsTimeChanged`: the game clock moves on. */
  function TimeChanged(d: Director, time: real): (r: Director)
    ensures r.time == time && r.(time := d.time) == d
  {
    d.(time := time)
  }

  /**
   * The debounce: after a dribble stops at `stopped`, a dribble starting at `started` takes
   * the live shot exactly when more than ten seconds have passed; otherwise the shot stays
   * on the ball.
   */
  lemma DribbleDebounce(d: Director, stopped: real, started: real, dribbler: AgentId)
    ensures var after := DribbleStarted(TimeChanged(DribbleStopped(TimeChanged(d, stopped)), started), dribbler);
      (after.target == Agent(dribbler) <==> started - stopped > DribbleListenerGap) &&
      (started - stopped <= DribbleListenerGap ==> after.target == Ball)
  {
    var s := DribbleStopped(TimeChanged(d, stopped));
    assert s.lastDribbleStopTime == stopped && s.target == Ball;
    var t := TimeChanged(s, started);
    assert t.time - t.lastDribbleStopTime == started - stopped;
  }

  /** The camera's fields, updated in place by the viewer's callbacks. */
  class LiveDirectorCamera {
    var enabled: bool
    var currentCameraType: CameraType
    var hasChangedCameraType: bool
    var isLeftTeam: bool
    var target: Target
    var initializedTarget: bool
    var lastDribbleStopTime: real
    var time: real
    /** Whether `cameras` is set. */
    var presetsBuilt: bool

    function Snapshot(): Director
      reads this
    {
      Director(enabled, currentCameraType, hasChangedCameraType, isLeftTeam, target, initializedTarget,
               lastDribbleStopTime, time, presetsBuilt)
    }

    constructor ()
      ensures Snapshot() == Initial
    {
      enabled, currentCameraType, hasChangedCameraType, isLeftTeam := false, BeforeLive, false, false;
      target, initializedTarget := NoTarget, false;
      lastDribbleStopTime, time, presetsBuilt := 0.0, 0.0, false;
    }

    method ChangeCameraType(t: CameraType)
      modifies this`currentCameraType, this`hasChangedCameraType
      ensures Snapshot() == ChangeType(old(Snapshot()), t)
    {
      if currentCameraType == t {
        return;
      }
      currentCameraType := t;
      hasChangedCameraType := true;
    }

    /** `setEnabled`; `gameInitialized` is the game state's `isInitialized()`. */
    method SetEnabled(enable: bool, gameInitialized: bool) returns (placement: Placement)
      modifies this`enabled, this`currentCameraType, this`hasChangedCameraType
      ensures Snapshot() == Enabled(old(Snapshot()), enable, gameInitialized)
      ensures placement == EnabledPlacement(old(Snapshot()), enable, gameInitialized)
    {
      enabled := enable;
      placement := NotPlaced;
      if enable {
        ChangeCameraType(if gameInitialized then Live else BeforeLive);
        placement := if presetsBuilt then PlacedAt(currentCameraType) else Failed;
      }
    }

    /** `update`; the camera geometry of the feeds is not modelled, only which feed runs. */
    method Update(gameInitialized: bool) returns (placement: Placement, feed: Feed)
      modifies this`presetsBuilt, this`hasChangedCameraType, this`target, this`initializedTarget
      ensures Snapshot() == Updated(old(Snapshot()), gameInitialized)
      ensures placement == UpdatePlacement(old(Snapshot())) && feed == UpdateFeed(old(Snapshot()))
    {
      placement, feed := NotPlaced, NoFeed;
      if !enabled {
        return;
      }
      presetsBuilt := true;
      if hasChangedCameraType {
        placement := PlacedAt(currentCameraType);
        hasChangedCameraType := false;
      }
      if currentCameraType == Live {
        if !initializedTarget && gameInitialized {
          target := Ball;
          initializedTarget := true;
        }
        feed := LiveFeed;
        return;
      }
      if currentCameraType == GoalKick {
        feed := GoalKickFeed;
        return;
      }
    }

    method GoalKickReceived(team: int)
      modifies this`isLeftTeam, this`currentCameraType, this`hasChangedCameraType
      ensures Snapshot() == GoalKicked(old(Snapshot()), team)
    {
      isLeftTeam := team == 1;
      ChangeCameraType(GoalKick);
    }

    method PlayOnReceived()
      modifies this`currentCameraType, this`hasChangedCameraType
      ensures Snapshot() == PlayedOn(old(Snapshot()))
    {
      ChangeCameraType(Live);
    }

    method DribbleStartReceived(dribbler: AgentId)
      modifies this`target
      ensures Snapshot() == DribbleStarted(old(Snapshot()), dribbler)
    {
      var dt := time - lastDribbleStopTime;
      if dt > DribbleListenerGap {
        target := Agent(dribbler);
      }
    }

    method DribbleStopReceived()
      modifies this`lastDribbleStopTime, this`target
      ensures Snapshot() == DribbleStopped(old(Snapshot()))
    {
      lastDribbleStopTime := time;
      target := Ball;
    }

    method GsTimeChanged(gameTime: real)
      modifies this`time
      ensures Snapshot() == TimeChanged(old(Snapshot()), gameTime)
    {
      time := gameTime;
    }
  }
}
