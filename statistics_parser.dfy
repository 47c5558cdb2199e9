/**
 * The statistics parser of the viewer: a deduplicating registry of game statistics keyed by
 * statistic-type name, the play-mode and foul statistics read from each server message, the
 * rate-limited possession tracker, the running left-possession series, the ball heat map and
 * the dribble touch counter.
 */
module Statistics {
  import opened Wrappers
  import opened Vectors
  import MatrixUtil

  // ---------------------------------------------------------------------------------------
  // Statistic types and records
  // ---------------------------------------------------------------------------------------

  datatype StatisticType =
    | Offside | Foul | FreeKick | Corner | KickIn | GoalKick
    | Pass | Drible | Possession | Shot | ShotTarget | Goal

  /** The name of the enum constant, which is the key of that type's list in the registry. */
  function Key(t: StatisticType): string
  {
    match t
    case Offside => "OFFSIDE"
    case Foul => "FOUL"
    case FreeKick => "FREE_KICK"
    case Corner => "CORNER"
    case KickIn => "KICK_IN"
    case GoalKick => "GOAL_KICK"
    case Pass => "PASS"
    case Drible => "DRIBLE"
    case Possession => "POSSESSION"
    case Shot => "SHOT"
    case ShotTarget => "SHOT_TARGET"
    case Goal => "GOAL"
  }

  /** The types the registry is created with: every one of them. */
  const AllTypes: set<StatisticType> :=
    {Offside, Foul, FreeKick, Corner, KickIn, GoalKick, Pass, Drible, Possession, Shot, ShotTarget, Goal}

  /** No statistic type is missing from `AllTypes`. */
  lemma AllTypesComplete(t: StatisticType)
    ensures t in AllTypes
  {
    match t
    case Offside =>
    case Foul =>
    case FreeKick =>
    case Corner =>
    case KickIn =>
    case GoalKick =>
    case Pass =>
    case Drible =>
    case Possession =>
    case Shot =>
    case ShotTarget =>
    case Goal =>
  }

  /** The statistic type a key names, the inverse of `Key`; `None` for any other string. */
  function TypeNamed(key: string): (r: Option<StatisticType>)
    ensures r.Some? ==> Key(r.value) == key
  {
    if key == "OFFSIDE" then Some(Offside)
    else if key == "FOUL" then Some(Foul)
    else if key == "FREE_KICK" then Some(FreeKick)
    else if key == "CORNER" then Some(Corner)
    else if key == "KICK_IN" then Some(KickIn)
    else if key == "GOAL_KICK" then Some(GoalKick)
    else if key == "PASS" then Some(Pass)
    else if key == "DRIBLE" then Some(Drible)
    else if key == "POSSESSION" then Some(Possession)
    else if key == "SHOT" then Some(Shot)
    else if key == "SHOT_TARGET" then Some(ShotTarget)
    else if key == "GOAL" then Some(Goal)
    else None
  }

  /** Every type's name leads back to it, so no two types share a list. */
  lemma KeyRoundTrip(t: StatisticType)
    ensures TypeNamed(Key(t)) == Some(t)
  {
  }

  /** A key that is not the name of a type has no list. */
  lemma UnknownKeyHasNoType(key: string)
    requires forall t: StatisticType :: Key(t) != key
    ensures TypeNamed(key) == None
  {
  }

  /**
   * A recorded statistic. `kind` is `None` for the typeless record the parser drafts for a
   * message part that carries no statistic; teams are 1 (left) and 2 (right).
   */
  datatype Statistic = Statistic(time: real, index: int, kind: Option<StatisticType>, team: int, agentID: int)

  /** One point of the possession graph: the left team's share of possession so far. */
  datatype PossessionStatistic = PossessionStatistic(time: real, leftPossession: real)

  // ---------------------------------------------------------------------------------------
  // The deduplicating registry
  // ---------------------------------------------------------------------------------------

  /** Width of the deduplication window, in game seconds. */
  const DuplicateWindow: real := 2.0

  function Abs(x: real): real { if x < 0.0 then -x else x }

  /** `a` and `b` report the same event: same type, team and agent, less than 2.0 s apart. */
  predicate SameEvent(a: Statistic, b: Statistic)
  {
    a.kind == b.kind && a.team == b.team && a.agentID == b.agentID &&
    Abs(b.time - a.time) < DuplicateWindow
  }

  /** Some entry of `list` already reports the event `s`. */
  predicate Duplicate(list: seq<Statistic>, s: Statistic)
  {
    exists i :: 0 <= i < |list| && SameEvent(list[i], s)
  }

  /** No two entries of `list` report the same event. */
  predicate Deduplicated(list: seq<Statistic>)
  {
    forall i, j :: 0 <= i < j < |list| ==> !SameEvent(list[i], list[j])
  }

  /**
   * The list after offering `s` to it: the old entries stay in place, `s` is appended at
   * the end exactly when no entry reports the same event, and afterwards the event is
   * always on record.
   */
  function Insert(list: seq<Statistic>, s: Statistic): (r: seq<Statistic>)
    ensures |list| <= |r| <= |list| + 1 && r[..|list|] == list
    ensures |r| == |list| + 1 <==> !Duplicate(list, s)
    ensures |r| == |list| + 1 ==> r[|list|] == s
    ensures Duplicate(r, s)
    ensures Deduplicated(list) ==> Deduplicated(r)
  {
    if Duplicate(list, s) then list
    else
      assert SameEvent(s, s);
      assert (list + [s])[|list|] == s;
      list + [s]
  }

  /**
   * The registry after `addStatistic(key, s)`: only the list under `key` can change, and a
   * key the registry was not created with stays absent.
   */
  function AddTo(stats: map<StatisticType, seq<Statistic>>, key: StatisticType, s: Statistic): (r: map<StatisticType, seq<Statistic>>)
    ensures r.Keys == stats.Keys
    ensures forall k :: k in stats && k != key ==> r[k] == stats[k]
    ensures key in stats ==> r[key] == Insert(stats[key], s)
  {
    if key in stats then stats[key := Insert(stats[key], s)] else stats
  }

  /** The linear scan of `addStatistic` for an entry reporting the same event as `s`. */
  method HasDuplicate(list: seq<Statistic>, s: Statistic) returns (found: bool)
    ensures found <==> Duplicate(list, s)
  {
    found := false;
    var i := 0;
    while i < |list|
      invariant 0 <= i <= |list|
      invariant forall j :: 0 <= j < i ==> !SameEvent(list[j], s)
    {
      if SameEvent(list[i], s) {
        found := true;
        break;
      }
      i := i + 1;
    }
  }

  /** Offering the same event twice within the window stores it once. */
  lemma CloseRepeatStoredOnce(list: seq<Statistic>, s: Statistic, later: real)
    requires !Duplicate(list, s) && s.time <= later < s.time + DuplicateWindow
    ensures Insert(Insert(list, s), s.(time := later)) == list + [s]
  {
    var once := Insert(list, s);
    assert once[|list|] == s;
    assert SameEvent(once[|list|], s.(time := later));
  }

  /** Offering the same event twice, the window apart or more, stores it twice. */
  lemma DistantRepeatStoredTwice(list: seq<Statistic>, s: Statistic, later: real)
    requires !Duplicate(list, s) && !Duplicate(list, s.(time := later))
    requires s.time + DuplicateWindow <= later
    ensures Insert(Insert(list, s), s.(time := later)) == list + [s, s.(time := later)]
  {
    var once := Insert(list, s);
    assert once == list + [s];
    forall i | 0 <= i < |once|
      ensures !SameEvent(once[i], s.(time := later))
    {
      if i == |list| {
        assert once[i] == s;
      } else {
        assert once[i] == list[i];
      }
    }
  }

  // ---------------------------------------------------------------------------------------
  // Possession
  // ---------------------------------------------------------------------------------------

  /** A team member as the rosters list it. */
  datatype Agent = Agent(id: int, position: Vec3)

  /**
   * An agent tagged with its team number: 1 for the left team, 2 for the right team. The
   * source derives the number by comparing team IDs with the left team's, so the tag agrees
   * with it as long as the two teams have distinct IDs, which is assumed here.
   */
  datatype Player = Player(team: int, id: int, position: Vec3)

  function Tag(agents: seq<Agent>, team: int): (ps: seq<Player>)
    ensures |ps| == |agents|
    ensures forall i :: 0 <= i < |ps| ==>
      ps[i] == Player(team, agents[i].id, agents[i].position)
  {
    seq(|agents|, i requires 0 <= i < |agents| => Player(team, agents[i].id, agents[i].position))
  }

  /** Scan order of the possession tracker: the left team in roster order, then the right. */
  function Roster(left: seq<Agent>, right: seq<Agent>): seq<Player>
  {
    Tag(left, 1) + Tag(right, 2)
  }

  function SquaredDistance(p: Player, ball: Vec3): real
  {
    p.position.Minus(ball).LengthSquared()
  }

  /** The initial bound of the scan: only agents closer than this (squared) can own the ball. */
  const NoOwnerDistance: real := 1000.0

  /**
   * `ps[k]` is what a strict-`<` scan starting from `bound` selects: closer than `bound`, no
   * farther than anyone, and strictly closer than everyone scanned before it.
   */
  predicate FirstBelow(ps: seq<Player>, ball: Vec3, bound: real, k: int)
  {
    0 <= k < |ps| &&
    SquaredDistance(ps[k], ball) < bound &&
    (forall j :: 0 <= j < |ps| ==> SquaredDistance(ps[k], ball) <= SquaredDistance(ps[j], ball)) &&
    (forall j :: 0 <= j < k ==> SquaredDistance(ps[k], ball) < SquaredDistance(ps[j], ball))
  }

  /** Nobody is closer than `bound`. */
  predicate NoneBelow(ps: seq<Player>, ball: Vec3, bound: real)
  {
    forall j :: 0 <= j < |ps| ==> bound <= SquaredDistance(ps[j], ball)
  }

  /** The running minimum of a possession scan: the smallest squared distance so far and its holder. */
  datatype Scan = Scan(best: real, owner: Option<Player>)

  /**
   * Continue the scan `from` over `ps` in order. The holder changes only to an agent
   * strictly closer than the running minimum.
   */
  function Closest(ps: seq<Player>, ball: Vec3, from: Scan): Scan
    decreases |ps|
  {
    if ps == [] then from
    else
      var d := SquaredDistance(ps[0], ball);
      Closest(ps[1..], ball, if d < from.best then Scan(d, Some(ps[0])) else from)
  }

  /**
   * A scan leaves its start alone when nobody is closer than its minimum; otherwise it ends
   * on the first of the closest agents, which is closer than the start.
   */
  lemma {:induction false} ClosestSelects(ps: seq<Player>, ball: Vec3, from: Scan)
    ensures NoneBelow(ps, ball, from.best) ==> Closest(ps, ball, from) == from
    ensures !NoneBelow(ps, ball, from.best) ==>
      exists k :: FirstBelow(ps, ball, from.best, k) &&
                  Closest(ps, ball, from) == Scan(SquaredDistance(ps[k], ball), Some(ps[k]))
    decreases |ps|
  {
    if ps != [] {
      var rest := ps[1..];
      assert forall j :: 0 <= j < |rest| ==> rest[j] == ps[j + 1];
      var d := SquaredDistance(ps[0], ball);
      var next := if d < from.best then Scan(d, Some(ps[0])) else from;
      ClosestSelects(rest, ball, next);
      if d < from.best {
        if NoneBelow(rest, ball, d) {
          assert FirstBelow(ps, ball, from.best, 0);
        } else {
          var k :| FirstBelow(rest, ball, d, k) &&
                   Closest(rest, ball, next) == Scan(SquaredDistance(rest[k], ball), Some(rest[k]));
          assert FirstBelow(ps, ball, from.best, k + 1);
        }
      } else if !NoneBelow(rest, ball, from.best) {
        var k :| FirstBelow(rest, ball, from.best, k) &&
                 Closest(rest, ball, next) == Scan(SquaredDistance(rest[k], ball), Some(rest[k]));
        assert FirstBelow(ps, ball, from.best, k + 1);
      }
    }
  }

  /** Scanning `l` and then continuing over `r` is one scan over `l + r`. */
  lemma {:induction false} ClosestAppend(l: seq<Player>, r: seq<Player>, ball: Vec3, from: Scan)
    ensures Closest(l + r, ball, from) == Closest(r, ball, Closest(l, ball, from))
    decreases |l|
  {
    if l == [] {
      assert l + r == r;
    } else {
      assert (l + r)[1..] == l[1..] + r;
      var d := SquaredDistance(l[0], ball);
      ClosestAppend(l[1..], r, ball, if d < from.best then Scan(d, Some(l[0])) else from);
    }
  }

  /** The two roster loops of `detectPossession`: the left team first, then the right team. */
  method FindOwner(left: seq<Agent>, right: seq<Agent>, ball: Vec3) returns (best: real, owner: Option<Player>)
    ensures Scan(best, owner) == PossessionScan(Roster(left, right), ball)
  {
    var l, r := Tag(left, 1), Tag(right, 2);
    var bestL, ownerL := ScanClosest(l, ball, NoOwnerDistance, None);
    best, owner := ScanClosest(r, ball, bestL, ownerL);
    ClosestAppend(l, r, ball, Scan(NoOwnerDistance, None));
  }

  /**
   * What a full possession scan over `ps` leaves behind: no owner and the initial bound when
   * nobody is closer than 1000 (squared), otherwise the first closest agent and its squared
   * distance.
   */
  ghost predicate PossessionOutcome(ps: seq<Player>, ball: Vec3, owner: Option<Player>, distance: real)
  {
    (owner.None? <==> NoneBelow(ps, ball, NoOwnerDistance)) &&
    (owner.None? ==> distance == NoOwnerDistance) &&
    (owner.Some? ==>
       exists k :: FirstBelow(ps, ball, NoOwnerDistance, k) && owner == Some(ps[k]) &&
                   distance == SquaredDistance(ps[k], ball))
  }

  /** The scan `detectPossession` runs, from a bound of 1000 and no owner. */
  function PossessionScan(ps: seq<Player>, ball: Vec3): Scan
  {
    Closest(ps, ball, Scan(NoOwnerDistance, None))
  }

  /** A possession scan selects the first closest agent closer than 1000, or nobody. */
  lemma PossessionScanOutcome(ps: seq<Player>, ball: Vec3)
    ensures PossessionOutcome(ps, ball, PossessionScan(ps, ball).owner, PossessionScan(ps, ball).best)
  {
    ClosestSelects(ps, ball, Scan(NoOwnerDistance, None));
  }

  /** One roster loop of `detectPossession`: continue the scan `(best0, owner0)` over `ps`. */
  method ScanClosest(ps: seq<Player>, ball: Vec3, best0: real, owner0: Option<Player>)
    returns (best: real, owner: Option<Player>)
    ensures Scan(best, owner) == Closest(ps, ball, Scan(best0, owner0))
  {
    best, owner := best0, owner0;
    var i := 0;
    while i < |ps|
      invariant 0 <= i <= |ps|
      invariant Closest(ps[i..], ball, Scan(best, owner)) == Closest(ps, ball, Scan(best0, owner0))
    {
      assert ps[i..][1..] == ps[i + 1..];
      var d := SquaredDistance(ps[i], ball);
      if d < best {
        best, owner := d, Some(ps[i]);
      }
      i := i + 1;
    }
  }

  /** Of two equally close agents, the one scanned first is selected: a left agent beats a right one. */
  lemma TieGoesToFirstScanned(ps: seq<Player>, ball: Vec3, bound: real, k: int, j: int)
    requires FirstBelow(ps, ball, bound, k)
    requires 0 <= j < |ps| && SquaredDistance(ps[j], ball) == SquaredDistance(ps[k], ball)
    ensures k <= j
  {
  }

  /** The selected owner is unique. */
  lemma FirstBelowUnique(ps: seq<Player>, ball: Vec3, bound: real, k: int, k': int)
    requires FirstBelow(ps, ball, bound, k) && FirstBelow(ps, ball, bound, k')
    ensures k == k'
  {
  }

  /** Owner-dependent team number of a possession statistic. */
  function PossessionStatisticOf(time: real, owner: Player): Statistic
  {
    Statistic(time, 0, Some(Possession), owner.team, owner.id)
  }

  /** Number of entries credited to the left team (team 1). */
  function LeftCount(list: seq<Statistic>): (n: nat)
    ensures n <= |list|
    ensures n == |list| <==> forall i :: 0 <= i < |list| ==> list[i].team == 1
    ensures n == 0 <==> forall i :: 0 <= i < |list| ==> list[i].team != 1
  {
    if list == [] then 0
    else
      assert forall i :: 1 <= i < |list| ==> list[i] == list[1..][i - 1];
      (if list[0].team == 1 then 1 else 0) + LeftCount(list[1..])
  }

  /** The left team's share of the possession statistics, a fraction in [0, 1]. */
  function LeftShare(list: seq<Statistic>): (share: real)
    requires |list| > 0
    ensures 0.0 <= share <= 1.0
    ensures share == 1.0 <==> forall i :: 0 <= i < |list| ==> list[i].team == 1
    ensures share == 0.0 <==> forall i :: 0 <= i < |list| ==> list[i].team != 1
    ensures share * (|list| as real) == LeftCount(list) as real
  {
    var n, d := LeftCount(list) as real, |list| as real;
    Fraction(n, d);
    assert n / d * d == n;
    n / d
  }

  /** A count over a positive total is a fraction in [0, 1], 1 for all and 0 for none. */
  lemma Fraction(n: real, d: real)
    requires 0.0 <= n <= d && d > 0.0
    ensures 0.0 <= n / d <= 1.0
    ensures n / d == 1.0 <==> n == d
    ensures n / d == 0.0 <==> n == 0.0
  {
    var q := n / d;
    assert q * d == n;
    assert (1.0 - q) * d == d - n;
  }

  /**
   * The point `parseStatistics` adds to the possession graph: one exactly when there is a
   * possession record, stamped with the current time and carrying the left team's share.
   */
  function GraphSample(stats: map<StatisticType, seq<Statistic>>, time: real): (r: seq<PossessionStatistic>)
    ensures |r| <= 1
    ensures forall p :: p in r ==> 0.0 <= p.leftPossession <= 1.0
    ensures |r| == 1 <==> Possession in stats && |stats[Possession]| > 0
    ensures |r| == 1 ==> r[0].time == time
    ensures |r| == 1 ==>
      r[0].leftPossession * (|stats[Possession]| as real) == LeftCount(stats[Possession]) as real
  {
    var list := if Possession in stats then stats[Possession] else [];
    if |list| > 0 then [PossessionStatistic(time, LeftShare(list))] else []
  }

  // ---------------------------------------------------------------------------------------
  // Play modes and fouls
  // ---------------------------------------------------------------------------------------

  datatype Side = Left | Right

  /** Team number of a side: 1 for the left team, 2 for the right team. */
  function TeamNumber(side: Side): int
  {
    match side
    case Left => 1
    case Right => 2
  }

  /** The referee calls that come in a left and a right variant. */
  datatype Call =
    | OffsideCall | KickInCall | GoalKickCall | FreeKickCall | DirectFreeKickCall | CornerKickCall | GoalCall

  /**
   * A play mode as the server names it: play on, one of the sided calls, or any other mode
   * (kick-off, before kick-off, game over, ...) the statistics do not look at.
   */
  datatype PlayMode = PlayOn | Called(call: Call, side: Side) | OtherMode

  /** The statistic type each sided call is recorded as. */
  function CallStatistic(c: Call): (t: StatisticType)
    ensures c == FreeKickCall || c == DirectFreeKickCall <==> t == FreeKick
    ensures c == GoalCall <==> t == Goal
  {
    match c
    case OffsideCall => Offside
    case KickInCall => KickIn
    case GoalKickCall => GoalKick
    case FreeKickCall => FreeKick
    case DirectFreeKickCall => FreeKick
    case CornerKickCall => Corner
    case GoalCall => Goal
  }

  /**
   * The (type, team) recorded for a play mode. Left calls are credited to team 1 and right
   * calls to team 2; play on and the other modes record nothing.
   */
  function PlayModeStatistic(mode: PlayMode): (r: Option<(StatisticType, int)>)
    ensures r.None? <==> !mode.Called?
    ensures mode == PlayOn ==> r == None
    ensures mode.Called? && mode.side == Left ==> r.value.1 == 1
    ensures mode.Called? && mode.side == Right ==> r.value.1 == 2
    ensures mode.Called? && mode.call in {FreeKickCall, DirectFreeKickCall} ==> r.value.0 == FreeKick
    ensures r.Some? ==> r.value.0 != Possession && r.value.0 != Foul
  {
    match mode
    case Called(c, side) => Some((CallStatistic(c), TeamNumber(side)))
    case _ => None
  }

  /** One part of a server message, already tokenized and typed. */
  datatype Atom =
    | TimeAtom(t: real)
    | PlayModeAtom(index: int, mode: PlayMode)
    | FoulAtom(index: int, team: int, agentID: int)
    | OtherAtom        // a part with a head the statistics ignore
    | Nested           // a part without atoms of its own, skipped entirely

  /** What the listeners of the parser are told, in order. */
  datatype Notification = GoalNote(s: Statistic) | GoalKickNote(s: Statistic) | PlayOnNote | CornerKickNote(s: Statistic)

  /** The notification flags of one message; once raised they stay raised for its later parts. */
  datatype Flags = Flags(goal: bool, goalKick: bool, playOn: bool, cornerKick: bool)

  const NoFlags := Flags(false, false, false, false)

  /** The statistic drafted for one message part at the current `time`. */
  function Draft(time: real, a: Atom): (s: Statistic)
    ensures s.time == time
    ensures a.FoulAtom? ==> s == Statistic(time, a.index, Some(Foul), a.team, a.agentID)
    ensures a.PlayModeAtom? && a.mode.Called? ==>
      s.kind == Some(PlayModeStatistic(a.mode).value.0) && s.team == TeamNumber(a.mode.side) &&
      s.index == a.index && s.agentID == 0
    ensures s.kind.Some? <==> a.FoulAtom? || (a.PlayModeAtom? && a.mode.Called?)
  {
    match a
    case PlayModeAtom(index, mode) =>
      (match PlayModeStatistic(mode)
       case Some((t, team)) => Statistic(time, index, Some(t), team, 0)
       case None => Statistic(time, 0, None, 0, 0))
    case FoulAtom(index, team, agentID) => Statistic(time, index, Some(Foul), team, agentID)
    case _ => Statistic(time, 0, None, 0, 0)
  }

  function Raise(f: Flags, a: Atom): Flags
  {
    match a
    case PlayModeAtom(_, PlayOn) => f.(playOn := true)
    case PlayModeAtom(_, Called(GoalCall, _)) => f.(goal := true)
    case PlayModeAtom(_, Called(GoalKickCall, _)) => f.(goalKick := true)
    case PlayModeAtom(_, Called(CornerKickCall, _)) => f.(cornerKick := true)
    case _ => f
  }

  /** The notifications sent after a part, in the order goal, goal kick, play on, corner kick. */
  function Notify(f: Flags, s: Statistic): seq<Notification>
  {
    (if f.goal then [GoalNote(s)] else []) +
    (if f.goalKick then [GoalKickNote(s)] else []) +
    (if f.playOn then [PlayOnNote] else []) +
    (if f.cornerKick then [CornerKickNote(s)] else [])
  }

  /** The part of the parser's state that reading a message's play mode, fouls and time changes. */
  datatype ParseState = ParseState(
    statistics: map<StatisticType, seq<Statistic>>,
    time: real,
    prevTime: real,
    notifications: seq<Notification>,
    flags: Flags)

  /** Reading one message part. */
  function ParseAtom(p: ParseState, a: Atom): ParseState
  {
    if a.Nested? then p
    else
      var s := Draft(p.time, a);
      var flags := Raise(p.flags, a);
      ParseState(
        if s.kind.Some? then AddTo(p.statistics, s.kind.value, s) else p.statistics,
        if a.TimeAtom? then a.t else p.time,
        if a.TimeAtom? then p.time else p.prevTime,
        p.notifications + Notify(flags, s),
        flags)
  }

  /** Reading the parts of a message from first to last. */
  function ParseAtoms(p: ParseState, atoms: seq<Atom>): ParseState
    decreases |atoms|
  {
    if atoms == [] then p else ParseAtoms(ParseAtom(p, atoms[0]), atoms[1..])
  }

  /** Every list is a prefix of its later self. */
  predicate Extends(before: map<StatisticType, seq<Statistic>>, after: map<StatisticType, seq<Statistic>>)
  {
    before.Keys == after.Keys &&
    forall k :: k in before ==> |before[k]| <= |after[k]| && after[k][..|before[k]|] == before[k]
  }

  /**
   * Reading a message only appends: no key appears or disappears, no entry is removed or
   * reordered, no list loses its deduplication, and notifications are only appended.
   */
  lemma {:induction false} ParseAtomsAppendOnly(p: ParseState, atoms: seq<Atom>)
    requires forall k :: k in p.statistics ==> Deduplicated(p.statistics[k])
    ensures Extends(p.statistics, ParseAtoms(p, atoms).statistics)
    ensures forall k :: k in p.statistics ==> Deduplicated(ParseAtoms(p, atoms).statistics[k])
    ensures |p.notifications| <= |ParseAtoms(p, atoms).notifications|
    ensures ParseAtoms(p, atoms).notifications[..|p.notifications|] == p.notifications
    decreases |atoms|
  {
    if atoms != [] {
      var q := ParseAtom(p, atoms[0]);
      assert Extends(p.statistics, q.statistics);
      ParseAtomsAppendOnly(q, atoms[1..]);
      var r := ParseAtoms(q, atoms[1..]);
      forall k | k in p.statistics
        ensures |p.statistics[k]| <= |r.statistics[k]| && r.statistics[k][..|p.statistics[k]|] == p.statistics[k]
      {
        var n := |p.statistics[k]|;
        assert q.statistics[k][..n] == p.statistics[k];
        assert r.statistics[k][..|q.statistics[k]|] == q.statistics[k];
        assert r.statistics[k][..n] == r.statistics[k][..|q.statistics[k]|][..n];
      }
      assert q.notifications[..|p.notifications|] == p.notifications;
      assert r.notifications[..|p.notifications|] == r.notifications[..|q.notifications|][..|p.notifications|];
    }
  }

  /** A time part shifts the clock and records nothing. */
  lemma TimeAtomShiftsClock(p: ParseState, t: real)
    ensures ParseAtom(p, TimeAtom(t)).statistics == p.statistics
    ensures ParseAtom(p, TimeAtom(t)).prevTime == p.time
    ensures ParseAtom(p, TimeAtom(t)).time == t
  {
  }

  /** Play on records no statistic and tells the listeners so. */
  lemma PlayOnRecordsNothing(p: ParseState, index: int)
    ensures ParseAtom(p, PlayModeAtom(index, PlayOn)).statistics == p.statistics
    ensures PlayOnNote in ParseAtom(p, PlayModeAtom(index, PlayOn)).notifications
  {
  }

  /** A foul is recorded under FOUL with the team and agent the foul part names. */
  lemma FoulRecordsOffender(p: ParseState, index: int, team: int, agentID: int)
    ensures ParseAtom(p, FoulAtom(index, team, agentID)).statistics
         == AddTo(p.statistics, Foul, Statistic(p.time, index, Some(Foul), team, agentID))
  {
  }

  /** A goal kick is recorded for the side it names, and the listeners receive that record. */
  lemma GoalKickNotifiesSide(p: ParseState, index: int, side: Side)
    ensures var s := Statistic(p.time, index, Some(GoalKick), TeamNumber(side), 0);
            ParseAtom(p, PlayModeAtom(index, Called(GoalKickCall, side))).statistics
              == AddTo(p.statistics, GoalKick, s) &&
            GoalKickNote(s) in ParseAtom(p, PlayModeAtom(index, Called(GoalKickCall, side))).notifications
  {
    var s := Statistic(p.time, index, Some(GoalKick), TeamNumber(side), 0);
    var flags := Raise(p.flags, PlayModeAtom(index, Called(GoalKickCall, side)));
    assert flags.goalKick;
    var ns := Notify(flags, s);
    assert GoalKickNote(s) in ns;
  }

  // ---------------------------------------------------------------------------------------
  // The parser
  // ---------------------------------------------------------------------------------------

  /** A heat-map cell: row from the ball's z coordinate, column from its x coordinate. */
  datatype Cell = Cell(row: int, column: int)

  const PositionStoreGap: real := 1.0
  const PossessionStoreGap: real := 1.0
  const PossessionGraphGap: real := 5.0
  const DribleTimeGap: real := 2.0

  /** Two owners are the same agent: same team (by its 1/2 tag, see `Player`) and same number. */
  predicate SameAgent(a: Player, b: Player)
  {
    a.team == b.team && a.id == b.id
  }

  /** The registry keeps one deduplicated list per statistic type; graph shares lie in [0, 1]. */
  predicate RegistryInvariant(stats: map<StatisticType, seq<Statistic>>, graph: seq<PossessionStatistic>)
  {
    (forall t :: t in stats) &&
    (forall t :: t in stats ==> Deduplicated(stats[t])) &&
    (forall i :: 0 <= i < |graph| ==> 0.0 <= graph[i].leftPossession <= 1.0)
  }

  /** The parser's fields that one statistics cycle reads or writes, and the heat-map samples. */
  datatype Tracker = Tracker(
    statistics: map<StatisticType, seq<Statistic>>,
    possessionValuesOverTime: seq<PossessionStatistic>,
    minimumDistanceToBall: real,
    agent: Option<Player>,
    prevAgent: Option<Player>,
    prevBallPosition: Vec3,
    time: real,
    prevTime: real,
    positionStoreDelta: real,
    possessionStoreDelta: real,
    possessionGraphDelta: real,
    kickTimeDelta: real,
    dribleTimeDelta: real,
    positionsCount: int,
    prevDribleTouches: int,
    stored: seq<Cell>)

  /** `parseStatistics`: every 5 s, add the left team's running share of possession to the graph. */
  function GraphStep(s: Tracker): Tracker
  {
    if s.possessionGraphDelta >= PossessionGraphGap then
      s.(possessionValuesOverTime := s.possessionValuesOverTime + GraphSample(s.statistics, s.time),
         possessionGraphDelta := 0.0)
    else s
  }

  /**
   * `detectPossession`: every second, scan for the owner and record it. The flag is set when
   * the scan finds nobody and the source's dereference of the null owner throws.
   */
  function PossessionStep(s: Tracker, left: seq<Agent>, right: seq<Agent>, ball: Vec3): (Tracker, bool)
  {
    if s.possessionStoreDelta < PossessionStoreGap then (s, false)
    else
      var scan := PossessionScan(Roster(left, right), ball);
      var t := s.(minimumDistanceToBall := scan.best, agent := scan.owner);
      if scan.owner.None? then (t, true)
      else
        (t.(statistics := AddTo(s.statistics, Possession, PossessionStatisticOf(s.time, scan.owner.value)),
            possessionStoreDelta := 0.0), false)
  }

  /** `storePositions`: every second, count the ball once in heat-map cell `cell`. */
  function StoreStep(s: Tracker, cell: Cell): Tracker
  {
    if s.positionStoreDelta >= PositionStoreGap then
      s.(stored := s.stored + [cell], positionsCount := s.positionsCount + 1, positionStoreDelta := 0.0)
    else s
  }

  /**
   * The end of a cycle: remember the ball on the ground and the owner, and advance every
   * delta by the cycle time `time - prevTime`.
   */
  function Advance(s: Tracker, ball: Vec3): Tracker
  {
    var cycle := s.time - s.prevTime;
    s.(prevBallPosition := Vec3(ball.x, ball.y, 0.0), prevAgent := s.agent,
       dribleTimeDelta := s.dribleTimeDelta + cycle, kickTimeDelta := s.kickTimeDelta + cycle,
       possessionStoreDelta := s.possessionStoreDelta + cycle,
       possessionGraphDelta := s.possessionGraphDelta + cycle,
       positionStoreDelta := s.positionStoreDelta + cycle)
  }

  /**
   * `calculateStatistics`: nothing happens unless both rosters have agents; an aborted
   * possession scan skips everything after it.
   */
  function Cycle(s: Tracker, left: seq<Agent>, right: seq<Agent>, ball: Vec3, cell: Cell): (Tracker, bool)
  {
    if |left| == 0 || |right| == 0 then (s, false)
    else
      var (t, aborted) := PossessionStep(GraphStep(s), left, right, ball);
      if aborted then (t, true) else (Advance(StoreStep(t, cell), ball), false)
  }

  /** Without an agent on each side a cycle changes nothing at all. */
  lemma CycleNeedsBothTeams(s: Tracker, left: seq<Agent>, right: seq<Agent>, ball: Vec3, cell: Cell)
    requires |left| == 0 || |right| == 0
    ensures Cycle(s, left, right, ball, cell) == (s, false)
  {
  }

  /** A cycle never moves the clock or the dribble counter, and keeps the registry invariant. */
  lemma CycleKeepsClock(s: Tracker, left: seq<Agent>, right: seq<Agent>, ball: Vec3, cell: Cell)
    requires RegistryInvariant(s.statistics, s.possessionValuesOverTime)
    ensures var r := Cycle(s, left, right, ball, cell).0;
            r.time == s.time && r.prevTime == s.prevTime && r.prevDribleTouches == s.prevDribleTouches &&
            RegistryInvariant(r.statistics, r.possessionValuesOverTime)
  {
    var g := GraphStep(s);
    assert RegistryInvariant(g.statistics, g.possessionValuesOverTime) by {
      if s.possessionGraphDelta >= PossessionGraphGap {
        var sample := GraphSample(s.statistics, s.time);
        forall i | 0 <= i < |g.possessionValuesOverTime|
          ensures 0.0 <= g.possessionValuesOverTime[i].leftPossession <= 1.0
        {
          if i >= |s.possessionValuesOverTime| {
            assert g.possessionValuesOverTime[i] in sample;
          }
        }
      }
    }
  }

  /** With an agent on each side, the graph gains the sample exactly when 5 s have gathered. */
  lemma CycleGraph(s: Tracker, left: seq<Agent>, right: seq<Agent>, ball: Vec3, cell: Cell)
    requires |left| > 0 && |right| > 0
    ensures Cycle(s, left, right, ball, cell).0.possessionValuesOverTime ==
      s.possessionValuesOverTime +
      (if s.possessionGraphDelta >= PossessionGraphGap then GraphSample(s.statistics, s.time) else [])
  {
  }

  /**
   * With an agent on each side and a second gathered, the owner is the first closest agent
   * closer than 1000 (squared), the cycle aborts exactly when there is none, and otherwise
   * one POSSESSION statistic for the owner is offered to the registry. Before a second has
   * gathered, the owner, its distance and the registry are left alone.
   */
  lemma CyclePossession(s: Tracker, left: seq<Agent>, right: seq<Agent>, ball: Vec3, cell: Cell)
    requires |left| > 0 && |right| > 0
    ensures var (r, aborted) := Cycle(s, left, right, ball, cell);
            (s.possessionStoreDelta < PossessionStoreGap ==>
               !aborted && r.agent == s.agent && r.minimumDistanceToBall == s.minimumDistanceToBall &&
               r.statistics == s.statistics) &&
            (s.possessionStoreDelta >= PossessionStoreGap ==>
               PossessionOutcome(Roster(left, right), ball, r.agent, r.minimumDistanceToBall) &&
               (aborted <==> r.agent.None?) &&
               (!aborted ==> r.statistics == AddTo(s.statistics, Possession, PossessionStatisticOf(s.time, r.agent.value))))
  {
    var g := GraphStep(s);
    var (t, aborted) := PossessionStep(g, left, right, ball);
    var r := Cycle(s, left, right, ball, cell).0;
    assert r.agent == t.agent && r.minimumDistanceToBall == t.minimumDistanceToBall && r.statistics == t.statistics;
    assert g.possessionStoreDelta == s.possessionStoreDelta && g.statistics == s.statistics && g.time == s.time;
    if s.possessionStoreDelta >= PossessionStoreGap {
      PossessionScanOutcome(Roster(left, right), ball);
    }
  }

  /**
   * An aborted cycle changes only the graph, the owner and its distance: the heat map, the
   * remembered ball and owner and every delta but the graph's stay as they were.
   */
  lemma CycleAbortSkipsTail(s: Tracker, left: seq<Agent>, right: seq<Agent>, ball: Vec3, cell: Cell)
    ensures var (r, aborted) := Cycle(s, left, right, ball, cell);
            aborted ==>
              r == s.(possessionValuesOverTime := r.possessionValuesOverTime,
                      possessionGraphDelta := if s.possessionGraphDelta >= PossessionGraphGap then 0.0 else s.possessionGraphDelta,
                      agent := r.agent, minimumDistanceToBall := r.minimumDistanceToBall)
  {
  }

  /**
   * A completed cycle remembers the owner and the ball on the ground, restarts the deltas
   * whose action ran, advances every delta by `time - prevTime`, and counts the ball in
   * `cell` exactly when a second of positions has gathered.
   */
  lemma CycleAdvances(s: Tracker, left: seq<Agent>, right: seq<Agent>, ball: Vec3, cell: Cell)
    requires |left| > 0 && |right| > 0
    ensures var (r, aborted) := Cycle(s, left, right, ball, cell);
            var cycle := s.time - s.prevTime;
            var positionDue := s.positionStoreDelta >= PositionStoreGap;
            !aborted ==>
              r.prevAgent == r.agent && r.prevBallPosition == Vec3(ball.x, ball.y, 0.0) &&
              r.possessionGraphDelta == (if s.possessionGraphDelta >= PossessionGraphGap then 0.0 else s.possessionGraphDelta) + cycle &&
              r.possessionStoreDelta == (if s.possessionStoreDelta >= PossessionStoreGap then 0.0 else s.possessionStoreDelta) + cycle &&
              r.positionStoreDelta == (if positionDue then 0.0 else s.positionStoreDelta) + cycle &&
              r.kickTimeDelta == s.kickTimeDelta + cycle && r.dribleTimeDelta == s.dribleTimeDelta + cycle &&
              r.positionsCount == s.positionsCount + (if positionDue then 1 else 0) &&
              r.stored == s.stored + (if positionDue then [cell] else [])
  {
  }

  /** Two trackers that agree field by field are equal. */
  lemma SameTracker(a: Tracker, b: Tracker)
    requires a.statistics == b.statistics && a.possessionValuesOverTime == b.possessionValuesOverTime
    requires a.minimumDistanceToBall == b.minimumDistanceToBall && a.agent == b.agent
    requires a.prevAgent == b.prevAgent && a.prevBallPosition == b.prevBallPosition
    requires a.time == b.time && a.prevTime == b.prevTime
    requires a.positionStoreDelta == b.positionStoreDelta && a.possessionStoreDelta == b.possessionStoreDelta
    requires a.possessionGraphDelta == b.possessionGraphDelta && a.kickTimeDelta == b.kickTimeDelta
    requires a.dribleTimeDelta == b.dribleTimeDelta && a.positionsCount == b.positionsCount
    requires a.prevDribleTouches == b.prevDribleTouches && a.stored == b.stored
    ensures a == b
  {
  }

  class StatisticsParser {
    const fieldLength: int
    const fieldWidth: int
    /** Heat map of ball positions, `fieldWidth` rows of `fieldLength` cells. */
    const ballPositions: array2<int>

    var statistics: map<StatisticType, seq<Statistic>>
    var possessionValuesOverTime: seq<PossessionStatistic>
    var minimumDistanceToBall: real
    var agent: Option<Player>
    var prevAgent: Option<Player>
    var prevBallPosition: Vec3
    var time: real
    var prevTime: real
    var positionStoreDelta: real
    var possessionStoreDelta: real
    var possessionGraphDelta: real
    var kickTimeDelta: real
    var dribleTimeDelta: real
    var positionsCount: int
    var prevDribleTouches: int
    var notifications: seq<Notification>

    /** The heat-map cells stored so far, in order. */
    ghost var stored: seq<Cell>

    ghost predicate Valid()
      reads this`statistics, this`possessionValuesOverTime, this`prevDribleTouches
      reads ballPositions, this`positionsCount, this`stored
    {
      RegistryInvariant(statistics, possessionValuesOverTime) && HeatMapValid() && 0 <= prevDribleTouches
    }

    /** Each heat-map cell counts the stored samples that fell into it; `positionsCount` counts them all. */
    ghost predicate HeatMapValid()
      reads ballPositions, this`positionsCount, this`stored
    {
      1 <= fieldLength && 1 <= fieldWidth &&
      ballPositions.Length0 == fieldWidth && ballPositions.Length1 == fieldLength &&
      positionsCount == |stored| &&
      (forall i, j :: 0 <= i < fieldWidth && 0 <= j < fieldLength ==>
         ballPositions[i, j] == multiset(stored)[Cell(i, j)])
    }

    /** The fields one statistics cycle works on. */
    ghost function Snapshot(): Tracker
      reads this
    {
      Tracker(statistics, possessionValuesOverTime, minimumDistanceToBall, agent, prevAgent,
              prevBallPosition, time, prevTime, positionStoreDelta, possessionStoreDelta,
              possessionGraphDelta, kickTimeDelta, dribleTimeDelta, positionsCount,
              prevDribleTouches, stored)
    }

    /** A parser with one empty list per statistic type and an all-zero heat map. */
    constructor (fieldLength: int, fieldWidth: int)
      requires 1 <= fieldLength && 1 <= fieldWidth
      ensures Valid() && fresh(ballPositions)
      ensures this.fieldLength == fieldLength && this.fieldWidth == fieldWidth
      ensures forall t :: t in statistics && statistics[t] == []
      ensures possessionValuesOverTime == [] && notifications == [] && stored == []
      ensures minimumDistanceToBall == NoOwnerDistance && agent == None && prevAgent == None
      ensures time == 0.0 && prevTime == 0.0 && positionsCount == 0 && prevDribleTouches == 0
      ensures positionStoreDelta == 0.0 && possessionStoreDelta == 0.0 && possessionGraphDelta == 0.0
      ensures kickTimeDelta == 0.0 && dribleTimeDelta == 0.0
    {
      this.fieldLength := fieldLength;
      this.fieldWidth := fieldWidth;
      ballPositions := new int[fieldWidth, fieldLength]((i, j) => 0);
      forall t: StatisticType ensures t in AllTypes {
        AllTypesComplete(t);
      }
      statistics := map t | t in AllTypes :: [];
      possessionValuesOverTime := [];
      minimumDistanceToBall := NoOwnerDistance;
      agent, prevAgent := None, None;
      prevBallPosition := Zero;
      time, prevTime := 0.0, 0.0;
      positionStoreDelta, possessionStoreDelta, possessionGraphDelta := 0.0, 0.0, 0.0;
      kickTimeDelta, dribleTimeDelta := 0.0, 0.0;
      positionsCount, prevDribleTouches := 0, 0;
      notifications := [];
      stored := [];
    }

    /** `getStatisticList`: the list of the type `key` names, or an empty list for any other key. */
    function GetStatisticList(key: string): (list: seq<Statistic>)
      reads this, ballPositions
      requires Valid()
      ensures Deduplicated(list)
      ensures forall t :: Key(t) == key ==> list == statistics[t]
      ensures TypeNamed(key).None? ==> list == []
    {
      match TypeNamed(key)
      case Some(t) => statistics[t]
      case None => []
    }

    /**
     * `addStatistic`: offer `s` to the list under `key`. Under a key that names no type the
     * source appends to a throw-away list, so nothing is stored.
     */
    method AddStatistic(key: string, s: Statistic)
      requires Valid()
      modifies this`statistics
      ensures Valid()
      ensures statistics == if TypeNamed(key).Some? then AddTo(old(statistics), TypeNamed(key).value, s) else old(statistics)
    {
      var t := TypeNamed(key);
      if t.Some? {
        Record(t.value, s);
      }
    }

    /**
     * `addStatistic` under the name of type `t`, as the parser itself calls it: `s` is
     * appended unless an entry of that list reports the same event.
     */
    method Record(t: StatisticType, s: Statistic)
      requires Valid()
      modifies this`statistics
      ensures Valid()
      ensures statistics == AddTo(old(statistics), t, s)
    {
      var list := statistics[t];
      var dup := HasDuplicate(list, s);
      if !dup {
        list := list + [s];
        assert list == Insert(statistics[t], s);
        statistics := statistics[t := list];
      }
    }

    /** `parseStatistics`. */
    method ParseStatistics()
      requires Valid()
      modifies this`possessionValuesOverTime, this`possessionGraphDelta
      ensures Valid()
      ensures Snapshot() == GraphStep(old(Snapshot()))
    {
      if possessionGraphDelta >= PossessionGraphGap {
        var possessionStatistics := statistics[Possession];
        if |possessionStatistics| > 0 {
          var leftPossession := LeftShare(possessionStatistics);
          possessionValuesOverTime := possessionValuesOverTime + [PossessionStatistic(time, leftPossession)];
        }
        possessionGraphDelta := 0.0;
      }
    }

    /**
     * `detectPossession`: scan the left roster, then the right one, for the closest agent
     * (strict `<` against 1000) and offer a POSSESSION statistic for it. When nobody is that
     * close the owner stays null and the source's dereference throws: `aborted`, with the
     * owner cleared and the minimum distance reset but nothing recorded.
     */
    method DetectPossession(left: seq<Agent>, right: seq<Agent>, ball: Vec3) returns (aborted: bool)
      requires Valid()
      modifies this`minimumDistanceToBall, this`agent, this`statistics, this`possessionStoreDelta
      ensures Valid()
      ensures old(possessionStoreDelta) < PossessionStoreGap ==>
        !aborted && statistics == old(statistics) && agent == old(agent) &&
        minimumDistanceToBall == old(minimumDistanceToBall) && possessionStoreDelta == old(possessionStoreDelta)
      ensures old(possessionStoreDelta) >= PossessionStoreGap ==>
        var scan := PossessionScan(Roster(left, right), ball);
        minimumDistanceToBall == scan.best && agent == scan.owner && (aborted <==> scan.owner.None?) &&
        (aborted ==> statistics == old(statistics) && possessionStoreDelta == old(possessionStoreDelta)) &&
        (!aborted ==>
           statistics == AddTo(old(statistics), Possession, PossessionStatisticOf(old(time), scan.owner.value)) &&
           possessionStoreDelta == 0.0)
    {
      aborted := false;
      if possessionStoreDelta >= PossessionStoreGap {
        var best, owner := FindOwner(left, right, ball);
        minimumDistanceToBall, agent := best, owner;
        if owner.None? {
          aborted := true;
          return;
        }
        Record(Possession, PossessionStatisticOf(time, owner.value));
        possessionStoreDelta := 0.0;
      }
    }

    /** Heat-map column of a ball whose rounded `fieldLength / 2 - x` is `roundedX`. */
    function HeatColumn(roundedX: int): int
    {
      MatrixUtil.NormalizeIndex(roundedX - 1, 0, fieldLength - 1)
    }

    /** Heat-map row of a ball whose rounded `fieldWidth / 2 - z` is `roundedZ`. */
    function HeatRow(roundedZ: int): int
    {
      MatrixUtil.NormalizeIndex(roundedZ - 1, 0, fieldWidth - 1)
    }

    /** `storePositions`: the sample is also counted in the array cell of its clamped indices. */
    method StorePositions(roundedX: int, roundedZ: int)
      requires Valid()
      modifies ballPositions, this`positionStoreDelta, this`positionsCount, this`stored
      ensures Valid()
      ensures Snapshot() == StoreStep(old(Snapshot()), Cell(HeatRow(roundedZ), HeatColumn(roundedX)))
      ensures forall i, j :: 0 <= i < fieldWidth && 0 <= j < fieldLength ==>
        ballPositions[i, j] == old(ballPositions[i, j]) +
          (if old(positionStoreDelta) >= PositionStoreGap && i == HeatRow(roundedZ) && j == HeatColumn(roundedX) then 1 else 0)
    {
      if positionStoreDelta >= PositionStoreGap {
        var x := MatrixUtil.NormalizeIndex(roundedX - 1, 0, fieldLength - 1);
        var y := MatrixUtil.NormalizeIndex(roundedZ - 1, 0, fieldWidth - 1);
        ballPositions[y, x] := ballPositions[y, x] + 1;
        stored := stored + [Cell(y, x)];
        positionStoreDelta := 0.0;
        positionsCount := positionsCount + 1;
      }
    }

    /**
     * `calculateStatistics` for a ball whose heat-map cell comes from `roundedX` and
     * `roundedZ`.
     */
    method CalculateStatistics(left: seq<Agent>, right: seq<Agent>, ball: Vec3, roundedX: int, roundedZ: int)
      returns (aborted: bool)
      requires Valid()
      modifies ballPositions, this`statistics, this`possessionValuesOverTime, this`minimumDistanceToBall
      modifies this`agent, this`prevAgent, this`prevBallPosition, this`positionsCount, this`stored
      modifies this`positionStoreDelta, this`possessionStoreDelta, this`possessionGraphDelta
      modifies this`kickTimeDelta, this`dribleTimeDelta
      ensures Valid()
      ensures (Snapshot(), aborted) ==
        Cycle(old(Snapshot()), left, right, ball, Cell(HeatRow(roundedZ), HeatColumn(roundedX)))
    {
      aborted := false;
      if |left| == 0 || |right| == 0 {
        return;
      }
      ghost var cell := Cell(HeatRow(roundedZ), HeatColumn(roundedX));
      ghost var before := Snapshot();
      ParseStatistics();
      ghost var graphed := Snapshot();
      aborted := DetectPossession(left, right, ball);
      SameTracker(Snapshot(), PossessionStep(graphed, left, right, ball).0);
      if aborted {
        return;
      }
      FinishCycle(ball, roundedX, roundedZ);
    }

    /** The end of `calculateStatistics`, once the possession scan found an owner. */
    method FinishCycle(ball: Vec3, roundedX: int, roundedZ: int)
      requires Valid()
      modifies ballPositions, this`positionStoreDelta, this`positionsCount, this`stored
      modifies this`prevBallPosition, this`prevAgent, this`dribleTimeDelta, this`kickTimeDelta
      modifies this`possessionStoreDelta, this`possessionGraphDelta
      ensures Valid()
      ensures Snapshot() == Advance(StoreStep(old(Snapshot()), Cell(HeatRow(roundedZ), HeatColumn(roundedX))), ball)
    {
      StorePositions(roundedX, roundedZ);
      ghost var sampled := Snapshot();
      AdvanceDeltas(ball);
      SameTracker(Snapshot(), Advance(sampled, ball));
    }

    /** The end of `calculateStatistics`, after the heat map. */
    method AdvanceDeltas(ball: Vec3)
      modifies this`prevBallPosition, this`prevAgent, this`dribleTimeDelta, this`kickTimeDelta
      modifies this`possessionStoreDelta, this`possessionGraphDelta, this`positionStoreDelta
      ensures var cycle := time - prevTime;
        prevBallPosition == Vec3(ball.x, ball.y, 0.0) && prevAgent == agent &&
        dribleTimeDelta == old(dribleTimeDelta) + cycle && kickTimeDelta == old(kickTimeDelta) + cycle &&
        possessionStoreDelta == old(possessionStoreDelta) + cycle &&
        possessionGraphDelta == old(possessionGraphDelta) + cycle &&
        positionStoreDelta == old(positionStoreDelta) + cycle
    {
      prevBallPosition := Vec3(ball.x, ball.y, 0.0);
      prevAgent := agent;
      var cycleTime := time - prevTime;
      dribleTimeDelta := dribleTimeDelta + cycleTime;
      kickTimeDelta := kickTimeDelta + cycleTime;
      possessionStoreDelta := possessionStoreDelta + cycleTime;
      possessionGraphDelta := possessionGraphDelta + cycleTime;
      positionStoreDelta := positionStoreDelta + cycleTime;
    }

    /**
     * `parsePlayModeStatistics`: read the parts of one server message in order, shifting the
     * clock on time parts, recording play-mode and foul statistics, and notifying listeners.
     */
    method ParsePlayModeStatistics(atoms: seq<Atom>)
      requires Valid()
      modifies this`statistics, this`time, this`prevTime, this`notifications
      ensures Valid()
      ensures var r := ParseAtoms(ParseState(old(statistics), old(time), old(prevTime), old(notifications), NoFlags), atoms);
              statistics == r.statistics && time == r.time && prevTime == r.prevTime &&
              notifications == r.notifications
    {
      var flags := NoFlags;
      ghost var initial := ParseState(statistics, time, prevTime, notifications, NoFlags);
      ghost var p := initial;
      var i := 0;
      while i < |atoms|
        invariant 0 <= i <= |atoms|
        invariant Valid()
        invariant statistics == p.statistics && time == p.time && prevTime == p.prevTime
        invariant notifications == p.notifications && flags == p.flags
        invariant ParseAtoms(p, atoms[i..]) == ParseAtoms(initial, atoms)
      {
        var atom := atoms[i];
        assert atoms[i..][1..] == atoms[i + 1..];
        if !atom.Nested? {
          var statistic := Draft(time, atom);
          if atom.TimeAtom? {
            prevTime := time;
            time := atom.t;
          }
          flags := Raise(flags, atom);
          if statistic.kind.Some? {
            Record(statistic.kind.value, statistic);
          }
          notifications := notifications + Notify(flags, statistic);
        }
        p := ParseAtom(p, atom);
        i := i + 1;
      }
    }

    /**
     * `detectDrible`: once per 2 s of advancing time, count another touch while the owner is
     * the previous cycle's owner, and start over at 0 when it changed. A null owner makes the
     * source's dereference throw: `aborted`, nothing changed.
     */
    method DetectDrible() returns (aborted: bool)
      requires Valid()
      modifies this`prevDribleTouches, this`dribleTimeDelta
      ensures Valid()
      ensures !(prevTime < time && old(dribleTimeDelta) >= DribleTimeGap) ==>
        !aborted && prevDribleTouches == old(prevDribleTouches) && dribleTimeDelta == old(dribleTimeDelta)
      ensures prevTime < time && old(dribleTimeDelta) >= DribleTimeGap ==>
        (aborted <==> agent.None? || prevAgent.None?) &&
        (aborted ==> prevDribleTouches == old(prevDribleTouches) && dribleTimeDelta == old(dribleTimeDelta)) &&
        (!aborted ==>
           dribleTimeDelta == 0.0 &&
           prevDribleTouches == if SameAgent(agent.value, prevAgent.value) then old(prevDribleTouches) + 1 else 0)
    {
      aborted := false;
      if prevTime < time && dribleTimeDelta >= DribleTimeGap {
        if agent.None? || prevAgent.None? {
          aborted := true;
          return;
        }
        if SameAgent(agent.value, prevAgent.value) {
          prevDribleTouches := prevDribleTouches + 1;
        } else {
          prevDribleTouches := 0;
        }
        dribleTimeDelta := 0.0;
      }
    }
  }
}
