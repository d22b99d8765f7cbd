/**
 * The playable state of a match: the skyline, the damageable surface, the
 * two gorillas, the wind and the scores, with the operations that change
 * them (`make_cityscape`, `rebuild_city_surface`, `place_gorillas`,
 * `plot_shot`, `play_game`) and the read-only hit test `check_collision`.
 *
 * The banana's flight is given as its frames: the displacement from the
 * launch point that the source computes at each step t = 0, 0.1, 0.2, ...
 * from the angle, velocity, wind and gravity, or an Escape pressed during
 * the flight.  Every random draw of a round is an input (`Setup`).
 *
 * Beside the class, `Board` and `Run` describe a match on values: the
 * surface as the buildings' bodies less the craters carved so far, and
 * play_game as a function of the setups and turns it is given.
 */
module Game {
  import opened Wrappers
  import opened Geometry
  import opened Skyline
  import opened Terrain

  /** What check_collision reports. */
  datatype Hit = NoHit | SunHit | BuildingHit | GorillaHit(index: nat)

  /** One frame of a flight: Escape (or the window closed), or the banana's displacement from its launch point. */
  datatype Frame = Escape | At(dx: real, dy: real)

  /** The decision plot_shot makes for one frame. */
  datatype Step =
    | Stopped               // Escape or quit: the shot ends with no hit
    | OutOfBounds           // left the field: the shot ends with no hit
    | Flying                // nothing hit: next frame
    | SunFlying             // the sun was hit: it is shocked and the flight goes on
    | Crash(ix: int, iy: int)  // a building was hit at (ix, iy): carve and end with no hit
    | Strike(victim: nat)    // a gorilla was hit: it is gone and the shot ends with its index

  predicate Terminal(s: Step) {
    s.Stopped? || s.OutOfBounds? || s.Crash? || s.Strike?
  }

  /** A move of the player whose turn it is: quit at the angle prompt, or a throw and its flight. */
  datatype Turn = Quit | Throw(frames: seq<Frame>)

  /** The random draws of one round. */
  datatype Setup = Setup(slope: int, draws: Draws, windDraw: int, roll: int, gust: int, leftDraw: int, rightDraw: int)

  ghost predicate SetupInRange(s: Setup) {
    && 1 <= s.slope <= 6 && DrawsInRange(s.draws)
    && -10 <= s.windDraw <= 10 && 1 <= s.roll <= 3 && 1 <= s.gust <= 10
    && 1 <= s.leftDraw <= 2 && 2 <= s.rightDraw <= 3
  }

  /** One shot of a match: who threw and whom it hit. */
  datatype Shot = Shot(shooter: nat, hit: Option<nat>)

  /** The inclusive hit box of a gorilla standing at (gx, gy). */
  predicate InBox(gx: int, gy: int, x: int, y: int) {
    gx <= x <= gx + GorillaSize && gy <= y <= gy + GorillaSize
  }

  /** Closer than 12 to the sun's centre (`sqrt(d2) < 12`, which for integers is `d2 < 144`). */
  predicate InSun(x: int, y: int) {
    (x - SunX) * (x - SunX) + (y - SunY) * (y - SunY) < SunRadius * SunRadius
  }

  /** The nominal disc the carve clears. */
  predicate InDisc(cx: int, cy: int, r: int, i: int, j: int) {
    (i - cx) * (i - cx) + (j - cy) * (j - cy) <= r * r
  }

  /** The rectangle test used while there is no surface: inclusive on all four sides. */
  predicate OnBuilding(b: Building, x: int, y: int) {
    b.x <= x <= b.x + b.width && Top(b) <= y <= Ground
  }

  /** Python's int() on a float: truncation toward zero. */
  function Trunc(r: real): (t: int)
    ensures r >= 0.0 ==> 0 <= t && t as real <= r < t as real + 1.0
    ensures r < 0.0 ==> t <= 0 && t as real - 1.0 < r <= t as real
  {
    if r >= 0.0 then r.Floor else -((-r).Floor)
  }

  /** Where a gorilla stands on building b: centred, its feet on the roof. */
  function PerchX(b: Building): int { b.x + b.width / 2 - 15 }
  function PerchY(b: Building): int { ScreenHeight - 5 - b.height - 30 }

  /**
   * Player 1 throws to the left: its angle is mirrored.  The flight's
   * frames are inputs of the model, so no other member uses this; it
   * records how plot_shot turns the angle it is given before the flight.
   */
  function ThrowAngle(player: nat, angle: real): (a: real)
    requires player < 2
    ensures player == 0 ==> a == angle
    ensures player == 1 ==> a + angle == 180.0
    ensures 0.0 <= angle <= 180.0 ==> 0.0 <= a <= 180.0
  {
    if player == 1 then 180.0 - angle else angle
  }

  /** The banana leaves the thrower's right hand (player 0) or left hand (player 1), 8 rows below its top. */
  function LaunchX(player: nat, gx: int): int { gx + (if player == 0 then 25 else 5) }
  function LaunchY(gy: int): int { gy + 8 }

  /** The launch point lies inside the thrower's own hit box; this is why the test skips the shooter. */
  lemma LaunchInOwnBox(player: nat, gx: int, gy: int)
    requires player < 2
    ensures InBox(gx, gy, LaunchX(player, gx), LaunchY(gy))
  {
  }

  /** The shooter's opponent. */
  function Other(p: nat): (q: nat)
    requires p < 2
    ensures q < 2 && q != p
  {
    1 - p
  }

  /** Who scores a hit: the shooter, unless it hit itself. */
  function Winner(current: nat, hitPlayer: nat): (w: nat)
    requires current < 2 && hitPlayer < 2
    ensures w < 2
    ensures w == current <==> hitPlayer != current
  {
    if hitPlayer != current then current else Other(current)
  }

  /** One point to player w. */
  function Award(scores: seq<nat>, w: nat): (r: seq<nat>)
    requires |scores| == 2 && w < 2
    ensures |r| == 2 && r[w] == scores[w] + 1 && r[Other(w)] == scores[Other(w)]
  {
    scores[w := scores[w] + 1]
  }

  /** The scores after a list of shots, from `start`. */
  function Tally(log: seq<Shot>, start: seq<nat>): (r: seq<nat>)
    requires |start| == 2
    requires forall n :: 0 <= n < |log| ==> log[n].shooter < 2 && (log[n].hit.Some? ==> log[n].hit.value < 2)
    ensures |r| == 2
  {
    if |log| == 0 then start
    else
      var last := log[|log| - 1];
      var before := Tally(log[..|log| - 1], start);
      if last.hit.Some? then Award(before, Winner(last.shooter, last.hit.value)) else before
  }

  /** The number of shots of `log` that hit someone and were thrown by p. */
  function HitsBy(log: seq<Shot>, p: nat): nat {
    if |log| == 0 then 0
    else HitsBy(log[..|log| - 1], p) + (if log[|log| - 1].hit.Some? && log[|log| - 1].shooter == p then 1 else 0)
  }

  predicate WellLogged(log: seq<Shot>) {
    forall n :: 0 <= n < |log| ==> log[n].shooter < 2 && (log[n].hit.Some? ==> log[n].hit.value < 2)
  }

  /** No shot of the log hit its own thrower. */
  predicate NoSelfHits(log: seq<Shot>) {
    forall n :: 0 <= n < |log| ==> log[n].hit != Some(log[n].shooter)
  }

  /** Turns alternate from player 0: shot n is thrown by player n % 2. */
  predicate Alternating(log: seq<Shot>) {
    forall n :: 0 <= n < |log| ==> log[n].shooter == n % 2
  }

  /** The log of a match: players and victims are 0 or 1, turns alternate, and no one hits itself. */
  predicate Logged(log: seq<Shot>) {
    WellLogged(log) && Alternating(log) && NoSelfHits(log)
  }

  /**
   * Since a gorilla is never hit by its own banana, play_game's self-hit
   * branch is never taken: every player's score rises by exactly the number
   * of hits it threw.
   */
  lemma {:induction false} TallyCountsHits(log: seq<Shot>, start: seq<nat>, p: nat)
    requires |start| == 2 && p < 2 && WellLogged(log) && NoSelfHits(log)
    ensures Tally(log, start)[p] == start[p] + HitsBy(log, p)
  {
    if |log| > 0 {
      var init := log[..|log| - 1];
      assert forall n :: 0 <= n < |init| ==> init[n] == log[n];
      TallyCountsHits(init, start, p);
    }
  }

  /** Appending the next shot keeps the log a match log and adds the shot's point, if any, to the tally. */
  lemma LogStep(log: seq<Shot>, shot: Shot, start: seq<nat>)
    requires |start| == 2 && Logged(log)
    requires shot.shooter == |log| % 2 && (shot.hit.Some? ==> shot.hit.value < 2) && shot.hit != Some(shot.shooter)
    ensures Logged(log + [shot]) && Other(shot.shooter) == |log + [shot]| % 2
    ensures Tally(log + [shot], start) ==
      if shot.hit.Some? then Award(Tally(log, start), Winner(shot.shooter, shot.hit.value)) else Tally(log, start)
  {
    assert (log + [shot])[..|log|] == log;
  }

  /**
   * On a valid skyline, the two buildings chosen are distinct and in
   * range, each gorilla's feet are on its roof and its box is within the
   * building's columns, and the left box ends well before the right one
   * starts.
   */
  lemma PlacementSound(bs: seq<Building>, leftDraw: int, rightDraw: int)
    requires ValidSkyline(bs) && 1 <= leftDraw <= 2 && 2 <= rightDraw <= 3
    ensures 0 < leftDraw < |bs| - rightDraw < |bs| - 1
    ensures PerchY(bs[leftDraw]) + GorillaSize == Top(bs[leftDraw])
    ensures PerchY(bs[|bs| - rightDraw]) + GorillaSize == Top(bs[|bs| - rightDraw])
    ensures bs[leftDraw].x <= PerchX(bs[leftDraw]) && PerchX(bs[leftDraw]) + GorillaSize < bs[leftDraw].x + bs[leftDraw].width
    ensures bs[|bs| - rightDraw].x <= PerchX(bs[|bs| - rightDraw])
    ensures PerchX(bs[|bs| - rightDraw]) + GorillaSize < bs[|bs| - rightDraw].x + bs[|bs| - rightDraw].width
    ensures PerchX(bs[leftDraw]) + GorillaSize < PerchX(bs[|bs| - rightDraw])
  {
    AtLeastNine(bs);
    var l := leftDraw;
    var r := |bs| - rightDraw;
    RowOrdered(bs, 2, l, r);
    assert 37 <= bs[l].width && 37 <= bs[r].width;
  }

  // ---------------------------------------------------------------------
  // One frame of a flight

  /** The banana's position at a frame: the launch point plus the displacement. */
  function FrameX(f: Frame, player: nat, gx: seq<int>): real
    requires f.At? && |gx| == 2 && player < 2
  {
    LaunchX(player, gx[player]) as real + f.dx
  }

  function FrameY(f: Frame, player: nat, gy: seq<int>): real
    requires f.At? && |gy| == 2 && player < 2
  {
    LaunchY(gy[player]) as real + f.dy * (ScreenHeight as real / 350.0)
  }

  /** Left the field: x < -50, x > 690 or y > 400. */
  predicate Outside(x: real, y: real) {
    x < -50.0 || x > (ScreenWidth + 50) as real || y > (ScreenHeight + 50) as real
  }

  /**
   * check_collision's order of tests, given whether the terrain is solid at
   * (x, y): the gorillas in index order with the shooter skipped, then the
   * terrain, then the sun.
   */
  function Collide(gx: seq<int>, gy: seq<int>, solid: bool, x: int, y: int, shooter: nat): Hit
    requires |gx| == 2 && |gy| == 2
  {
    if shooter != 0 && InBox(gx[0], gy[0], x, y) then GorillaHit(0)
    else if shooter != 1 && InBox(gx[1], gy[1], x, y) then GorillaHit(1)
    else if solid then BuildingHit
    else if InSun(x, y) then SunHit
    else NoHit
  }

  /**
   * The decision plot_shot makes for frame f of player's shot, given
   * whether the terrain is solid at the truncated position: Escape stops,
   * leaving the field ends the shot before anything is tested, and the hit
   * test runs only while y > 0.
   */
  function Judge(f: Frame, player: nat, gx: seq<int>, gy: seq<int>, solid: bool): (s: Step)
    requires |gx| == 2 && |gy| == 2 && player < 2
    ensures s.Stopped? <==> f.Escape?
    ensures f.At? ==> (s.OutOfBounds? <==> Outside(FrameX(f, player, gx), FrameY(f, player, gy)))
    ensures f.At? && !Outside(FrameX(f, player, gx), FrameY(f, player, gy)) && FrameY(f, player, gy) <= 0.0 ==> s == Flying
    ensures f.At? && !Outside(FrameX(f, player, gx), FrameY(f, player, gy)) && FrameY(f, player, gy) > 0.0 ==>
      var ix := Trunc(FrameX(f, player, gx));
      var iy := Trunc(FrameY(f, player, gy));
      var o := Other(player);
      && (s.Strike? <==> InBox(gx[o], gy[o], ix, iy))
      && (s.Crash? <==> !InBox(gx[o], gy[o], ix, iy) && solid)
      && (s.SunFlying? <==> !InBox(gx[o], gy[o], ix, iy) && !solid && InSun(ix, iy))
    ensures s.Strike? ==> s.victim == Other(player)
    ensures s.Crash? ==> f.At? && s.ix == Trunc(FrameX(f, player, gx)) && s.iy == Trunc(FrameY(f, player, gy))
  {
    match f
    case Escape => Stopped
    case At(_, _) =>
      var x := FrameX(f, player, gx);
      var y := FrameY(f, player, gy);
      if Outside(x, y) then OutOfBounds
      else if y > 0.0 then
        match Collide(gx, gy, solid, Trunc(x), Trunc(y), player)
        case SunHit => SunFlying
        case BuildingHit => Crash(Trunc(x), Trunc(y))
        case GorillaHit(i) => Strike(i)
        case NoHit => Flying
      else Flying
  }

  // ---------------------------------------------------------------------
  // The steps of a whole flight

  /** Some step from k on ends the shot. */
  predicate EndsFrom(ss: seq<Step>, k: nat) {
    exists j :: k <= j < |ss| && Terminal(ss[j])
  }

  /** The steps reach one where the shot ends; any steps after it are never taken. */
  predicate Ends(ss: seq<Step>) {
    EndsFrom(ss, 0)
  }

  /** The first step from k on where the shot ends. */
  function FirstEnd(ss: seq<Step>, k: nat): (e: nat)
    requires EndsFrom(ss, k)
    ensures k <= e < |ss| && Terminal(ss[e])
    ensures forall j :: k <= j < e ==> !Terminal(ss[j])
    decreases |ss| - k
  {
    if Terminal(ss[k]) then k else FirstEnd(ss, k + 1)
  }

  /** The step that ends the shot. */
  function Final(ss: seq<Step>): Step
    requires Ends(ss)
  {
    ss[FirstEnd(ss, 0)]
  }

  /** What plot_shot returns: the gorilla struck, when the shot ends by striking one. */
  function Victim(ss: seq<Step>): Option<nat>
    requires Ends(ss)
  {
    if Final(ss).Strike? then Some(Final(ss).victim) else None
  }

  /** One of the first k steps hit the sun. */
  predicate SunBefore(ss: seq<Step>, k: nat)
    requires k <= |ss|
  {
    exists j :: 0 <= j < k && ss[j] == SunFlying
  }

  // ---------------------------------------------------------------------
  // A round on values

  /** What decides a flight in a round: the skyline, where the gorillas stand, and the craters carved so far. */
  datatype Board = Board(buildings: seq<Building>, gx: seq<int>, gy: seq<int>, craters: seq<(int, int)>)

  predicate BoardOk(b: Board) {
    |b.gx| == 2 && |b.gy| == 2
  }

  predicate Cratered(craters: seq<(int, int)>, i: int, j: int) {
    exists n :: 0 <= n < |craters| && InDisc(craters[n].0, craters[n].1, BlastRadius, i, j)
  }

  /** The surface of a board: the buildings' bodies on the screen, less the craters. */
  predicate Solid(b: Board, i: int, j: int) {
    InField(i, j) && Covered(b.buildings, |b.buildings|, i, j) && !Cratered(b.craters, i, j)
  }

  /** The decision for frame f of player's shot on board b. */
  function BoardStep(b: Board, f: Frame, player: nat): (s: Step)
    requires BoardOk(b) && player < 2
    ensures s.Strike? ==> s.victim == Other(player)
  {
    Judge(f, player, b.gx, b.gy, f.At? && Solid(b, Trunc(FrameX(f, player, b.gx)), Trunc(FrameY(f, player, b.gy))))
  }

  function BoardSteps(b: Board, frames: seq<Frame>, player: nat): (ss: seq<Step>)
    requires BoardOk(b) && player < 2
    ensures |ss| == |frames| && forall k :: 0 <= k < |frames| ==> ss[k] == BoardStep(b, frames[k], player)
  {
    seq(|frames|, k requires 0 <= k < |frames| => BoardStep(b, frames[k], player))
  }

  /** A flight ends at its first ending frame, whatever frames follow: an Escape first is a throw that misses. */
  lemma EscapeEndsThrow(b: Board, rest: seq<Frame>, player: nat)
    requires BoardOk(b) && player < 2
    ensures var ss := BoardSteps(b, [Escape] + rest, player);
      Ends(ss) && FirstEnd(ss, 0) == 0 && Final(ss) == Stopped && Victim(ss) == None
  {
    var ss := BoardSteps(b, [Escape] + rest, player);
    assert Terminal(ss[0]);
  }

  /** A flight can only strike the thrower's opponent. */
  lemma VictimIsOpponent(b: Board, frames: seq<Frame>, player: nat)
    requires BoardOk(b) && player < 2 && Ends(BoardSteps(b, frames, player))
    ensures Victim(BoardSteps(b, frames, player)) in {None, Some(Other(player))}
  {
    var ss := BoardSteps(b, frames, player);
    assert Final(ss) == BoardStep(b, frames[FirstEnd(ss, 0)], player);
  }

  /** The board after a shot that ended with step s: a building hit leaves a crater there. */
  function Carve(b: Board, s: Step): (c: Board)
    ensures BoardOk(c) == BoardOk(b)
  {
    if s.Crash? then b.(craters := b.craters + [(s.ix, s.iy)]) else b
  }

  /** A crater clears exactly the disc of radius 14 around the hit and keeps the rest of the surface. */
  lemma CarveSolid(b: Board, s: Step, i: int, j: int)
    ensures Solid(Carve(b, s), i, j) == (Solid(b, i, j) && !(s.Crash? && InDisc(s.ix, s.iy, BlastRadius, i, j)))
  {
    if s.Crash? {
      var cs := b.craters + [(s.ix, s.iy)];
      if InDisc(s.ix, s.iy, BlastRadius, i, j) {
        assert cs[|b.craters|] == (s.ix, s.iy);
      }
      if Cratered(cs, i, j) && !InDisc(s.ix, s.iy, BlastRadius, i, j) {
        var n :| 0 <= n < |cs| && InDisc(cs[n].0, cs[n].1, BlastRadius, i, j);
        assert n < |b.craters| && cs[n] == b.craters[n];
      }
      if Cratered(b.craters, i, j) {
        var n :| 0 <= n < |b.craters| && InDisc(b.craters[n].0, b.craters[n].1, BlastRadius, i, j);
        assert cs[n] == b.craters[n];
      }
    }
  }

  /** The board a round starts on: the setup's skyline, the gorillas on their perches, no craters. */
  ghost function RoundBoard(s: Setup): (b: Board)
    requires SetupInRange(s)
    ensures BoardOk(b) && b.buildings == City(s.slope, s.draws) && b.craters == []
  {
    var bs := City(s.slope, s.draws);
    CityValid(s.slope, s.draws);
    AtLeastNine(bs);
    var l := bs[s.leftDraw];
    var r := bs[|bs| - s.rightDraw];
    Board(bs, [PerchX(l), PerchX(r)], [PerchY(l), PerchY(r)], [])
  }

  // ---------------------------------------------------------------------
  // A match on values

  /** Where play_game's loops are: between rounds, or in a round on a board. */
  datatype Phase = Between | InRound(board: Board)

  /** play_game's loop state: setups and turns used, scores, whose turn, the phase and the shots so far. */
  datatype Match = Match(round: nat, turn: nat, scores: seq<nat>, current: nat, phase: Phase, log: seq<Shot>)

  /** How play_game ends: its result, the scores, the shots, and how many turns it used. */
  datatype Ending = Ending(result: Option<bool>, scores: seq<nat>, log: seq<Shot>, used: nat)

  ghost predicate Playable(setups: seq<Setup>, turns: seq<Turn>, m: Match) {
    && (forall r :: 0 <= r < |setups| ==> SetupInRange(setups[r]))
    && |m.scores| == 2 && m.current < 2 && m.round <= |setups| && m.turn <= |turns|
    && (m.phase.InRound? ==> BoardOk(m.phase.board))
  }

  /** One pass of play_game's loops: the next state, or how the match ends. */
  datatype Move = Go(next: Match) | Done(ending: Ending)

  /**
   * The pass between rounds: a score at numGames ends the match
   * (Some(true)); otherwise the next setup starts a round, and the match
   * ends with None when there is none.
   */
  ghost function NextRound(setups: seq<Setup>, numGames: int, m: Match): (mv: Move)
    requires (forall r :: 0 <= r < |setups| ==> SetupInRange(setups[r])) && |m.scores| == 2 && m.round <= |setups|
    ensures mv.Go? ==> mv.next == m.(round := m.round + 1, phase := mv.next.phase) && mv.next.phase.InRound?
    ensures mv.Go? ==> BoardOk(mv.next.phase.board)
  {
    if m.scores[0] >= numGames || m.scores[1] >= numGames then Done(Ending(Some(true), m.scores, m.log, m.turn))
    else if m.round == |setups| then Done(Ending(None, m.scores, m.log, m.turn))
    else Go(m.(round := m.round + 1, phase := InRound(RoundBoard(setups[m.round]))))
  }

  /**
   * The pass for the next turn of a round on board b: a Quit ends the
   * match (Some(false)); a throw is logged with whom it struck, a strike
   * scores for Winner and ends the round, and a miss leaves its crater.
   * The match ends with None when the turns run out, or a throw's frames
   * stop before its flight does.
   */
  ghost function NextTurn(turns: seq<Turn>, m: Match, b: Board): (mv: Move)
    requires BoardOk(b) && |m.scores| == 2 && m.current < 2 && m.turn <= |turns|
    ensures mv.Go? ==> mv.next.turn == m.turn + 1 && mv.next.round == m.round
    ensures mv.Go? ==> |mv.next.scores| == 2 && mv.next.current < 2
    ensures mv.Go? && mv.next.phase.InRound? ==> BoardOk(mv.next.phase.board)
  {
    if m.turn == |turns| then Done(Ending(None, m.scores, m.log, m.turn))
    else
      match turns[m.turn]
      case Quit => Done(Ending(Some(false), m.scores, m.log, m.turn + 1))
      case Throw(frames) =>
        var ss := BoardSteps(b, frames, m.current);
        if !Ends(ss) then Done(Ending(None, m.scores, m.log, m.turn + 1))
        else
          VictimIsOpponent(b, frames, m.current);
          var hit := Victim(ss);
          var next := m.(turn := m.turn + 1, current := Other(m.current), log := m.log + [Shot(m.current, hit)]);
          if hit.Some? then Go(next.(scores := Award(m.scores, Winner(m.current, hit.value)), phase := Between))
          else Go(next.(phase := InRound(Carve(b, Final(ss)))))
  }

  /** One pass of play_game's loops from state m. */
  ghost function Advance(setups: seq<Setup>, turns: seq<Turn>, numGames: int, m: Match): (mv: Move)
    requires Playable(setups, turns, m)
    ensures mv.Go? ==> Playable(setups, turns, mv.next)
    ensures mv.Go? ==> mv.next.turn > m.turn || (mv.next.turn == m.turn && mv.next.round > m.round)
  {
    match m.phase
    case Between => NextRound(setups, numGames, m)
    case InRound(b) => NextTurn(turns, m, b)
  }

  /** What play_game does with the given setups and turns from state m: its passes, one after another. */
  ghost function Run(setups: seq<Setup>, turns: seq<Turn>, numGames: int, m: Match): Ending
    requires Playable(setups, turns, m)
    decreases |turns| - m.turn, |setups| - m.round
  {
    match Advance(setups, turns, numGames, m)
    case Done(e) => e
    case Go(n) => Run(setups, turns, numGames, n)
  }

  /** Run between rounds: the match is played out, the setups have run out, or the next round starts. */
  lemma RunBetween(setups: seq<Setup>, turns: seq<Turn>, numGames: int, m: Match)
    requires Playable(setups, turns, m) && m.phase == Between
    ensures m.scores[0] >= numGames || m.scores[1] >= numGames ==>
      Run(setups, turns, numGames, m) == Ending(Some(true), m.scores, m.log, m.turn)
    ensures m.scores[0] < numGames && m.scores[1] < numGames && m.round == |setups| ==>
      Run(setups, turns, numGames, m) == Ending(None, m.scores, m.log, m.turn)
    ensures m.scores[0] < numGames && m.scores[1] < numGames && m.round < |setups| ==>
      var n := m.(round := m.round + 1, phase := InRound(RoundBoard(setups[m.round])));
      Playable(setups, turns, n) && Run(setups, turns, numGames, m) == Run(setups, turns, numGames, n)
  {
    if m.scores[0] < numGames && m.scores[1] < numGames && m.round < |setups| {
      var n := m.(round := m.round + 1, phase := InRound(RoundBoard(setups[m.round])));
      assert NextRound(setups, numGames, m) == Go(n);
      assert Advance(setups, turns, numGames, m) == Go(n);
    }
  }

  /** Run in a round on board b, when the turns run out, a player quits, or a throw's frames stop early. */
  lemma RunStops(setups: seq<Setup>, turns: seq<Turn>, numGames: int, m: Match, b: Board)
    requires Playable(setups, turns, m) && m.phase == InRound(b)
    ensures m.turn == |turns| ==> Run(setups, turns, numGames, m) == Ending(None, m.scores, m.log, m.turn)
    ensures m.turn < |turns| && turns[m.turn].Quit? ==>
      Run(setups, turns, numGames, m) == Ending(Some(false), m.scores, m.log, m.turn + 1)
    ensures m.turn < |turns| && turns[m.turn].Throw? && !Ends(BoardSteps(b, turns[m.turn].frames, m.current)) ==>
      Run(setups, turns, numGames, m) == Ending(None, m.scores, m.log, m.turn + 1)
  {
  }

  /** Run in a round on board b, for a throw that flies. */
  lemma RunThrow(setups: seq<Setup>, turns: seq<Turn>, numGames: int, m: Match, b: Board)
    requires Playable(setups, turns, m) && m.phase == InRound(b) && m.turn < |turns| && turns[m.turn].Throw?
    requires Ends(BoardSteps(b, turns[m.turn].frames, m.current))
    ensures var ss := BoardSteps(b, turns[m.turn].frames, m.current);
      var hit := Victim(ss);
      var log := m.log + [Shot(m.current, hit)];
      && hit in {None, Some(Other(m.current))}
      && (hit.Some? ==>
            var n := Match(m.round, m.turn + 1, Award(m.scores, Winner(m.current, hit.value)), Other(m.current), Between, log);
            Playable(setups, turns, n) && Run(setups, turns, numGames, m) == Run(setups, turns, numGames, n))
      && (hit.None? ==>
            var n := Match(m.round, m.turn + 1, m.scores, Other(m.current), InRound(Carve(b, Final(ss))), log);
            Playable(setups, turns, n) && Run(setups, turns, numGames, m) == Run(setups, turns, numGames, n))
  {
    var ss := BoardSteps(b, turns[m.turn].frames, m.current);
    VictimIsOpponent(b, turns[m.turn].frames, m.current);
    var hit := Victim(ss);
    var log := m.log + [Shot(m.current, hit)];
    var n := if hit.Some? then Match(m.round, m.turn + 1, Award(m.scores, Winner(m.current, hit.value)), Other(m.current), Between, log)
             else Match(m.round, m.turn + 1, m.scores, Other(m.current), InRound(Carve(b, Final(ss))), log);
    assert NextTurn(turns, m, b) == Go(n);
    assert Advance(setups, turns, numGames, m) == Go(n);
  }

  /** What play_game keeps from pass to pass, for a match that started at scores `start`. */
  ghost predicate Kept(setups: seq<Setup>, turns: seq<Turn>, numGames: int, start: seq<nat>, m: Match) {
    && Playable(setups, turns, m) && |start| == 2
    && Logged(m.log) && m.current == |m.log| % 2 && m.scores == Tally(m.log, start)
    && (m.phase.InRound? ==> m.scores[0] < numGames && m.scores[1] < numGames)
    && (start[0] < numGames && start[1] < numGames ==> m.scores[0] <= numGames && m.scores[1] <= numGames)
  }

  /**
   * What an ending e reached from state m promises: its shots extend m's
   * and are a match log whose tally is the score; a match played out has a
   * score at numGames and none past it; a quit is the last turn used, every
   * other turn used is a throw, and there is at most one shot per turn.
   */
  ghost predicate Sound(turns: seq<Turn>, numGames: int, start: seq<nat>, m: Match, e: Ending) {
    && |start| == 2 && Logged(e.log) && m.log <= e.log && e.scores == Tally(e.log, start)
    && m.turn <= e.used <= |turns| && |e.log| - |m.log| <= e.used - m.turn
    && (e.result == Some(true) ==> e.scores[0] >= numGames || e.scores[1] >= numGames)
    && (start[0] < numGames && start[1] < numGames ==> e.scores[0] <= numGames && e.scores[1] <= numGames)
    && (e.result == Some(false) ==> m.turn < e.used && turns[e.used - 1].Quit?)
    && (forall k :: m.turn <= k < e.used && (e.result != Some(false) || k < e.used - 1) ==> turns[k].Throw?)
  }

  /** What one pass promises: it keeps the invariant, logs at most the throw it uses, or ends soundly. */
  ghost predicate PassKept(setups: seq<Setup>, turns: seq<Turn>, numGames: int, start: seq<nat>, m: Match, mv: Move) {
    && (mv.Go? ==> Kept(setups, turns, numGames, start, mv.next))
    && (mv.Go? ==> m.log <= mv.next.log && |mv.next.log| - |m.log| <= mv.next.turn - m.turn)
    && (mv.Go? ==> forall k :: m.turn <= k < mv.next.turn ==> turns[k].Throw?)
    && (mv.Done? ==> Sound(turns, numGames, start, m, mv.ending))
  }

  /** The pass between rounds keeps the invariant. */
  lemma BetweenKept(setups: seq<Setup>, turns: seq<Turn>, numGames: int, start: seq<nat>, m: Match)
    requires Kept(setups, turns, numGames, start, m) && m.phase == Between
    ensures PassKept(setups, turns, numGames, start, m, NextRound(setups, numGames, m))
  {
  }

  /** The pass for a turn keeps the invariant. */
  lemma TurnKept(setups: seq<Setup>, turns: seq<Turn>, numGames: int, start: seq<nat>, m: Match, b: Board)
    requires Kept(setups, turns, numGames, start, m) && m.phase == InRound(b)
    ensures PassKept(setups, turns, numGames, start, m, NextTurn(turns, m, b))
  {
    if m.turn < |turns| && turns[m.turn].Throw? {
      var frames := turns[m.turn].frames;
      var ss := BoardSteps(b, frames, m.current);
      if Ends(ss) {
        ThrowKept(setups, turns, numGames, start, m, b);
      }
    }
  }

  /** The pass for a throw that flies keeps the invariant: its shot is logged and tallied. */
  lemma ThrowKept(setups: seq<Setup>, turns: seq<Turn>, numGames: int, start: seq<nat>, m: Match, b: Board)
    requires Kept(setups, turns, numGames, start, m) && m.phase == InRound(b)
    requires m.turn < |turns| && turns[m.turn].Throw? && Ends(BoardSteps(b, turns[m.turn].frames, m.current))
    ensures PassKept(setups, turns, numGames, start, m, NextTurn(turns, m, b))
  {
    var frames := turns[m.turn].frames;
    var ss := BoardSteps(b, frames, m.current);
    VictimIsOpponent(b, frames, m.current);
    var hit := Victim(ss);
    LogStep(m.log, Shot(m.current, hit), start);
    var next := m.(turn := m.turn + 1, current := Other(m.current), log := m.log + [Shot(m.current, hit)]);
    var n := if hit.Some? then next.(scores := Award(m.scores, Winner(m.current, hit.value)), phase := Between)
             else next.(phase := InRound(Carve(b, Final(ss))));
    assert NextTurn(turns, m, b) == Go(n);
    assert m.log <= n.log;
  }

  /** A pass that keeps the invariant, followed by a sound ending, is a sound ending. */
  lemma SoundStep(turns: seq<Turn>, numGames: int, start: seq<nat>, m: Match, n: Match, e: Ending)
    requires Sound(turns, numGames, start, n, e) && m.turn <= n.turn
    requires m.log <= n.log && |n.log| - |m.log| <= n.turn - m.turn
    requires forall k :: m.turn <= k < n.turn ==> turns[k].Throw?
    ensures Sound(turns, numGames, start, m, e)
  {
    assert m.log <= e.log by {
      assert e.log[..|n.log|] == n.log;
      assert n.log[..|m.log|] == m.log;
    }
  }

  /** Every match from a state that keeps the invariant ends soundly. */
  lemma {:induction false} RunSound(setups: seq<Setup>, turns: seq<Turn>, numGames: int, start: seq<nat>, m: Match)
    requires Kept(setups, turns, numGames, start, m)
    ensures Sound(turns, numGames, start, m, Run(setups, turns, numGames, m))
    decreases |turns| - m.turn, |setups| - m.round
  {
    var mv := Advance(setups, turns, numGames, m);
    assert PassKept(setups, turns, numGames, start, m, mv) by {
      match m.phase
      case Between => BetweenKept(setups, turns, numGames, start, m);
      case InRound(b) => TurnKept(setups, turns, numGames, start, m, b);
    }
    if mv.Go? {
      var n := mv.next;
      RunSound(setups, turns, numGames, start, n);
      SoundStep(turns, numGames, start, m, n, Run(setups, turns, numGames, n));
    }
  }

  /** A match from the start: everything Sound says holds of what play_game does. */
  lemma MatchSound(setups: seq<Setup>, turns: seq<Turn>, numGames: int, start: seq<nat>)
    requires (forall r :: 0 <= r < |setups| ==> SetupInRange(setups[r])) && |start| == 2
    ensures Sound(turns, numGames, start, Match(0, 0, start, 0, Between, []), Run(setups, turns, numGames, Match(0, 0, start, 0, Between, [])))
  {
    RunSound(setups, turns, numGames, start, Match(0, 0, start, 0, Between, []));
  }

  class Gorillas {
    var buildings: seq<Building>
    var citySurf: array2?<bool>
    var gorillaX: seq<int>
    var gorillaY: seq<int>
    var wind: int
    var scores: seq<nat>
    var sunHit: bool
    var gorillaAlive: seq<bool>
    var numGames: int

    predicate Valid()
      reads this
    {
      Arena() && |scores| == 2 && |gorillaAlive| == 2 && numGames >= 1
    }

    /** What the hit test needs: two gorillas, and a surface, if any, of the screen's size. */
    predicate Arena()
      reads this`gorillaX, this`gorillaY, this`citySurf
    {
      && |gorillaX| == 2 && |gorillaY| == 2
      && (citySurf != null ==> citySurf.Length0 == ScreenWidth && citySurf.Length1 == ScreenHeight)
    }

    /** The state before the first round: no skyline, no surface, three points to play for. */
    constructor ()
      ensures Valid()
      ensures buildings == [] && citySurf == null && wind == 0 && numGames == 3
      ensures gorillaX == [0, 0] && gorillaY == [0, 0] && scores == [0, 0]
      ensures !sunHit && gorillaAlive == [true, true]
    {
      buildings := [];
      citySurf := null;
      gorillaX := [0, 0];
      gorillaY := [0, 0];
      wind := 0;
      scores := [0, 0];
      sunHit := false;
      gorillaAlive := [true, true];
      numGames := 3;
    }

    /** The state is the board b: its skyline and gorillas, and a surface solid exactly where b is. */
    ghost predicate Shows(b: Board)
      reads this`buildings, this`citySurf, this`gorillaX, this`gorillaY, citySurf
    {
      && Arena() && citySurf != null
      && buildings == b.buildings && gorillaX == b.gx && gorillaY == b.gy
      && forall i, j :: InSurface(citySurf, i, j) ==> citySurf[i, j] == Solid(b, i, j)
    }

    /** rebuild_city_surface: a new surface holding exactly the buildings' bodies. */
    method RebuildCitySurface()
      requires Valid() && forall k :: 0 <= k < |buildings| ==> WindowsOnGrid(buildings[k])
      modifies this`citySurf
      ensures Valid() && citySurf != null && fresh(citySurf)
      ensures forall i, j :: InSurface(citySurf, i, j) ==> citySurf[i, j] == Covered(buildings, |buildings|, i, j)
    {
      var a := Rasterize(buildings);
      forall i, j | InSurface(a, i, j)
        ensures a[i, j] == Covered(buildings, |buildings|, i, j)
      {
        PaintedIsCovered(buildings, |buildings|, i, j);
      }
      citySurf := a;
    }

    /** make_cityscape: the round's skyline, its wind, and a fresh surface for it. */
    method MakeCityscape(slope: int, d: Draws, windDraw: int, roll: int, gust: int)
      requires Valid() && 1 <= slope <= 6 && DrawsInRange(d)
      requires -10 <= windDraw <= 10 && 1 <= roll <= 3 && 1 <= gust <= 10
      modifies this`buildings, this`wind, this`citySurf
      ensures Valid() && buildings == City(slope, d) && ValidSkyline(buildings) && |buildings| >= 9
      ensures wind == Wind(windDraw, roll, gust)
      ensures citySurf != null && fresh(citySurf)
      ensures forall i, j :: InSurface(citySurf, i, j) ==> citySurf[i, j] == Covered(buildings, |buildings|, i, j)
    {
      buildings := Generate(slope, d);
      CityValid(slope, d);
      AtLeastNine(buildings);
      wind := windDraw;
      if roll == 1 {
        if wind > 0 {
          wind := wind + gust;
        } else {
          wind := wind - gust;
        }
      }
      RebuildCitySurface();
    }

    /** place_gorillas: player 0 on building 1 or 2, player 1 on the second or third from the right. */
    method PlaceGorillas(leftDraw: int, rightDraw: int)
      requires Valid() && 1 <= leftDraw <= 2 && 2 <= rightDraw <= 3 && |buildings| >= 3
      modifies this`gorillaX, this`gorillaY
      ensures Valid()
      ensures gorillaX == [PerchX(buildings[leftDraw]), PerchX(buildings[|buildings| - rightDraw])]
      ensures gorillaY == [PerchY(buildings[leftDraw]), PerchY(buildings[|buildings| - rightDraw])]
    {
      var left := buildings[leftDraw];
      gorillaX := gorillaX[0 := left.x + left.width / 2 - 15];
      gorillaY := gorillaY[0 := ScreenHeight - 5 - left.height - 30];
      var right := buildings[|buildings| - rightDraw];
      gorillaX := gorillaX[1 := right.x + right.width / 2 - 15];
      gorillaY := gorillaY[1 := ScreenHeight - 5 - right.height - 30];
    }

    /** The surface (or, without one, the building rectangles) is solid at (x, y). */
    predicate TerrainAt(x: int, y: int)
      reads this`buildings, this`citySurf, citySurf
      requires citySurf != null ==> citySurf.Length0 == ScreenWidth && citySurf.Length1 == ScreenHeight
    {
      if citySurf != null then InField(x, y) && citySurf[x, y]
      else exists k :: 0 <= k < |buildings| && OnBuilding(buildings[k], x, y)
    }

    /** check_collision with the shooter given. */
    function CheckCollision(x: int, y: int, shooter: nat): (h: Hit)
      reads this`buildings, this`citySurf, this`gorillaX, this`gorillaY, citySurf
      requires |gorillaX| == 2 && |gorillaY| == 2 && shooter < 2
      requires citySurf != null ==> citySurf.Length0 == ScreenWidth && citySurf.Length1 == ScreenHeight
      ensures h != GorillaHit(shooter)
      ensures h.GorillaHit? <==> InBox(gorillaX[Other(shooter)], gorillaY[Other(shooter)], x, y)
      ensures h.GorillaHit? ==> h.index == Other(shooter)
      ensures h == BuildingHit <==> !InBox(gorillaX[Other(shooter)], gorillaY[Other(shooter)], x, y) && TerrainAt(x, y)
      ensures h == SunHit <==> !InBox(gorillaX[Other(shooter)], gorillaY[Other(shooter)], x, y) && !TerrainAt(x, y) && InSun(x, y)
    {
      Collide(gorillaX, gorillaY, TerrainAt(x, y), x, y, shooter)
    }

    /** The decision plot_shot makes for one frame of player's shot, against this state's gorillas and terrain. */
    function Classify(f: Frame, player: nat): (s: Step)
      reads this`buildings, this`citySurf, this`gorillaX, this`gorillaY, citySurf
      requires Arena() && player < 2
      ensures s.Stopped? <==> f.Escape?
      ensures f.At? ==> (s.OutOfBounds? <==> Outside(FrameX(f, player, gorillaX), FrameY(f, player, gorillaY)))
      ensures f.At? && !Outside(FrameX(f, player, gorillaX), FrameY(f, player, gorillaY)) && FrameY(f, player, gorillaY) <= 0.0 ==>
        s == Flying
      ensures f.At? && !Outside(FrameX(f, player, gorillaX), FrameY(f, player, gorillaY)) && FrameY(f, player, gorillaY) > 0.0 ==>
        var ix := Trunc(FrameX(f, player, gorillaX));
        var iy := Trunc(FrameY(f, player, gorillaY));
        var o := Other(player);
        && (s == Strike(o) <==> InBox(gorillaX[o], gorillaY[o], ix, iy))
        && (s == Crash(ix, iy) <==> !InBox(gorillaX[o], gorillaY[o], ix, iy) && TerrainAt(ix, iy))
        && (s == SunFlying <==> !InBox(gorillaX[o], gorillaY[o], ix, iy) && !TerrainAt(ix, iy) && InSun(ix, iy))
      ensures s.Strike? ==> s.victim == Other(player)
    {
      Judge(f, player, gorillaX, gorillaY, f.At? && TerrainAt(Trunc(FrameX(f, player, gorillaX)), Trunc(FrameY(f, player, gorillaY))))
    }

    /** The decisions for every frame of a shot. */
    function Steps(frames: seq<Frame>, player: nat): (ss: seq<Step>)
      reads this`buildings, this`citySurf, this`gorillaX, this`gorillaY, citySurf
      requires Arena() && player < 2
      ensures |ss| == |frames| && forall k :: 0 <= k < |frames| ==> ss[k] == Classify(frames[k], player)
      decreases |frames|
    {
      if |frames| == 0 then [] else Steps(frames[..|frames| - 1], player) + [Classify(frames[|frames| - 1], player)]
    }

    /** Where the state is the board b, a shot decides on the board exactly as on the state. */
    lemma ShowsSteps(b: Board, frames: seq<Frame>, player: nat)
      requires Shows(b) && player < 2
      ensures Steps(frames, player) == BoardSteps(b, frames, player)
    {
      forall k | 0 <= k < |frames|
        ensures Classify(frames[k], player) == BoardStep(b, frames[k], player)
      {
        var f := frames[k];
        if f.At? {
          var ix := Trunc(FrameX(f, player, gorillaX));
          var iy := Trunc(FrameY(f, player, gorillaY));
          assert TerrainAt(ix, iy) == Solid(b, ix, iy) by {
            if InField(ix, iy) {
              assert InSurface(citySurf, ix, iy);
            }
          }
        }
      }
    }

    /**
     * plot_shot for the given frames, which run at least up to a frame
     * where the shot ends: a building hit carves the surface, a gorilla hit
     * clears that gorilla's alive flag, and a sun hit on the way sets sunHit.
     */
    method PlotShot(player: nat, frames: seq<Frame>) returns (hit: Option<nat>)
      requires Valid() && player < 2 && Ends(Steps(frames, player))
      modifies this`sunHit, this`gorillaAlive, citySurf
      ensures Valid()
      ensures hit == None || hit == Some(Other(player))
      ensures var ss := old(Steps(frames, player));
        var s := Final(ss);
        && hit == Victim(ss)
        && (gorillaAlive == if s.Strike? then old(gorillaAlive)[s.victim := false] else old(gorillaAlive))
        && (citySurf != null ==> forall i, j :: InSurface(citySurf, i, j) ==>
              citySurf[i, j] == (old(citySurf[i, j]) && !(s.Crash? && InDisc(s.ix, s.iy, BlastRadius, i, j))))
        && sunHit == (old(sunHit) || SunBefore(ss, FirstEnd(ss, 0)))
    {
      ghost var ss := Steps(frames, player);
      ghost var e := FirstEnd(ss, 0);
      var k := 0;
      while !Terminal(Classify(frames[k], player))
        invariant 0 <= k <= e
        invariant sunHit == (old(sunHit) || SunBefore(ss, k))
        modifies this`sunHit
        decreases e - k
      {
        if Classify(frames[k], player).SunFlying? {
          sunHit := true;
        }
        assert SunBefore(ss, k + 1) == (SunBefore(ss, k) || ss[k] == SunFlying);
        k := k + 1;
      }
      var s := Classify(frames[k], player);
      assert k == e && s == Final(ss);
      if s.Crash? && citySurf != null {
        ClearWhere(citySurf, (i, j) => InDisc(s.ix, s.iy, BlastRadius, i, j));
      }
      if s.Strike? {
        gorillaAlive := gorillaAlive[s.victim := false];
        return Some(s.victim);
      }
      return None;
    }

    /**
     * The set-up of a round of play_game: a new skyline and wind, the
     * gorillas placed, both alive, the sun calm, and a fresh surface.
     */
    method NewRound(setup: Setup)
      requires Valid() && SetupInRange(setup)
      modifies this
      ensures Valid() && fresh(citySurf) && Shows(RoundBoard(setup))
      ensures buildings == City(setup.slope, setup.draws) && ValidSkyline(buildings)
      ensures citySurf != null && forall i, j :: InSurface(citySurf, i, j) ==> citySurf[i, j] == Covered(buildings, |buildings|, i, j)
      ensures wind == Wind(setup.windDraw, setup.roll, setup.gust)
      ensures gorillaAlive == [true, true] && !sunHit
      ensures scores == old(scores) && numGames == old(numGames)
    {
      ghost var b := RoundBoard(setup);
      BuildRound(setup, b);
      gorillaAlive := [true, true];
      sunHit := false;
      ShowsFresh(b);
      CityValid(setup.slope, setup.draws);
    }

    /** make_cityscape and place_gorillas for the round's board b. */
    method BuildRound(setup: Setup, ghost b: Board)
      requires Valid() && SetupInRange(setup) && b == RoundBoard(setup)
      modifies this`buildings, this`wind, this`citySurf, this`gorillaX, this`gorillaY
      ensures Valid() && citySurf != null && fresh(citySurf)
      ensures buildings == b.buildings && gorillaX == b.gx && gorillaY == b.gy
      ensures forall i, j :: InSurface(citySurf, i, j) ==> citySurf[i, j] == Covered(buildings, |buildings|, i, j)
      ensures wind == Wind(setup.windDraw, setup.roll, setup.gust)
    {
      MakeCityscape(setup.slope, setup.draws, setup.windDraw, setup.roll, setup.gust);
      PlaceGorillas(setup.leftDraw, setup.rightDraw);
    }

    /** A fresh surface holding the bodies, under the board's gorillas, is a board with no craters. */
    lemma ShowsFresh(b: Board)
      requires Arena() && citySurf != null && b.craters == []
      requires buildings == b.buildings && gorillaX == b.gx && gorillaY == b.gy
      requires forall i, j :: InSurface(citySurf, i, j) ==> citySurf[i, j] == Covered(buildings, |buildings|, i, j)
      ensures Shows(b)
    {
    }

    /**
     * A throw in play_game's inner loop, on a state that is board b.  It
     * flies when its frames run on to one where the shot ends (otherwise
     * nothing changes), and then does what plot_shot does on the board.
     */
    method TakeShot(current: nat, frames: seq<Frame>, ghost b: Board) returns (flown: bool, hitPlayer: Option<nat>)
      requires Valid() && current < 2 && Shows(b)
      modifies this`sunHit, this`gorillaAlive, citySurf
      ensures Valid() && (hitPlayer == None || hitPlayer == Some(Other(current)))
      ensures var ss := BoardSteps(b, frames, current);
        && flown == Ends(ss)
        && (!flown ==> hitPlayer == None && sunHit == old(sunHit) && gorillaAlive == old(gorillaAlive) && Shows(b))
        && (flown ==>
              && hitPlayer == Victim(ss) && Shows(Carve(b, Final(ss)))
              && gorillaAlive == (if hitPlayer.Some? then old(gorillaAlive)[hitPlayer.value := false] else old(gorillaAlive))
              && sunHit == (old(sunHit) || SunBefore(ss, FirstEnd(ss, 0))))
    {
      ghost var ss := BoardSteps(b, frames, current);
      ShowsSteps(b, frames, current);
      if !exists k :: 0 <= k < |frames| && Terminal(Classify(frames[k], current)) {
        return false, None;
      }
      hitPlayer := PlotShot(current, frames);
      flown := true;
      forall i, j | InSurface(citySurf, i, j)
        ensures citySurf[i, j] == Solid(Carve(b, Final(ss)), i, j)
      {
        CarveSolid(b, Final(ss), i, j);
      }
    }

    /**
     * play_game: rounds are played while both scores are below numGames,
     * each on the next setup: a new skyline and wind, the gorillas placed,
     * both alive and the sun calm.  The ghost `log` records every shot and
     * `used` the turns taken; all of it is what `Run` says.
     */
    method PlayGame(setups: seq<Setup>, turns: seq<Turn>) returns (result: Option<bool>, ghost log: seq<Shot>, ghost used: nat)
      requires Valid() && forall r :: 0 <= r < |setups| ==> SetupInRange(setups[r])
      modifies this
      ensures Valid() && numGames == old(numGames)
      ensures Ending(result, scores, log, used) == Run(setups, turns, numGames, Match(0, 0, old(scores), 0, Between, []))
      ensures result == Some(false) ==> !sunHit
    {
      ghost var target := Run(setups, turns, numGames, Match(0, 0, scores, 0, Between, []));
      var current := 0;
      log := [];
      var r := 0;
      var t := 0;
      while scores[0] < numGames && scores[1] < numGames
        invariant Valid() && numGames == old(numGames)
        invariant Playable(setups, turns, Match(r, t, scores, current, Between, log))
        invariant Run(setups, turns, numGames, Match(r, t, scores, current, Between, log)) == target
        decreases |setups| - r
      {
        RunBetween(setups, turns, numGames, Match(r, t, scores, current, Between, log));
        if r == |setups| {
          return None, log, t;
        }
        var over;
        over, result, r, t, current, log := PlayRound(setups, turns, r, t, current, log, target);
        if over {
          return result, log, t;
        }
      }
      RunBetween(setups, turns, numGames, Match(r, t, scores, current, Between, log));
      return Some(true), log, t;
    }

    /**
     * One round of play_game on setups[r]: a new skyline and wind, the
     * gorillas placed, both alive and the sun calm, then the turns.
     */
    method PlayRound(setups: seq<Setup>, turns: seq<Turn>, r: nat, t0: nat, current0: nat, ghost log0: seq<Shot>,
                     ghost target: Ending)
      returns (over: bool, result: Option<bool>, r': nat, t: nat, current: nat, ghost log: seq<Shot>)
      requires Valid() && r < |setups| && scores[0] < numGames && scores[1] < numGames
      requires Playable(setups, turns, Match(r, t0, scores, current0, Between, log0))
      requires Run(setups, turns, numGames, Match(r, t0, scores, current0, Between, log0)) == target
      modifies this
      ensures Valid() && numGames == old(numGames) && r' == r + 1
      ensures over ==> Ending(result, scores, log, t) == target && (result == Some(false) ==> !sunHit)
      ensures !over ==> Playable(setups, turns, Match(r', t, scores, current, Between, log))
      ensures !over ==> Run(setups, turns, numGames, Match(r', t, scores, current, Between, log)) == target
      ensures !over ==> gorillaAlive == [false, false]
    {
      RunBetween(setups, turns, numGames, Match(r, t0, scores, current0, Between, log0));
      var setup := setups[r];
      ghost var n := Match(r + 1, t0, scores, current0, InRound(RoundBoard(setup)), log0);
      assert Playable(setups, turns, n) && Run(setups, turns, numGames, n) == target;
      NewRound(setup);
      r' := r + 1;
      assert n == Match(r', t0, scores, current0, InRound(RoundBoard(setup)), log0);
      over, result, t, current, log := PlayTurns(setups, turns, r', t0, current0, log0, RoundBoard(setup), target);
    }

    /**
     * The inner loop of play_game: the turns of a round on board b, from
     * turn t0 with player current0 to throw.  Turns alternate after every
     * shot; a hit ends the round with a point for Winner and both gorillas
     * hidden by the victory dance, a miss calms the sun.  `over` tells
     * whether the match ended in the round, with `result`.
     */
    method PlayTurns(setups: seq<Setup>, turns: seq<Turn>, r: nat, t0: nat, current0: nat, ghost log0: seq<Shot>,
                     ghost b0: Board, ghost target: Ending)
      returns (over: bool, result: Option<bool>, t: nat, current: nat, ghost log: seq<Shot>)
      requires Valid() && Shows(b0) && !sunHit
      requires Playable(setups, turns, Match(r, t0, scores, current0, InRound(b0), log0))
      requires Run(setups, turns, numGames, Match(r, t0, scores, current0, InRound(b0), log0)) == target
      modifies this`scores, this`sunHit, this`gorillaAlive, citySurf
      ensures Valid()
      ensures over ==> Ending(result, scores, log, t) == target && (result == Some(false) ==> !sunHit)
      ensures !over ==> Playable(setups, turns, Match(r, t, scores, current, Between, log))
      ensures !over ==> Run(setups, turns, numGames, Match(r, t, scores, current, Between, log)) == target
      ensures !over ==> gorillaAlive == [false, false]
    {
      t, current, log := t0, current0, log0;
      ghost var b := b0;
      while true
        invariant Valid()
        invariant Playable(setups, turns, Match(r, t, scores, current, InRound(b), log)) && Shows(b) && !sunHit
        invariant Run(setups, turns, numGames, Match(r, t, scores, current, InRound(b), log)) == target
        decreases |turns| - t
      {
        ghost var m := Match(r, t, scores, current, InRound(b), log);
        RunStops(setups, turns, numGames, m, b);
        if t == |turns| {
          return true, None, t, current, log;
        }
        var turn := turns[t];
        if turn.Quit? {
          return true, Some(false), t + 1, current, log;
        }
        var flown, hitPlayer := TakeShot(current, turn.frames, b);
        if !flown {
          return true, None, t + 1, current, log;
        }
        RunThrow(setups, turns, numGames, m, b);
        ghost var ss := BoardSteps(b, turn.frames, current);
        t := t + 1;
        log := log + [Shot(current, hitPlayer)];
        if hitPlayer.Some? {
          var winner := Winner(current, hitPlayer.value);
          scores := Award(scores, winner);
          gorillaAlive := [false, false];
          assert Match(r, t, scores, Other(current), Between, log) ==
            Match(m.round, m.turn + 1, Award(m.scores, Winner(m.current, hitPlayer.value)), Other(m.current), Between, log);
          return false, None, t, Other(current), log;
        }
        sunHit := false;
        b := Carve(b, Final(ss));
        current := Other(current);
      }
    }
  }
}
