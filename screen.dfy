/**
 * The rules of the game screen: the movement intent read from the arrow keys,
 * the camera that follows the player's piece, and the W/S/A/D "screen quake"
 * that pauses the entities and, once it completes, resumes them and moves the
 * labyrinth piece.
 *
 * The level is seen only through the calls the screen makes into it, kept as a
 * trace; the piece position the level reports is an input.
 */
module Screen {
  import opened EntityPhysics

  datatype Option<T> = None | Some(value: T)

  /** The directions the level moves a labyrinth piece in. */
  datatype LevelDir = LevelUp | LevelDown | LevelLeft | LevelRight

  /** A call the screen makes into the level. */
  datatype LevelCall = PauseEntities | ResumeEntities | MoveLabyrinthPiece(dir: LevelDir)

  /** Which arrow keys are held in this frame. */
  datatype KeyState = KeyState(up: bool, down: bool, right: bool, left: bool)

  /** An activated screen quake: its duration and the piece move its completion performs. */
  datatype Quake = Quake(duration: real, dir: LevelDir)

  /** What `KeyDown` did with a key: consumed it, or handed it to the base screen. */
  datatype KeyResult = Consumed | Delegated

  /** Key codes of the input library. */
  const KEY_W: int := 51
  const KEY_S: int := 47
  const KEY_A: int := 29
  const KEY_D: int := 32

  /** The camera looks at the piece position plus this offset. */
  const CAMERA_OFFSET: Vec := Vec(6.0, 4.0)
  const FOLLOW_EPSILON: real := 0.1
  const QUAKE_DURATION: real := 2.8

  // ---------------------------------------------------------------------------
  // Movement keys

  /** A move request applied only when its key is held. */
  function SteerIf(i: Intent, held: bool, d: Direction): Intent
  {
    if held then Steered(i, d) else i
  }

  /** The intent after the keys of one frame, polled in the order up, down, right, left. */
  function KeysApplied(i: Intent, keys: KeyState): Intent
  {
    SteerIf(SteerIf(SteerIf(SteerIf(i, keys.up, Up), keys.down, Down), keys.right, Right), keys.left, Left)
  }

  /**
   * The later key wins: on each axis the last held key of the polling order
   * sets the acceleration, the last held key sets the facing, and only a held
   * key makes the entity walk.
   */
  lemma KeysAppliedLaterWins(i: Intent, keys: KeyState)
    ensures var o := KeysApplied(i, keys);
      o.accel.y == (if keys.down then -ACCEL_MAX else if keys.up then ACCEL_MAX else i.accel.y) &&
      o.accel.x == (if keys.left then -ACCEL_MAX else if keys.right then ACCEL_MAX else i.accel.x) &&
      o.direction == (if keys.left then Left else if keys.right then Right else if keys.down then Down
                      else if keys.up then Up else i.direction) &&
      o.state == (if keys.up || keys.down || keys.right || keys.left then Walking else i.state)
  {
  }

  // ---------------------------------------------------------------------------
  // Camera follow

  /** The tolerance test of the vector library: no axis differs by more than `eps`. */
  predicate EpsilonEquals(a: Vec, b: Vec, eps: real)
  {
    Abs(b.x - a.x) <= eps && Abs(b.y - a.y) <= eps
  }

  /** The recorded piece position after a check, and the target of the camera tween it starts, if any. */
  datatype Follow = Follow(recorded: Vec, tween: Option<Vec>)

  function FollowPiece(recorded: Vec, piece: Vec): (f: Follow)
    ensures f.tween.Some? <==> (Abs(piece.x - recorded.x) > FOLLOW_EPSILON || Abs(piece.y - recorded.y) > FOLLOW_EPSILON)
    ensures f.tween.Some? ==> f.recorded == piece && f.tween.value == Vec(piece.x + 6.0, piece.y + 4.0)
    ensures f.tween.None? ==> f.recorded == recorded
  {
    if !EpsilonEquals(piece, recorded, FOLLOW_EPSILON) then
      Follow(piece, Some(Vec(piece.x + CAMERA_OFFSET.x, piece.y + CAMERA_OFFSET.y)))
    else
      Follow(recorded, None)
  }

  /** A second check with the same piece position never starts another tween. */
  lemma FollowSettles(recorded: Vec, piece: Vec)
    ensures FollowPiece(FollowPiece(recorded, piece).recorded, piece).tween == None
  {
  }

  /** The number of tweens a sequence of checks starts, and the recorded position it ends with. */
  function FollowAll(recorded: Vec, pieces: seq<Vec>): (Vec, nat)
    decreases |pieces|
  {
    if pieces == [] then (recorded, 0)
    else
      var f := FollowPiece(recorded, pieces[0]);
      var rest := FollowAll(f.recorded, pieces[1..]);
      (rest.0, rest.1 + if f.tween.Some? then 1 else 0)
  }

  /**
   * A player who stays in one piece for any number of frames starts at most one
   * tween, and the position recorded afterwards is within the tolerance of it.
   */
  lemma {:induction false} FollowStayAtMostOne(recorded: Vec, piece: Vec, frames: nat)
    ensures var out := FollowAll(recorded, seq(frames, _ => piece));
      out.1 <= 1 && (frames > 0 ==> EpsilonEquals(piece, out.0, FOLLOW_EPSILON))
      && (out.1 == 0 <==> frames == 0 || EpsilonEquals(piece, recorded, FOLLOW_EPSILON))
    decreases frames
  {
    if frames > 0 {
      var ps := seq(frames, _ => piece);
      assert ps[0] == piece && ps[1..] == seq(frames - 1, _ => piece);
      var f := FollowPiece(recorded, piece);
      FollowStayAtMostOne(f.recorded, piece, frames - 1);
      if frames - 1 > 0 {
        assert EpsilonEquals(piece, f.recorded, FOLLOW_EPSILON);
      }
    }
  }

  // ---------------------------------------------------------------------------
  // Quake keys

  /** The quake direction of a key, if it is one of W, S, A, D. */
  function QuakeDirection(keycode: int): Option<LevelDir>
  {
    if keycode == KEY_W then Some(LevelUp)
    else if keycode == KEY_S then Some(LevelDown)
    else if keycode == KEY_A then Some(LevelLeft)
    else if keycode == KEY_D then Some(LevelRight)
    else None
  }

  /** The key that starts a quake toward `d`. */
  function QuakeKey(d: LevelDir): int
  {
    match d
    case LevelUp => KEY_W
    case LevelDown => KEY_S
    case LevelLeft => KEY_A
    case LevelRight => KEY_D
  }

  /** The quake keys and their directions are in one-to-one correspondence. */
  lemma QuakeKeyRoundTrip(keycode: int, d: LevelDir)
    ensures QuakeDirection(QuakeKey(d)) == Some(d)
    ensures QuakeDirection(keycode) == Some(d) <==> keycode == QuakeKey(d)
  {
  }

  /** The completion action of a quake toward `d`: first resume the entities, then move the piece. */
  function QuakeCompletion(d: LevelDir): seq<LevelCall>
  {
    [ResumeEntities, MoveLabyrinthPiece(d)]
  }

  /** Whether the entities are paused after a trace of level calls: the last pause or resume decides. */
  function EntitiesPaused(calls: seq<LevelCall>): bool
    decreases |calls|
  {
    if calls == [] then false
    else match calls[|calls| - 1]
      case PauseEntities => true
      case ResumeEntities => false
      case MoveLabyrinthPiece(_) => EntitiesPaused(calls[..|calls| - 1])
  }

  /**
   * A quake pauses the entities for its whole duration, and its completion
   * leaves them running with the piece moved in the quake's direction as the
   * last call.
   */
  lemma QuakeRoundTrip(calls: seq<LevelCall>, d: LevelDir)
    ensures EntitiesPaused(calls + [PauseEntities])
    ensures var after := calls + [PauseEntities] + QuakeCompletion(d);
      !EntitiesPaused(after) && after[|after| - 1] == MoveLabyrinthPiece(d)
  {
    var after := calls + [PauseEntities] + QuakeCompletion(d);
    assert after[..|after| - 1] == calls + [PauseEntities, ResumeEntities];
  }

  // ---------------------------------------------------------------------------
  // The screen

  class GameScreen {
    /** The player entity of the level. */
    const player: EntityPhysics.Entity
    /** The pause flag of the base screen, which these rules only read. */
    var paused: bool
    var cameraPosition: Vec
    /** The piece position the camera was last sent to. */
    var currentCamPosition: Vec
    /** The quake the screen-shake effect is running, if any. */
    var quake: Option<Quake>
    /** The calls made into the level, oldest first. */
    var levelCalls: seq<LevelCall>

    constructor (player: EntityPhysics.Entity, paused: bool)
      ensures this.player == player && this.paused == paused
      ensures currentCamPosition == ZERO && cameraPosition == CAMERA_OFFSET
      ensures quake == None && levelCalls == []
    {
      this.player := player;
      this.paused := paused;
      currentCamPosition := ZERO;
      cameraPosition := Vec(6.0, 4.0);
      quake := None;
      levelCalls := [];
    }

    /** Turns the held arrow keys into move requests of the player, unless the screen is paused. */
    method ProcessKeys(keys: KeyState)
      modifies player`accel, player`direction, player`state
      ensures player.IntentOf() == if paused then old(player.IntentOf()) else KeysApplied(old(player.IntentOf()), keys)
    {
      if !paused {
        if keys.up {
          player.MoveWithAccel(Up);
        }
        if keys.down {
          player.MoveWithAccel(Down);
        }
        if keys.right {
          player.MoveWithAccel(Right);
        }
        if keys.left {
          player.MoveWithAccel(Left);
        }
      }
    }

    /** Starts a camera tween toward the piece when it is not where the camera was last sent. */
    method FollowCurrentPiece(piece: Vec) returns (tween: Option<Vec>)
      modifies this`currentCamPosition
      ensures Follow(currentCamPosition, tween) == FollowPiece(old(currentCamPosition), piece)
    {
      tween := None;
      if !EpsilonEquals(piece, currentCamPosition, FOLLOW_EPSILON) {
        tween := Some(Vec(piece.x + CAMERA_OFFSET.x, piece.y + CAMERA_OFFSET.y));
        currentCamPosition := piece;
      }
    }

    /**
     * The rules of one frame: the keys first, then (after the level has updated
     * and reported the player's piece position `piece`) the camera follow.
     */
    method UpdateScreen(keys: KeyState, piece: Vec) returns (tween: Option<Vec>)
      modifies player`accel, player`direction, player`state, this`currentCamPosition
      ensures player.IntentOf() == if paused then old(player.IntentOf()) else KeysApplied(old(player.IntentOf()), keys)
      ensures Follow(currentCamPosition, tween) == FollowPiece(old(currentCamPosition), piece)
    {
      ProcessKeys(keys);
      tween := FollowCurrentPiece(piece);
    }

    /** Activates the quake effect with its completion action and pauses the entities. */
    method StartScreenQuake(dir: LevelDir)
      modifies this`quake, this`levelCalls
      ensures quake == Some(Quake(QUAKE_DURATION, dir))
      ensures levelCalls == old(levelCalls) + [PauseEntities]
    {
      quake := Some(Quake(QUAKE_DURATION, dir));
      levelCalls := levelCalls + [PauseEntities];
    }

    /** A W/S/A/D key starts a quake toward up/down/left/right; any other key goes to the base screen. */
    method KeyDown(keycode: int) returns (result: KeyResult)
      modifies this`quake, this`levelCalls
      ensures result == Consumed <==> QuakeDirection(keycode).Some?
      ensures result == Consumed ==>
                quake == Some(Quake(QUAKE_DURATION, QuakeDirection(keycode).value)) &&
                levelCalls == old(levelCalls) + [PauseEntities]
      ensures result == Delegated ==> quake == old(quake) && levelCalls == old(levelCalls)
    {
      if keycode == KEY_W {
        StartScreenQuake(LevelUp);
        return Consumed;
      }
      if keycode == KEY_S {
        StartScreenQuake(LevelDown);
        return Consumed;
      }
      if keycode == KEY_A {
        StartScreenQuake(LevelLeft);
        return Consumed;
      }
      if keycode == KEY_D {
        StartScreenQuake(LevelRight);
        return Consumed;
      }
      return Delegated;
    }

    /** The end of a running quake: its completion action runs once. */
    method CompleteScreenQuake()
      modifies this`quake, this`levelCalls
      ensures quake == None
      ensures levelCalls == old(levelCalls) + (if old(quake).Some? then QuakeCompletion(old(quake).value.dir) else [])
    {
      if quake.Some? {
        levelCalls := levelCalls + [ResumeEntities];
        levelCalls := levelCalls + [MoveLabyrinthPiece(quake.value.dir)];
        quake := None;
      }
    }
  }
}
