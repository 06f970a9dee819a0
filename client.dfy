/** The client object: the four trail fields that the tracker updates in place
    once per tick, the world-change handler that clears them, and the
    end-of-tick callback that runs the tracker and then the hint emitter. */
module Client {
  import opened Positions
  import opened Trail
  import opened Emitter

  /** The player as the two components see it: the block at their feet and
      what they hold. */
  datatype Player = Player(pos: Pos, hands: Hands)

  class ClewTracker {
    var clewLine: seq<Pos>
    var underground: bool
    var lastLitPosition: Option<Pos>
    var lastTrivialPosition: Option<Pos>

    /** The fields as one value. */
    function State(): (s: ClewState)
      reads this
    {
      ClewState(clewLine, underground, lastLitPosition, lastTrivialPosition)
    }

    ghost predicate Valid()
      reads this
    {
      Inv(State())
    }

    /** The fields' initial values: an empty trail, above ground, nothing
        recorded. */
    constructor ()
      ensures State() == Initial && Valid()
    {
      clewLine := [];
      underground := false;
      lastLitPosition := None;
      lastTrivialPosition := None;
    }

    /** The handler for a change of world: every field back to its initial value. */
    method WorldChanged()
      modifies this
      ensures State() == Initial && Valid()
    {
      clewLine := [];
      underground := false;
      lastLitPosition := None;
      lastTrivialPosition := None;
    }

    /** One tick of the trail tracker, in place. `player` is the player's block
        (absent before the player exists); `sky` and `path` answer the two
        raycasts, with no answer when no world is loaded. */
    method TrackLine(player: Option<Pos>, sky: SkyOracle, path: PathOracle)
      modifies this
      ensures State() == Track(old(State()), player, sky, path)
      ensures old(Valid()) ==> Valid()
    {
      if player.None? {
        return;
      }
      var position := player.value;
      var skyTrace := sky(position);
      if skyTrace.None? {
        return;
      }
      if skyTrace.value == Miss {
        underground := false;
        lastLitPosition := Some(position);
        lastTrivialPosition := None;
        if |clewLine| == 0 {
          clewLine := clewLine + [position];
        } else {
          while |clewLine| > 1
            invariant |clewLine| >= 1
            modifies this`clewLine
            decreases |clewLine|
          {
            clewLine := clewLine[1..];
          }
          clewLine := clewLine[0 := position];
          assert clewLine == [position];
        }
        return;
      }
      underground := true;
      if |clewLine| == 0 {
        return;
      }
      for i := 0 to |clewLine|
        invariant clewLine == old(clewLine) && underground
        invariant lastLitPosition == old(lastLitPosition) && lastTrivialPosition == old(lastTrivialPosition)
        invariant FirstVisible(clewLine, position, path, i) == FirstVisible(clewLine, position, path, 0)
      {
        var clewPosition := clewLine[i];
        if TooFar(clewPosition, position) {
          continue;
        }
        var clewTrace := path(position, clewPosition);
        if clewTrace.None? {
          continue;
        }
        if clewTrace.value == Miss {
          while |clewLine| > i + 1
            invariant i + 1 <= |clewLine| <= |old(clewLine)|
            invariant clewLine[..i + 1] == old(clewLine)[..i + 1]
            modifies this`clewLine
            decreases |clewLine|
          {
            clewLine := clewLine[..i + 1] + clewLine[i + 2..];
          }
          lastTrivialPosition := Some(position);
          return;
        }
      }
      if lastTrivialPosition.None? {
        return;
      }
      clewLine := clewLine + [lastTrivialPosition.value];
      lastTrivialPosition := None;
    }

    /** The end-of-tick callback: the tracker runs first, then the emitter
        reads the updated fields; `hint` is the particle it asks for. */
    method EndClientTick(player: Option<Player>, sky: SkyOracle, path: PathOracle, worldLoaded: bool)
      returns (hint: Option<Hint>)
      modifies this
      ensures State() == Track(old(State()), if player.Some? then Some(player.value.pos) else None, sky, path)
      ensures hint == DrawLine(State(), if player.Some? then Some(player.value.hands) else None, worldLoaded)
      ensures old(Valid()) ==> Valid()
    {
      TrackLine(if player.Some? then Some(player.value.pos) else None, sky, path);
      hint := DrawLine(State(), if player.Some? then Some(player.value.hands) else None, worldLoaded);
    }
  }
}
