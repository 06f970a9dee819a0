/** The clew line (breadcrumb trail) as a value, and the once-per-tick update
    of the trail tracker as a function of the previous state, the player's
    position and two line-of-sight oracles. The class in client.dfy carries out
    the same update in place and is proved equal to `Track`. */
module Trail {
  import opened Positions

  datatype Option<T> = None | Some(value: T)

  /** The classification of a raycast: `Miss` is a clear line of sight, `Hit`
      stands for every kind of obstruction. */
  datatype Trace = Hit | Miss

  /** The sky trace from the player's block straight up; `None` when no world
      is loaded. */
  type SkyOracle = Pos -> Option<Trace>

  /** The trace from the player's block to a breadcrumb; `None` when no world
      is loaded. */
  type PathOracle = (Pos, Pos) -> Option<Trace>

  /** The four fields the tracker keeps between ticks. `line` is oldest first. */
  datatype ClewState = ClewState(
    line: seq<Pos>,
    underground: bool,
    lastLit: Option<Pos>,
    lastTrivial: Option<Pos>)

  /** The state when the client starts and after every world change. */
  const Initial: ClewState := ClewState([], false, None, None)

  /** A breadcrumb counts as seen when it passes the distance pre-filter and
      the path trace to it is a miss. */
  predicate Visible(crumb: Pos, player: Pos, path: PathOracle)
  {
    !TooFar(crumb, player) && path(player, crumb) == Some(Miss)
  }

  /** The scan of the trail from index `from` upward: the first breadcrumb that
      is seen from the player, if any. */
  function FirstVisible(line: seq<Pos>, player: Pos, path: PathOracle, from: nat): (r: Option<nat>)
    requires from <= |line|
    ensures r.Some? ==> from <= r.value < |line| && Visible(line[r.value], player, path)
    ensures r.Some? ==> forall j :: from <= j < r.value ==> !Visible(line[j], player, path)
    ensures r.None? ==> forall j :: from <= j < |line| ==> !Visible(line[j], player, path)
    decreases |line| - from
  {
    if from == |line| then None
    else if Visible(line[from], player, path) then Some(from)
    else FirstVisible(line, player, path, from + 1)
  }

  /** One tick of the trail tracker. */
  function Track(s: ClewState, player: Option<Pos>, sky: SkyOracle, path: PathOracle): (t: ClewState)
  {
    match player
    case None => s
    case Some(p) =>
      match sky(p)
      case None => s
      case Some(Miss) => ClewState([p], false, Some(p), None)
      case Some(Hit) =>
        if s.line == [] then s.(underground := true)
        else
          match FirstVisible(s.line, p, path, 0)
          case Some(i) => s.(line := s.line[..i + 1], underground := true, lastTrivial := Some(p))
          case None =>
            match s.lastTrivial
            case Some(t) => s.(line := s.line + [t], underground := true, lastTrivial := None)
            case None => s.(underground := true)
  }

  /** The events the host delivers: an end-of-tick with the player (if any) and
      the world's answers, or a change of world. */
  datatype Event = Tick(player: Option<Pos>, sky: SkyOracle, path: PathOracle) | WorldChange

  function Step(s: ClewState, e: Event): (t: ClewState)
  {
    match e
    case Tick(player, sky, path) => Track(s, player, sky, path)
    case WorldChange => Initial
  }

  /** The state after a sequence of events, first event first. */
  function Run(s: ClewState, events: seq<Event>): (t: ClewState)
    decreases |events|
  {
    if events == [] then s else Run(Step(s, events[0]), events[1..])
  }

  /** What every reachable state satisfies: the oldest breadcrumb is the last
      position seen above ground; an empty trail has no queued position; above
      ground the trail holds at most one breadcrumb and nothing is queued. */
  ghost predicate Inv(s: ClewState)
  {
    (s.line == [] <==> s.lastLit == None) &&
    (s.line != [] ==> s.lastLit == Some(s.line[0])) &&
    (s.line == [] ==> s.lastTrivial == None) &&
    (!s.underground ==> |s.line| <= 1 && s.lastTrivial == None)
  }

  // ---------------------------------------------------------------------------
  // One tick

  /** With no player, or no world to trace in, a tick changes nothing. */
  lemma TrackWithoutPlayerOrWorld(s: ClewState, player: Option<Pos>, sky: SkyOracle, path: PathOracle)
    requires player == None || sky(player.value) == None
    ensures Track(s, player, sky, path) == s
  {
  }

  /** A clear sky collapses the trail to the player's block, whatever it held. */
  lemma TrackUnderOpenSky(s: ClewState, p: Pos, sky: SkyOracle, path: PathOracle)
    requires sky(p) == Some(Miss)
    ensures Track(s, Some(p), sky, path) == ClewState([p], false, Some(p), None)
  {
  }

  /** Underground with an empty trail the tracker gives up: only the flag changes. */
  lemma TrackGivesUpOnEmptyTrail(s: ClewState, p: Pos, sky: SkyOracle, path: PathOracle)
    requires sky(p) == Some(Hit) && s.line == []
    ensures Track(s, Some(p), sky, path) == s.(underground := true)
  {
  }

  /** If breadcrumb `i` is the first one seen from the player, the trail is cut
      just after it and the player's block is queued. */
  lemma TrackCutsAtFirstVisible(s: ClewState, p: Pos, sky: SkyOracle, path: PathOracle, i: nat)
    requires sky(p) == Some(Hit)
    requires i < |s.line| && Visible(s.line[i], p, path)
    requires forall j :: 0 <= j < i ==> !Visible(s.line[j], p, path)
    ensures Track(s, Some(p), sky, path) == s.(line := s.line[..i + 1], underground := true, lastTrivial := Some(p))
  {
    assert Visible(s.line[i], p, path);
  }

  /** If no breadcrumb is seen, the queued position (if any) is appended and
      the queue emptied; with nothing queued the trail is kept as it is. */
  lemma TrackWithNothingVisible(s: ClewState, p: Pos, sky: SkyOracle, path: PathOracle)
    requires sky(p) == Some(Hit) && s.line != []
    requires forall j :: 0 <= j < |s.line| ==> !Visible(s.line[j], p, path)
    ensures s.lastTrivial.Some? ==>
      Track(s, Some(p), sky, path) == s.(line := s.line + [s.lastTrivial.value], underground := true, lastTrivial := None)
    ensures s.lastTrivial.None? ==> Track(s, Some(p), sky, path) == s.(underground := true)
  {
  }

  /** Two path oracles that agree on every breadcrumb within reach give the same
      scan: a breadcrumb that is too far is never traced. */
  lemma {:induction false} FirstVisibleIgnoresFarCrumbs(line: seq<Pos>, p: Pos, path1: PathOracle, path2: PathOracle, from: nat)
    requires from <= |line|
    requires forall c :: !TooFar(c, p) ==> path1(p, c) == path2(p, c)
    ensures FirstVisible(line, p, path1, from) == FirstVisible(line, p, path2, from)
    decreases |line| - from
  {
    if from < |line| {
      assert Visible(line[from], p, path1) == Visible(line[from], p, path2);
      FirstVisibleIgnoresFarCrumbs(line, p, path1, path2, from + 1);
    }
  }

  /** The whole tick does not depend on what a trace to a far breadcrumb would
      answer, so such a breadcrumb can never cause a cut. */
  lemma TrackIgnoresFarCrumbs(s: ClewState, p: Pos, sky: SkyOracle, path1: PathOracle, path2: PathOracle)
    requires forall c :: !TooFar(c, p) ==> path1(p, c) == path2(p, c)
    ensures Track(s, Some(p), sky, path1) == Track(s, Some(p), sky, path2)
  {
    FirstVisibleIgnoresFarCrumbs(s.line, p, path1, path2, 0);
  }

  /** A breadcrumb exactly 16 blocks away, at any index and in any direction,
      is still traced: if its trace misses, the tick is a cut at or before it
      (the player's block is queued), not an append. */
  lemma TrackTracesCrumbAtReach(s: ClewState, p: Pos, sky: SkyOracle, path: PathOracle, k: nat)
    requires sky(p) == Some(Hit)
    requires k < |s.line| && DistSq(s.line[k], p) == Reach * Reach
    requires path(p, s.line[k]) == Some(Miss)
    ensures Track(s, Some(p), sky, path).lastTrivial == Some(p)
    ensures 0 < |Track(s, Some(p), sky, path).line| <= k + 1
    ensures Track(s, Some(p), sky, path).line == s.line[..|Track(s, Some(p), sky, path).line|]
  {
    assert Visible(s.line[k], p, path);
  }

  /** Every tick leaves the trail as it was, replaces it by the player's block
      (above ground), keeps a non-empty prefix of it, or appends exactly the
      queued position; so the trail never grows by more than one per tick. */
  lemma TrackShapes(s: ClewState, player: Option<Pos>, sky: SkyOracle, path: PathOracle)
    ensures var t := Track(s, player, sky, path);
      || t.line == s.line
      || (player.Some? && !t.underground && t.line == [player.value])
      || (t.underground && 0 < |t.line| <= |s.line| && t.line == s.line[..|t.line|])
      || (t.underground && s.lastTrivial.Some? && t.line == s.line + [s.lastTrivial.value] && t.lastTrivial == None)
    ensures |Track(s, player, sky, path).line| <= |s.line| + 1
  {
  }

  /** Every tick keeps the invariant. */
  lemma TrackKeepsInv(s: ClewState, player: Option<Pos>, sky: SkyOracle, path: PathOracle)
    requires Inv(s)
    ensures Inv(Track(s, player, sky, path))
  {
  }

  // ---------------------------------------------------------------------------
  // Sequences of events

  /** A world change clears all four fields, whatever the state was. */
  lemma WorldChangeClears(s: ClewState)
    ensures Step(s, WorldChange) == ClewState([], false, None, None)
    ensures Inv(Step(s, WorldChange))
  {
  }

  /** Every state reached from the initial one satisfies the invariant. */
  lemma {:induction false} RunKeepsInv(s: ClewState, events: seq<Event>)
    requires Inv(s)
    ensures Inv(Run(s, events))
    decreases |events|
  {
    if events != [] {
      var e := events[0];
      if e.Tick? {
        TrackKeepsInv(s, e.player, e.sky, e.path);
      }
      RunKeepsInv(Step(s, e), events[1..]);
    }
  }

  /** Each event adds at most one breadcrumb. */
  lemma {:induction false} RunGrowsByAtMostOnePerEvent(s: ClewState, events: seq<Event>)
    ensures |Run(s, events).line| <= |s.line| + |events|
    decreases |events|
  {
    if events != [] {
      var e := events[0];
      if e.Tick? {
        TrackShapes(s, e.player, e.sky, e.path);
      }
      RunGrowsByAtMostOnePerEvent(Step(s, e), events[1..]);
    }
  }

  /** A tick with a player standing under an open sky. */
  predicate AboveGround(e: Event)
  {
    e.Tick? && e.player.Some? && e.sky(e.player.value) == Some(Miss)
  }

  /** After any non-empty run of above-ground ticks the trail is exactly the
      latest position and the tracker is above ground. */
  lemma {:induction false} SurfaceRunTracksPlayer(s: ClewState, events: seq<Event>)
    requires events != []
    requires forall k :: 0 <= k < |events| ==> AboveGround(events[k])
    ensures var last := events[|events| - 1];
      last.Tick? && last.player.Some? &&
      Run(s, events) == ClewState([last.player.value], false, Some(last.player.value), None)
    decreases |events|
  {
    var e := events[0];
    TrackUnderOpenSky(s, e.player.value, e.sky, e.path);
    if |events| > 1 {
      var rest := events[1..];
      assert forall k :: 0 <= k < |rest| ==> AboveGround(rest[k]) by {
        forall k | 0 <= k < |rest| ensures AboveGround(rest[k]) {
          assert rest[k] == events[k + 1];
        }
      }
      SurfaceRunTracksPlayer(Step(s, e), rest);
      assert events[|events| - 1] == rest[|rest| - 1];
    }
  }
}
