/** The hint emitter: after the tracker has run, it reads the trail and, when
    the player is underground with a compass in either hand, asks for one flame
    particle at the newest breadcrumb, moving toward the breadcrumb before it
    (or straight up when there is none). */
module Emitter {
  import opened Positions
  import opened Trail

  /** What the emitter needs to know about the player: whether the item in the
      main hand, and the one in the off hand, is a compass. */
  datatype Hands = Hands(mainHandCompass: bool, offHandCompass: bool)

  /** A particle request: emitted at `anchor`, moving toward `target`. */
  datatype Hint = Hint(anchor: Pos, target: Pos)

  /** The offset used as the target when the trail has a single breadcrumb. */
  const Up: Pos := Pos(0, 32, 0)

  /** The integer direction of the particle; the game scales it to length 0.5. */
  function Direction(h: Hint): (v: Pos)
  {
    Sub(h.target, h.anchor)
  }

  /** The particle the emitter asks for, if any. */
  function DrawLine(s: ClewState, player: Option<Hands>, worldLoaded: bool): (r: Option<Hint>)
    ensures r.Some? <==>
      s.underground && s.line != [] && worldLoaded &&
      player.Some? && (player.value.mainHandCompass || player.value.offHandCompass)
    ensures r.Some? ==> r.value.anchor == s.line[|s.line| - 1]
    ensures r.Some? && |s.line| >= 2 ==> r.value.target == s.line[|s.line| - 2]
    ensures r.Some? && |s.line| == 1 ==> Direction(r.value) == Up
  {
    if !s.underground || s.line == [] then None
    else match player
      case None => None
      case Some(hands) =>
        if !hands.mainHandCompass && !hands.offHandCompass then None
        else
          var clewPosition := s.line[|s.line| - 1];
          var nextPosition := if |s.line| >= 2 then s.line[|s.line| - 2] else Add(clewPosition, Up);
          if worldLoaded then Some(Hint(clewPosition, nextPosition)) else None
  }

  /** In a reachable state, a hint for a one-breadcrumb trail is emitted at the
      last position seen above ground and points 32 blocks straight up. */
  lemma HintFromSurfaceCrumb(s: ClewState, player: Option<Hands>, worldLoaded: bool)
    requires Inv(s) && |s.line| == 1
    requires DrawLine(s, player, worldLoaded).Some?
    ensures DrawLine(s, player, worldLoaded).value == Hint(s.lastLit.value, Add(s.lastLit.value, Up))
  {
  }

  /** A walk into a cave: three ticks above ground at A, then a tick at B where
      A is still seen (B is queued), then a tick at C where nothing is seen (B
      is appended), then a tick at D with nothing seen and nothing queued. The
      hint then points from B back toward A. */
  lemma CaveWalk(hands: Hands)
    requires hands.mainHandCompass || hands.offHandCompass
    ensures
      var a, b, c, d := Pos(0, 64, 0), Pos(0, 55, 0), Pos(0, 50, 0), Pos(3, 45, 0);
      var open: SkyOracle := _ => Some(Miss);
      var roofed: SkyOracle := _ => Some(Hit);
      var clear: PathOracle := (_, _) => Some(Miss);
      var blocked: PathOracle := (_, _) => Some(Hit);
      var s3 := Run(Initial, [Tick(Some(a), open, clear), Tick(Some(a), open, clear), Tick(Some(a), open, clear)]);
      var s4 := Step(s3, Tick(Some(b), roofed, clear));
      var s5 := Step(s4, Tick(Some(c), roofed, blocked));
      var s6 := Step(s5, Tick(Some(d), roofed, blocked));
      && s3 == ClewState([a], false, Some(a), None)
      && s4 == ClewState([a], true, Some(a), Some(b))
      && s5 == ClewState([a, b], true, Some(a), None)
      && s6 == s5
      && DrawLine(s6, Some(hands), true) == Some(Hint(b, a))
      && Direction(DrawLine(s6, Some(hands), true).value) == Sub(a, b)
  {
    var a, b, c, d := Pos(0, 64, 0), Pos(0, 55, 0), Pos(0, 50, 0), Pos(3, 45, 0);
    var open: SkyOracle := _ => Some(Miss);
    var clear: PathOracle := (_, _) => Some(Miss);
    var e := Tick(Some(a), open, clear);
    var surface := [e, e, e];
    assert forall k :: 0 <= k < |surface| ==> AboveGround(surface[k]);
    SurfaceRunTracksPlayer(Initial, surface);
    var s3 := ClewState([a], false, Some(a), None);
    var s4 := ClewState([a], true, Some(a), Some(b));
    assert Visible(a, b, clear);
    assert FirstVisible(s3.line, b, clear, 0) == Some(0);
    var blocked: PathOracle := (_, _) => Some(Hit);
    assert FirstVisible(s4.line, c, blocked, 0) == None by {
      assert !Visible(a, c, blocked);
    }
    var s5 := ClewState([a, b], true, Some(a), None);
    assert FirstVisible(s5.line, d, blocked, 0) == None by {
      assert !Visible(s5.line[0], d, blocked) && !Visible(s5.line[1], d, blocked);
    }
  }

  /** The trail can end in two equal breadcrumbs, which makes the hint's
      direction the zero vector: the player returns to the newest breadcrumb V
      after a block has cut the sight line from V to the breadcrumb before it,
      so V is the first breadcrumb seen and V is queued again; stepping out of
      sight then appends V a second time. */
  lemma RepeatedCrumbGivesZeroDirection(hands: Hands, open: SkyOracle, roofed: SkyOracle,
                                        clear: PathOracle, blocked: PathOracle, onlyToV: PathOracle)
    requires hands.mainHandCompass || hands.offHandCompass
    requires forall p :: open(p) == Some(Miss) && roofed(p) == Some(Hit)
    requires forall p, q :: clear(p, q) == Some(Miss) && blocked(p, q) == Some(Hit)
    requires forall p, q :: onlyToV(p, q) == if q == Pos(0, 60, 0) then Some(Miss) else Some(Hit)
    ensures
      var a, v, w := Pos(0, 64, 0), Pos(0, 60, 0), Pos(0, 40, 0);
      var s := Run(Initial, [
        Tick(Some(a), open, clear), Tick(Some(v), roofed, clear), Tick(Some(w), roofed, blocked),
        Tick(Some(v), roofed, onlyToV), Tick(Some(w), roofed, blocked)]);
      && s.line == [a, v, v]
      && DrawLine(s, Some(hands), true) == Some(Hint(v, v))
      && Direction(DrawLine(s, Some(hands), true).value) == Pos(0, 0, 0)
  {
    var a, v, w := Pos(0, 64, 0), Pos(0, 60, 0), Pos(0, 40, 0);
    var e1, e2, e3 := Tick(Some(a), open, clear), Tick(Some(v), roofed, clear), Tick(Some(w), roofed, blocked);
    var e4, e5 := Tick(Some(v), roofed, onlyToV), Tick(Some(w), roofed, blocked);
    var events := [e1, e2, e3, e4, e5];
    var s1 := ClewState([a], false, Some(a), None);
    assert Step(Initial, e1) == s1;
    var s2 := ClewState([a], true, Some(a), Some(v));
    assert FirstVisible(s1.line, v, clear, 0) == Some(0) by { assert Visible(a, v, clear); }
    assert Step(s1, e2) == s2;
    var s3 := ClewState([a, v], true, Some(a), None);
    assert FirstVisible(s2.line, w, blocked, 0) == None by { assert !Visible(a, w, blocked); }
    assert Step(s2, e3) == s3;
    var s4 := ClewState([a, v], true, Some(a), Some(v));
    assert FirstVisible(s3.line, v, onlyToV, 0) == Some(1) by {
      assert !Visible(a, v, onlyToV) && Visible(v, v, onlyToV);
    }
    assert Step(s3, e4) == s4;
    var s5 := ClewState([a, v, v], true, Some(a), None);
    assert FirstVisible(s4.line, w, blocked, 0) == None by {
      assert !Visible(a, w, blocked) && !Visible(v, w, blocked);
    }
    assert Step(s4, e5) == s5;
    calc {
      Run(Initial, events);
      Run(s1, events[1..]);
      { assert events[1..][1..] == events[2..]; }
      Run(s2, events[2..]);
      { assert events[2..][1..] == events[3..]; }
      Run(s3, events[3..]);
      { assert events[3..][1..] == events[4..]; }
      Run(s4, events[4..]);
      { assert events[4..][1..] == []; }
      s5;
    }
  }
}
