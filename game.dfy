/** The world coordinator (src/game.rs): a walk holds the character, two
    background tiles, the active obstacles and the timeline, and moves them
    all one tick at a time; `WalkTheDog` is the two-phase lifecycle around it. */
module Game {
  import opened Engine
  import opened Rhb
  import opened Obstacles
  import opened Segments

  /** Below this timeline the walk generates the next segment. */
  const TimelineMinimum := 1000
  /** The gap left between the timeline and the next segment. */
  const ObstacleBuffer := 20

  /** The catalogue's second and third templates.  `platform_and_stone` and
      `stone_on_low_platform` are not part of this model: each is given as
      the obstacles it produces at an offset. */
  datatype Templates = Templates(platformAndStone: int -> seq<Obstacle>, stoneOnLowPlatform: int -> seq<Obstacle>)

  /** What stays fixed for a walk: the stone image, the shared obstacle sheet,
      how the character answers calls, and the other templates. */
  datatype Context = Context(stone: Element, sheet: Sheet, character: Character, templates: Templates)

  /** The segment chosen by `index` (the random draw), placed at `offset`;
      an index outside the catalogue yields no obstacle. */
  function NextSegment(index: int, offset: int, ctx: Context): seq<Obstacle> {
    match index
    case 0 => StoneAndPlatform(ctx.stone, ctx.sheet, offset)
    case 1 => ctx.templates.platformAndStone(offset)
    case 2 => ctx.templates.stoneOnLowPlatform(offset)
    case _ => []
  }

  /** The value of a walk: the character, every call made on it so far, the
      two background tiles, the obstacles and the timeline. */
  datatype World = World(boy: Boy, calls: seq<Call>, first: Image, second: Image,
                         obstacles: seq<Obstacle>, timeline: int)

  /** The calls the pressed keys cause, followed by the character's own update. */
  function InputCalls(keys: set<string>): seq<Call> {
    (if "ArrowRight" in keys then [RunRight] else []) +
    (if "ArrowDown" in keys then [Slide] else []) +
    (if "Space" in keys then [Jump] else []) +
    [Call.Update]
  }

  /** The two tiles after a scroll step: a tile whose right edge has passed 0
      is put at the other tile's right edge, the first tile first. */
  function Wrap(first: Image, second: Image): (Image, Image) {
    var first' := if first.Right() < 0 then first.SetX(second.Right()) else first;
    var second' := if second.Right() < 0 then second.SetX(first'.Right()) else second;
    (first', second')
  }

  /** Both tiles moved by a third of the velocity, rounded toward zero, then wrapped. */
  function Scroll(first: Image, second: Image, velocity: int): (Image, Image) {
    var step := TruncDiv(velocity, 3);
    Wrap(first.MoveHorizontally(step), second.MoveHorizontally(step))
  }

  /** `retain(|o| o.right() > 0)`: the obstacles still on screen, in order. */
  function Retained(os: seq<Obstacle>): (kept: seq<Obstacle>)
    ensures |kept| <= |os|
    decreases |os|
  {
    if os == [] then [] else (if Right(os[0]) > 0 then [os[0]] else []) + Retained(os[1..])
  }

  /** Pruning keeps exactly the obstacles whose right edge is above 0. */
  lemma {:induction false} RetainedMembers(os: seq<Obstacle>)
    ensures forall o :: o in Retained(os) <==> o in os && Right(o) > 0
    decreases |os|
  {
    if os != [] {
      RetainedMembers(os[1..]);
      assert os == [os[0]] + os[1..];
    }
  }

  /** Pruning splits over a concatenation: the kept obstacles keep their order. */
  lemma {:induction false} RetainedAppend(a: seq<Obstacle>, b: seq<Obstacle>)
    ensures Retained(a + b) == Retained(a) + Retained(b)
    decreases |a|
  {
    if a == [] {
      assert a + b == b;
    } else {
      assert (a + b)[0] == a[0];
      assert (a + b)[1..] == a[1..] + b;
      RetainedAppend(a[1..], b);
    }
  }

  /** `Vec::retain`, one obstacle at a time. */
  method Retain(os: seq<Obstacle>) returns (kept: seq<Obstacle>)
    ensures kept == Retained(os)
  {
    kept := [];
    var i := 0;
    while i < |os|
      invariant 0 <= i <= |os|
      invariant kept == Retained(os[..i])
    {
      assert os[..i + 1] == os[..i] + [os[i]];
      RetainedAppend(os[..i], [os[i]]);
      if Right(os[i]) > 0 {
        kept := kept + [os[i]];
      }
      i := i + 1;
    }
    assert os[..i] == os;
  }

  /** The obstacles checked in list order against the character, each
      seeing the character as the earlier checks left it: the character
      afterwards and the calls made on it. */
  function Sweep(os: seq<Obstacle>, character: Character, boy: Boy): (swept: (Boy, seq<Call>))
    ensures |swept.1| <= 2 * |os|
    ensures forall c :: c in swept.1 ==> CollisionCall(c)
    decreases |os|
  {
    if os == [] then (boy, [])
    else
      var before := Sweep(os[..|os| - 1], character, boy);
      var calls := CheckIntersection(os[|os| - 1], before.0);
      (Perform(character, before.0, calls), before.1 + calls)
  }

  /** Checking the obstacle after a prefix of the list. */
  lemma SweepStep(os: seq<Obstacle>, i: nat, character: Character, boy: Boy)
    requires i < |os|
    ensures var before := Sweep(os[..i], character, boy);
      var calls := CheckIntersection(os[i], before.0);
      Sweep(os[..i + 1], character, boy) == (Perform(character, before.0, calls), before.1 + calls)
  {
    assert os[..i + 1][..i] == os[..i];
  }

  /** The calls made while checking a prefix of the list come first. */
  lemma {:induction false} SweepPrefix(os: seq<Obstacle>, n: nat, character: Character, boy: Boy)
    requires n <= |os|
    ensures Sweep(os[..n], character, boy).1 <= Sweep(os, character, boy).1
    decreases |os|
  {
    if n < |os| {
      assert os[..|os| - 1][..n] == os[..n];
      SweepPrefix(os[..|os| - 1], n, character, boy);
    } else {
      assert os[..n] == os;
    }
  }

  /** An obstacle the character does not touch makes no call, so when none
      of them is touched the character is left as it was. */
  lemma {:induction false} SweepWithoutHits(os: seq<Obstacle>, character: Character, boy: Boy)
    requires forall i :: 0 <= i < |os| ==> !Hits(os[i], boy.boundingBox)
    ensures Sweep(os, character, boy) == (boy, [])
    decreases |os|
  {
    if os != [] {
      SweepWithoutHits(os[..|os| - 1], character, boy);
      var before := Sweep(os[..|os| - 1], character, boy);
      var calls := CheckIntersection(os[|os| - 1], before.0);
      assert calls == [];
      assert Sweep(os, character, boy) == (Perform(character, before.0, calls), before.1 + calls);
      assert before.1 + calls == [];
    } else {
      assert Sweep(os, character, boy) == (boy, []);
    }
  }

  /** A barrier touching the character, as the obstacles before it left it,
      knocks the character out. */
  lemma SweepBarrierKnocksOut(os: seq<Obstacle>, i: nat, character: Character, boy: Boy)
    requires i < |os| && os[i].Barrier?
    requires Hits(os[i], Sweep(os[..i], character, boy).0.boundingBox)
    ensures KnockOut in Sweep(os, character, boy).1
  {
    var prefix := os[..i + 1];
    assert prefix[..|prefix| - 1] == os[..i];
    assert CheckIntersection(os[i], Sweep(os[..i], character, boy).0) == [KnockOut];
    SweepPrefix(os, i + 1, character, boy);
  }

  /** The obstacles a tick appends: the segment chosen by `next` at
      timeline + 20 while the timeline is below the minimum, else none. */
  function Generated(timeline: int, next: int, ctx: Context): seq<Obstacle> {
    if timeline < TimelineMinimum then NextSegment(next, timeline + ObstacleBuffer, ctx) else []
  }

  /** The timeline after a tick: the generated segment's right edge, or the
      old timeline moved with the world. */
  function NextTimeline(timeline: int, velocity: int, next: int, ctx: Context): int {
    if timeline < TimelineMinimum then Rightmost(NextSegment(next, timeline + ObstacleBuffer, ctx))
    else timeline + velocity
  }

  /** The key presses, then the character's own update, all logged. */
  function AfterInput(w: World, keys: set<string>, ctx: Context): World {
    w.(boy := InputBoy(w, keys, ctx), calls := w.calls + InputCalls(keys))
  }

  /** The background tiles scrolled by the velocity. */
  function AfterScroll(w: World, velocity: int): World {
    var backgrounds := Scroll(w.first, w.second, velocity);
    w.(first := backgrounds.0, second := backgrounds.1)
  }

  /** The obstacles whose right edge has left the screen dropped. */
  function AfterPrune(w: World): World {
    w.(obstacles := Retained(w.obstacles))
  }

  /** Every obstacle moved by the velocity and checked against the
      character, the calls of the checks appended to the log. */
  function AfterMove(w: World, velocity: int, character: Character): World {
    var moved := MoveAll(w.obstacles, velocity);
    var swept := Sweep(moved, character, w.boy);
    w.(boy := swept.0, calls := w.calls + swept.1, obstacles := moved)
  }

  /** The segment generated below the minimum, or the timeline moved. */
  function AfterTimeline(w: World, velocity: int, next: int, ctx: Context): World {
    w.(obstacles := w.obstacles + Generated(w.timeline, next, ctx),
       timeline := NextTimeline(w.timeline, velocity, next, ctx))
  }

  /** A tick after the input: scroll, prune, move and check, timeline, in
      that order, all with the one velocity. */
  function Advance(input: World, velocity: int, next: int, ctx: Context): World {
    AfterTimeline(AfterMove(AfterPrune(AfterScroll(input, velocity)), velocity, ctx.character),
                  velocity, next, ctx)
  }

  /** One tick of the walk (`WalkTheDog::update` on a loaded game), where
      `next` is the random draw that picks a segment when one is needed; the
      velocity is read once, after the input. */
  function Tick(w: World, keys: set<string>, next: int, ctx: Context): World {
    var input := AfterInput(w, keys, ctx);
    Advance(input, -input.boy.walkingSpeed, next, ctx)
  }

  /** The obstacles and the timeline after a tick, in terms of the world as the input left it. */
  lemma AdvanceObstacleList(input: World, velocity: int, next: int, ctx: Context)
    ensures var after := Advance(input, velocity, next, ctx);
      after.obstacles == MoveAll(Retained(input.obstacles), velocity) + Generated(input.timeline, next, ctx) &&
      after.timeline == NextTimeline(input.timeline, velocity, next, ctx)
  {
    var pruned := AfterPrune(AfterScroll(input, velocity));
    assert pruned.obstacles == Retained(input.obstacles);
    assert AfterMove(pruned, velocity, ctx.character).timeline == input.timeline;
  }

  /** Each part of the world after a tick, in terms of the world as the input left it. */
  lemma AdvanceParts(input: World, velocity: int, next: int, ctx: Context)
    ensures var after := Advance(input, velocity, next, ctx);
      var moved := MoveAll(Retained(input.obstacles), velocity);
      var swept := Sweep(moved, ctx.character, input.boy);
      after.boy == swept.0 && after.calls == input.calls + swept.1 &&
      (after.first, after.second) == Scroll(input.first, input.second, velocity) &&
      after.obstacles == moved + Generated(input.timeline, next, ctx) &&
      after.timeline == NextTimeline(input.timeline, velocity, next, ctx)
  {
    var pruned := AfterPrune(AfterScroll(input, velocity));
    assert pruned.obstacles == Retained(input.obstacles) && pruned.boy == input.boy;
    var m := AfterMove(pruned, velocity, ctx.character);
    assert m.timeline == input.timeline;
  }

  /** The character after the key presses and its own update. */
  function InputBoy(w: World, keys: set<string>, ctx: Context): Boy {
    Perform(ctx.character, w.boy, InputCalls(keys))
  }

  /** After a tick the obstacles begin with every obstacle whose right edge
      was above 0, in order, each moved by the velocity; none other survives,
      and one moved to a right edge at or below 0 is still there. */
  lemma AdvanceObstacles(input: World, velocity: int, next: int, ctx: Context)
    ensures var kept := Retained(input.obstacles);
      var after := Advance(input, velocity, next, ctx).obstacles;
      |kept| <= |after| &&
      (forall i :: 0 <= i < |kept| ==> after[i] == Moved(kept[i], velocity)) &&
      (forall o :: o in input.obstacles && Right(o) > 0 ==> Moved(o, velocity) in after) &&
      (input.timeline >= TimelineMinimum ==>
        forall o :: o in after ==> exists p :: p in input.obstacles && Right(p) > 0 && o == Moved(p, velocity))
  {
    var kept := Retained(input.obstacles);
    var moved := MoveAll(kept, velocity);
    var after := Advance(input, velocity, next, ctx).obstacles;
    AdvanceObstacleList(input, velocity, next, ctx);
    assert after == moved + Generated(input.timeline, next, ctx);
    assert moved <= after;
    MoveAllAt(kept, velocity);
    RetainedMembers(input.obstacles);
    forall o | o in input.obstacles && Right(o) > 0
      ensures Moved(o, velocity) in after
    {
      var i :| 0 <= i < |kept| && kept[i] == o;
      assert after[i] == moved[i];
    }
    if input.timeline >= TimelineMinimum {
      assert after == moved;
      forall o | o in after
        ensures exists p :: p in input.obstacles && Right(p) > 0 && o == Moved(p, velocity)
      {
        var i :| 0 <= i < |moved| && moved[i] == o;
        assert kept[i] in kept;
      }
    }
  }

  /** While the timeline is at or above the minimum no segment is generated
      and the timeline moves with the world by the velocity; below it the
      chosen segment is appended at timeline + 20 and the timeline becomes
      that segment's right edge. */
  lemma AdvanceMovesTimeline(input: World, velocity: int, next: int, ctx: Context)
    ensures var after := Advance(input, velocity, next, ctx);
      var kept := Retained(input.obstacles);
      if input.timeline < 1000 then
        var generated := NextSegment(next, input.timeline + 20, ctx);
        after.timeline == Rightmost(generated) &&
        after.obstacles == MoveAll(kept, velocity) + generated
      else
        after.timeline == input.timeline + velocity && |after.obstacles| == |kept|
  {
    AdvanceObstacleList(input, velocity, next, ctx);
  }

  /** Generating the first template: the stone and the platform come last,
      and the timeline is the one of them further right. */
  lemma AdvanceGeneratesStoneAndPlatform(input: World, velocity: int, ctx: Context)
    requires input.timeline < TimelineMinimum
    ensures var after := Advance(input, velocity, 0, ctx);
      var offset := input.timeline + ObstacleBuffer;
      |after.obstacles| >= 2 &&
      after.obstacles[|after.obstacles| - 2..] == StoneAndPlatform(ctx.stone, ctx.sheet, offset) &&
      after.timeline == Max(offset + 150 + ctx.stone.width, offset + 784)
  {
    AdvanceObstacleList(input, velocity, 0, ctx);
    StoneAndPlatformRightmost(ctx.stone, ctx.sheet, input.timeline + ObstacleBuffer);
  }

  /** The calls of a tick after the input: every survivor's checks in list
      order, appended to the log; when no moved survivor touches the
      character, no call is made and the character is left as it was. */
  lemma AdvanceCalls(input: World, velocity: int, next: int, ctx: Context)
    ensures var after := Advance(input, velocity, next, ctx);
      input.calls <= after.calls &&
      ((forall o :: o in Retained(input.obstacles) ==> !Hits(Moved(o, velocity), input.boy.boundingBox)) ==>
        after.calls == input.calls && after.boy == input.boy)
  {
    var moved := MoveAll(Retained(input.obstacles), velocity);
    AdvanceParts(input, velocity, next, ctx);
    if forall o :: o in Retained(input.obstacles) ==> !Hits(Moved(o, velocity), input.boy.boundingBox) {
      MoveAllAt(Retained(input.obstacles), velocity);
      forall i | 0 <= i < |moved| ensures !Hits(moved[i], input.boy.boundingBox) {
        assert Retained(input.obstacles)[i] in Retained(input.obstacles);
      }
      SweepWithoutHits(moved, ctx.character, input.boy);
    }
  }

  /** The two tiles have the common width and one starts where the other ends. */
  predicate Adjacent(first: Image, second: Image, width: int) {
    first.width == width && second.width == width &&
    (second.position.x == first.position.x + width || first.position.x == second.position.x + width)
  }

  /** Adjacent tiles of positive width whose left tile spans x = 0, so that
      together they cover [left, left + 2 * width), a stretch containing 0. */
  predicate Covers(first: Image, second: Image, width: int) {
    width > 0 && Adjacent(first, second, width) &&
    if second.position.x == first.position.x + width
    then first.position.x <= 0 <= first.Right()
    else second.position.x <= 0 <= second.Right()
  }

  /** Tiles still on screen stay put; when both have passed the left edge,
      the second is placed after the first's new position, not its old one. */
  lemma WrapOrder(first: Image, second: Image)
    ensures first.Right() >= 0 && second.Right() >= 0 ==> Wrap(first, second) == (first, second)
    ensures first.Right() < 0 && second.Right() < 0 ==>
      Wrap(first, second).0.position.x == second.Right() &&
      Wrap(first, second).1.position.x == second.Right() + first.width
  {
  }

  /** Wrapping keeps adjacent tiles adjacent, whatever the step. */
  lemma ScrollKeepsAdjacent(first: Image, second: Image, width: int, velocity: int)
    requires Adjacent(first, second, width)
    ensures var (f, s) := Scroll(first, second, velocity); Adjacent(f, s, width)
  {
  }

  /** While the world scrolls left by less than three tile widths per tick,
      so that the tiles' step (a third of the velocity) stays below one tile
      width, the tiles keep covering x = 0, and at most one of them has
      passed the left edge before the wrap. */
  lemma ScrollKeepsCovering(first: Image, second: Image, width: int, velocity: int)
    requires Covers(first, second, width)
    requires -3 * width < velocity <= 0
    ensures var step := TruncDiv(velocity, 3);
      !(first.MoveHorizontally(step).Right() < 0 && second.MoveHorizontally(step).Right() < 0)
    ensures var (f, s) := Scroll(first, second, velocity); Covers(f, s, width)
  {
    var step := TruncDiv(velocity, 3);
    assert -width < step <= 0;
  }

  /** A tick keeps the two background tiles covering x = 0 while the world
      scrolls left by less than three tile widths per tick. */
  lemma AdvanceKeepsCovering(input: World, velocity: int, next: int, ctx: Context, width: int)
    requires Covers(input.first, input.second, width)
    requires -3 * width < velocity <= 0
    ensures var after := Advance(input, velocity, next, ctx); Covers(after.first, after.second, width)
  {
    AdvanceParts(input, velocity, next, ctx);
    ScrollKeepsCovering(input.first, input.second, width, velocity);
  }

  /** The loaded assets `initalize` starts from. */
  datatype Assets = Assets(boy: Boy, background: Element, stone: Element, sheet: Sheet)

  /** The walk `initalize` builds: the tiles at 0 and at the background's
      width, the first template at offset 0, the timeline at its right edge. */
  function InitialWorld(assets: Assets): World {
    var obstacles := StoneAndPlatform(assets.stone, assets.sheet, 0);
    World(assets.boy, [],
          NewImage(assets.background, Point(0, 0)),
          NewImage(assets.background, Point(assets.background.width, 0)),
          obstacles, Rightmost(obstacles))
  }

  /** The initial walk's tiles cover x = 0, it has the stone and the
      platform, and its timeline is 784 unless the stone reaches further. */
  lemma InitialWorldFacts(assets: Assets)
    ensures var w := InitialWorld(assets);
      w.first.position == Point(0, 0) && w.second.position == Point(assets.background.width, 0) &&
      (assets.background.width > 0 ==> Covers(w.first, w.second, assets.background.width)) &&
      |w.obstacles| == 2 && w.obstacles[0].Barrier? && w.obstacles[1].Platform? &&
      w.timeline == Max(150 + assets.stone.width, 784)
  {
    StoneAndPlatformRightmost(assets.stone, assets.sheet, 0);
  }

  /** A loaded walk (`Walk`). */
  class Walk {
    var boy: Boy
    /** Every call made on the character, oldest first. */
    var calls: seq<Call>
    const backgrounds: array<Image>
    var obstacles: seq<Obstacle>
    const obstacleSheet: Sheet
    const stone: Element
    var timeline: int
    const character: Character
    const templates: Templates

    ghost predicate Valid()
      reads this
    {
      backgrounds.Length == 2
    }

    function Ctx(): Context {
      Context(stone, obstacleSheet, character, templates)
    }

    ghost function State(): World
      reads this, backgrounds
      requires Valid()
    {
      World(boy, calls, backgrounds[0], backgrounds[1], obstacles, timeline)
    }

    /** The walk built from already loaded assets. */
    constructor (assets: Assets, character: Character, templates: Templates)
      ensures Valid() && fresh(backgrounds)
      ensures State() == InitialWorld(assets)
      ensures Ctx() == Context(assets.stone, assets.sheet, character, templates)
    {
      var obstacles := StoneAndPlatform(assets.stone, assets.sheet, 0);
      boy := assets.boy;
      calls := [];
      backgrounds := new Image[2] [NewImage(assets.background, Point(0, 0)),
                                   NewImage(assets.background, Point(assets.background.width, 0))];
      this.obstacles := obstacles;
      obstacleSheet := assets.sheet;
      stone := assets.stone;
      timeline := Rightmost(obstacles);
      this.character := character;
      this.templates := templates;
    }

    /** `velocity()`: the world scrolls against the character's walk. */
    function Velocity(): int
      reads this
    {
      -boy.walkingSpeed
    }

    /** Makes one call on the character and logs it. */
    method Invoke(c: Call)
      modifies this
      ensures boy == character(old(boy), c) && calls == old(calls) + [c]
      ensures obstacles == old(obstacles) && timeline == old(timeline)
    {
      boy := character(boy, c);
      calls := calls + [c];
    }

    /** `generate_next_segment`, with the random draw as a parameter: the
        segment goes at timeline + 20, after the existing obstacles, and the
        timeline becomes its right edge. */
    method GenerateNextSegment(index: int)
      modifies this
      ensures obstacles == old(obstacles) + NextSegment(index, old(timeline) + ObstacleBuffer, Ctx())
      ensures timeline == Rightmost(NextSegment(index, old(timeline) + ObstacleBuffer, Ctx()))
      ensures boy == old(boy) && calls == old(calls)
    {
      var nextObstacles := NextSegment(index, timeline + ObstacleBuffer, Ctx());
      timeline := Rightmost(nextObstacles);
      obstacles := obstacles + nextObstacles;
    }

    /** The key presses, then the character's own update (`boy.update()`). */
    method HandleInput(keys: set<string>)
      requires Valid()
      modifies this
      ensures State() == AfterInput(old(State()), keys, Ctx())
    {
      ghost var boy0 := boy;
      ghost var done: seq<Call> := [];
      if "ArrowRight" in keys {
        Invoke(RunRight);
        PerformSnoc(character, boy0, done, RunRight);
        done := done + [RunRight];
      }
      assert boy == Perform(character, boy0, done) && calls == old(calls) + done;
      if "ArrowDown" in keys {
        Invoke(Slide);
        PerformSnoc(character, boy0, done, Slide);
        done := done + [Slide];
      }
      assert boy == Perform(character, boy0, done) && calls == old(calls) + done;
      assert done == (if "ArrowRight" in keys then [RunRight] else []) +
                     (if "ArrowDown" in keys then [Slide] else []);
      if "Space" in keys {
        Invoke(Jump);
        PerformSnoc(character, boy0, done, Jump);
        done := done + [Jump];
      }
      Invoke(Call.Update);
      PerformSnoc(character, boy0, done, Call.Update);
      done := done + [Call.Update];
      assert boy == Perform(character, boy0, done) && calls == old(calls) + done;
      assert done == InputCalls(keys);
    }

    /** Moves both tiles by a third of the velocity and wraps them, the
        second check seeing the first tile's new position. */
    method ScrollBackgrounds(velocity: int)
      requires Valid()
      modifies backgrounds
      ensures State() == AfterScroll(old(State()), velocity)
    {
      backgrounds[0] := backgrounds[0].MoveHorizontally(TruncDiv(velocity, 3));
      backgrounds[1] := backgrounds[1].MoveHorizontally(TruncDiv(velocity, 3));
      if backgrounds[0].Right() < 0 {
        backgrounds[0] := backgrounds[0].SetX(backgrounds[1].Right());
      }
      if backgrounds[1].Right() < 0 {
        backgrounds[1] := backgrounds[1].SetX(backgrounds[0].Right());
      }
    }

    /** Moves every obstacle in place by the velocity and checks it against
        the character, in list order. */
    method MoveAndCheck(velocity: int)
      modifies this
      ensures obstacles == MoveAll(old(obstacles), velocity)
      ensures boy == Sweep(obstacles, character, old(boy)).0
      ensures calls == old(calls) + Sweep(obstacles, character, old(boy)).1
      ensures timeline == old(timeline)
    {
      ghost var kept := obstacles;
      ghost var boy0 := boy;
      ghost var moved := MoveAll(kept, velocity);
      MoveAllAt(kept, velocity);
      var os := obstacles;
      var b := boy;
      var made := [];
      var i := 0;
      while i < |os|
        invariant 0 <= i <= |os| == |kept|
        invariant forall j :: 0 <= j < i ==> os[j] == moved[j]
        invariant forall j :: i <= j < |kept| ==> os[j] == kept[j]
        invariant b == Sweep(moved[..i], character, boy0).0
        invariant made == Sweep(moved[..i], character, boy0).1
        invariant unchanged(this)
      {
        var o := MoveHorizontally(os[i], velocity);
        assert o == moved[i];
        os := os[i := o];
        var hits := CheckIntersection(o, b);
        SweepStep(moved, i, character, boy0);
        b := Perform(character, b, hits);
        made := made + hits;
        i := i + 1;
      }
      assert moved[..i] == moved;
      assert os == moved && (b, made) == Sweep(moved, character, boy0);
      obstacles := os;
      boy := b;
      calls := calls + made;
    }

    /** The end of a tick: below the minimum the next segment is generated,
        otherwise the timeline moves with the world. */
    method AdvanceTimeline(velocity: int, nextSegment: int)
      requires Valid()
      modifies this
      ensures State() == AfterTimeline(old(State()), velocity, nextSegment, Ctx())
    {
      if timeline < TimelineMinimum {
        GenerateNextSegment(nextSegment);
      } else {
        timeline := timeline + velocity;
        assert obstacles == old(obstacles) + [];
      }
    }

    /** `update` on a loaded game: one tick, as `Tick` states it. */
    method Update(keys: set<string>, nextSegment: int)
      requires Valid()
      modifies this, backgrounds
      ensures Valid()
      ensures State() == Tick(old(State()), keys, nextSegment, Ctx())
    {
      ghost var w := State();
      HandleInput(keys);
      ghost var input := State();
      var velocity := Velocity();
      ScrollBackgrounds(velocity);
      ghost var scrolled := State();
      obstacles := Retain(obstacles);
      ghost var pruned := State();
      assert pruned == AfterPrune(scrolled);
      MoveAndCheck(velocity);
      ghost var moved := State();
      assert moved == AfterMove(pruned, velocity, character);
      AdvanceTimeline(velocity, nextSegment);
      assert State() == Advance(input, velocity, nextSegment, Ctx());
      assert input == AfterInput(w, keys, Ctx()) && velocity == -input.boy.walkingSpeed;
    }
  }

  /** The game before and after loading. */
  datatype WalkTheDog = Loading | Loaded(walk: Walk)

  datatype GameError = AlreadyInitialized

  datatype Result<T> = Ok(value: T) | Err(error: GameError)

  /** `WalkTheDog::new`. */
  function NewGame(): WalkTheDog {
    Loading
  }

  /** `initalize`, with loading done beforehand: a loading game becomes a
      fresh loaded walk; a loaded game is an error. */
  method Initialize(game: WalkTheDog, assets: Assets, character: Character, templates: Templates)
    returns (r: Result<WalkTheDog>)
    ensures game.Loaded? ==> r == Err(AlreadyInitialized)
    ensures game.Loading? ==>
      r.Ok? && r.value.Loaded? && fresh(r.value.walk) && fresh(r.value.walk.backgrounds) &&
      r.value.walk.Valid() && r.value.walk.State() == InitialWorld(assets) &&
      r.value.walk.Ctx() == Context(assets.stone, assets.sheet, character, templates)
  {
    match game
    case Loading =>
      var walk := new Walk(assets, character, templates);
      r := Ok(Loaded(walk));
    case Loaded(_) =>
      r := Err(AlreadyInitialized);
  }

  /** `update`: a tick on a loaded game; a game still loading is left alone. */
  method UpdateGame(game: WalkTheDog, keys: set<string>, nextSegment: int)
    requires game.Loaded? ==> game.walk.Valid()
    modifies if game.Loaded? then {game.walk as object, game.walk.backgrounds} else {}
    ensures game.Loaded? ==>
      game.walk.Valid() && game.walk.State() == Tick(old(game.walk.State()), keys, nextSegment, game.walk.Ctx())
  {
    if game.Loaded? {
      game.walk.Update(keys, nextSegment);
    }
  }
}
