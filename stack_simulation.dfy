/**
 * The falling tech-stack widget. On mount it builds one rectangular badge per technology
 * name, sized from the name's length, dropped at a random point in the upper half of the
 * scene and coloured by its position in the list, and four static walls around the scene.
 * On a window resize it moves the floor and the right wall to the new edges; on unmount it
 * stops everything, empties the world and removes its resize listener.
 *
 * The physics itself (stepping, collisions, dragging, drawing) belongs to the physics
 * library and is not modelled: positions here are the ones the widget itself sets.
 * `Math.random()` draws are parameters.
 */
module StackSimulation {
  import opened Common

  /** The technology names, one badge each. */
  const StackItems: seq<string> := [
    "React", "Next.js", "Tailwind",
    "Go", "Node.js", "Python",
    "PHP", "PostgreSQL", "MySQL",
    "Supabase", "MongoDB", "OpenAI",
    "Telegram", "Parsers"
  ]

  /** The badge fill colours, used in turn. */
  const Colors: seq<string> := [
    "hsl(var(--chart-1))",
    "hsl(var(--chart-2))",
    "hsl(var(--chart-3))",
    "hsl(var(--chart-4))",
    "hsl(var(--chart-5))",
    "hsl(var(--primary))"
  ]

  const BadgeHeight: real := 24.0
  const WallThickness: real := 20.0
  /** The engine's vertical gravity, set at mount. */
  const GravityY: real := 0.6
  /** The physics library's default vertical gravity before the widget sets it. */
  const DefaultGravityY: real := 1.0
  const Restitution: real := 0.5
  const Friction: real := 0.3

  /** An axis-aligned rectangle given by its centre and size, as `Bodies.rectangle` takes it. */
  datatype Rect = Rect(cx: real, cy: real, width: real, height: real)

  /** A badge body: its label, rectangle, fill colour and material constants. */
  datatype Badge = Badge(name: string, body: Rect, color: string, restitution: real, friction: real)

  /** The two `Math.random()` draws a badge's spawn point uses, each in [0, 1). */
  datatype SpawnDraw = SpawnDraw(u: real, v: real)

  predicate ValidDraw(d: SpawnDraw) {
    0.0 <= d.u < 1.0 && 0.0 <= d.v < 1.0
  }

  /** A badge's width: six units per character plus sixteen of padding. */
  function BadgeWidth(name: string): real {
    (|name| * 6 + 16) as real
  }

  /** The badge built for item `index`, spawned in a `sceneWidth` by `sceneHeight` scene. */
  function SpawnBadge(index: nat, name: string, sceneWidth: real, sceneHeight: real, d: SpawnDraw): Badge {
    var width := BadgeWidth(name);
    Badge(name,
          Rect(d.u * (sceneWidth - width) + width / 2.0, d.v * (sceneHeight / 2.0), width, BadgeHeight),
          Colors[index % |Colors|], Restitution, Friction)
  }

  /** `stackItems.map(...)`: one badge per item, in order. */
  function Badges(sceneWidth: real, sceneHeight: real, draws: seq<SpawnDraw>): (bs: seq<Badge>)
    requires |draws| == |StackItems|
    ensures |bs| == |StackItems|
    ensures forall k :: 0 <= k < |bs| ==> bs[k].name == StackItems[k] && bs[k].color == Colors[k % 6]
  {
    seq(|StackItems|, k requires 0 <= k < |StackItems| => SpawnBadge(k, StackItems[k], sceneWidth, sceneHeight, draws[k]))
  }

  /** Badge sizes: 24 high, `6 * length + 16` wide, so never narrower than 16. */
  lemma BadgeSize(sceneWidth: real, sceneHeight: real, draws: seq<SpawnDraw>, k: nat)
    requires |draws| == |StackItems| && k < |StackItems|
    ensures var b := Badges(sceneWidth, sceneHeight, draws)[k];
      b.body.height == 24.0 &&
      b.body.width == (|StackItems[k]| * 6 + 16) as real &&
      b.body.width >= 16.0
  {
  }

  /** Colours cycle with period six: badges six apart share a colour, neighbours do not. */
  lemma ColorsCycle(sceneWidth: real, sceneHeight: real, draws: seq<SpawnDraw>, k: nat)
    requires |draws| == |StackItems| && k + 6 < |StackItems|
    ensures var bs := Badges(sceneWidth, sceneHeight, draws);
      bs[k].color == bs[k + 6].color && bs[k].color != bs[k + 1].color
  {
    var bs := Badges(sceneWidth, sceneHeight, draws);
    assert (k + 6) % 6 == k % 6;
    assert bs[k].color == Colors[k % 6] && bs[k + 1].color == Colors[(k + 1) % 6];
  }

  /** `0 <= u < 1` scaled by a non-negative span lies in `[0, span]`, strictly below it when the span is positive. */
  lemma ScaledDraw(u: real, span: real)
    requires 0.0 <= u < 1.0 && span >= 0.0
    ensures 0.0 <= u * span <= span
    ensures span > 0.0 ==> u * span < span
  {
    assert span - u * span == (1.0 - u) * span;
  }

  /**
   * Spawn points: when the scene is at least as wide as the badge, the badge starts fully
   * inside horizontally, with its centre in [width/2, W - width/2] (strictly below the right
   * end when the scene is wider), and its centre starts in the upper half, [0, H/2).
   */
  lemma SpawnInRange(sceneWidth: real, sceneHeight: real, draws: seq<SpawnDraw>, k: nat)
    requires |draws| == |StackItems| && k < |StackItems| && ValidDraw(draws[k])
    requires sceneHeight > 0.0
    ensures var b := Badges(sceneWidth, sceneHeight, draws)[k].body;
      (sceneWidth >= b.width ==> b.width / 2.0 <= b.cx <= sceneWidth - b.width / 2.0) &&
      (sceneWidth > b.width ==> b.cx < sceneWidth - b.width / 2.0) &&
      0.0 <= b.cy < sceneHeight / 2.0
  {
    SpawnBadgeInRange(k, StackItems[k], sceneWidth, sceneHeight, draws[k]);
  }

  /** The spawn bounds for one badge. */
  lemma SpawnBadgeInRange(index: nat, name: string, sceneWidth: real, sceneHeight: real, d: SpawnDraw)
    requires ValidDraw(d) && sceneHeight > 0.0
    ensures var b := SpawnBadge(index, name, sceneWidth, sceneHeight, d).body;
      (sceneWidth >= b.width ==> b.width / 2.0 <= b.cx <= sceneWidth - b.width / 2.0) &&
      (sceneWidth > b.width ==> b.cx < sceneWidth - b.width / 2.0) &&
      0.0 <= b.cy < sceneHeight / 2.0
  {
    var b := SpawnBadge(index, name, sceneWidth, sceneHeight, d).body;
    var width, span, half := BadgeWidth(name), sceneWidth - BadgeWidth(name), sceneHeight / 2.0;
    var x, y := d.u * span, d.v * half;
    assert b.cx == x + width / 2.0 && b.cy == y && b.width == width;
    if span >= 0.0 {
      ScaledDraw(d.u, span);
    }
    ScaledDraw(d.v, half);
  }

  /** The four static walls. */
  datatype Walls = Walls(ground: Rect, left: Rect, right: Rect, ceiling: Rect)

  /** The walls built at mount for a `w` by `h` scene. */
  function WallsFor(w: real, h: real): (ws: Walls)
    ensures ws.ground.cy == h && ws.ceiling.cy == 0.0 && ws.left.cx == 0.0 && ws.right.cx == w
  {
    Walls(Rect(w / 2.0, h, w, WallThickness),
          Rect(0.0, h / 2.0, WallThickness, h),
          Rect(w, h / 2.0, WallThickness, h),
          Rect(w / 2.0, 0.0, w, WallThickness))
  }

  /** What `handleResize` does to the walls: it moves the floor and the right wall only, and resizes none. */
  function Repositioned(ws: Walls, w: real, h: real): (r: Walls)
    ensures r.left == ws.left && r.ceiling == ws.ceiling
    ensures r.ground.width == ws.ground.width && r.ground.height == ws.ground.height
    ensures r.right.width == ws.right.width && r.right.height == ws.right.height
  {
    ws.(ground := ws.ground.(cx := w / 2.0, cy := h), right := ws.right.(cx := w, cy := h / 2.0))
  }

  /** Repositioning the mount-time walls puts the floor and right wall where a fresh build for the new size would. */
  lemma RepositionMatchesFreshCentres(w0: real, h0: real, w: real, h: real)
    ensures var r := Repositioned(WallsFor(w0, h0), w, h);
      var f := WallsFor(w, h);
      r.ground.cx == f.ground.cx && r.ground.cy == f.ground.cy &&
      r.right.cx == f.right.cx && r.right.cy == f.right.cy
  {
  }

  /**
   * Because nothing is resized, a scene that grows wider than it was at mount is left with a
   * floor that no longer reaches its left and right edges, and a ceiling still centred on
   * the old middle.
   */
  lemma WideningLeavesFloorShort(w0: real, h0: real, w: real, h: real)
    requires w0 < w
    ensures var g := Repositioned(WallsFor(w0, h0), w, h).ground;
      g.cx - g.width / 2.0 > 0.0 && g.cx + g.width / 2.0 < w
    ensures Repositioned(WallsFor(w0, h0), w, h).ceiling.cx != w / 2.0
  {
  }

  /** The measured scene element, `clientWidth` by `clientHeight`. */
  datatype Scene = Scene(clientWidth: nat, clientHeight: nat)

  /** One mounted widget: its engine, renderer canvas, bodies and window listener. */
  class StackWidget {
    var gravityY: real
    var running: bool
    var canvasWidth: real
    var canvasHeight: real
    var walls: Walls
    var badges: seq<Badge>
    /** Whether the walls and badges are in the physics world. */
    var inWorld: bool
    var resizeListener: bool

    /** The resize listener is only ever attached while the bodies are in a running world. */
    ghost predicate Valid()
      reads this
    {
      resizeListener ==> running && inWorld && |badges| == |StackItems|
    }

    /** The engine and runner are created with the component, before anything is mounted. */
    constructor ()
      ensures Valid()
      ensures !running && !inWorld && !resizeListener && badges == []
      ensures gravityY == DefaultGravityY
    {
      gravityY := DefaultGravityY;
      running := false;
      canvasWidth, canvasHeight := 0.0, 0.0;
      walls := WallsFor(0.0, 0.0);
      badges := [];
      inWorld := false;
      resizeListener := false;
    }

    /**
     * The mount effect. Gravity is set first; without a scene element nothing else happens.
     * Otherwise the canvas takes the scene's size, the walls and one badge per item enter
     * the world, the engine starts and the resize listener is attached.
     */
    method Mount(scene: Option<Scene>, draws: seq<SpawnDraw>)
      requires Valid() && !running && !resizeListener
      requires |draws| == |StackItems|
      modifies this
      ensures Valid()
      ensures gravityY == GravityY
      ensures scene.None? ==>
        running == old(running) && inWorld == old(inWorld) && resizeListener == old(resizeListener) &&
        badges == old(badges) && walls == old(walls) &&
        canvasWidth == old(canvasWidth) && canvasHeight == old(canvasHeight)
      ensures scene.Some? ==>
        var w, h := scene.value.clientWidth as real, scene.value.clientHeight as real;
        canvasWidth == w && canvasHeight == h &&
        walls == WallsFor(w, h) && badges == Badges(w, h, draws) &&
        inWorld && running && resizeListener
    {
      gravityY := GravityY;
      if scene.None? {
        return;
      }
      var w, h := scene.value.clientWidth as real, scene.value.clientHeight as real;
      canvasWidth, canvasHeight := w, h;
      walls := WallsFor(w, h);
      badges := Badges(w, h, draws);
      inWorld := true;
      running := true;
      resizeListener := true;
    }

    /**
     * A window resize. With the listener attached the canvas takes the new size and the
     * floor and right wall move to the new edges; every other wall, every wall size and
     * every badge is left as it was. Without the listener nothing happens.
     */
    method WindowResized(scene: Scene)
      requires Valid()
      modifies this
      ensures Valid()
      ensures badges == old(badges) && running == old(running) && inWorld == old(inWorld)
      ensures resizeListener == old(resizeListener) && gravityY == old(gravityY)
      ensures old(resizeListener) ==>
        var w, h := scene.clientWidth as real, scene.clientHeight as real;
        canvasWidth == w && canvasHeight == h && walls == Repositioned(old(walls), w, h)
      ensures !old(resizeListener) ==>
        canvasWidth == old(canvasWidth) && canvasHeight == old(canvasHeight) && walls == old(walls)
    {
      if resizeListener {
        var w, h := scene.clientWidth as real, scene.clientHeight as real;
        canvasWidth, canvasHeight := w, h;
        walls := Repositioned(walls, w, h);
      }
    }

    /** The unmount cleanup: stop, empty the world (static bodies included) and detach the listener. */
    method Cleanup()
      requires Valid()
      modifies this
      ensures Valid()
      ensures !running && !inWorld && !resizeListener
      ensures gravityY == old(gravityY) && walls == old(walls) && badges == old(badges)
      ensures canvasWidth == old(canvasWidth) && canvasHeight == old(canvasHeight)
    {
      running := false;
      inWorld := false;
      resizeListener := false;
    }
  }
}
