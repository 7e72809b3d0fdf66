/**
 * The 2D component set of the penguin puppet.
 *
 * Rectangles, circles and colours are fixed once built and are values.
 * Joints, the zoomer and the translator are objects with mutable fields:
 * the user interface and the animation change them between frames, and the
 * tree refers to them (`JointRef`, `ZoomerRef`, `TranslatorRef`), so a
 * change is seen by the next update of every tree that holds the handle.
 * An entity is a class whose component list grows by `AddComponent`; a
 * joint refers to its child by the value the child had when the joint was
 * made (every entity of the puppet is complete before a joint wraps it).
 *
 * `Render(n)` is the sequence of GL calls `n`'s Update makes.  A joint's
 * child is reached through a const field, so termination uses a rank kept
 * in each joint (`depth`, one more than its child's) and the predicate
 * `Ranked` that says every rank in a tree is consistent.
 */
module Components2D {
  import opened Wrappers
  import opened Gl
  import opened Seqs

  /** Zoomer: scales x and y by the same factor. */
  class Zoomer {
    var f: real

    constructor(f: real)
      ensures this.f == f
    {
      this.f := f;
    }

    method SetF(f: real)
      modifies this
      ensures this.f == f
    {
      this.f := f;
    }
  }

  /** Translator: moves everything after it by (x, y). */
  class Translator {
    var x: real
    var y: real

    constructor(x: real, y: real)
      ensures this.x == x && this.y == y
    {
      this.x := x;
      this.y := y;
    }

    method SetX(x: real)
      modifies this
      ensures this.x == x && y == old(y)
    {
      this.x := x;
    }

    method SetY(y: real)
      modifies this
      ensures this.y == y && x == old(x)
    {
      this.y := y;
    }
  }

  datatype Node =
    | RectNode(x1: real, y1: real, x2: real, y2: real, mode: Primitive)
    | CircleNode(cx: real, cy: real, r: real, smoothness: int, cmode: Primitive)
    | ColorNode(red: real, green: real, blue: real, alpha: real)
    | EntityNode(children: seq<Node>)
    | JointRef(joint: Joint)
    | ZoomerRef(zoomer: Zoomer)
    | TranslatorRef(translator: Translator)

  /** A Joint: moves and rotates its child relative to the parent, then optionally marks the pivot. */
  class Joint {
    var x: real
    var y: real
    var a: real
    const child: Node
    const mark: bool
    /** One more than the rank of `child`. */
    const depth: nat

    constructor(x: real, y: real, a: real, child: Node, mark: bool)
      requires Ranked(child)
      ensures this.x == x && this.y == y && this.a == a
      ensures this.child == child && this.mark == mark
      ensures Ranked(JointRef(this))
    {
      this.x := x;
      this.y := y;
      this.a := a;
      this.child := child;
      this.mark := mark;
      this.depth := H(child) + 1;
    }

    /** set_a: changes the angle only. */
    method SetA(a: real)
      modifies this
      ensures this.a == a && x == old(x) && y == old(y)
    {
      this.a := a;
    }

    /** set_y: changes the y position only. */
    method SetY(y: real)
      modifies this
      ensures this.y == y && x == old(x) && a == old(a)
    {
      this.y := y;
    }
  }

  // ---------------------------------------------------------------------
  // Ranks, footprints
  // ---------------------------------------------------------------------

  function H(n: Node): nat
    decreases n
  {
    match n
    case JointRef(j) => j.depth
    case EntityNode(cs) => MaxH(cs)
    case _ => 0
  }

  function MaxH(cs: seq<Node>): nat
    decreases cs
  {
    if cs == [] then 0
    else
      var h, t := H(cs[0]), MaxH(cs[1..]);
      if h < t then t else h
  }

  lemma {:induction false} MaxHBound(cs: seq<Node>, k: int)
    requires 0 <= k < |cs|
    ensures H(cs[k]) <= MaxH(cs)
    decreases k
  {
    if k > 0 {
      MaxHBound(cs[1..], k - 1);
    }
  }

  /** Every joint in the tree has the rank one above its child. */
  predicate Ranked(n: Node)
    decreases H(n), n
  {
    match n
    case JointRef(j) => j.depth == H(j.child) + 1 && Ranked(j.child)
    case EntityNode(cs) => AllRanked(cs)
    case _ => true
  }

  predicate AllRanked(cs: seq<Node>)
    decreases MaxH(cs), cs
  {
    cs != [] ==> Ranked(cs[0]) && AllRanked(cs[1..])
  }

  /** A list is ranked exactly when each of its elements is. */
  lemma {:induction false} AllRankedEach(cs: seq<Node>)
    ensures AllRanked(cs) <==> forall k :: 0 <= k < |cs| ==> Ranked(cs[k])
    decreases |cs|
  {
    if cs != [] {
      AllRankedEach(cs[1..]);
      assert forall k :: 1 <= k < |cs| ==> cs[k] == cs[1..][k - 1];
    }
  }

  /** The handles a tree's update reads. */
  function Objs(n: Node): set<object>
    requires Ranked(n)
    decreases H(n), n
  {
    match n
    case JointRef(j) => {j} + Objs(j.child)
    case ZoomerRef(z) => {z}
    case TranslatorRef(t) => {t}
    case EntityNode(cs) => ObjsAll(cs)
    case _ => {}
  }

  function ObjsAll(cs: seq<Node>): set<object>
    requires AllRanked(cs)
    decreases MaxH(cs), cs
  {
    if cs == [] then {} else Objs(cs[0]) + ObjsAll(cs[1..])
  }

  /** The handles a tree reaches are allocated objects. */
  lemma {:induction false} ObjsAllocated(n: Node)
    requires Ranked(n)
    ensures forall o :: o in Objs(n) ==> allocated(o)
    decreases H(n), n
  {
    match n
    case JointRef(j) => ObjsAllocated(j.child);
    case EntityNode(cs) => ObjsAllAllocated(cs);
    case _ =>
  }

  lemma {:induction false} ObjsAllAllocated(cs: seq<Node>)
    requires AllRanked(cs)
    ensures forall o :: o in ObjsAll(cs) ==> allocated(o)
    decreases MaxH(cs), cs
  {
    if cs != [] {
      ObjsAllocated(cs[0]);
      ObjsAllAllocated(cs[1..]);
    }
  }

  // ---------------------------------------------------------------------
  // The value components
  // ---------------------------------------------------------------------

  /** Rectangle(x1, y1, x2, y2): opposite corners given, drawn as a polygon. */
  function Rectangle(x1: real, y1: real, x2: real, y2: real): (n: Node)
    ensures n.RectNode? && n.mode == Polygon
    ensures n.x1 == x1 && n.y1 == y1 && n.x2 == x2 && n.y2 == y2
  {
    RectNode(x1, y1, x2, y2, Polygon)
  }

  /** Rectangle(width, height): centred on the origin, with the given width and height. */
  function CentredRectangle(width: real, height: real): (n: Node)
    ensures n.RectNode? && n.mode == Polygon
    ensures n.x1 + n.x2 == 0.0 && n.y1 + n.y2 == 0.0
    ensures n.x2 - n.x1 == width && n.y2 - n.y1 == height
  {
    RectNode(-width / 2.0, -height / 2.0, width / 2.0, height / 2.0, Polygon)
  }

  /** Circle(x, y, r): 90 points, filled. */
  function Circle(x: real, y: real, r: real): (n: Node)
    ensures n.CircleNode? && n.cx == x && n.cy == y && n.r == r
    ensures n.smoothness == 90 && n.cmode == Polygon
  {
    CircleNode(x, y, r, 90, Polygon)
  }

  /** Circle(): the default arguments give the unit circle at the origin. */
  function UnitCircle(): (n: Node)
    ensures n == CircleNode(0.0, 0.0, 1.0, 90, Polygon)
  {
    Circle(0.0, 0.0, 1.0)
  }

  /** Color(r, g, b): alpha defaults to 1. */
  function Color(r: real, g: real, b: real): (n: Node)
    ensures n.ColorNode? && n.red == r && n.green == g && n.blue == b && n.alpha == 1.0
  {
    ColorNode(r, g, b, 1.0)
  }

  /** set_mode on a rectangle or a circle: only the drawing mode changes. */
  function WithMode(n: Node, mode: Primitive): (r: Node)
    requires n.RectNode? || n.CircleNode?
    ensures n.RectNode? ==> r == RectNode(n.x1, n.y1, n.x2, n.y2, mode)
    ensures n.CircleNode? ==> r == CircleNode(n.cx, n.cy, n.r, n.smoothness, mode)
  {
    if n.RectNode? then n.(mode := mode) else n.(cmode := mode)
  }

  /** set_smoothness on a circle: only the number of points changes. */
  function WithSmoothness(n: Node, smoothness: int): (r: Node)
    requires n.CircleNode?
    ensures r == CircleNode(n.cx, n.cy, n.r, smoothness, n.cmode)
  {
    n.(smoothness := smoothness)
  }

  /** What joint_marker's entity holds: a dark grey colour and a 12-point outline of radius 2. */
  function MarkerParts(): seq<Node>
  {
    [Color(0.2, 0.2, 0.2), WithSmoothness(WithMode(Circle(0.0, 0.0, 2.0), LineLoop), 12)]
  }

  function MarkerEntity(): Node
  {
    EntityNode(MarkerParts())
  }

  // ---------------------------------------------------------------------
  // Update as a log of GL calls
  // ---------------------------------------------------------------------

  /** The GL calls `n.Update()` makes, reading the handles' current fields. */
  function Render(n: Node): seq<Event>
    requires Ranked(n)
    reads Objs(n)
    decreases H(n), n
  {
    match n
    case RectNode(x1, y1, x2, y2, mode) =>
      [Begin(mode), Vertex(x1, y1), Vertex(x1, y2), Vertex(x2, y2), Vertex(x2, y1), End]
    case CircleNode(x, y, r, s, mode) => [Draw(Circle2D(x, y, r, s, mode))]
    case ColorNode(r, g, b, a) => [SetColor(r, g, b, a)]
    case EntityNode(cs) => [PushMatrix] + RenderAll(cs) + [PopMatrix]
    case JointRef(j) =>
      [PushMatrix, Apply(Translate(j.x, j.y, 0.0)), PushMatrix, Apply(Rotate(j.a, ZAxis))]
      + Render(j.child) + [PopMatrix]
      + (if j.mark then [PushAttrib(ColorBufferBit)] + Render(MarkerEntity()) + [PopAttrib] else [])
      + [PopMatrix]
    case ZoomerRef(z) => [Apply(Scale(z.f, z.f, 1.0))]
    case TranslatorRef(t) => [Apply(Translate(t.x, t.y, 0.0))]
  }

  function RenderAll(cs: seq<Node>): seq<Event>
    requires AllRanked(cs)
    reads ObjsAll(cs)
    decreases MaxH(cs), cs
  {
    if cs == [] then [] else Render(cs[0]) + RenderAll(cs[1..])
  }

  /** The marker entity draws its colour and its outline inside a matrix push/pop. */
  lemma MarkerLog()
    ensures Render(MarkerEntity())
      == [PushMatrix, SetColor(0.2, 0.2, 0.2, 1.0), Draw(Circle2D(0.0, 0.0, 2.0, 12, LineLoop)), PopMatrix]
  {
    var ps := MarkerParts();
    assert ps == [ColorNode(0.2, 0.2, 0.2, 1.0), CircleNode(0.0, 0.0, 2.0, 12, LineLoop)];
    assert ps[1..][1..] == [];
    assert RenderAll(ps[1..]) == [Draw(Circle2D(0.0, 0.0, 2.0, 12, LineLoop))];
    assert RenderAll(ps) == [SetColor(0.2, 0.2, 0.2, 1.0), Draw(Circle2D(0.0, 0.0, 2.0, 12, LineLoop))];
  }

  lemma {:induction false} AllRankedPrefix(cs: seq<Node>, k: int)
    requires AllRanked(cs) && 0 <= k <= |cs|
    ensures AllRanked(cs[..k])
    ensures ObjsAll(cs[..k]) <= ObjsAll(cs)
    decreases k
  {
    if k > 0 {
      AllRankedPrefix(cs[1..], k - 1);
      assert cs[..k][1..] == cs[1..][..k - 1];
    }
  }

  lemma {:induction false} ObjsAllAt(cs: seq<Node>, k: int)
    requires AllRanked(cs) && 0 <= k < |cs|
    ensures Ranked(cs[k]) && Objs(cs[k]) <= ObjsAll(cs)
    decreases k
  {
    if k > 0 {
      ObjsAllAt(cs[1..], k - 1);
    }
  }

  /** Rendering `cs + [c]` is rendering `cs`, then `c`. */
  lemma {:induction false} RenderAllSnoc(cs: seq<Node>, c: Node)
    requires AllRanked(cs) && Ranked(c)
    ensures AllRanked(cs + [c])
    ensures RenderAll(cs + [c]) == RenderAll(cs) + Render(c)
    decreases |cs|
  {
    if cs == [] {
      assert [] + [c] == [c];
      assert [c][1..] == [];
    } else {
      assert (cs + [c])[0] == cs[0];
      assert (cs + [c])[1..] == cs[1..] + [c];
      RenderAllSnoc(cs[1..], c);
    }
  }

  /** Rendering `[c] + cs` is rendering `c`, then `cs`. */
  lemma RenderAllCons(c: Node, cs: seq<Node>)
    requires Ranked(c) && AllRanked(cs)
    ensures AllRanked([c] + cs)
    ensures RenderAll([c] + cs) == Render(c) + RenderAll(cs)
  {
    assert ([c] + cs)[0] == c;
    assert ([c] + cs)[1..] == cs;
  }

  /** Rendering `a + b` is rendering `a`, then `b`. */
  lemma {:induction false} RenderAllConcat(a: seq<Node>, b: seq<Node>)
    requires AllRanked(a) && AllRanked(b)
    ensures AllRanked(a + b)
    ensures RenderAll(a + b) == RenderAll(a) + RenderAll(b)
    decreases |a|
  {
    if a == [] {
      assert a + b == b;
    } else {
      assert (a + b)[0] == a[0];
      assert (a + b)[1..] == a[1..] + b;
      RenderAllConcat(a[1..], b);
    }
  }

  // ---------------------------------------------------------------------
  // What updates do to the matrix and attribute stacks
  // ---------------------------------------------------------------------

  /** The marker entity gives back the machine it found. */
  lemma MarkerRestores()
    ensures Restores(Render(MarkerEntity()))
  {
    MarkerLog();
    var inner := [SetColor(0.2, 0.2, 0.2, 1.0), Draw(Circle2D(0.0, 0.0, 2.0, 12, LineLoop))];
    InertRestores(inner);
    RestoresIsNeutral(inner);
    MatrixBracketRestores(inner);
    assert Render(MarkerEntity()) == [PushMatrix] + inner + [PopMatrix];
  }

  /**
   * Every component's update leaves both stacks as it found them: only
   * zoomers and translators (and the components after them in an entity)
   * see a changed current matrix, and an Entity or a Joint undoes even that.
   */
  lemma {:induction false} RenderNeutral(n: Node)
    requires Ranked(n)
    ensures Neutral(Render(n))
    decreases H(n), n
  {
    match n
    case RectNode(x1, y1, x2, y2, mode) =>
      InertRestores(Render(n));
      RestoresIsNeutral(Render(n));
    case CircleNode(x, y, r, s, mode) =>
      InertRestores(Render(n));
      RestoresIsNeutral(Render(n));
    case ColorNode(r, g, b, a) =>
      InertRestores(Render(n));
      RestoresIsNeutral(Render(n));
    case ZoomerRef(z) =>
      ApplyNeutral(Scale(z.f, z.f, 1.0));
    case TranslatorRef(t) =>
      ApplyNeutral(Translate(t.x, t.y, 0.0));
    case EntityNode(cs) =>
      EntityRestores(cs);
      RestoresIsNeutral(Render(n));
    case JointRef(j) =>
      JointRestores(j);
      RestoresIsNeutral(Render(n));
  }

  lemma {:induction false} RenderAllNeutral(cs: seq<Node>)
    requires AllRanked(cs)
    ensures Neutral(RenderAll(cs))
    decreases MaxH(cs), cs, 0
  {
    if cs == [] {
      InertRestores([]);
      RestoresIsNeutral([]);
    } else {
      RenderNeutral(cs[0]);
      RenderAllNeutral(cs[1..]);
      NeutralConcat(Render(cs[0]), RenderAll(cs[1..]));
    }
  }

  /** Entity::Update saves the matrix, updates the children and restores it. */
  lemma {:induction false} EntityRestores(cs: seq<Node>)
    requires AllRanked(cs)
    ensures Restores(Render(EntityNode(cs)))
    decreases MaxH(cs), cs, 1
  {
    RenderAllNeutral(cs);
    MatrixBracketRestores(RenderAll(cs));
  }

  /**
   * Joint::Update gives back the machine it found: whatever its child does
   * to the matrix is undone, and the marker's colour change is inside an
   * attribute push/pop.
   */
  lemma {:induction false} JointRestores(j: Joint)
    requires Ranked(JointRef(j))
    ensures Restores(Render(JointRef(j)))
    decreases j.depth, JointRef(j), 0
  {
    RenderNeutral(j.child);
    MarkerNeutral(j.mark);
    JointLogRestores(Render(j.child), Translate(j.x, j.y, 0.0), Rotate(j.a, ZAxis),
                     if j.mark then [PushAttrib(ColorBufferBit)] + Render(MarkerEntity()) + [PopAttrib] else []);
  }

  /** The marker a joint may draw, inside its attribute bracket, is stack-neutral. */
  lemma MarkerNeutral(mark: bool)
    ensures Neutral(if mark then [PushAttrib(ColorBufferBit)] + Render(MarkerEntity()) + [PopAttrib] else [])
  {
    MarkerRestores();
    RestoresIsNeutral(Render(MarkerEntity()));
    if mark {
      AttribBracket(ColorBufferBit, Render(MarkerEntity()));
    } else {
      InertRestores([]);
      RestoresIsNeutral([]);
    }
  }

  /** The shape of a joint's log restores the machine when its child's log and its marker are neutral. */
  lemma JointLogRestores(c: seq<Event>, t: Xform, r: Xform, marker: seq<Event>)
    requires Neutral(c) && Neutral(marker)
    ensures Restores([PushMatrix, Apply(t), PushMatrix, Apply(r)] + c + [PopMatrix] + marker + [PopMatrix])
  {
    var inner := [Apply(r)] + c;
    ApplyNeutral(r);
    NeutralConcat([Apply(r)], c);
    MatrixBracketRestores(inner);
    var rotated := [PushMatrix] + inner + [PopMatrix];
    RestoresIsNeutral(rotated);
    ApplyNeutral(t);
    NeutralConcat([Apply(t)], rotated);
    NeutralConcat([Apply(t)] + rotated, marker);
    var body := [Apply(t)] + rotated + marker;
    MatrixBracketRestores(body);
    assert [PushMatrix, Apply(t), PushMatrix, Apply(r)] + c + [PopMatrix] + marker + [PopMatrix]
      == [PushMatrix] + body + [PopMatrix];
  }

  /**
   * Where the marker is drawn: after the child, the rotation has been popped
   * and only the joint's translation is on top of the matrix the joint found.
   * The child itself is drawn translated and then rotated about z.
   */
  lemma JointMarkerFrame(j: Joint, m: Machine)
    requires Ranked(JointRef(j))
    ensures var opening := [PushMatrix, Apply(Translate(j.x, j.y, 0.0)), PushMatrix, Apply(Rotate(j.a, ZAxis))];
            Run(opening, m) == Some(Machine(m.current + [Translate(j.x, j.y, 0.0), Rotate(j.a, ZAxis)],
                                            m.saved + [m.current, m.current + [Translate(j.x, j.y, 0.0)]],
                                            m.attribs))
    ensures var uptoMarker := [PushMatrix, Apply(Translate(j.x, j.y, 0.0)), PushMatrix, Apply(Rotate(j.a, ZAxis))]
                              + Render(j.child) + [PopMatrix];
            Run(uptoMarker, m) == Some(Machine(m.current + [Translate(j.x, j.y, 0.0)], m.saved + [m.current], m.attribs))
  {
    var t := Translate(j.x, j.y, 0.0);
    var opening := [PushMatrix, Apply(t), PushMatrix, Apply(Rotate(j.a, ZAxis))];
    var m1 := Machine(m.current + [t, Rotate(j.a, ZAxis)], m.saved + [m.current, m.current + [t]], m.attribs);
    assert Run(opening, m) == Some(m1) by {
      var r := Rotate(j.a, ZAxis);
      var s1 := m.(saved := m.saved + [m.current]);
      var s2 := s1.(current := m.current + [t]);
      var s3 := s2.(saved := s2.saved + [s2.current]);
      assert Step(PushMatrix, m) == Some(s1);
      assert Step(Apply(t), s1) == Some(s2);
      assert Step(PushMatrix, s2) == Some(s3);
      assert Step(Apply(r), s3) == Some(m1) by {
        assert m.saved + [m.current] + [m.current + [t]] == m.saved + [m.current, m.current + [t]];
        assert m.current + [t] + [r] == m.current + [t, r];
      }
      assert opening[1..] == [Apply(t), PushMatrix, Apply(r)];
      assert opening[1..][1..] == [PushMatrix, Apply(r)];
      assert opening[1..][1..][1..] == [Apply(r)];
      assert opening[1..][1..][1..][1..] == [];
      assert Run(opening[1..][1..][1..], s3) == Some(m1);
      assert Run(opening[1..][1..], s2) == Some(m1);
      assert Run(opening[1..], s1) == Some(m1);
    }
    RenderNeutral(j.child);
    var m2 := Run(Render(j.child), m1).value;
    RunConcat(opening, Render(j.child), m);
    RunConcat(opening + Render(j.child), [PopMatrix], m);
    assert Run([PopMatrix], m2) == Some(Machine(m.current + [t], m.saved + [m.current], m.attribs)) by {
      assert [PopMatrix][1..] == [];
      assert m2.saved == m.saved + [m.current, m.current + [t]];
      assert m2.saved[..|m2.saved| - 1] == m.saved + [m.current];
    }
  }

  /** The marker is drawn exactly when the joint was built with `mark`. */
  lemma JointMarkIff(j: Joint)
    requires Ranked(JointRef(j))
    ensures var log := Render(JointRef(j));
            var k := 5 + |Render(j.child)|;
            |log| > k && (log[k] == PushAttrib(ColorBufferBit) <==> j.mark)
  {
    var log := Render(JointRef(j));
    var k := 5 + |Render(j.child)|;
    var head := [PushMatrix, Apply(Translate(j.x, j.y, 0.0)), PushMatrix, Apply(Rotate(j.a, ZAxis))]
                + Render(j.child) + [PopMatrix];
    assert |head| == k;
    if j.mark {
      assert log == head + ([PushAttrib(ColorBufferBit)] + Render(MarkerEntity()) + [PopAttrib]) + [PopMatrix];
    } else {
      assert log == head + [PopMatrix];
    }
  }

  /** Zoomer::Update scales x and y by f, and z by 1. */
  lemma ZoomerEffect(z: Zoomer, m: Machine)
    ensures Run(Render(ZoomerRef(z)), m) == Some(m.(current := m.current + [Scale(z.f, z.f, 1.0)]))
  {
    assert Render(ZoomerRef(z))[1..] == [];
  }

  /** Translator::Update moves by (x, y) in the plane. */
  lemma TranslatorEffect(t: Translator, m: Machine)
    ensures Run(Render(TranslatorRef(t)), m) == Some(m.(current := m.current + [Translate(t.x, t.y, 0.0)]))
  {
    assert Render(TranslatorRef(t))[1..] == [];
  }

  /**
   * Rectangle::Update draws the four corners in the order (x1, y1),
   * (x1, y2), (x2, y2), (x2, y1) between glBegin and glEnd; consequently
   * consecutive vertices (and the last and the first) share an x or a y,
   * so every edge is axis-parallel, and each corner is drawn once.
   */
  lemma RectangleOutline(x1: real, y1: real, x2: real, y2: real, mode: Primitive)
    ensures var log := Render(RectNode(x1, y1, x2, y2, mode));
            && |log| == 6 && log[0] == Begin(mode) && log[5] == End
            && log[1..5] == [Vertex(x1, y1), Vertex(x1, y2), Vertex(x2, y2), Vertex(x2, y1)]
            && (forall i :: 1 <= i <= 4 ==>
                  var p, q := log[i], log[if i == 4 then 1 else i + 1];
                  p.vx == q.vx || p.vy == q.vy)
            && multiset{log[1], log[2], log[3], log[4]}
               == multiset{Vertex(x1, y1), Vertex(x1, y2), Vertex(x2, y2), Vertex(x2, y1)}
  {
  }

  /**
   * Rectangle(w, h) drawn: the corners of the w by h rectangle centred on
   * the origin, (-w/2, -h/2), (-w/2, h/2), (w/2, h/2), (w/2, -h/2), as a
   * filled polygon.
   */
  lemma CentredRectangleOutline(w: real, h: real)
    ensures Render(CentredRectangle(w, h))
      == [Begin(Polygon), Vertex(-w / 2.0, -h / 2.0), Vertex(-w / 2.0, h / 2.0),
          Vertex(w / 2.0, h / 2.0), Vertex(w / 2.0, -h / 2.0), End]
  {
    assert CentredRectangle(w, h) == RectNode(-w / 2.0, -h / 2.0, w / 2.0, h / 2.0, Polygon);
  }

  // ---------------------------------------------------------------------
  // Mutable parts: the marker cache, entities, the tree walk
  // ---------------------------------------------------------------------

  /** joint_marker's static entity and the flag saying it has been filled. */
  class MarkerCache {
    var built: bool
    var parts: seq<Node>

    constructor()
      ensures !built && parts == []
    {
      built := false;
      parts := [];
    }

    predicate Valid()
      reads this
    {
      if built then parts == MarkerParts() else parts == []
    }

    /**
     * joint_marker(): fills the entity on the first call only; every call
     * returns the marker entity, and a later call changes nothing.
     */
    method Get() returns (marker: Node)
      requires Valid()
      modifies this
      ensures Valid() && built
      ensures marker == MarkerEntity()
      ensures old(built) ==> parts == old(parts)
    {
      if !built {
        var c := Circle(0.0, 0.0, 2.0);
        c := WithMode(c, LineLoop);
        c := WithSmoothness(c, 12);
        parts := parts + [Color(0.2, 0.2, 0.2)];
        parts := parts + [c];
        built := true;
      }
      marker := EntityNode(parts);
    }
  }

  /** An Entity: a list of components updated in insertion order inside a matrix push/pop. */
  class Entity {
    var components: seq<Node>

    constructor()
      ensures components == []
    {
      components := [];
    }

    /** The entity as a component, as a joint or another entity sees it now. */
    function Node(): Node
      reads this
    {
      EntityNode(components)
    }

    method AddComponent(c: Node)
      modifies this
      ensures components == old(components) + [c]
    {
      components := components + [c];
    }

    /** ~Entity: deletes every child it holds, in order; a joint frees nothing further. */
    method Destroy() returns (freed: seq<Node>)
      ensures freed == components
    {
      freed := [];
      for k := 0 to |components|
        invariant freed == components[..k]
      {
        freed := freed + [components[k]];
      }
    }
  }

  /**
   * Update() on any component: the log it makes is `Render(n)`.  The marker
   * cache is filled the first time a marking joint is reached.
   */
  method UpdateNode(n: Node, cache: MarkerCache) returns (log: seq<Event>)
    requires Ranked(n) && cache.Valid() && cache !in Objs(n)
    modifies cache
    ensures cache.Valid()
    ensures log == Render(n)
    decreases H(n), n, 1
  {
    match n
    case EntityNode(cs) =>
      var l := UpdateChildren(cs, cache);
      log := [PushMatrix] + l + [PopMatrix];
    case JointRef(j) =>
      log := UpdateJoint(j, cache);
    case _ =>
      log := Render(n);
  }

  /** Entity::Update's loop: the children in insertion order. */
  method UpdateChildren(cs: seq<Node>, cache: MarkerCache) returns (log: seq<Event>)
    requires AllRanked(cs) && cache.Valid() && cache !in ObjsAll(cs)
    modifies cache
    ensures cache.Valid()
    ensures log == RenderAll(cs)
    decreases MaxH(cs), cs, 0
  {
    log := [];
    for k := 0 to |cs|
      invariant cache.Valid()
      invariant AllRanked(cs[..k]) && ObjsAll(cs[..k]) <= ObjsAll(cs)
      invariant log == RenderAll(cs[..k])
    {
      ObjsAllAt(cs, k);
      MaxHBound(cs, k);
      ObjsAllAllocated(cs[..k]);
      ObjsAllocated(cs[k]);
      ghost var prefix := RenderAll(cs[..k]);
      var l := UpdateNode(cs[k], cache);
      assert RenderAll(cs[..k]) == prefix;
      assert cs[..k + 1] == cs[..k] + [cs[k]];
      RenderAllSnoc(cs[..k], cs[k]);
      AllRankedPrefix(cs, k + 1);
      log := log + l;
    }
    assert cs[..|cs|] == cs;
  }

  /** Joint::Update: translate, rotate, the child, undo the rotation, the marker, undo the translation. */
  method UpdateJoint(j: Joint, cache: MarkerCache) returns (log: seq<Event>)
    requires Ranked(JointRef(j)) && cache.Valid() && cache !in Objs(JointRef(j))
    modifies cache
    ensures cache.Valid()
    ensures log == Render(JointRef(j))
    decreases j.depth, JointRef(j), 0
  {
    ObjsAllocated(JointRef(j));
    ghost var expected := Render(JointRef(j));
    var opening := [PushMatrix, Apply(Translate(j.x, j.y, 0.0)), PushMatrix, Apply(Rotate(j.a, ZAxis))];
    ghost var child := Render(j.child);
    var l := UpdateNode(j.child, cache);
    assert l == child;
    var ml := [];
    if j.mark {
      var marker := cache.Get();
      var body := UpdateNode(marker, cache);
      ml := [PushAttrib(ColorBufferBit)] + body + [PopAttrib];
    }
    log := opening + l + [PopMatrix] + ml + [PopMatrix];
    assert log == expected;
  }
}
