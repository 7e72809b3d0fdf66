/**
 * The 2D penguin puppet: the kinematic tree built in main, the limits of
 * the user-interface spinners, the animation step and the animate button.
 *
 * The puppet's handles (the zoomer, the translator and the eight joints)
 * are globals assigned once in main; here they are const fields of
 * `Puppet`.  The oscillation value of a frame comes from sin of the frame
 * number and is taken as a parameter in [0, 1].
 */
module Penguin2D {
  import opened Gl
  import opened Components2D
  import opened Seqs

  // Rotation limits in degrees, scale limits and translation limits.
  const MAX_ROTATION: real := 30.0
  const MIN_ROTATION: real := -30.0
  const MAX_ROTATION_BODY: real := 20.0
  const MIN_ROTATION_BODY: real := -20.0
  const MAX_ROTATION_HEAD: real := 10.0
  const MIN_ROTATION_HEAD: real := -10.0
  const MAX_ROTATION_HAND: real := 30.0
  const MIN_ROTATION_HAND: real := -30.0
  const MAX_ROTATION_LEG: real := 10.0
  const MIN_ROTATION_LEG: real := -10.0
  const MAX_ROTATION_FEET: real := 30.0
  const MIN_ROTATION_FEET: real := -20.0
  const MAX_SCALE: real := 5.0
  const MIN_SCALE: real := 0.1
  const MAX_TRANSLATION_BODY_Y: real := 25.0
  const MIN_TRANSLATION_BODY_Y: real := -25.0
  const MAX_TRANSLATION_BODY_X: real := 300.0
  const MIN_TRANSLATION_BODY_X: real := -200.0
  const MAX_TRANSLATION_MOUTH: real := 2.0
  const MIN_TRANSLATION_MOUTH: real := -0.6
  const JOINT_MIN: real := -45.0
  const JOINT_MAX: real := 45.0

  // Body-part sizes.
  const BODY_WIDTH: real := 100.0
  const BODY_LENGTH: real := 50.0
  const HAND_HEIGHT: real := 40.0
  const HAND_WIDTH: real := 15.0
  const HEAD_WIDTH: real := 50.0
  const HEAD_HEIGHT: real := 25.0
  const MOUTH_WIDTH: real := 50.0
  const MOUTH_HEIGHT: real := 5.0
  const LEG_WIDTH: real := 15.0
  const LEG_HEIGHT: real := 40.0
  const FEET_WIDTH: real := 40.0
  const FEET_HEIGHT: real := 10.0

  /** Every limit pair is ordered, so every spinner range is non-empty. */
  lemma LimitsOrdered()
    ensures MIN_ROTATION <= MAX_ROTATION && MIN_ROTATION_BODY <= MAX_ROTATION_BODY
    ensures MIN_ROTATION_HEAD <= MAX_ROTATION_HEAD && MIN_ROTATION_HAND <= MAX_ROTATION_HAND
    ensures MIN_ROTATION_LEG <= MAX_ROTATION_LEG && MIN_ROTATION_FEET <= MAX_ROTATION_FEET
    ensures MIN_SCALE <= MAX_SCALE
    ensures MIN_TRANSLATION_BODY_Y <= MAX_TRANSLATION_BODY_Y && MIN_TRANSLATION_BODY_X <= MAX_TRANSLATION_BODY_X
    ensures MIN_TRANSLATION_MOUTH <= MAX_TRANSLATION_MOUTH && JOINT_MIN <= JOINT_MAX
  {
  }

  /** The value animate gives a handle: `o` of the way from the maximum to the minimum. */
  function Blend(o: real, lo: real, hi: real): real
  {
    o * lo + (1.0 - o) * hi
  }

  /** For o in [0, 1] the blend stays within [lo, hi]; it is hi at 0 and lo at 1. */
  lemma BlendWithin(o: real, lo: real, hi: real)
    requires 0.0 <= o <= 1.0 && lo <= hi
    ensures lo <= Blend(o, lo, hi) <= hi
    ensures o == 0.0 ==> Blend(o, lo, hi) == hi
    ensures o == 1.0 ==> Blend(o, lo, hi) == lo
  {
    var d := hi - lo;
    assert (1.0 - o) * hi == hi - o * hi;
    assert o * d == o * hi - o * lo;
    assert Blend(o, lo, hi) == hi - o * d;
    assert 0.0 <= o * d by { NonnegProduct(o, d); }
    assert o * d <= d by {
      NonnegProduct(1.0 - o, d);
      assert (1.0 - o) * d == d - o * d;
    }
  }

  lemma NonnegProduct(p: real, q: real)
    requires 0.0 <= p && 0.0 <= q
    ensures 0.0 <= p * q
  {
  }

  function Last(cs: seq<Node>): Node
    requires cs != []
  {
    cs[|cs| - 1]
  }

  // The component lists main gives each body part, in the order it adds them.

  function MouthParts(): seq<Node>
  {
    [Color(1.0, 1.0, 0.0), Rectangle(-HEAD_WIDTH / 2.0 - MOUTH_WIDTH, 0.0, -HEAD_WIDTH / 2.0, MOUTH_HEIGHT),
     Color(0.0, 1.0, 1.0)]
  }

  function HeadParts(mouth: Joint): seq<Node>
  {
    [Color(0.0, 1.0, 1.0), Rectangle(-HEAD_WIDTH / 2.0, 0.0, HEAD_WIDTH / 2.0, HEAD_HEIGHT),
     Color(0.8, 0.8, 0.8), Circle(-HEAD_WIDTH / 4.0, 0.6 * HEAD_HEIGHT, 0.3 * HEAD_HEIGHT),
     Color(0.1, 0.1, 0.1), Circle(-HEAD_WIDTH / 4.0, 0.6 * HEAD_HEIGHT, 0.15 * HEAD_HEIGHT),
     Color(1.0, 1.0, 0.0),
     Rectangle(-HEAD_WIDTH / 2.0 - MOUTH_WIDTH, 2.0 * MOUTH_HEIGHT, -HEAD_WIDTH / 2.0, 3.0 * MOUTH_HEIGHT),
     JointRef(mouth)]
  }

  function HandParts(): seq<Node>
  {
    [Color(0.0, 1.0, 1.0), Rectangle(-HAND_WIDTH / 2.0, -HAND_HEIGHT, HAND_WIDTH / 2.0, 0.0 + HAND_HEIGHT / 6.0),
     Color(0.0, 1.0, 1.0)]
  }

  function FeetParts(): seq<Node>
  {
    [Color(1.0, 1.0, 0.0),
     Rectangle(-LEG_WIDTH / 4.0 - FEET_WIDTH / 2.0, -FEET_HEIGHT, FEET_WIDTH / 4.0, FEET_HEIGHT / 6.0),
     Color(0.0, 1.0, 1.0)]
  }

  function LegParts(feet: Joint): seq<Node>
  {
    [Color(0.0, 1.0, 1.0), Rectangle(-LEG_WIDTH / 2.0, -LEG_HEIGHT, LEG_WIDTH / 2.0, 0.0 + LEG_HEIGHT / 6.0),
     Color(0.0, 1.0, 1.0), JointRef(feet)]
  }

  function BodyParts(head: Joint, hand: Joint, leftLeg: Joint, rightLeg: Joint): seq<Node>
  {
    [Color(0.5, 0.5, 0.0), Circle(0.0, -BODY_WIDTH / 2.0, BODY_WIDTH / 2.0),
     JointRef(head), JointRef(hand), JointRef(leftLeg), JointRef(rightLeg)]
  }

  // Every part list is ranked once the joints it holds are.

  lemma LeafPartsRanked()
    ensures AllRanked(MouthParts()) && AllRanked(HandParts()) && AllRanked(FeetParts())
  {
    AllRankedEach(MouthParts());
    AllRankedEach(HandParts());
    AllRankedEach(FeetParts());
  }

  lemma HeadPartsRanked(mouth: Joint)
    requires Ranked(JointRef(mouth))
    ensures AllRanked(HeadParts(mouth))
  {
    AllRankedEach(HeadParts(mouth));
  }

  lemma LegPartsRanked(feet: Joint)
    requires Ranked(JointRef(feet))
    ensures AllRanked(LegParts(feet))
  {
    AllRankedEach(LegParts(feet));
  }

  lemma BodyPartsRanked(head: Joint, hand: Joint, leftLeg: Joint, rightLeg: Joint)
    requires Ranked(JointRef(head)) && Ranked(JointRef(hand))
    requires Ranked(JointRef(leftLeg)) && Ranked(JointRef(rightLeg))
    ensures AllRanked(BodyParts(head, hand, leftLeg, rightLeg))
  {
    AllRankedEach(BodyParts(head, hand, leftLeg, rightLeg));
  }

  /**
   * Builds an entity by adding `parts` one by one, and a marking joint at
   * (x, y) with angle a around it, as main does for every body part.
   */
  method NewPartJoint(parts: seq<Node>, x: real, y: real, a: real) returns (j: Joint)
    requires AllRanked(parts)
    ensures fresh(j)
    ensures j.child == EntityNode(parts) && j.mark
    ensures j.x == x && j.y == y && j.a == a
    ensures Ranked(JointRef(j))
  {
    var e := new Entity();
    for k := 0 to |parts|
      invariant e.components == parts[..k]
    {
      e.AddComponent(parts[k]);
      assert parts[..k + 1] == parts[..k] + [parts[k]];
    }
    assert parts[..|parts|] == parts;
    j := new Joint(x, y, a, e.Node(), true);
  }

  /** The eight joints are eight different objects. */
  predicate Distinct(body: Joint, head: Joint, hand: Joint, leftLeg: Joint, rightLeg: Joint,
                     leftFeet: Joint, rightFeet: Joint, mouth: Joint)
  {
    && body != head && body != hand && body != leftLeg && body != rightLeg && body != leftFeet && body != rightFeet && body != mouth
    && head != hand && head != leftLeg && head != rightLeg && head != leftFeet && head != rightFeet && head != mouth
    && hand != leftLeg && hand != rightLeg && hand != leftFeet && hand != rightFeet && hand != mouth
    && leftLeg != rightLeg && leftLeg != leftFeet && leftLeg != rightFeet && leftLeg != mouth
    && rightLeg != leftFeet && rightLeg != rightFeet && rightLeg != mouth
    && leftFeet != rightFeet && leftFeet != mouth
    && rightFeet != mouth
  }

  /**
   * The joints as main builds them: the parts each one wraps, every pivot
   * marked, and the initial positions and angles.
   */
  ghost predicate Built(body: Joint, head: Joint, hand: Joint, leftLeg: Joint, rightLeg: Joint,
                        leftFeet: Joint, rightFeet: Joint, mouth: Joint)
    reads body, head, hand, leftLeg, rightLeg, leftFeet, rightFeet, mouth
  {
    && Distinct(body, head, hand, leftLeg, rightLeg, leftFeet, rightFeet, mouth)
    && body.child == EntityNode(BodyParts(head, hand, leftLeg, rightLeg))
    && head.child == EntityNode(HeadParts(mouth)) && hand.child == EntityNode(HandParts())
    && leftLeg.child == EntityNode(LegParts(leftFeet)) && rightLeg.child == EntityNode(LegParts(rightFeet))
    && leftFeet.child == EntityNode(FeetParts()) && rightFeet.child == EntityNode(FeetParts())
    && mouth.child == EntityNode(MouthParts())
    && body.mark && head.mark && hand.mark && leftLeg.mark && rightLeg.mark
    && leftFeet.mark && rightFeet.mark && mouth.mark
    && body.x == 0.0 && body.y == BODY_LENGTH / 2.0 - MOUTH_WIDTH / 2.0 && body.a == 0.0
    && head.x == 0.0 && head.y == BODY_LENGTH / 2.0 - MOUTH_WIDTH / 2.0 && head.a == 0.0
    && hand.x == 0.0 && hand.y == -BODY_WIDTH / 4.0 && hand.a == 0.0
    && leftLeg.x == -BODY_WIDTH / 4.0 && leftLeg.y == -BODY_LENGTH * 3.0 / 2.0 && leftLeg.a == 0.0
    && rightLeg.x == BODY_WIDTH / 4.0 && rightLeg.y == -BODY_LENGTH * 3.0 / 2.0 && rightLeg.a == 0.0
    && leftFeet.x == 0.0 && leftFeet.y == -LEG_HEIGHT * 0.8 && leftFeet.a == 30.0
    && rightFeet.x == 0.0 && rightFeet.y == -LEG_HEIGHT * 0.8 && rightFeet.a == 30.0
    && mouth.x == 0.0 && mouth.y == 0.0 && mouth.a == 0.0
  }

  /** main: the eight body-part joints, leaves first. */
  method NewJoints() returns (body: Joint, head: Joint, hand: Joint, leftLeg: Joint, rightLeg: Joint,
                              leftFeet: Joint, rightFeet: Joint, mouth: Joint)
    ensures Built(body, head, hand, leftLeg, rightLeg, leftFeet, rightFeet, mouth)
    ensures Ranked(JointRef(body))
  {
      LeafPartsRanked();
      mouth := NewPartJoint(MouthParts(), 0.0, 0.0, 0.0);
      HeadPartsRanked(mouth);
      head := NewPartJoint(HeadParts(mouth), 0.0, BODY_LENGTH / 2.0 - MOUTH_WIDTH / 2.0, 0.0);
      assert head != mouth;
      hand := NewPartJoint(HandParts(), 0.0, -BODY_WIDTH * (1.0 / 4.0), 0.0);
      assert hand != mouth && hand != head;
      leftFeet := NewPartJoint(FeetParts(), 0.0, -LEG_HEIGHT * 0.8, 30.0);
      assert leftFeet != mouth && leftFeet != head && leftFeet != hand;
      LegPartsRanked(leftFeet);
      leftLeg := NewPartJoint(LegParts(leftFeet), -BODY_WIDTH / 4.0, -BODY_LENGTH * 3.0 / 2.0, 0.0);
      assert leftLeg != mouth && leftLeg != head && leftLeg != hand && leftLeg != leftFeet;
      rightFeet := NewPartJoint(FeetParts(), 0.0, -LEG_HEIGHT * 0.8, 30.0);
      assert rightFeet != mouth && rightFeet != head && rightFeet != hand && rightFeet != leftFeet && rightFeet != leftLeg;
      LegPartsRanked(rightFeet);
      rightLeg := NewPartJoint(LegParts(rightFeet), BODY_WIDTH / 4.0, -BODY_LENGTH * 3.0 / 2.0, 0.0);
      assert rightLeg != mouth && rightLeg != head && rightLeg != hand && rightLeg != leftFeet && rightLeg != leftLeg && rightLeg != rightFeet;
      BodyPartsRanked(head, hand, leftLeg, rightLeg);
      body := NewPartJoint(BodyParts(head, hand, leftLeg, rightLeg), 0.0,
                           BODY_LENGTH / 2.0 - MOUTH_WIDTH / 2.0, 0.0);
      assert body != mouth && body != head && body != hand && body != leftFeet && body != leftLeg && body != rightFeet && body != rightLeg;
  }

  // ---------------------------------------------------------------------
  // Update order of the puppet
  // ---------------------------------------------------------------------

  /** The root scales by the zoom factor, then translates, then draws the body joint. */
  lemma RootOrder(z: Zoomer, t: Translator, body: Joint)
    requires Ranked(JointRef(body))
    ensures Ranked(EntityNode([ZoomerRef(z), TranslatorRef(t), JointRef(body)]))
    ensures Render(EntityNode([ZoomerRef(z), TranslatorRef(t), JointRef(body)]))
      == [PushMatrix, Apply(Scale(z.f, z.f, 1.0)), Apply(Translate(t.x, t.y, 0.0))]
         + Render(JointRef(body)) + [PopMatrix]
  {
    RenderAllCons(TranslatorRef(t), [JointRef(body)]);
    RenderAllCons(ZoomerRef(z), [TranslatorRef(t)] + [JointRef(body)]);
    assert [ZoomerRef(z)] + ([TranslatorRef(t)] + [JointRef(body)])
      == [ZoomerRef(z), TranslatorRef(t), JointRef(body)];
    assert [JointRef(body)] == [] + [JointRef(body)];
    RenderAllSnoc([], JointRef(body));
  }

  /** Four ranked parts render one after the other. */
  lemma RenderFour(a: Node, b: Node, c: Node, d: Node)
    requires Ranked(a) && Ranked(b) && Ranked(c) && Ranked(d)
    ensures AllRanked([a, b, c, d])
    ensures RenderAll([a, b, c, d]) == Render(a) + Render(b) + Render(c) + Render(d)
  {
    RenderAllCons(d, []);
    AppendNil(Render(d));
    RenderAllCons(c, [d]);
    Nest2(c, d);
    RenderAllCons(b, [c, d]);
    Nest3(b, c, d);
    RenderAllCons(a, [b, c, d]);
    Nest4(a, b, c, d);
    Assoc4(Render(a), Render(b), Render(c), Render(d));
  }

  /** The body draws its colour and circle, then the head, hand, left-leg and right-leg joints. */
  lemma BodyOrder(head: Joint, hand: Joint, leftLeg: Joint, rightLeg: Joint)
    requires Ranked(JointRef(head)) && Ranked(JointRef(hand))
    requires Ranked(JointRef(leftLeg)) && Ranked(JointRef(rightLeg))
    ensures Ranked(EntityNode(BodyParts(head, hand, leftLeg, rightLeg)))
    ensures AllRanked([JointRef(head), JointRef(hand), JointRef(leftLeg), JointRef(rightLeg)])
    ensures Render(EntityNode(BodyParts(head, hand, leftLeg, rightLeg)))
      == [PushMatrix, SetColor(0.5, 0.5, 0.0, 1.0), Draw(Circle2D(0.0, -50.0, 50.0, 90, Polygon))]
         + RenderAll([JointRef(head), JointRef(hand), JointRef(leftLeg), JointRef(rightLeg)]) + [PopMatrix]
  {
    var js := [JointRef(head), JointRef(hand), JointRef(leftLeg), JointRef(rightLeg)];
    var front := [Color(0.5, 0.5, 0.0), Circle(0.0, -BODY_WIDTH / 2.0, BODY_WIDTH / 2.0)];
    BodyPartsRanked(head, hand, leftLeg, rightLeg);
    assert front + js == BodyParts(head, hand, leftLeg, rightLeg);
    AllRankedEach(js);
    AllRankedEach(front);
    RenderAllConcat(front, js);
    assert front[1..][1..] == [];
    assert RenderAll(front[1..]) == [Draw(Circle2D(0.0, -50.0, 50.0, 90, Polygon))];
    assert RenderAll(front) == [SetColor(0.5, 0.5, 0.0, 1.0), Draw(Circle2D(0.0, -50.0, 50.0, 90, Polygon))];
  }

  /** The mouth joint is the head's last part: its update comes after every other head part's. */
  lemma MouthLast(mouth: Joint)
    requires Ranked(JointRef(mouth))
    ensures Ranked(EntityNode(HeadParts(mouth)))
    ensures var cs := HeadParts(mouth);
            AllRanked(cs[..8]) && cs[8] == JointRef(mouth)
            && Render(EntityNode(cs)) == [PushMatrix] + RenderAll(cs[..8]) + Render(JointRef(mouth)) + [PopMatrix]
  {
    var cs := HeadParts(mouth);
    HeadPartsRanked(mouth);
    AllRankedPrefix(cs, 8);
    assert cs[..8] + [JointRef(mouth)] == cs;
    RenderAllSnoc(cs[..8], JointRef(mouth));
  }

  /**
   * The global penguin entity holds the zoomer, the translator and the body
   * joint; joint_marker's cache is made after the tree, so the tree never
   * reaches it.
   */
  method NewRoot(z: Zoomer, t: Translator, body: Joint) returns (root: Entity, cache: MarkerCache)
    requires Ranked(JointRef(body))
    ensures fresh(root) && fresh(cache)
    ensures root.components == [ZoomerRef(z), TranslatorRef(t), JointRef(body)]
    ensures Ranked(root.Node()) && cache.Valid() && cache !in Objs(root.Node())
  {
    root := new Entity();
    root.AddComponent(ZoomerRef(z));
    root.AddComponent(TranslatorRef(t));
    root.AddComponent(JointRef(body));
    AllRankedEach(root.components);
    ObjsAllocated(root.Node());
    cache := new MarkerCache();
  }

  class Puppet {
    const zoomer: Zoomer
    const translator: Translator
    const bodyJoint: Joint
    const headJoint: Joint
    const handJoint: Joint
    const leftLegJoint: Joint
    const rightLegJoint: Joint
    const leftFeetJoint: Joint
    const rightFeetJoint: Joint
    const mouthJoint: Joint
    /** The global `penguin` entity, the root of the tree. */
    const penguin: Entity
    /** joint_marker's static state. */
    const cache: MarkerCache
    var animationFrame: int
    var animateMode: bool
    /** Whether animate is installed as the idle callback. */
    var animating: bool

    function Joints(): seq<Joint>
    {
      [bodyJoint, headJoint, handJoint, leftLegJoint, rightLegJoint, leftFeetJoint, rightFeetJoint, mouthJoint]
    }

    function Root(): Node
      reads penguin
    {
      penguin.Node()
    }

    predicate Valid()
      reads this, penguin, cache
    {
      && penguin.components == [ZoomerRef(zoomer), TranslatorRef(translator), JointRef(bodyJoint)]
      && Ranked(Root()) && Ranked(JointRef(bodyJoint))
      && cache.Valid()
      && cache !in Objs(Root())
      && Distinct(bodyJoint, headJoint, handJoint, leftLegJoint, rightLegJoint, leftFeetJoint, rightFeetJoint, mouthJoint)
    }

    /** Every handle a spinner drives is within that spinner's clamp range. */
    predicate InSpinnerRange()
      reads zoomer, translator, bodyJoint, headJoint, handJoint, leftLegJoint, rightLegJoint
      reads leftFeetJoint, rightFeetJoint, mouthJoint
    {
      && MIN_SCALE <= zoomer.f <= MAX_SCALE
      && MIN_ROTATION_BODY <= bodyJoint.a <= MAX_ROTATION_BODY
      && MIN_ROTATION_HEAD <= headJoint.a <= MAX_ROTATION_HEAD
      && MIN_ROTATION_HAND <= handJoint.a <= MAX_ROTATION_HAND
      && MIN_ROTATION_LEG <= leftLegJoint.a <= MAX_ROTATION_LEG
      && MIN_ROTATION_LEG <= rightLegJoint.a <= MAX_ROTATION_LEG
      && MIN_ROTATION_FEET <= leftFeetJoint.a <= MAX_ROTATION_FEET
      && MIN_ROTATION_FEET <= rightFeetJoint.a <= MAX_ROTATION_FEET
      && MIN_TRANSLATION_MOUTH <= mouthJoint.y <= MAX_TRANSLATION_MOUTH
      && MIN_TRANSLATION_BODY_Y <= translator.y <= MAX_TRANSLATION_BODY_Y
      && MIN_TRANSLATION_BODY_X <= translator.x <= MAX_TRANSLATION_BODY_X
    }

    /**
     * main: builds the kinematic tree leaves first.  The root updates the
     * zoomer, the translator and the body joint, in that order; the body
     * holds its colour, its circle and then the head, hand and leg joints;
     * the mouth joint is the head's last part; every joint marks its pivot.
     */
    constructor()
      ensures Valid() && InSpinnerRange()
      ensures animationFrame == 0 && !animateMode && !animating
      ensures Root() == EntityNode([ZoomerRef(zoomer), TranslatorRef(translator), JointRef(bodyJoint)])
      ensures Built(bodyJoint, headJoint, handJoint, leftLegJoint, rightLegJoint, leftFeetJoint, rightFeetJoint, mouthJoint)
      ensures zoomer.f == 1.0 && translator.x == 0.0 && translator.y == 0.0
    {
      var bodyJ, headJ, handJ, leftLegJ, rightLegJ, leftFeetJ, rightFeetJ, mouthJ := NewJoints();
      var t := new Translator(0.0, 0.0);
      var z := new Zoomer(1.0);
      var root, c := NewRoot(z, t, bodyJ);

      zoomer := z;
      translator := t;
      bodyJoint := bodyJ;
      headJoint := headJ;
      handJoint := handJ;
      leftLegJoint := leftLegJ;
      rightLegJoint := rightLegJ;
      leftFeetJoint := leftFeetJ;
      rightFeetJoint := rightFeetJ;
      mouthJoint := mouthJ;
      penguin := root;
      cache := c;
      animationFrame := 0;
      animateMode := false;
      animating := false;
    }

    /**
     * animate: moves the translator, the hand, both legs, both feet and the
     * mouth to the blend of their limits for this frame's oscillation `o`,
     * and counts the frame.  The body, head and mouth angles, the zoom factor and
     * every joint's x position are left alone, and every driven handle ends
     * within its spinner range.
     */
    method Animate(o: real)
      requires Valid() && 0.0 <= o <= 1.0
      modifies this, translator, handJoint, leftLegJoint, rightLegJoint, leftFeetJoint, rightFeetJoint, mouthJoint
      ensures Valid()
      ensures translator.x == Blend(o, MIN_TRANSLATION_BODY_X, MAX_TRANSLATION_BODY_X)
      ensures translator.y == Blend(o, MIN_TRANSLATION_BODY_Y, MAX_TRANSLATION_BODY_Y)
      ensures handJoint.a == Blend(o, MIN_ROTATION_HAND, MAX_ROTATION_HAND)
      ensures leftLegJoint.a == Blend(o, MIN_ROTATION_LEG, MAX_ROTATION_LEG)
      ensures rightLegJoint.a == Blend(o, MIN_ROTATION_LEG, MAX_ROTATION_LEG)
      ensures leftFeetJoint.a == Blend(o, MIN_ROTATION_FEET, MAX_ROTATION_FEET)
      ensures rightFeetJoint.a == Blend(o, MIN_ROTATION_FEET, MAX_ROTATION_FEET)
      ensures mouthJoint.y == Blend(o, MIN_TRANSLATION_MOUTH, MAX_TRANSLATION_MOUTH)
      ensures mouthJoint.a == old(mouthJoint.a)
      ensures bodyJoint.a == old(bodyJoint.a) && headJoint.a == old(headJoint.a) && zoomer.f == old(zoomer.f)
      ensures forall k :: 0 <= k < |Joints()| ==> Joints()[k].x == old(Joints()[k].x)
      ensures forall k :: 0 <= k < |Joints()| - 1 ==> Joints()[k].y == old(Joints()[k].y)
      ensures animationFrame == old(animationFrame) + 1
      ensures animateMode == old(animateMode) && animating == old(animating)
      ensures old(InSpinnerRange()) ==> InSpinnerRange()
      ensures MIN_TRANSLATION_BODY_X <= translator.x <= MAX_TRANSLATION_BODY_X
      ensures MIN_ROTATION_FEET <= leftFeetJoint.a <= MAX_ROTATION_FEET
    {
      translator.SetX(Blend(o, MIN_TRANSLATION_BODY_X, MAX_TRANSLATION_BODY_X));
      translator.SetY(Blend(o, MIN_TRANSLATION_BODY_Y, MAX_TRANSLATION_BODY_Y));
      handJoint.SetA(Blend(o, MIN_ROTATION_HAND, MAX_ROTATION_HAND));
      leftLegJoint.SetA(Blend(o, MIN_ROTATION_LEG, MAX_ROTATION_LEG));
      rightLegJoint.SetA(Blend(o, MIN_ROTATION_LEG, MAX_ROTATION_LEG));
      leftFeetJoint.SetA(Blend(o, MIN_ROTATION_FEET, MAX_ROTATION_FEET));
      rightFeetJoint.SetA(Blend(o, MIN_ROTATION_FEET, MAX_ROTATION_FEET));
      mouthJoint.SetY(Blend(o, MIN_TRANSLATION_MOUTH, MAX_TRANSLATION_MOUTH));
      animationFrame := animationFrame + 1;
      BlendWithin(o, MIN_TRANSLATION_BODY_X, MAX_TRANSLATION_BODY_X);
      BlendWithin(o, MIN_TRANSLATION_BODY_Y, MAX_TRANSLATION_BODY_Y);
      BlendWithin(o, MIN_ROTATION_HAND, MAX_ROTATION_HAND);
      BlendWithin(o, MIN_ROTATION_LEG, MAX_ROTATION_LEG);
      BlendWithin(o, MIN_ROTATION_FEET, MAX_ROTATION_FEET);
      BlendWithin(o, MIN_TRANSLATION_MOUTH, MAX_TRANSLATION_MOUTH);
    }

    /** animateButton: restarts the frame count and installs or removes the idle callback. */
    method AnimateButton(mode: bool)
      requires Valid()
      modifies this
      ensures Valid()
      ensures animationFrame == 0 && animateMode == mode && animating == mode
    {
      animateMode := mode;
      animationFrame := 0;
      animating := animateMode;
    }

    /** display: the GL calls of one frame after the matrix reset are the root's update. */
    method Draw() returns (log: seq<Event>)
      requires Valid()
      modifies cache
      ensures Valid()
      ensures log == Render(Root()) && Restores(log)
      ensures log == [PushMatrix, Apply(Scale(zoomer.f, zoomer.f, 1.0)), Apply(Translate(translator.x, translator.y, 0.0))]
                     + Render(JointRef(bodyJoint)) + [PopMatrix]
    {
      log := UpdateNode(penguin.Node(), cache);
      EntityRestores(penguin.components);
      AllRankedEach(penguin.components);
      assert Ranked(penguin.components[2]);
      RootOrder(zoomer, translator, bodyJoint);
    }
  }
}
