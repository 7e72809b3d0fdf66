/**
 * The 3D component algebra: suppliers, the component kinds, the decorator
 * combinators built on wrappers, and the Entity and Wrapper containers.
 *
 * Calling `Update` on a component is modelled by `Effect`: the GL calls it
 * makes (in order) and the program memory it leaves behind.  Program memory
 * holds the cells that pointer and function suppliers read and that
 * function components may write (the colorPenguin flag, the DOFs of the UI
 * state).  The classes `Entity` and `Wrapper` hold their components in
 * sequences that their methods append to; their `Update` methods walk those
 * sequences and are proved to produce exactly `Effect` of the node they form.
 */
module Components3D {
  import opened Wrappers
  import opened Gl
  import opened Seqs

  /** A memory cell: a named global, a function's current result, one DOF of the UI state. */
  datatype Addr = Cell(name: string) | Result(fname: string) | StateDof(index: nat)

  /** Supplier<T>: a constant, the cell a pointer designates, or a function's result. */
  datatype Supplier<T> = Constant(value: T) | Pointer(cell: Addr) | Call(fn: Addr)

  /** Supplier<T>::Get, reading memory as it is at the moment of the call. */
  function Get<T>(s: Supplier<T>, store: Addr -> T): T
  {
    match s
    case Constant(v) => v
    case Pointer(a) => store(a)
    case Call(f) => store(f)
  }

  /** A constant supplier returns its construction value whatever memory holds. */
  lemma ConstantIgnoresStore<T>(v: T, s1: Addr -> T, s2: Addr -> T)
    ensures Get(Constant(v), s1) == v && Get(Constant(v), s2) == v
  {
  }

  /** Memory after writing `v` into cell `a`. */
  function Write<T>(store: Addr -> T, a: Addr, v: T): (r: Addr -> T)
    ensures r(a) == v
    ensures forall b :: b != a ==> r(b) == store(b)
  {
    b => if b == a then v else store(b)
  }

  /** A pointer supplier is read afresh on every Get: it sees the latest write to its cell. */
  lemma PointerSeesLatestWrite<T>(a: Addr, store: Addr -> T, v: T)
    ensures Get(Pointer(a), Write(store, a, v)) == v
    ensures forall b :: b != a ==> Get(Pointer(b), Write(store, a, v)) == store(b)
  {
  }

  /** Program memory: boolean cells and float cells. */
  datatype Env = Env(flags: Addr -> bool, reals: Addr -> real)

  /** The bodies of the function components the program creates. */
  datatype Action =
    | GlPushMatrix
    | GlPopMatrix
    | GlPopAttrib
    | DrawJointMarker
    | SetFlag(target: Addr, flag: bool)

  datatype Component =
    | CuboidNode(x1: real, y1: real, z1: real, x2: real, y2: real, z2: real, mode: Primitive)
    | TranslatableNode(tx: Supplier<real>, ty: Supplier<real>, tz: Supplier<real>)
    | ScalableNode(sx: Supplier<real>, sy: Supplier<real>, sz: Supplier<real>)
    | RotatableNode(rx: Option<Supplier<real>>, ry: Option<Supplier<real>>, rz: Option<Supplier<real>>)
    | NilNode
    | FunctionNode(action: Action)
    | ColorNode(r: real, g: real, b: real, a: real)
    | Conditional(child: Component, cond: Supplier<bool>)
    | PolygonOffsetNode(factor: real, units: real)
    | CapabilityNode(cap: Cap, enable: bool)
    | PolygonModeNode(face: Face, pmode: PolyMode)
    | PushAttributeNode(mask: AttribMask)
    | LightNode(light: nat, lparam: LightParam, lvalues: seq<real>)
    | MaterialfvNode(mface: Face, mparam: MaterialParam, mvalues: seq<real>)
    | MaterialfNode(fface: Face, fparam: MaterialParam, fvalue: real)
    | CircleNode(cx: real, cy: real, cz: real, radius: real)
    | EntityNode(children: seq<Component>)
    | WrapperNode(before: seq<Component>, core: Component, after: seq<Component>)
  {
    /** The kinds whose Update is a fixed list of GL calls and touches no memory. */
    predicate IsLeaf()
    {
      !(FunctionNode? || Conditional? || EntityNode? || WrapperNode?)
    }
  }

  /** What an update did: the GL calls, in order, and the memory afterwards. */
  datatype Outcome = Outcome(log: seq<Event>, env: Env)

  function Perform(act: Action, env: Env): (r: Outcome)
    ensures !act.SetFlag? ==> r.env == env
    ensures act.SetFlag? ==> r.log == [] && r.env == env.(flags := Write(env.flags, act.target, act.flag))
  {
    match act
    case GlPushMatrix => Outcome([PushMatrix], env)
    case GlPopMatrix => Outcome([PopMatrix], env)
    case GlPopAttrib => Outcome([PopAttrib], env)
    case DrawJointMarker => Outcome([SetColor(0.0, 0.0, 0.0, 1.0), Draw(WireSphere(0.05, 10, 10))], env)
    case SetFlag(cell, v) => Outcome([], env.(flags := Write(env.flags, cell, v)))
  }

  function RotationAbout(o: Option<Supplier<real>>, axis: Axis, store: Addr -> real): seq<Event>
  {
    if o.None? then [] else [Apply(Rotate(Get(o.value, store), axis))]
  }

  /**
   * The GL calls of a leaf component, with its suppliers read from `store`:
   * never a matrix push or pop or an attribute pop; at most the three
   * rotations for Rotatable, nothing for the nil component and one call for
   * every other leaf.
   */
  function LeafLog(c: Component, store: Addr -> real): (r: seq<Event>)
    requires c.IsLeaf()
    ensures forall i :: 0 <= i < |r| ==> !r[i].PushMatrix? && !r[i].PopMatrix? && !r[i].PopAttrib?
    ensures c.RotatableNode? ==> |r| <= 3 && forall i :: 0 <= i < |r| ==> r[i].Apply? && r[i].xf.Rotate?
    ensures !c.RotatableNode? ==> |r| == if c.NilNode? then 0 else 1
  {
    if c.RotatableNode? then
      RotationAboutShape(c.rz, ZAxis, store);
      RotationAboutShape(c.rx, XAxis, store);
      RotationAboutShape(c.ry, YAxis, store);
      RotationAbout(c.rz, ZAxis, store) + RotationAbout(c.rx, XAxis, store) + RotationAbout(c.ry, YAxis, store)
    else if c.NilNode? then []
    else [LeafEvent(c, store)]
  }

  /** The one GL call of a leaf component other than a rotation or the nil component. */
  function LeafEvent(c: Component, store: Addr -> real): Event
    requires c.IsLeaf() && !c.RotatableNode? && !c.NilNode?
  {
    match c
    case CuboidNode(x1, y1, z1, x2, y2, z2, mode) => Draw(Cuboid(x1, y1, z1, x2, y2, z2, mode))
    case TranslatableNode(x, y, z) => Apply(Translate(Get(x, store), Get(y, store), Get(z, store)))
    case ScalableNode(x, y, z) => Apply(Scale(Get(x, store), Get(y, store), Get(z, store)))
    case ColorNode(r, g, b, a) => SetColor(r, g, b, a)
    case PolygonOffsetNode(f, u) => PolygonOffset(f, u)
    case CapabilityNode(cap, en) => if en then Enable(cap) else Disable(cap)
    case PolygonModeNode(face, mode) => PolygonModeSet(face, mode)
    case PushAttributeNode(mask) => PushAttrib(mask)
    case LightNode(light, p, vs) => Light(light, p, vs)
    case MaterialfvNode(face, p, vs) => Material(face, p, vs)
    case MaterialfNode(face, p, v) => Material(face, p, [v])
    case CircleNode(x, y, z, rad) => Draw(Disc(x, y, z, rad))
  }

  /**
   * Component::Update.  Only function components write memory, and only
   * its flags: the float cells are never written, and a leaf leaves memory
   * as it found it.
   */
  function Effect(c: Component, env: Env): (r: Outcome)
    ensures r.env.reals == env.reals
    ensures c.IsLeaf() ==> r.env == env
    decreases c
  {
    if c.FunctionNode? then Perform(c.action, env)
    else if c.Conditional? then
      if Get(c.cond, env.flags) then Effect(c.child, env) else Outcome([], env)
    else if c.EntityNode? then
      var r := EffectAll(c.children, env);
      Outcome([PushMatrix] + r.log + [PopMatrix], r.env)
    else if c.WrapperNode? then
      var r1 := EffectAll(c.before, env);
      var r2 := Effect(c.core, r1.env);
      var r3 := EffectAll(c.after, r2.env);
      Outcome(r1.log + r2.log + r3.log, r3.env)
    else Outcome(LeafLog(c, env.reals), env)
  }

  /**
   * Updating a sequence of components in order, each on the memory the
   * previous left: the float cells are never written, and a list of leaves
   * leaves memory as it found it.
   */
  function EffectAll(cs: seq<Component>, env: Env): (r: Outcome)
    ensures r.env.reals == env.reals
    ensures (forall i :: 0 <= i < |cs| ==> cs[i].IsLeaf()) ==> r.env == env
    decreases cs
  {
    if cs == [] then Outcome([], env)
    else
      var r1 := Effect(cs[0], env);
      var r2 := EffectAll(cs[1..], r1.env);
      Outcome(r1.log + r2.log, r2.env)
  }

  /** Updating the components from position k on is updating the k-th, then the rest. */
  lemma EffectFrom(cs: seq<Component>, k: nat, env: Env)
    requires k < |cs|
    ensures EffectAll(cs[k..], env)
      == Outcome(Effect(cs[k], env).log + EffectAll(cs[k + 1..], Effect(cs[k], env).env).log,
                 EffectAll(cs[k + 1..], Effect(cs[k], env).env).env)
  {
    assert cs[k..][0] == cs[k];
    assert cs[k..][1..] == cs[k + 1..];
  }

  // ---------------------------------------------------------------------
  // Factories and combinators (Component::wrap, enableDisable, attach, ...)
  // ---------------------------------------------------------------------

  /** Component::wrap: a fresh wrapper around the component, both lists empty. */
  function Wrap(c: Component): (w: Component)
    ensures w.WrapperNode? && w.core == c && w.before == [] && w.after == []
  {
    WrapperNode([], c, [])
  }

  /** Wrapper::operator<< on a wrapper value. */
  function Prev(w: Component, c: Component): (r: Component)
    requires w.WrapperNode?
    ensures r.WrapperNode? && r.before == w.before + [c] && r.core == w.core && r.after == w.after
  {
    w.(before := w.before + [c])
  }

  /** Wrapper::operator>> on a wrapper value. */
  function Next(w: Component, c: Component): (r: Component)
    requires w.WrapperNode?
    ensures r.WrapperNode? && r.after == w.after + [c] && r.core == w.core && r.before == w.before
  {
    w.(after := w.after + [c])
  }

  function PushMatrixComponent(): Component { FunctionNode(GlPushMatrix) }
  function PopMatrixComponent(): Component { FunctionNode(GlPopMatrix) }
  function PopAttribComponent(): Component { FunctionNode(GlPopAttrib) }
  function EnableComponent(cap: Cap): Component { CapabilityNode(cap, true) }
  function DisableComponent(cap: Cap): Component { CapabilityNode(cap, false) }

  /** Component::cuboid(width, height, depth): centred on the origin, GL_QUADS. */
  function CentredCuboid(width: real, height: real, depth: real): (c: Component)
    ensures c.CuboidNode? && c.mode == Quads
    ensures c.x2 - c.x1 == width && c.y2 - c.y1 == height && c.z2 - c.z1 == depth
    ensures c.x1 + c.x2 == 0.0 && c.y1 + c.y2 == 0.0 && c.z1 + c.z2 == 0.0
  {
    CuboidNode(-width / 2.0, -height / 2.0, -depth / 2.0, width / 2.0, height / 2.0, depth / 2.0, Quads)
  }

  /** Component::enableDisable(cap): a wrapper enabling cap before c and disabling it after. */
  function EnableDisable(c: Component, cap: Cap): (r: Component)
    ensures r == WrapperNode([EnableComponent(cap)], c, [DisableComponent(cap)])
  {
    Next(Prev(Wrap(c), EnableComponent(cap)), DisableComponent(cap))
  }

  /** Component::pushPopAttribute(mask): a wrapper pushing the attributes before c and popping them after. */
  function PushPopAttribute(c: Component, mask: AttribMask): (r: Component)
    ensures r == WrapperNode([PushAttributeNode(mask)], c, [PopAttribComponent()])
  {
    Next(Prev(Wrap(c), PushAttributeNode(mask)), PopAttribComponent())
  }

  /** markJoint(draw_joint): a black wire sphere inside a colour-attribute bracket, or nothing. */
  function MarkJoint(drawJoint: bool): (r: Component)
    ensures drawJoint ==> r == WrapperNode([PushAttributeNode(ColorBufferBit)], FunctionNode(DrawJointMarker),
                                           [PopAttribComponent()])
    ensures !drawJoint ==> r == NilNode
  {
    if drawJoint then PushPopAttribute(FunctionNode(DrawJointMarker), ColorBufferBit) else NilNode
  }

  /** Component::translate(x, y, z): a translation by constants. */
  function TranslateBy(x: real, y: real, z: real): Component
  {
    TranslatableNode(Constant(x), Constant(y), Constant(z))
  }

  /**
   * Component::attach(x, y, z, draw_joint): the two `<<` calls put the
   * matrix push and the translation before c, the two `>>` calls the marker
   * and the matrix pop after it, in that order.
   */
  function Attach(c: Component, x: real, y: real, z: real, drawJoint: bool): (r: Component)
    ensures r == WrapperNode([PushMatrixComponent(), TranslateBy(x, y, z)], c,
                             [MarkJoint(drawJoint), PopMatrixComponent()])
  {
    Next(Next(Prev(Prev(Wrap(c), PushMatrixComponent()), TranslateBy(x, y, z)),
              MarkJoint(drawJoint)),
         PopMatrixComponent())
  }

  /** Component::onlyWhen(Supplier<bool>*). */
  function OnlyWhen(c: Component, cond: Supplier<bool>): Component
  {
    Conditional(c, cond)
  }

  /** Component::onlyWhen(bool*): a pointer supplier on the cell. */
  function OnlyWhenCell(c: Component, cell: Addr): Component
  {
    OnlyWhen(c, Pointer(cell))
  }

  /**
   * Component::polyOffset(factor, units, cond): the conditional
   * glPolygonOffset first in a wrapper around c, all of it inside
   * enableDisable(GL_POLYGON_OFFSET_FILL).
   */
  function PolyOffset(c: Component, factor: real, units: real, cond: Addr): (r: Component)
    ensures r == WrapperNode([EnableComponent(PolygonOffsetFill)],
                             WrapperNode([Conditional(PolygonOffsetNode(factor, units), Pointer(cond))], c, []),
                             [DisableComponent(PolygonOffsetFill)])
  {
    EnableDisable(Prev(Wrap(c), OnlyWhenCell(PolygonOffsetNode(factor, units), cond)),
                  PolygonOffsetFill)
  }

  /** Component::rotate(x, y, z): constant angles, with no supplier for an angle of zero. */
  function RotateBy(x: real, y: real, z: real): (r: Component)
    ensures r.RotatableNode?
    ensures (r.rx.Some? <==> x != 0.0) && (r.rx.Some? ==> r.rx.value == Constant(x))
    ensures (r.ry.Some? <==> y != 0.0) && (r.ry.Some? ==> r.ry.value == Constant(y))
    ensures (r.rz.Some? <==> z != 0.0) && (r.rz.Some? ==> r.rz.value == Constant(z))
  {
    RotatableNode(if x != 0.0 then Some(Constant(x)) else None,
                  if y != 0.0 then Some(Constant(y)) else None,
                  if z != 0.0 then Some(Constant(z)) else None)
  }

  /** The Scalable constructor: a missing supplier becomes the constant 1. */
  function Scalable(x: Option<Supplier<real>>, y: Option<Supplier<real>>, z: Option<Supplier<real>>): (r: Component)
    ensures r.ScalableNode?
    ensures (x.None? ==> r.sx == Constant(1.0)) && (x.Some? ==> r.sx == x.value)
    ensures (y.None? ==> r.sy == Constant(1.0)) && (y.Some? ==> r.sy == y.value)
    ensures (z.None? ==> r.sz == Constant(1.0)) && (z.Some? ==> r.sz == z.value)
  {
    ScalableNode(x.GetOr(Constant(1.0)), y.GetOr(Constant(1.0)), z.GetOr(Constant(1.0)))
  }

  // ---------------------------------------------------------------------
  // What the combinators do
  // ---------------------------------------------------------------------

  lemma EffectSingle(c: Component, env: Env)
    ensures EffectAll([c], env) == Effect(c, env)
  {
    assert [c][0] == c && [c][1..] == [];
  }

  lemma EffectPair(c1: Component, c2: Component, env: Env)
    ensures EffectAll([c1, c2], env)
      == Outcome(Effect(c1, env).log + Effect(c2, Effect(c1, env).env).log,
                 Effect(c2, Effect(c1, env).env).env)
  {
    assert [c1, c2][0] == c1 && [c1, c2][1..] == [c2];
    EffectSingle(c2, Effect(c1, env).env);
  }

  /** Updating `[c] + cs` is updating `c`, then `cs` on the memory `c` left. */
  lemma EffectCons(c: Component, cs: seq<Component>, env: Env)
    ensures EffectAll([c] + cs, env)
      == Outcome(Effect(c, env).log + EffectAll(cs, Effect(c, env).env).log,
                 EffectAll(cs, Effect(c, env).env).env)
  {
    assert ([c] + cs)[0] == c;
    assert ([c] + cs)[1..] == cs;
  }

  /** Updating `[c] + cs` when the updates of `c` and of `cs` are known. */
  lemma EffectConsOf(c: Component, cs: seq<Component>, env: Env, l: seq<Event>, env1: Env, ls: seq<Event>, env2: Env)
    requires Effect(c, env) == Outcome(l, env1)
    requires EffectAll(cs, env1) == Outcome(ls, env2)
    ensures EffectAll([c] + cs, env) == Outcome(l + ls, env2)
  {
    EffectCons(c, cs, env);
  }

  /** A wrapper whose parts' updates are known. */
  lemma WrapperOf(b: seq<Component>, k: Component, af: seq<Component>, env: Env,
                  lb: seq<Event>, e1: Env, lk: seq<Event>, e2: Env, la: seq<Event>, e3: Env)
    requires EffectAll(b, env) == Outcome(lb, e1)
    requires Effect(k, e1) == Outcome(lk, e2)
    requires EffectAll(af, e2) == Outcome(la, e3)
    ensures Effect(WrapperNode(b, k, af), env) == Outcome(lb + lk + la, e3)
  {
    WrapperLog(b, k, af, env);
  }

  /** Effect of a wrapper with one-element lists, stated without unfolding the lists. */
  lemma WrapOneOne(b: Component, k: Component, af: Component, env: Env)
    ensures Effect(WrapperNode([b], k, [af]), env)
      == Outcome(Effect(b, env).log + Effect(k, Effect(b, env).env).log
                 + Effect(af, Effect(k, Effect(b, env).env).env).log,
                 Effect(af, Effect(k, Effect(b, env).env).env).env)
  {
    var r1 := Effect(b, env);
    var r2 := Effect(k, r1.env);
    WrapperLog([b], k, [af], env);
    EffectSingle(b, env);
    EffectSingle(af, r2.env);
  }

  /**
   * A wrapper whose before- and after-component each make a fixed list of
   * calls and leave memory alone: those calls around the core's.
   */
  lemma WrapAround(b: Component, k: Component, af: Component, env: Env, pre: seq<Event>, post: seq<Event>)
    requires Effect(b, env) == Outcome(pre, env)
    requires Effect(af, Effect(k, env).env) == Outcome(post, Effect(k, env).env)
    ensures Effect(WrapperNode([b], k, [af]), env) == Outcome(pre + Effect(k, env).log + post, Effect(k, env).env)
  {
    WrapOneOne(b, k, af, env);
  }

  /**
   * Wrapper::Update does no matrix call of its own: it is stack-neutral when
   * its before-list, core and after-list are, each run on the memory the
   * previous part left.
   */
  lemma WrapperNeutral(b: seq<Component>, k: Component, af: seq<Component>, env: Env)
    requires Neutral(EffectAll(b, env).log)
    requires Neutral(Effect(k, EffectAll(b, env).env).log)
    requires Neutral(EffectAll(af, Effect(k, EffectAll(b, env).env).env).log)
    ensures Neutral(Effect(WrapperNode(b, k, af), env).log)
  {
    var r1 := EffectAll(b, env);
    var r2 := Effect(k, r1.env);
    var r3 := EffectAll(af, r2.env);
    NeutralConcat(r1.log, r2.log);
    NeutralConcat(r1.log + r2.log, r3.log);
  }

  /**
   * Entity::Update saves the matrix, updates the children in order and
   * restores it: if the children together are stack-neutral, the Entity
   * gives back the matrix state it found.
   */
  lemma EntityRestores(ch: seq<Component>, env: Env)
    requires Neutral(EffectAll(ch, env).log)
    ensures Restores(Effect(EntityNode(ch), env).log)
  {
    MatrixBracketRestores(EffectAll(ch, env).log);
  }

  /** The marker attach draws when asked: a black wire sphere inside a colour-attribute bracket. */
  function MarkerLog(drawJoint: bool): seq<Event>
  {
    if drawJoint then [PushAttrib(ColorBufferBit), SetColor(0.0, 0.0, 0.0, 1.0),
                       Draw(WireSphere(0.05, 10, 10)), PopAttrib]
    else []
  }

  lemma MarkJointLog(d: bool, env: Env)
    ensures Effect(MarkJoint(d), env) == Outcome(MarkerLog(d), env)
  {
    if d {
      WrapOneOne(PushAttributeNode(ColorBufferBit), FunctionNode(DrawJointMarker), PopAttribComponent(), env);
    }
  }

  /**
   * attach(x, y, z, d): save the matrix, translate, update the component,
   * draw the marker iff d, restore.
   */
  lemma {:induction false} AttachLog(c: Component, x: real, y: real, z: real, d: bool, env: Env)
    ensures Effect(Attach(c, x, y, z, d), env)
      == Outcome([PushMatrix, Apply(Translate(x, y, z))] + Effect(c, env).log
                 + MarkerLog(d) + [PopMatrix], Effect(c, env).env)
  {
    var b := [PushMatrixComponent(), TranslateBy(x, y, z)];
    var af := [MarkJoint(d), PopMatrixComponent()];
    assert Attach(c, x, y, z, d) == WrapperNode(b, c, af);
    var r2 := Effect(c, env);
    assert EffectAll(b, env) == Outcome([PushMatrix, Apply(Translate(x, y, z))], env) by {
      EffectPair(b[0], b[1], env);
    }
    assert EffectAll(af, r2.env) == Outcome(MarkerLog(d) + [PopMatrix], r2.env) by {
      MarkJointLog(d, r2.env);
      EffectPair(af[0], af[1], r2.env);
    }
    WrapperLog(b, c, af, env);
    Assoc([PushMatrix, Apply(Translate(x, y, z))] + r2.log, MarkerLog(d), [PopMatrix]);
  }

  /** Wrapper::Update, stated once: the before-list, the core on what it left, the after-list. */
  lemma WrapperLog(b: seq<Component>, k: Component, af: seq<Component>, env: Env)
    ensures var r1 := EffectAll(b, env);
      var r2 := Effect(k, r1.env);
      var r3 := EffectAll(af, r2.env);
      Effect(WrapperNode(b, k, af), env) == Outcome(r1.log + r2.log + r3.log, r3.env)
  {
  }

  lemma MarkerRestores(d: bool)
    ensures Restores(MarkerLog(d)) && Neutral(MarkerLog(d))
  {
    if d {
      var body := [SetColor(0.0, 0.0, 0.0, 1.0), Draw(WireSphere(0.05, 10, 10))];
      InertRestores(body);
      AttribBracket(ColorBufferBit, body);
      assert MarkerLog(d) == [PushAttrib(ColorBufferBit)] + body + [PopAttrib];
    } else {
      InertRestores(MarkerLog(d));
    }
  }

  /** If the attached component is stack-neutral, attach gives back the whole matrix state. */
  lemma AttachRestores(c: Component, x: real, y: real, z: real, d: bool, env: Env)
    requires Neutral(Effect(c, env).log)
    ensures Restores(Effect(Attach(c, x, y, z, d), env).log)
  {
    AttachLog(c, x, y, z, d, env);
    var t := [Apply(Translate(x, y, z))];
    ApplyNeutral(Translate(x, y, z));
    NeutralConcat(t, Effect(c, env).log);
    MarkerRestores(d);
    NeutralConcat(t + Effect(c, env).log, MarkerLog(d));
    MatrixBracketRestores(t + Effect(c, env).log + MarkerLog(d));
    BracketShape(Apply(Translate(x, y, z)), Effect(c, env).log, MarkerLog(d));
  }

  /** attach emits no rotation of its own: every rotation in its log is the component's. */
  lemma AttachAddsNoRotation(c: Component, x: real, y: real, z: real, d: bool, env: Env)
    ensures forall e ::
              e in Effect(Attach(c, x, y, z, d), env).log && e.Apply? && e.xf.Rotate?
              ==> e in Effect(c, env).log
  {
    AttachLog(c, x, y, z, d, env);
  }

  lemma CapabilityLog(cap: Cap, en: bool, env: Env)
    ensures Effect(CapabilityNode(cap, en), env) == Outcome(if en then [Enable(cap)] else [Disable(cap)], env)
  {
  }

  lemma AttribLog(mask: AttribMask, env: Env)
    ensures Effect(PushAttributeNode(mask), env) == Outcome([PushAttrib(mask)], env)
    ensures Effect(PopAttribComponent(), env) == Outcome([PopAttrib], env)
  {
  }

  /** enableDisable(cap): Enable(cap), the component, Disable(cap). */
  lemma EnableDisableLog(c: Component, cap: Cap, env: Env)
    ensures Effect(EnableDisable(c, cap), env)
      == Outcome([Enable(cap)] + Effect(c, env).log + [Disable(cap)], Effect(c, env).env)
  {
    assert EnableDisable(c, cap) == WrapperNode([EnableComponent(cap)], c, [DisableComponent(cap)]);
    var r := Effect(c, env);
    CapabilityLog(cap, true, env);
    CapabilityLog(cap, false, r.env);
    WrapAround(EnableComponent(cap), c, DisableComponent(cap), env, [Enable(cap)], [Disable(cap)]);
  }

  /** enableDisable keeps a stack-neutral component neutral and leaves the capability disabled. */
  lemma EnableDisableNeutral(c: Component, cap: Cap, env: Env)
    requires Neutral(Effect(c, env).log)
    ensures Neutral(Effect(EnableDisable(c, cap), env).log)
    ensures var log := Effect(EnableDisable(c, cap), env).log; |log| > 0 && log[|log| - 1] == Disable(cap)
  {
    EnableDisableLog(c, cap, env);
    InertRestores([Enable(cap)]);
    InertRestores([Disable(cap)]);
    NeutralConcat([Enable(cap)], Effect(c, env).log);
    NeutralConcat([Enable(cap)] + Effect(c, env).log, [Disable(cap)]);
  }

  /** pushPopAttribute(mask): PushAttrib(mask), the component, PopAttrib. */
  lemma PushPopAttributeLog(c: Component, mask: AttribMask, env: Env)
    ensures Effect(PushPopAttribute(c, mask), env)
      == Outcome([PushAttrib(mask)] + Effect(c, env).log + [PopAttrib], Effect(c, env).env)
  {
    assert PushPopAttribute(c, mask) == WrapperNode([PushAttributeNode(mask)], c, [PopAttribComponent()]);
    var r := Effect(c, env);
    AttribLog(mask, env);
    AttribLog(mask, r.env);
    WrapAround(PushAttributeNode(mask), c, PopAttribComponent(), env, [PushAttrib(mask)], [PopAttrib]);
  }

  /**
   * pushPopAttribute leaves the attribute stack balanced around a neutral
   * component, and on the stacks behaves exactly like the component alone.
   */
  lemma PushPopAttributeBalanced(c: Component, mask: AttribMask, env: Env)
    requires Neutral(Effect(c, env).log)
    ensures Neutral(Effect(PushPopAttribute(c, mask), env).log)
    ensures forall m: Machine :: Run(Effect(PushPopAttribute(c, mask), env).log, m) == Run(Effect(c, env).log, m)
  {
    PushPopAttributeLog(c, mask, env);
    AttribBracket(mask, Effect(c, env).log);
  }

  /** ConditionalComponent reads its condition once, on entry, and updates the child iff it holds. */
  lemma OnlyWhenLog(c: Component, cond: Supplier<bool>, env: Env)
    ensures Get(cond, env.flags) ==> Effect(OnlyWhen(c, cond), env) == Effect(c, env)
    ensures !Get(cond, env.flags) ==> Effect(OnlyWhen(c, cond), env) == Outcome([], env)
  {
  }

  /**
   * polyOffset(factor, units, cond): the polygon-offset capability is always
   * enabled before and disabled after; only the glPolygonOffset call depends
   * on *cond, read before the component runs.
   */
  lemma PolyOffsetLog(c: Component, f: real, u: real, cond: Addr, env: Env)
    ensures Effect(PolyOffset(c, f, u, cond), env)
      == Outcome([Enable(PolygonOffsetFill)]
                 + (if env.flags(cond) then [PolygonOffset(f, u)] else [])
                 + Effect(c, env).log + [Disable(PolygonOffsetFill)], Effect(c, env).env)
  {
    var g := OnlyWhenCell(PolygonOffsetNode(f, u), cond);
    var inner := WrapperNode([g], c, []);
    assert PolyOffset(c, f, u, cond) == EnableDisable(inner, PolygonOffsetFill);
    var gl := if env.flags(cond) then [PolygonOffset(f, u)] else [];
    assert Effect(g, env) == Outcome(gl, env);
    WrapBeforeOne(g, c, env);
    EnableDisableLog(inner, PolygonOffsetFill, env);
    Assoc([Enable(PolygonOffsetFill)], gl, Effect(c, env).log);
  }

  /** A wrapper with one component before its core and none after. */
  lemma WrapBeforeOne(b: Component, k: Component, env: Env)
    ensures Effect(WrapperNode([b], k, []), env)
      == Outcome(Effect(b, env).log + Effect(k, Effect(b, env).env).log, Effect(k, Effect(b, env).env).env)
  {
    EffectSingle(b, env);
  }

  /** Rotatable: Z first, then X, then Y; an axis without a supplier is not rotated about. */
  lemma RotatableOrder(x: Option<Supplier<real>>, y: Option<Supplier<real>>, z: Option<Supplier<real>>, env: Env)
    ensures var log := Effect(RotatableNode(x, y, z), env).log;
      && |log| == (if z.Some? then 1 else 0) + (if x.Some? then 1 else 0) + (if y.Some? then 1 else 0)
      && (forall e :: e in log ==> e.Apply? && e.xf.Rotate?)
      && (z.Some? ==> log[0] == Apply(Rotate(Get(z.value, env.reals), ZAxis)))
      && (y.Some? ==> log[|log| - 1] == Apply(Rotate(Get(y.value, env.reals), YAxis)))
      && (x.Some? ==> Apply(Rotate(Get(x.value, env.reals), XAxis)) in log)
      && (x.None? ==> forall e :: e in log ==> e.xf.axis != XAxis)
      && (y.None? ==> forall e :: e in log ==> e.xf.axis != YAxis)
      && (z.None? ==> forall e :: e in log ==> e.xf.axis != ZAxis)
      && Effect(RotatableNode(x, y, z), env).env == env
  {
    var rz := RotationAbout(z, ZAxis, env.reals);
    var rx := RotationAbout(x, XAxis, env.reals);
    var ry := RotationAbout(y, YAxis, env.reals);
    assert Effect(RotatableNode(x, y, z), env) == Outcome(rz + rx + ry, env);
    RotationsShape(x, y, z, env.reals);
  }

  /** The three optional rotations in the order Rotatable applies them. */
  lemma RotationsShape(x: Option<Supplier<real>>, y: Option<Supplier<real>>, z: Option<Supplier<real>>, store: Addr -> real)
    ensures var log := RotationAbout(z, ZAxis, store) + RotationAbout(x, XAxis, store) + RotationAbout(y, YAxis, store);
      && |log| == (if z.Some? then 1 else 0) + (if x.Some? then 1 else 0) + (if y.Some? then 1 else 0)
      && (forall e :: e in log ==> e.Apply? && e.xf.Rotate?)
      && (z.Some? ==> log[0] == Apply(Rotate(Get(z.value, store), ZAxis)))
      && (y.Some? ==> log[|log| - 1] == Apply(Rotate(Get(y.value, store), YAxis)))
      && (x.Some? ==> Apply(Rotate(Get(x.value, store), XAxis)) in log)
      && (x.None? ==> forall e :: e in log ==> e.xf.axis != XAxis)
      && (y.None? ==> forall e :: e in log ==> e.xf.axis != YAxis)
      && (z.None? ==> forall e :: e in log ==> e.xf.axis != ZAxis)
  {
    RotationAboutShape(z, ZAxis, store);
    RotationAboutShape(x, XAxis, store);
    RotationAboutShape(y, YAxis, store);
  }

  lemma RotationAboutShape(o: Option<Supplier<real>>, axis: Axis, store: Addr -> real)
    ensures |RotationAbout(o, axis, store)| == if o.Some? then 1 else 0
    ensures forall e :: e in RotationAbout(o, axis, store) ==> e.Apply? && e.xf.Rotate? && e.xf.axis == axis
    ensures o.Some? ==> RotationAbout(o, axis, store)[0] == Apply(Rotate(Get(o.value, store), axis))
  {
  }

  /** Component::rotate: exactly the non-zero angles are applied, Z then X then Y. */
  lemma RotateBySkipsZero(x: real, y: real, z: real, env: Env)
    ensures Effect(RotateBy(x, y, z), env).log
      == (if z != 0.0 then [Apply(Rotate(z, ZAxis))] else [])
       + (if x != 0.0 then [Apply(Rotate(x, XAxis))] else [])
       + (if y != 0.0 then [Apply(Rotate(y, YAxis))] else [])
  {
  }

  /** Scalable: a missing supplier scales its axis by 1, that is, leaves it alone. */
  lemma ScalableDefaultsToOne(x: Option<Supplier<real>>, y: Option<Supplier<real>>, z: Option<Supplier<real>>, env: Env)
    ensures var log := Effect(Scalable(x, y, z), env).log;
      && |log| == 1 && log[0].Apply? && log[0].xf.Scale?
      && (x.None? ==> log[0].xf.x == 1.0) && (x.Some? ==> log[0].xf.x == Get(x.value, env.reals))
      && (y.None? ==> log[0].xf.y == 1.0) && (y.Some? ==> log[0].xf.y == Get(y.value, env.reals))
      && (z.None? ==> log[0].xf.z == 1.0) && (z.Some? ==> log[0].xf.z == Get(z.value, env.reals))
  {
  }

  // ---------------------------------------------------------------------
  // The containers
  // ---------------------------------------------------------------------

  /** The GL log so far and program memory: the state every Update works on. */
  class Context {
    var log: seq<Event>
    var env: Env

    constructor (env: Env)
      ensures log == [] && this.env == env
    {
      log := [];
      this.env := env;
    }
  }

  /** The for-loop both containers use: update each component in turn. */
  method UpdateEach(cs: seq<Component>, ctx: Context)
    modifies ctx
    ensures ctx.log == old(ctx.log) + EffectAll(cs, old(ctx.env)).log
    ensures ctx.env == EffectAll(cs, old(ctx.env)).env
  {
    var log0, env0 := ctx.log, ctx.env;
    ghost var total := EffectAll(cs, env0);
    assert cs[0..] == cs;
    for k := 0 to |cs|
      invariant ctx.log + EffectAll(cs[k..], ctx.env).log == log0 + total.log
      invariant EffectAll(cs[k..], ctx.env).env == total.env
    {
      var r := Effect(cs[k], ctx.env);
      EffectFrom(cs, k, ctx.env);
      ghost var rest := EffectAll(cs[k + 1..], r.env);
      assert ctx.log + (r.log + rest.log) == (ctx.log + r.log) + rest.log;
      ctx.log := ctx.log + r.log;
      ctx.env := r.env;
    }
    assert cs[|cs|..] == [];
  }

  /** Entity: updates its components in insertion order between a matrix save and restore. */
  class Entity {
    var components: seq<Component>

    constructor ()
      ensures components == []
    {
      components := [];
    }

    function Node(): Component
      reads this
    {
      EntityNode(components)
    }

    /** Entity::AddComponent: appended last, so updated last. */
    method AddComponent(c: Component)
      modifies this
      ensures components == old(components) + [c]
    {
      components := components + [c];
    }

    /** Entity::~Entity frees every component it was given, in insertion order. */
    method Destroy() returns (freed: seq<Component>)
      ensures freed == components
    {
      freed := [];
      for k := 0 to |components|
        invariant freed == components[..k]
      {
        freed := freed + [components[k]];
      }
    }

    /** Entity::Update. */
    method Update(ctx: Context)
      modifies ctx
      ensures ctx.log == old(ctx.log) + Effect(Node(), old(ctx.env)).log
      ensures ctx.env == Effect(Node(), old(ctx.env)).env
    {
      ctx.log := ctx.log + [PushMatrix];
      UpdateEach(components, ctx);
      ctx.log := ctx.log + [PopMatrix];
    }
  }

  /**
   * Wrapper: updates the before-list, the wrapped core, then the after-list.
   * It owns the two lists but not the core.
   */
  class Wrapper {
    var before: seq<Component>
    const core: Component
    var after: seq<Component>

    /** Wrapper(component): both lists empty. */
    constructor (core: Component)
      ensures this.core == core && before == [] && after == []
      ensures Node() == Wrap(core)
    {
      this.core := core;
      before := [];
      after := [];
    }

    function Node(): Component
      reads this
    {
      WrapperNode(before, core, after)
    }

    method AddPrev(c: Component)
      modifies this
      ensures before == old(before) + [c] && after == old(after)
      ensures Node() == Prev(old(Node()), c)
    {
      before := before + [c];
    }

    method AddNext(c: Component)
      modifies this
      ensures after == old(after) + [c] && before == old(before)
      ensures Node() == Next(old(Node()), c)
    {
      after := after + [c];
    }

    /** operator<<: AddPrev, returning the same wrapper for chaining. */
    method LeftShift(c: Component) returns (w: Wrapper)
      modifies this
      ensures w == this
      ensures before == old(before) + [c] && after == old(after)
    {
      AddPrev(c);
      w := this;
    }

    /** operator>>: AddNext, returning the same wrapper for chaining. */
    method RightShift(c: Component) returns (w: Wrapper)
      modifies this
      ensures w == this
      ensures after == old(after) + [c] && before == old(before)
    {
      AddNext(c);
      w := this;
    }

    /** Wrapper::~Wrapper frees the before- and after-lists; the core is left alone. */
    method Destroy() returns (freed: seq<Component>)
      ensures freed == before + after
    {
      freed := [];
      for k := 0 to |before|
        invariant freed == before[..k]
      {
        freed := freed + [before[k]];
      }
      for k := 0 to |after|
        invariant freed == before + after[..k]
      {
        freed := freed + [after[k]];
      }
    }

    /** Wrapper::Update. */
    method Update(ctx: Context)
      modifies ctx
      ensures ctx.log == old(ctx.log) + Effect(Node(), old(ctx.env)).log
      ensures ctx.env == Effect(Node(), old(ctx.env)).env
    {
      ghost var log0, env0 := ctx.log, ctx.env;
      WrapperLog(before, core, after, env0);
      UpdateEach(before, ctx);
      var r := Effect(core, ctx.env);
      ctx.log := ctx.log + r.log;
      ctx.env := r.env;
      ghost var mid := ctx.log;
      UpdateEach(after, ctx);
      ghost var r1 := EffectAll(before, env0);
      ghost var r3 := EffectAll(after, r.env);
      Assoc(log0, r1.log, r.log);
      Assoc(log0, r1.log + r.log, r3.log);
    }
  }
}
