/**
 * The fixed-function GL, as far as the penguin components talk to it.
 *
 * A component's `Update` is modelled as the sequence of GL calls it makes
 * (a log of `Event`s).  The matrix stack and the attribute stack are given
 * a meaning by the small machine `Run`: the current modelview matrix is the
 * sequence of transforms multiplied onto it since the last reset, `PushMatrix`
 * saves a copy, `PopMatrix` restores the last saved copy, and the attribute
 * stack is tracked by its depth.  Popping an empty stack is a failure
 * (`None`).  Every other call leaves both stacks alone.
 */
module Gl {
  import opened Wrappers

  datatype Axis = XAxis | YAxis | ZAxis

  /** A transform multiplied onto the current matrix (glTranslatef, glRotatef, glScalef). */
  datatype Xform =
    | Translate(x: real, y: real, z: real)
    | Rotate(angle: real, axis: Axis)
    | Scale(x: real, y: real, z: real)

  /** The capabilities the program enables and disables. */
  datatype Cap = Lighting | Light0 | ColorMaterial | PolygonOffsetFill | DepthTest | Normalize

  /** Attribute groups passed to glPushAttrib. */
  datatype AttribMask = ColorBufferBit

  datatype Face = Front | Back | FrontAndBack
  datatype PolyMode = PointMode | LineMode | FillMode
  datatype Primitive = Polygon | LineLoop | Quads | Lines

  datatype LightParam = Position | Ambient | Diffuse | Specular
  datatype MaterialParam = MatAmbient | MatDiffuse | MatAmbientAndDiffuse | MatSpecular | Shininess

  /** Geometry whose vertex arithmetic (sin/cos, float steps) is not modelled. */
  datatype Shape =
    | Cuboid(x1: real, y1: real, z1: real, x2: real, y2: real, z2: real, mode: Primitive)
    | Disc(cx: real, cy: real, cz: real, radius: real)
    | WireSphere(radius: real, slices: nat, stacks: nat)
    | Circle2D(ox: real, oy: real, r: real, smoothness: int, mode: Primitive)

  /** One GL call. */
  datatype Event =
    | PushMatrix
    | PopMatrix
    | Apply(xf: Xform)
    | PushAttrib(mask: AttribMask)
    | PopAttrib
    | Enable(cap: Cap)
    | Disable(cap: Cap)
    | SetColor(r: real, g: real, b: real, a: real)
    | PolygonOffset(factor: real, units: real)
    | PolygonModeSet(face: Face, mode: PolyMode)
    | Light(index: nat, pname: LightParam, params: seq<real>)
    | Material(face: Face, mname: MaterialParam, values: seq<real>)
    | Begin(primitive: Primitive)
    | Vertex(vx: real, vy: real)
    | End
    | Draw(shape: Shape)

  /** The stacks: current matrix, saved matrices (last is top), attribute depth. */
  datatype Machine = Machine(current: seq<Xform>, saved: seq<seq<Xform>>, attribs: nat)

  function Step(e: Event, m: Machine): (r: Option<Machine>)
    ensures r.None? <==> (e.PopMatrix? && m.saved == []) || (e.PopAttrib? && m.attribs == 0)
  {
    match e
    case PushMatrix => Some(m.(saved := m.saved + [m.current]))
    case PopMatrix =>
      if m.saved == [] then None
      else Some(Machine(m.saved[|m.saved| - 1], m.saved[..|m.saved| - 1], m.attribs))
    case Apply(xf) => Some(m.(current := m.current + [xf]))
    case PushAttrib(_) => Some(m.(attribs := m.attribs + 1))
    case PopAttrib => if m.attribs == 0 then None else Some(m.(attribs := m.attribs - 1))
    case _ => Some(m)
  }

  /** Runs a log from left to right; `None` once a pop finds its stack empty. */
  function Run(log: seq<Event>, m: Machine): Option<Machine>
    decreases |log|
  {
    if log == [] then Some(m)
    else
      match Step(log[0], m)
      case None => None
      case Some(m') => Run(log[1..], m')
  }

  function Then(r: Option<Machine>, log: seq<Event>): Option<Machine>
  {
    match r
    case None => None
    case Some(m) => Run(log, m)
  }

  /** Running `a + b` is running `a`, then `b` on what `a` left. */
  lemma {:induction false} RunConcat(a: seq<Event>, b: seq<Event>, m: Machine)
    ensures Run(a + b, m) == Then(Run(a, m), b)
    decreases |a|
  {
    if a == [] {
      assert a + b == b;
    } else {
      assert (a + b)[0] == a[0];
      assert (a + b)[1..] == a[1..] + b;
      match Step(a[0], m)
      case None =>
      case Some(m') => RunConcat(a[1..], b, m');
    }
  }

  /**
   * A log is stack-neutral when, from every machine, it runs without
   * underflow and gives back both stacks as it found them (the current
   * matrix may have changed).
   */
  ghost predicate Neutral(log: seq<Event>)
  {
    forall m: Machine :: Run(log, m).Some? && Run(log, m).value.saved == m.saved
      && Run(log, m).value.attribs == m.attribs
  }

  /** A log restores when it gives back the whole machine, current matrix included. */
  ghost predicate Restores(log: seq<Event>)
  {
    forall m: Machine :: Run(log, m) == Some(m)
  }

  /** Calls that do not touch either stack or the current matrix. */
  predicate Inert(e: Event)
  {
    !(e.PushMatrix? || e.PopMatrix? || e.Apply? || e.PushAttrib? || e.PopAttrib?)
  }

  lemma {:induction false} InertRestores(log: seq<Event>)
    requires forall i :: 0 <= i < |log| ==> Inert(log[i])
    ensures Restores(log)
    decreases |log|
  {
    forall m: Machine ensures Run(log, m) == Some(m) {
      InertRun(log, m);
    }
  }

  lemma {:induction false} InertRun(log: seq<Event>, m: Machine)
    requires forall i :: 0 <= i < |log| ==> Inert(log[i])
    ensures Run(log, m) == Some(m)
    decreases |log|
  {
    if log != [] {
      assert Inert(log[0]);
      assert Step(log[0], m) == Some(m);
      InertRun(log[1..], m);
    }
  }

  lemma RestoresIsNeutral(log: seq<Event>)
    requires Restores(log)
    ensures Neutral(log)
  {
  }

  lemma {:induction false} NeutralConcat(a: seq<Event>, b: seq<Event>)
    requires Neutral(a) && Neutral(b)
    ensures Neutral(a + b)
  {
    forall m: Machine
      ensures Run(a + b, m).Some? && Run(a + b, m).value.saved == m.saved
        && Run(a + b, m).value.attribs == m.attribs
    {
      RunConcat(a, b, m);
      var m1 := Run(a, m).value;
      assert Run(b, m1).Some?;
    }
  }

  /** A single transform is neutral: it changes only the current matrix. */
  lemma ApplyNeutral(xf: Xform)
    ensures Neutral([Apply(xf)])
  {
    forall m: Machine ensures Run([Apply(xf)], m) == Some(m.(current := m.current + [xf])) {
      assert [Apply(xf)][1..] == [];
    }
  }

  /** The log of a matrix bracket around one transform and two further parts, regrouped. */
  lemma BracketShape(t: Event, a: seq<Event>, b: seq<Event>)
    ensures [PushMatrix, t] + a + b + [PopMatrix] == [PushMatrix] + ([t] + a + b) + [PopMatrix]
  {
  }

  /** A one-call log is one step. */
  lemma RunSingle(e: Event, m: Machine)
    ensures Run([e], m) == Step(e, m)
  {
    assert [e][1..] == [];
  }

  /**
   * Saving the matrix, running a neutral log and restoring gives back the
   * machine exactly: whatever the log did to the matrix is undone.
   */
  lemma {:induction false} MatrixBracketRestores(x: seq<Event>)
    requires Neutral(x)
    ensures Restores([PushMatrix] + x + [PopMatrix])
  {
    forall m: Machine ensures Run([PushMatrix] + x + [PopMatrix], m) == Some(m) {
      MatrixBracketAt(x, m, Run(x, m.(saved := m.saved + [m.current])).value);
    }
  }

  lemma MatrixBracketAt(x: seq<Event>, m: Machine, m2: Machine)
    requires Run(x, m.(saved := m.saved + [m.current])) == Some(m2)
    requires m2.saved == m.saved + [m.current] && m2.attribs == m.attribs
    ensures Run([PushMatrix] + x + [PopMatrix], m) == Some(m)
  {
    var m1 := m.(saved := m.saved + [m.current]);
    RunSingle(PushMatrix, m);
    RunConcat([PushMatrix], x, m);
    RunConcat([PushMatrix] + x, [PopMatrix], m);
    RunSingle(PopMatrix, m2);
    assert m2.saved[..|m2.saved| - 1] == m.saved;
  }

  /** Running a log with one more saved attribute group changes nothing else. */
  lemma {:induction false} RunAttribShift(x: seq<Event>, m: Machine)
    requires Run(x, m).Some?
    ensures Run(x, m.(attribs := m.attribs + 1))
      == Some(Run(x, m).value.(attribs := Run(x, m).value.attribs + 1))
    decreases |x|
  {
    if x != [] {
      var m' := Step(x[0], m).value;
      assert Step(x[0], m.(attribs := m.attribs + 1)) == Some(m'.(attribs := m'.attribs + 1));
      RunAttribShift(x[1..], m');
    }
  }

  /**
   * Bracketing a neutral log with PushAttrib/PopAttrib leaves the attribute
   * stack balanced and otherwise behaves exactly like the log alone.
   */
  lemma {:induction false} AttribBracket(mask: AttribMask, x: seq<Event>)
    requires Neutral(x)
    ensures Neutral([PushAttrib(mask)] + x + [PopAttrib])
    ensures forall m: Machine :: Run([PushAttrib(mask)] + x + [PopAttrib], m) == Run(x, m)
  {
    forall m: Machine ensures Run([PushAttrib(mask)] + x + [PopAttrib], m) == Run(x, m) {
      var m1 := m.(attribs := m.attribs + 1);
      assert Run([PushAttrib(mask)], m) == Some(m1) by {
        assert [PushAttrib(mask)][1..] == [];
      }
      RunConcat([PushAttrib(mask)], x, m);
      RunConcat([PushAttrib(mask)] + x, [PopAttrib], m);
      RunAttribShift(x, m);
      var m2 := Run(x, m).value;
      assert Run([PopAttrib], m2.(attribs := m2.attribs + 1)) == Some(m2) by {
        assert [PopAttrib][1..] == [];
      }
    }
  }
}
