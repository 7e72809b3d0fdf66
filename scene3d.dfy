/**
 * How the 3D penguin is dressed for each render style before it is drawn:
 * the wrappers `display` builds around the penguin entity every frame.
 *
 * `Styled` is the composition of penguin3D/penguin.cpp.  The starter copy
 * builds the same wrappers with explicit AddPrev/AddNext calls but throws
 * away the results of its enableDisable/pushPopAttribute chains;
 * `StarterOutlined` and `StarterLit` model that copy as written.
 */
module Scene3D {
  import opened Gl
  import opened Seqs
  import opened Components3D

  /** The global flag the penguin's colour components are conditioned on. */
  const ColorPenguin: Addr := Cell("colorPenguin")

  /** ENABLE_COLOR_PENGUIN and DISABLE_COLOR_PENGUIN: function components setting the flag. */
  function EnableColorPenguin(): Component { FunctionNode(SetFlag(ColorPenguin, true)) }
  function DisableColorPenguin(): Component { FunctionNode(SetFlag(ColorPenguin, false)) }

  /**
   * The wireFrameMode and solidMode entities built in main: entities of
   * leaves only, so they never touch memory, whose first child disables
   * lighting and whose second sets the polygon mode.
   */
  function WireFrameMode(): (r: Component)
    ensures r.EntityNode? && |r.children| == 2 && forall i :: 0 <= i < 2 ==> r.children[i].IsLeaf()
    ensures r.children[0] == DisableComponent(Lighting) && r.children[1].PolygonModeNode?
    ensures r.children[1].pmode == LineMode
  {
    EntityNode([DisableComponent(Lighting), PolygonModeNode(FrontAndBack, LineMode)])
  }

  function SolidMode(): (r: Component)
    ensures r.EntityNode? && |r.children| == 2 && forall i :: 0 <= i < 2 ==> r.children[i].IsLeaf()
    ensures r.children[0] == DisableComponent(Lighting) && r.children[1].PolygonModeNode?
    ensures r.children[1].pmode == FillMode
  {
    EntityNode([DisableComponent(Lighting), PolygonModeNode(FrontAndBack, FillMode)])
  }

  function ModeLog(mode: PolyMode): seq<Event>
  {
    [PushMatrix, Disable(Lighting), PolygonModeSet(FrontAndBack, mode), PopMatrix]
  }

  lemma ModeEntityLog(env: Env)
    ensures Effect(WireFrameMode(), env) == Outcome(ModeLog(LineMode), env)
    ensures Effect(SolidMode(), env) == Outcome(ModeLog(FillMode), env)
  {
    ModeEntityOf(LineMode, env);
    ModeEntityOf(FillMode, env);
  }

  lemma ModeEntityOf(mode: PolyMode, env: Env)
    ensures Effect(EntityNode([DisableComponent(Lighting), PolygonModeNode(FrontAndBack, mode)]), env)
      == Outcome(ModeLog(mode), env)
  {
    var d := DisableComponent(Lighting);
    var m := PolygonModeNode(FrontAndBack, mode);
    assert Effect(d, env) == Outcome([Disable(Lighting)], env);
    assert Effect(m, env) == Outcome([PolygonModeSet(FrontAndBack, mode)], env);
    EffectPair(d, m, env);
    Nest2(Disable(Lighting), PolygonModeSet(FrontAndBack, mode));
  }

  datatype RenderStyle = Wireframe | Solid | Outlined | Metal | Matte

  /** Specular colour, ambient-and-diffuse colour and shininess of a lit finish. */
  datatype Finish = Finish(specular: seq<real>, diffuse: seq<real>, shininess: real)

  const METAL: Finish := Finish([0.70, 0.70, 0.70, 1.0], [0.50, 0.50, 0.50, 1.0], 128.0)
  const MATTE: Finish := Finish([0.01, 0.01, 0.01, 1.0], [0.50, 0.50, 0.50, 1.0], 0.0)
  const LIGHT_SPECULAR: seq<real> := [0.8, 0.8, 0.8, 1.0]

  /** Memory after a write to the colour flag. */
  function WithColor(env: Env, on: bool): Env
  {
    env.(flags := Write(env.flags, ColorPenguin, on))
  }

  /** The first pass of OUTLINED (and all of SOLID): colour on, solid mode, then the penguin. */
  function SolidPass(penguin: Component): (r: Component)
    ensures r == WrapperNode([EnableColorPenguin(), SolidMode()], penguin, [])
  {
    Prev(Prev(Wrap(penguin), EnableColorPenguin()), SolidMode())
  }

  /**
   * The outline pass of OUTLINED: the five `<<` calls fill the before-list
   * in call order, the solid pass first, and the `>>` call puts the flag
   * set after the penguin.
   */
  function OutlinePass(penguin: Component): (r: Component)
    ensures r == WrapperNode([SolidPass(penguin), DisableColorPenguin(), ColorNode(0.0, 0.0, 0.0, 1.0),
                              WireFrameMode(), PolygonOffsetNode(1.0, 2.0)],
                             penguin, [EnableColorPenguin()])
  {
    Next(Prev(Prev(Prev(Prev(Prev(Wrap(penguin), SolidPass(penguin)), DisableColorPenguin()),
                        ColorNode(0.0, 0.0, 0.0, 1.0)), WireFrameMode()),
              PolygonOffsetNode(1.0, 2.0)),
         EnableColorPenguin())
  }

  /** The light and material set-up in the before-list of METAL and MATTE, in call order. */
  function LitSetup(penguin: Component, lightPos: seq<real>, finish: Finish): (r: Component)
    ensures r == WrapperNode([PolygonModeNode(FrontAndBack, FillMode), LightNode(0, Position, lightPos),
                              LightNode(0, Specular, LIGHT_SPECULAR),
                              MaterialfvNode(Front, MatSpecular, finish.specular),
                              MaterialfvNode(Front, MatAmbientAndDiffuse, finish.diffuse),
                              MaterialfNode(Front, Shininess, finish.shininess)],
                             penguin, [])
  {
    Prev(Prev(Prev(Prev(Prev(Prev(Wrap(penguin), PolygonModeNode(FrontAndBack, FillMode)),
                             LightNode(0, Position, lightPos)),
                        LightNode(0, Specular, LIGHT_SPECULAR)),
                   MaterialfvNode(Front, MatSpecular, finish.specular)),
              MaterialfvNode(Front, MatAmbientAndDiffuse, finish.diffuse)),
         MaterialfNode(Front, Shininess, finish.shininess))
  }

  /**
   * METAL and MATTE: lighting innermost around the set-up, then light 0,
   * then colour-material outermost when coloured materials are on.
   */
  function Lit(penguin: Component, lightPos: seq<real>, finish: Finish, coloredMaterials: bool): (r: Component)
    ensures var lighting := WrapperNode([EnableComponent(Lighting)], LitSetup(penguin, lightPos, finish),
                                        [DisableComponent(Lighting)]);
            var light0 := WrapperNode([EnableComponent(Light0)], lighting, [DisableComponent(Light0)]);
            r == if coloredMaterials
                 then WrapperNode([EnableComponent(ColorMaterial)], light0, [DisableComponent(ColorMaterial)])
                 else light0
  {
    var lit := EnableDisable(EnableDisable(LitSetup(penguin, lightPos, finish), Lighting), Light0);
    if coloredMaterials then EnableDisable(lit, ColorMaterial) else lit
  }

  /**
   * The component display updates for a render style.  The light position
   * comes from cosf/sinf of the light angle and is taken as given.
   */
  function Styled(style: RenderStyle, penguin: Component, lightPos: seq<real>, coloredMaterials: bool): (r: Component)
    ensures r.WrapperNode?
    ensures style.Wireframe? ==> r == WrapperNode([EnableColorPenguin(), WireFrameMode()], penguin, [])
    ensures style.Solid? ==> r == WrapperNode([EnableColorPenguin(), SolidMode()], penguin, [])
    ensures style.Outlined? ==>
              r == WrapperNode([PushAttributeNode(ColorBufferBit)],
                               WrapperNode([EnableComponent(PolygonOffsetFill)], OutlinePass(penguin),
                                           [DisableComponent(PolygonOffsetFill)]),
                               [PopAttribComponent()])
    ensures style.Metal? ==> r == Lit(penguin, lightPos, METAL, coloredMaterials)
    ensures style.Matte? ==> r == Lit(penguin, lightPos, MATTE, coloredMaterials)
  {
    match style
    case Wireframe => Prev(Prev(Wrap(penguin), EnableColorPenguin()), WireFrameMode())
    case Solid => SolidPass(penguin)
    case Outlined => PushPopAttribute(EnableDisable(OutlinePass(penguin), PolygonOffsetFill), ColorBufferBit)
    case Metal => Lit(penguin, lightPos, METAL, coloredMaterials)
    case Matte => Lit(penguin, lightPos, MATTE, coloredMaterials)
  }

  /** The colour-flag components write the flag and make no GL call. */
  lemma ColorFlagLog(env: Env)
    ensures Effect(EnableColorPenguin(), env) == Outcome([], WithColor(env, true))
    ensures Effect(DisableColorPenguin(), env) == Outcome([], WithColor(env, false))
  {
  }

  /** Setting the colour flag, then a mode entity run on the flagged memory. */
  lemma ColourThen(m: Component, log: seq<Event>, env: Env)
    requires Effect(m, WithColor(env, true)) == Outcome(log, WithColor(env, true))
    ensures EffectAll([EnableColorPenguin(), m], env) == Outcome(log, WithColor(env, true))
  {
    ColorFlagLog(env);
    EffectSingle(m, WithColor(env, true));
    EffectConsOf(EnableColorPenguin(), [m], env, [], WithColor(env, true), log, WithColor(env, true));
    Nest2(EnableColorPenguin(), m);
    AppendNil(log);
  }

  /** A pass that sets the colour flag and a mode before the penguin, with nothing after it. */
  lemma ModeFirst(m: Component, log: seq<Event>, penguin: Component, env: Env)
    requires Effect(m, WithColor(env, true)) == Outcome(log, WithColor(env, true))
    ensures Effect(WrapperNode([EnableColorPenguin(), m], penguin, []), env)
      == Outcome(log + Effect(penguin, WithColor(env, true)).log, Effect(penguin, WithColor(env, true)).env)
  {
    ColourThen(m, log, env);
    var r := Effect(penguin, WithColor(env, true));
    WrapperOf([EnableColorPenguin(), m], penguin, [], env, log, WithColor(env, true), r.log, r.env, [], r.env);
    AppendNil(log + r.log);
  }

  lemma SolidPassLog(penguin: Component, env: Env)
    ensures Effect(SolidPass(penguin), env)
      == Outcome(ModeLog(FillMode) + Effect(penguin, WithColor(env, true)).log,
                 Effect(penguin, WithColor(env, true)).env)
  {
    assert SolidPass(penguin) == WrapperNode([EnableColorPenguin(), SolidMode()], penguin, []);
    ModeEntityLog(WithColor(env, true));
    ModeFirst(SolidMode(), ModeLog(FillMode), penguin, env);
  }

  /** The before-list of the outline pass after the solid pass. */
  function OutlineTail(): seq<Component>
  {
    [DisableColorPenguin(), ColorNode(0.0, 0.0, 0.0, 1.0), WireFrameMode(), PolygonOffsetNode(1.0, 2.0)]
  }

  function OutlineTailLog(): seq<Event>
  {
    [SetColor(0.0, 0.0, 0.0, 1.0)] + ModeLog(LineMode) + [PolygonOffset(1.0, 2.0)]
  }

  lemma OutlineTailEffect(env: Env)
    ensures EffectAll(OutlineTail(), env) == Outcome(OutlineTailLog(), WithColor(env, false))
  {
    var env2 := WithColor(env, false);
    var col := ColorNode(0.0, 0.0, 0.0, 1.0);
    var wf := WireFrameMode();
    var off := PolygonOffsetNode(1.0, 2.0);
    var inner := [SetColor(0.0, 0.0, 0.0, 1.0)] + (ModeLog(LineMode) + [PolygonOffset(1.0, 2.0)]);
    BlackWireframeEffect(env2);
    ColorFlagLog(env);
    EffectConsOf(DisableColorPenguin(), [col, wf, off], env, [], env2, inner, env2);
    Nest4(DisableColorPenguin(), col, wf, off);
    AppendNil(inner);
    Assoc([SetColor(0.0, 0.0, 0.0, 1.0)], ModeLog(LineMode), [PolygonOffset(1.0, 2.0)]);
  }

  /** Black, wireframe mode, polygon offset: three components that leave memory alone. */
  lemma BlackWireframeEffect(env: Env)
    ensures EffectAll([ColorNode(0.0, 0.0, 0.0, 1.0), WireFrameMode(), PolygonOffsetNode(1.0, 2.0)], env)
      == Outcome([SetColor(0.0, 0.0, 0.0, 1.0)] + (ModeLog(LineMode) + [PolygonOffset(1.0, 2.0)]), env)
  {
    var col := ColorNode(0.0, 0.0, 0.0, 1.0);
    var wf := WireFrameMode();
    var off := PolygonOffsetNode(1.0, 2.0);
    var po := [PolygonOffset(1.0, 2.0)];
    ModeEntityOf(LineMode, env);
    TailLeaves(env);
    EffectSingle(off, env);
    EffectConsOf(wf, [off], env, ModeLog(LineMode), env, po, env);
    Nest2(wf, off);
    EffectConsOf(col, [wf, off], env, [SetColor(0.0, 0.0, 0.0, 1.0)], env, ModeLog(LineMode) + po, env);
    Nest3(col, wf, off);
  }

  lemma TailLeaves(env: Env)
    ensures Effect(ColorNode(0.0, 0.0, 0.0, 1.0), env) == Outcome([SetColor(0.0, 0.0, 0.0, 1.0)], env)
    ensures Effect(PolygonOffsetNode(1.0, 2.0), env) == Outcome([PolygonOffset(1.0, 2.0)], env)
  {
  }

  lemma OutlinePassShape(penguin: Component)
    ensures OutlinePass(penguin) == WrapperNode([SolidPass(penguin)] + OutlineTail(), penguin, [EnableColorPenguin()])
  {
  }

  /** The outline pass: the solid pass, the black wireframe set-up, the penguin again, colour back on. */
  lemma OutlinePassLog(penguin: Component, env: Env)
    ensures var first := Effect(penguin, WithColor(env, true));
            var second := Effect(penguin, WithColor(first.env, false));
            Effect(OutlinePass(penguin), env)
              == Outcome(ModeLog(FillMode) + first.log + OutlineTailLog() + second.log, WithColor(second.env, true))
  {
    var first := Effect(penguin, WithColor(env, true));
    var env2 := WithColor(first.env, false);
    var second := Effect(penguin, env2);
    OutlinePassShape(penguin);
    SolidPassLog(penguin, env);
    OutlineTailEffect(first.env);
    EffectConsOf(SolidPass(penguin), OutlineTail(), env, ModeLog(FillMode) + first.log, first.env,
                 OutlineTailLog(), env2);
    ColorFlagLog(second.env);
    EffectSingle(EnableColorPenguin(), second.env);
    WrapperOf([SolidPass(penguin)] + OutlineTail(), penguin, [EnableColorPenguin()], env,
              ModeLog(FillMode) + first.log + OutlineTailLog(), env2, second.log, second.env,
              [], WithColor(second.env, true));
    AppendNil(ModeLog(FillMode) + first.log + OutlineTailLog() + second.log);
  }

  /**
   * OUTLINED draws the penguin twice: first solid with the colour flag set,
   * then as a black wireframe with the flag cleared, with the flag set again
   * afterwards; the whole is inside a polygon-offset enable/disable and a
   * colour-attribute push/pop.
   */
  lemma OutlinedTwoPasses(penguin: Component, lightPos: seq<real>, cm: bool, env: Env)
    ensures var env1 := WithColor(env, true);
            var first := Effect(penguin, env1);
            var env2 := WithColor(first.env, false);
            var second := Effect(penguin, env2);
            && env1.flags(ColorPenguin) && !env2.flags(ColorPenguin)
            && Effect(Styled(Outlined, penguin, lightPos, cm), env)
               == Outcome([PushAttrib(ColorBufferBit), Enable(PolygonOffsetFill)]
                          + (ModeLog(FillMode) + first.log + OutlineTailLog() + second.log)
                          + [Disable(PolygonOffsetFill), PopAttrib],
                          WithColor(second.env, true))
  {
    OutlinePassLog(penguin, env);
    OffsetAttribLog(OutlinePass(penguin), env);
  }

  /** The decorators OUTLINED puts around its pass: offset filling inside a colour-attribute bracket. */
  lemma OffsetAttribLog(c: Component, env: Env)
    ensures Effect(PushPopAttribute(EnableDisable(c, PolygonOffsetFill), ColorBufferBit), env)
      == Outcome([PushAttrib(ColorBufferBit), Enable(PolygonOffsetFill)] + Effect(c, env).log
                 + [Disable(PolygonOffsetFill), PopAttrib], Effect(c, env).env)
  {
    EnableDisableLog(c, PolygonOffsetFill, env);
    PushPopAttributeLog(EnableDisable(c, PolygonOffsetFill), ColorBufferBit, env);
    NestBrackets(PushAttrib(ColorBufferBit), Enable(PolygonOffsetFill), Effect(c, env).log,
                 Disable(PolygonOffsetFill), PopAttrib);
  }

  /** The GL calls of the light and material set-up. */
  function LitSetupLog(lightPos: seq<real>, finish: Finish): seq<Event>
  {
    [PolygonModeSet(FrontAndBack, FillMode), Light(0, Position, lightPos), Light(0, Specular, LIGHT_SPECULAR),
     Material(Front, MatSpecular, finish.specular), Material(Front, MatAmbientAndDiffuse, finish.diffuse),
     Material(Front, Shininess, [finish.shininess])]
  }

  function LitSetupList(lightPos: seq<real>, finish: Finish): seq<Component>
  {
    [PolygonModeNode(FrontAndBack, FillMode), LightNode(0, Position, lightPos),
     LightNode(0, Specular, LIGHT_SPECULAR), MaterialfvNode(Front, MatSpecular, finish.specular),
     MaterialfvNode(Front, MatAmbientAndDiffuse, finish.diffuse), MaterialfNode(Front, Shininess, finish.shininess)]
  }

  /** Each set-up component makes its one GL call and touches no memory. */
  lemma LitSetupListEffect(lightPos: seq<real>, finish: Finish, env: Env)
    ensures EffectAll(LitSetupList(lightPos, finish), env) == Outcome(LitSetupLog(lightPos, finish), env)
  {
    var m0, m1, m2 := PolygonModeNode(FrontAndBack, FillMode), LightNode(0, Position, lightPos),
                      LightNode(0, Specular, LIGHT_SPECULAR);
    var m3, m4, m5 := MaterialfvNode(Front, MatSpecular, finish.specular),
                      MaterialfvNode(Front, MatAmbientAndDiffuse, finish.diffuse),
                      MaterialfNode(Front, Shininess, finish.shininess);
    var e0, e1, e2 := PolygonModeSet(FrontAndBack, FillMode), Light(0, Position, lightPos),
                      Light(0, Specular, LIGHT_SPECULAR);
    var e3, e4, e5 := Material(Front, MatSpecular, finish.specular),
                      Material(Front, MatAmbientAndDiffuse, finish.diffuse),
                      Material(Front, Shininess, [finish.shininess]);
    SetupLeaves(lightPos, finish, env);
    EffectSingle(m5, env);
    EffectConsOf(m4, [m5], env, [e4], env, [e5], env);
    Nest2(m4, m5);
    Nest2(e4, e5);
    EffectConsOf(m3, [m4, m5], env, [e3], env, [e4, e5], env);
    Nest3(m3, m4, m5);
    Nest3(e3, e4, e5);
    EffectConsOf(m2, [m3, m4, m5], env, [e2], env, [e3, e4, e5], env);
    Nest4(m2, m3, m4, m5);
    Nest4(e2, e3, e4, e5);
    EffectConsOf(m1, [m2, m3, m4, m5], env, [e1], env, [e2, e3, e4, e5], env);
    Nest5(m1, m2, m3, m4, m5);
    Nest5(e1, e2, e3, e4, e5);
    EffectConsOf(m0, [m1, m2, m3, m4, m5], env, [e0], env, [e1, e2, e3, e4, e5], env);
    Nest6(m0, m1, m2, m3, m4, m5);
    Nest6(e0, e1, e2, e3, e4, e5);
  }

  lemma SetupLeaves(lightPos: seq<real>, finish: Finish, env: Env)
    ensures Effect(PolygonModeNode(FrontAndBack, FillMode), env) == Outcome([PolygonModeSet(FrontAndBack, FillMode)], env)
    ensures Effect(LightNode(0, Position, lightPos), env) == Outcome([Light(0, Position, lightPos)], env)
    ensures Effect(LightNode(0, Specular, LIGHT_SPECULAR), env) == Outcome([Light(0, Specular, LIGHT_SPECULAR)], env)
    ensures Effect(MaterialfvNode(Front, MatSpecular, finish.specular), env)
      == Outcome([Material(Front, MatSpecular, finish.specular)], env)
    ensures Effect(MaterialfvNode(Front, MatAmbientAndDiffuse, finish.diffuse), env)
      == Outcome([Material(Front, MatAmbientAndDiffuse, finish.diffuse)], env)
    ensures Effect(MaterialfNode(Front, Shininess, finish.shininess), env)
      == Outcome([Material(Front, Shininess, [finish.shininess])], env)
  {
  }

  lemma LitSetupShape(penguin: Component, lightPos: seq<real>, finish: Finish)
    ensures LitSetup(penguin, lightPos, finish) == WrapperNode(LitSetupList(lightPos, finish), penguin, [])
  {
  }

  lemma LitSetupEffect(penguin: Component, lightPos: seq<real>, finish: Finish, env: Env)
    ensures Effect(LitSetup(penguin, lightPos, finish), env)
      == Outcome(LitSetupLog(lightPos, finish) + Effect(penguin, env).log, Effect(penguin, env).env)
  {
    var r := Effect(penguin, env);
    LitSetupShape(penguin, lightPos, finish);
    LitSetupListEffect(lightPos, finish, env);
    WrapperOf(LitSetupList(lightPos, finish), penguin, [], env, LitSetupLog(lightPos, finish), env,
              r.log, r.env, [], r.env);
    AppendNil(LitSetupLog(lightPos, finish) + r.log);
  }

  /** enableDisable(GL_LIGHTING) then enableDisable(GL_LIGHT0) around any component. */
  lemma LightBracketLog(c: Component, env: Env)
    ensures Effect(EnableDisable(EnableDisable(c, Lighting), Light0), env)
      == Outcome([Enable(Light0), Enable(Lighting)] + Effect(c, env).log + [Disable(Lighting), Disable(Light0)],
                 Effect(c, env).env)
  {
    EnableDisableLog(c, Lighting, env);
    EnableDisableLog(EnableDisable(c, Lighting), Light0, env);
    NestBrackets(Enable(Light0), Enable(Lighting), Effect(c, env).log, Disable(Lighting), Disable(Light0));
  }

  /**
   * METAL and MATTE: lighting and light 0 are enabled around the set-up and
   * the penguin (colour-material too, outermost, when coloured materials are
   * on), and disabled again afterwards in the reverse order.
   */
  lemma LitLog(penguin: Component, lightPos: seq<real>, finish: Finish, cm: bool, env: Env)
    ensures var inner := [Enable(Light0), Enable(Lighting)] + (LitSetupLog(lightPos, finish) + Effect(penguin, env).log)
                         + [Disable(Lighting), Disable(Light0)];
            Effect(Lit(penguin, lightPos, finish, cm), env)
              == Outcome(if cm then [Enable(ColorMaterial)] + inner + [Disable(ColorMaterial)] else inner,
                         Effect(penguin, env).env)
  {
    var setup := LitSetup(penguin, lightPos, finish);
    LitSetupEffect(penguin, lightPos, finish, env);
    LightBracketLog(setup, env);
    if cm {
      EnableDisableLog(EnableDisable(EnableDisable(setup, Lighting), Light0), ColorMaterial, env);
    }
  }

  lemma WireframePassLog(penguin: Component, env: Env)
    ensures Effect(Prev(Prev(Wrap(penguin), EnableColorPenguin()), WireFrameMode()), env)
      == Outcome(ModeLog(LineMode) + Effect(penguin, WithColor(env, true)).log,
                 Effect(penguin, WithColor(env, true)).env)
  {
    assert Prev(Prev(Wrap(penguin), EnableColorPenguin()), WireFrameMode())
      == WrapperNode([EnableColorPenguin(), WireFrameMode()], penguin, []);
    ModeEntityLog(WithColor(env, true));
    ModeFirst(WireFrameMode(), ModeLog(LineMode), penguin, env);
  }

  /** WIREFRAME and SOLID: colour on, the mode entity, then the penguin once. */
  lemma PlainStylesLog(penguin: Component, lightPos: seq<real>, cm: bool, env: Env)
    ensures Effect(Styled(Wireframe, penguin, lightPos, cm), env)
      == Outcome(ModeLog(LineMode) + Effect(penguin, WithColor(env, true)).log,
                 Effect(penguin, WithColor(env, true)).env)
    ensures Effect(Styled(Solid, penguin, lightPos, cm), env)
      == Outcome(ModeLog(FillMode) + Effect(penguin, WithColor(env, true)).log,
                 Effect(penguin, WithColor(env, true)).env)
  {
    WireframePassLog(penguin, env);
    SolidPassLog(penguin, env);
  }

  /**
   * Every style leaves the matrix and attribute stacks as the penguin does:
   * if both passes of the penguin are stack-neutral, so is the styled component.
   */
  lemma StyledNeutral(style: RenderStyle, penguin: Component, lightPos: seq<real>, cm: bool, env: Env)
    requires forall e: Env :: Neutral(Effect(penguin, e).log)
    ensures Neutral(Effect(Styled(style, penguin, lightPos, cm), env).log)
  {
    match style
    case Wireframe =>
      PlainStylesLog(penguin, lightPos, cm, env);
      ModeThenNeutral(LineMode, Effect(penguin, WithColor(env, true)).log);
    case Solid =>
      PlainStylesLog(penguin, lightPos, cm, env);
      ModeThenNeutral(FillMode, Effect(penguin, WithColor(env, true)).log);
    case Outlined =>
      OutlinedNeutral(penguin, lightPos, cm, env);
    case Metal =>
      LitNeutral(penguin, lightPos, METAL, cm, env);
    case Matte =>
      LitNeutral(penguin, lightPos, MATTE, cm, env);
  }

  lemma ModeThenNeutral(mode: PolyMode, log: seq<Event>)
    requires Neutral(log)
    ensures Neutral(ModeLog(mode) + log)
  {
    ModeRestores(mode);
    NeutralConcat(ModeLog(mode), log);
  }

  lemma OutlinedNeutral(penguin: Component, lightPos: seq<real>, cm: bool, env: Env)
    requires forall e: Env :: Neutral(Effect(penguin, e).log)
    ensures Neutral(Effect(Styled(Outlined, penguin, lightPos, cm), env).log)
  {
    OutlinedTwoPasses(penguin, lightPos, cm, env);
    var first := Effect(penguin, WithColor(env, true));
    var second := Effect(penguin, WithColor(first.env, false));
    OutlinedLogNeutral(first.log, second.log);
  }

  /** The OUTLINED log is stack-neutral when both passes of the penguin are. */
  lemma OutlinedLogNeutral(a: seq<Event>, b: seq<Event>)
    requires Neutral(a) && Neutral(b)
    ensures Neutral([PushAttrib(ColorBufferBit), Enable(PolygonOffsetFill)]
                    + (ModeLog(FillMode) + a + OutlineTailLog() + b)
                    + [Disable(PolygonOffsetFill), PopAttrib])
  {
    ModeRestores(FillMode);
    OutlineTailNeutral();
    var pass := ModeLog(FillMode) + a + OutlineTailLog() + b;
    NeutralConcat(ModeLog(FillMode), a);
    NeutralConcat(ModeLog(FillMode) + a, OutlineTailLog());
    NeutralConcat(ModeLog(FillMode) + a + OutlineTailLog(), b);
    InertRestores([Enable(PolygonOffsetFill)]);
    InertRestores([Disable(PolygonOffsetFill)]);
    NeutralConcat([Enable(PolygonOffsetFill)], pass);
    NeutralConcat([Enable(PolygonOffsetFill)] + pass, [Disable(PolygonOffsetFill)]);
    var body := [Enable(PolygonOffsetFill)] + pass + [Disable(PolygonOffsetFill)];
    AttribBracket(ColorBufferBit, body);
    NestBrackets(PushAttrib(ColorBufferBit), Enable(PolygonOffsetFill), pass, Disable(PolygonOffsetFill), PopAttrib);
  }

  lemma OutlineTailNeutral()
    ensures Neutral(OutlineTailLog())
  {
    ModeRestores(LineMode);
    InertRestores([SetColor(0.0, 0.0, 0.0, 1.0)]);
    InertRestores([PolygonOffset(1.0, 2.0)]);
    NeutralConcat([SetColor(0.0, 0.0, 0.0, 1.0)], ModeLog(LineMode));
    NeutralConcat([SetColor(0.0, 0.0, 0.0, 1.0)] + ModeLog(LineMode), [PolygonOffset(1.0, 2.0)]);
  }

  lemma ModeRestores(mode: PolyMode)
    ensures Restores(ModeLog(mode)) && Neutral(ModeLog(mode))
  {
    InertRestores([Disable(Lighting), PolygonModeSet(FrontAndBack, mode)]);
    MatrixBracketRestores([Disable(Lighting), PolygonModeSet(FrontAndBack, mode)]);
    assert ModeLog(mode) == [PushMatrix] + [Disable(Lighting), PolygonModeSet(FrontAndBack, mode)] + [PopMatrix];
  }

  lemma LitNeutral(penguin: Component, lightPos: seq<real>, finish: Finish, cm: bool, env: Env)
    requires Neutral(Effect(penguin, env).log)
    ensures Neutral(Effect(Lit(penguin, lightPos, finish, cm), env).log)
  {
    LitLog(penguin, lightPos, finish, cm, env);
    LitLogNeutral(Effect(penguin, env).log, lightPos, finish, cm);
  }

  /** The METAL and MATTE log is stack-neutral when the penguin's is. */
  lemma LitLogNeutral(log: seq<Event>, lightPos: seq<real>, finish: Finish, cm: bool)
    requires Neutral(log)
    ensures var inner := [Enable(Light0), Enable(Lighting)] + (LitSetupLog(lightPos, finish) + log)
                         + [Disable(Lighting), Disable(Light0)];
            Neutral(if cm then [Enable(ColorMaterial)] + inner + [Disable(ColorMaterial)] else inner)
  {
    var pre := [Enable(Light0), Enable(Lighting)];
    var post := [Disable(Lighting), Disable(Light0)];
    InertRestores(pre);
    InertRestores(post);
    InertRestores(LitSetupLog(lightPos, finish));
    NeutralConcat(LitSetupLog(lightPos, finish), log);
    NeutralConcat(pre, LitSetupLog(lightPos, finish) + log);
    NeutralConcat(pre + (LitSetupLog(lightPos, finish) + log), post);
    var inner := pre + (LitSetupLog(lightPos, finish) + log) + post;
    if cm {
      InertRestores([Enable(ColorMaterial)]);
      InertRestores([Disable(ColorMaterial)]);
      NeutralConcat([Enable(ColorMaterial)], inner);
      NeutralConcat([Enable(ColorMaterial)] + inner, [Disable(ColorMaterial)]);
    }
  }

  // ---------------------------------------------------------------------
  // The starter copy, as written
  // ---------------------------------------------------------------------

  /**
   * OUTLINED in the starter copy: the same outline pass is built with
   * AddPrev/AddNext, then `bNew->enableDisable(..)->pushPopAttribute(..)` is
   * evaluated and its result dropped, and the bare pass is what is drawn.
   */
  method StarterOutlined(penguin: Component) returns (drawn: Component)
    ensures drawn == OutlinePass(penguin)
  {
    var aNew := new Wrapper(penguin);
    aNew.AddPrev(EnableColorPenguin());
    aNew.AddPrev(SolidMode());
    var first := aNew.Node();
    var bNew := new Wrapper(penguin);
    bNew.AddPrev(first);
    bNew.AddPrev(DisableColorPenguin());
    bNew.AddPrev(ColorNode(0.0, 0.0, 0.0, 1.0));
    bNew.AddPrev(WireFrameMode());
    bNew.AddPrev(PolygonOffsetNode(1.0, 2.0));
    bNew.AddNext(EnableColorPenguin());
    var dropped := PushPopAttribute(EnableDisable(bNew.Node(), PolygonOffsetFill), ColorBufferBit);
    drawn := bNew.Node();
  }

  /**
   * METAL and MATTE in the starter copy: the lighting and light-0 bracket is
   * built and dropped; only the optional colour-material bracket is kept.
   */
  method StarterLit(penguin: Component, lightPos: seq<real>, finish: Finish, coloredMaterials: bool)
    returns (drawn: Component)
    ensures drawn == (if coloredMaterials then EnableDisable(LitSetup(penguin, lightPos, finish), ColorMaterial)
                      else LitSetup(penguin, lightPos, finish))
  {
    var aNew := new Wrapper(penguin);
    aNew.AddPrev(PolygonModeNode(FrontAndBack, FillMode));
    aNew.AddPrev(LightNode(0, Position, lightPos));
    aNew.AddPrev(LightNode(0, Specular, LIGHT_SPECULAR));
    aNew.AddPrev(MaterialfvNode(Front, MatSpecular, finish.specular));
    aNew.AddPrev(MaterialfvNode(Front, MatAmbientAndDiffuse, finish.diffuse));
    aNew.AddPrev(MaterialfNode(Front, Shininess, finish.shininess));
    var dropped := EnableDisable(EnableDisable(aNew.Node(), Lighting), Light0);
    drawn := aNew.Node();
    if coloredMaterials {
      drawn := EnableDisable(drawn, ColorMaterial);
    }
  }

  /**
   * The starter's OUTLINED draws the bare outline pass: nothing enables
   * polygon offset filling or saves the colour attributes around it, while
   * penguin3D/penguin.cpp's composition opens with both.  For a penguin that
   * makes neither call itself, neither call is made at all.
   */
  lemma StarterOutlinedDropsBrackets(penguin: Component, env: Env)
    requires forall e: Env :: Enable(PolygonOffsetFill) !in Effect(penguin, e).log
    requires forall e: Env :: PushAttrib(ColorBufferBit) !in Effect(penguin, e).log
    ensures var asWritten := Effect(OutlinePass(penguin), env).log;
            Enable(PolygonOffsetFill) !in asWritten && PushAttrib(ColorBufferBit) !in asWritten
    ensures var intended := Effect(Styled(Outlined, penguin, [], false), env).log;
            |intended| >= 2 && intended[0] == PushAttrib(ColorBufferBit) && intended[1] == Enable(PolygonOffsetFill)
  {
    var first := Effect(penguin, WithColor(env, true));
    var second := Effect(penguin, WithColor(first.env, false));
    OutlinedTwoPasses(penguin, [], false, env);
    OutlinePassLog(penguin, env);
    PassLacksBrackets(first.log, second.log);
    OutlinedOpens(ModeLog(FillMode) + first.log + OutlineTailLog() + second.log);
  }

  lemma PassLacksBrackets(a: seq<Event>, b: seq<Event>)
    requires Enable(PolygonOffsetFill) !in a && Enable(PolygonOffsetFill) !in b
    requires PushAttrib(ColorBufferBit) !in a && PushAttrib(ColorBufferBit) !in b
    ensures var pass := ModeLog(FillMode) + a + OutlineTailLog() + b;
            Enable(PolygonOffsetFill) !in pass && PushAttrib(ColorBufferBit) !in pass
  {
  }

  lemma OutlinedOpens(pass: seq<Event>)
    ensures var log := [PushAttrib(ColorBufferBit), Enable(PolygonOffsetFill)] + pass
                       + [Disable(PolygonOffsetFill), PopAttrib];
            |log| >= 2 && log[0] == PushAttrib(ColorBufferBit) && log[1] == Enable(PolygonOffsetFill)
  {
  }

  /**
   * The starter's METAL and MATTE draw the set-up without the lighting
   * bracket: for a penguin that never enables lighting itself, lighting is
   * never enabled, while penguin3D/penguin.cpp's composition enables it.
   */
  lemma StarterLitNeverLights(penguin: Component, lightPos: seq<real>, finish: Finish, cm: bool, env: Env)
    requires Enable(Lighting) !in Effect(penguin, env).log && Enable(Light0) !in Effect(penguin, env).log
    ensures var setup := LitSetup(penguin, lightPos, finish);
            var asWritten := Effect(if cm then EnableDisable(setup, ColorMaterial) else setup, env).log;
            Enable(Lighting) !in asWritten && Enable(Light0) !in asWritten
    ensures Enable(Lighting) in Effect(Lit(penguin, lightPos, finish, cm), env).log
  {
    var log := Effect(penguin, env).log;
    LitSetupEffect(penguin, lightPos, finish, env);
    if cm {
      EnableDisableLog(LitSetup(penguin, lightPos, finish), ColorMaterial, env);
    }
    LitLog(penguin, lightPos, finish, cm, env);
    SetupLacksLighting(log, lightPos, finish, cm);
  }

  lemma SetupLacksLighting(log: seq<Event>, lightPos: seq<real>, finish: Finish, cm: bool)
    requires Enable(Lighting) !in log && Enable(Light0) !in log
    ensures var l := LitSetupLog(lightPos, finish) + log;
            var w := if cm then [Enable(ColorMaterial)] + l + [Disable(ColorMaterial)] else l;
            Enable(Lighting) !in w && Enable(Light0) !in w
    ensures var inner := [Enable(Light0), Enable(Lighting)] + (LitSetupLog(lightPos, finish) + log)
                         + [Disable(Lighting), Disable(Light0)];
            Enable(Lighting) in (if cm then [Enable(ColorMaterial)] + inner + [Disable(ColorMaterial)] else inner)
  {
    var inner := [Enable(Light0), Enable(Lighting)] + (LitSetupLog(lightPos, finish) + log)
                 + [Disable(Lighting), Disable(Light0)];
    assert inner[1] == Enable(Lighting);
    if cm {
      assert ([Enable(ColorMaterial)] + inner + [Disable(ColorMaterial)])[2] == Enable(Lighting);
    }
  }
}
