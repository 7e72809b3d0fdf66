# Penguin puppets: components, keyframes and frame writers

This project models the core of the OpenGL penguin demos: a 2D penguin puppet and a
3D keyframed penguin. It covers four parts of the program.

- **The 3D component algebra** (`Components3D`, `Scene3D`).
  - Suppliers are constant values, pointers to cells, or function results.
  - The leaf components (cuboids, transforms, colours, capabilities, lights, materials)
    each make a fixed list of GL calls.
  - A `Wrapper` updates its before-list, its wrapped core and its after-list, in that order.
  - An `Entity` updates its children between a matrix save and a matrix restore.
  - The decorators (`attach`, `enableDisable`, `pushPopAttribute`, `polyOffset`,
    `onlyWhen`, `rotate`) are built from wrappers.
  - The render styles of `display` are compositions of those decorators.
  - A component's `Update` is modelled as the list of GL calls it makes together with
    the program memory it leaves behind.
  - The stacks are given a meaning by the small machine `Gl.Run`. It tracks the current
    matrix, the saved matrices and the attribute depth.
- **The 2D component set** (`Components2D`, `Penguin2D`).
  - Rectangles, circles, colours, zoomers, translators, entities and joints.
  - `joint_marker`'s lazily built marker entity.
  - The kinematic tree that `main` builds.
  - The `animate` blend step and the animate button.
  - Joints, zoomers and translators are objects whose fields the setters change.
  - The tree refers to them by handle, so every draw sees their current values.
- **The keyframe table** (`Keyframes`).
  - A fixed array of 32 keyframes with a watermark `maxValid`, and the user-interface
    keyframe.
  - The load and update handlers, which change the array in place.
  - The Catmull-Rom interpolation: a bracketing scan, clamping at both ends, a
    normalised parameter, branch-dependent tangents and a cubic Hermite.
  - The save and load file format, at the level of its numeric tokens.
- **The frame writers** (`Image`).
  - Binary and ASCII PGM and PPM of a GL frame buffer, read bottom row first and
    written top row first.
  - Colour files take RGB from each 4-byte RGBA pixel.
  - `writeFrame` keeps a buffer that it reallocates when the frame size changes.

One module per file: `Wrappers` (Option), `Seqs` (sequence regrouping facts), `Gl`,
`Components3D`, `Scene3D`, `Components2D`, `Penguin2D`, `Keyframes`, `Image`.

## Model

| member | source | states |
|---|---|---|
| Components3D.ConstantIgnoresStore | penguin3D/component.cpp:12-20 | a constant supplier returns its construction value whatever memory holds |
| Components3D.PointerSeesLatestWrite | penguin3D/component.cpp:23-33 | a pointer supplier reads its cell afresh on every Get: after a write to that cell it returns the new value, and other cells are unaffected |
| Components3D.Write | penguin3D/penguin.cpp:164-168 | storing v into a memory cell (as the colour-flag functions do) makes that cell hold v and every other cell keep its value |
| Components3D.Perform | penguin3D/component.cpp:227-236 | a function component changes memory only when it writes a flag, and then makes no GL call |
| Components3D.LeafLog | penguin3D/component.cpp:67-396 | a leaf component never pushes or pops the matrix and never pops attributes; Rotatable makes at most three rotations and nothing else, every other leaf one call (nil none) |
| Components3D.Effect | penguin3D/component.cpp:67-631 | no component writes a real-valued cell, and a leaf leaves memory exactly as it found it |
| Components3D.EffectAll | penguin3D/component.cpp:575-583 | a component list never writes a real-valued cell, and a list made only of leaves leaves memory as it found it |
| Components3D.EffectFrom | penguin3D/component.cpp:575-583 | updating the components from position k on is the k-th component's update followed by the rest's, run on the memory it left |
| Components3D.Wrap | penguin3D/component.cpp:404-406 | wrap gives a wrapper around the component with both lists empty |
| Components3D.Prev | penguin3D/component.cpp:611-614 | operator<< appends to the before-list only; the core and the after-list are unchanged |
| Components3D.Next | penguin3D/component.cpp:616-619 | operator>> appends to the after-list only; the core and the before-list are unchanged |
| Components3D.CentredCuboid | penguin3D/component.cpp:78-84 | cuboid(width, height, depth) is centred on the origin, has those extents and uses GL_QUADS |
| Components3D.EnableDisable | penguin3D/component.cpp:408-412 | enableDisable(cap) is the component wrapped with enable(cap) before and disable(cap) after |
| Components3D.PushPopAttribute | penguin3D/component.cpp:474-478 | pushPopAttribute(mask) is the component wrapped with pushAttrib(mask) before and popAttrib after |
| Components3D.MarkJoint | penguin3D/component.cpp:414-424 | markJoint(true) is the joint-marker function inside a colour-attribute push/pop; markJoint(false) is the nil component |
| Components3D.Attach | penguin3D/component.cpp:494-500 | attach is the component wrapped with pushMatrix and the translation before, and the joint mark and popMatrix after |
| Components3D.PolyOffset | penguin3D/component.cpp:426-430 | polyOffset wraps the component in enable/disable of polygon-offset filling, with the glPolygonOffset component under its condition pointer innermost |
| Components3D.RotateBy | penguin3D/component.cpp:522-526 | rotate(x, y, z) has a constant supplier on exactly the non-zero angles, holding that angle |
| Components3D.Scalable | penguin3D/component.cpp:159-167 | a missing scale supplier becomes the constant 1, a given one is kept |
| Components3D.WrapOneOne | penguin3D/component.cpp:621-631 | a wrapper with one component before and one after makes the before-component's calls, the core's calls, then the after-component's calls, each on the memory the previous left |
| Components3D.WrapperLog | penguin3D/component.cpp:621-631 | Wrapper::Update runs the before-list, then the core once, then the after-list, threading memory through |
| Components3D.WrapperNeutral | penguin3D/component.h:208-213 | a wrapper makes no matrix call of its own: it is stack-neutral when its three parts are |
| Components3D.EntityRestores | penguin3D/component.h:175-176 | an entity whose children are together stack-neutral gives back the whole machine it found, current matrix included |
| Components3D.MarkJointLog | penguin3D/component.cpp:414-424 | markJoint(d) draws a black wire sphere inside a colour-attribute push/pop when d holds, nothing otherwise, and leaves memory alone |
| Components3D.MarkerRestores | penguin3D/component.cpp:414-424 | the joint marker gives back the machine it found |
| Components3D.AttachLog | penguin3D/component.cpp:494-500 | attach makes PushMatrix, the translation, the component's calls, the marker exactly when asked, then PopMatrix |
| Components3D.AttachRestores | penguin3D/component.h:51-58 | attaching a stack-neutral component gives back the whole machine, so the translation does not leak |
| Components3D.AttachAddsNoRotation | penguin3D/component.cpp:494-500 | every rotation in attach's log is one the component made |
| Components3D.CapabilityLog | penguin3D/component.cpp:285-302 | a capability component enables or disables its capability according to its flag |
| Components3D.AttribLog | penguin3D/component.cpp:474-492 | pushAttrib makes one PushAttrib with its mask and popAttrib one PopAttrib |
| Components3D.EnableDisableLog | penguin3D/component.cpp:408-412 | enableDisable(cap) makes Enable(cap), the component's calls, then Disable(cap) |
| Components3D.EnableDisableNeutral | penguin3D/component.cpp:408-412 | enableDisable keeps a stack-neutral component neutral and its last call is Disable(cap) |
| Components3D.PushPopAttributeLog | penguin3D/component.cpp:474-478 | pushPopAttribute(mask) makes PushAttrib(mask), the component's calls, then PopAttrib |
| Components3D.PushPopAttributeBalanced | penguin3D/component.cpp:474-478 | pushPopAttribute around a neutral component is neutral and runs on every machine exactly as the component alone |
| Components3D.OnlyWhenLog | penguin3D/component.cpp:261-265 | a conditional component reads its condition once and is the child's update when it holds and nothing at all otherwise |
| Components3D.PolyOffsetLog | penguin3D/component.cpp:426-430 | polyOffset always enables and disables polygon-offset filling; only the glPolygonOffset call depends on the condition read before the component runs |
| Components3D.RotatableOrder | penguin3D/component.cpp:203-210 | Rotatable rotates about Z, then X, then Y, each only if its supplier is present, with the supplier's current value |
| Components3D.RotateBySkipsZero | penguin3D/component.cpp:522-526 | rotate(x, y, z) applies exactly the non-zero angles, Z then X then Y |
| Components3D.ScalableDefaultsToOne | penguin3D/component.cpp:161-167 | a missing scale supplier scales its axis by 1 |
| Components3D.UpdateEach | penguin3D/component.cpp:578-580 | the update loop appends exactly the components' combined log and leaves their combined memory |
| Components3D.Entity.constructor | penguin3D/component.cpp:558 | a new entity has no components |
| Components3D.Entity.AddComponent | penguin3D/component.cpp:566-568 | the component is appended last |
| Components3D.Entity.Destroy | penguin3D/component.cpp:560-564 | the destructor frees every component it was given, in insertion order |
| Components3D.Entity.Update | penguin3D/component.cpp:575-583 | the log grows by exactly the entity's effect and memory becomes its effect's memory |
| Components3D.Wrapper.constructor | penguin3D/component.cpp:589-591 | a new wrapper holds the core with both lists empty |
| Components3D.Wrapper.AddPrev | penguin3D/component.cpp:603-605 | appends to the before-list only |
| Components3D.Wrapper.AddNext | penguin3D/component.cpp:607-609 | appends to the after-list only |
| Components3D.Wrapper.LeftShift | penguin3D/component.cpp:611-614 | AddPrev, returning the same wrapper |
| Components3D.Wrapper.RightShift | penguin3D/component.cpp:616-619 | AddNext, returning the same wrapper |
| Components3D.Wrapper.Destroy | penguin3D/component.cpp:593-601 | the destructor frees the before-list then the after-list, never the core |
| Components3D.Wrapper.Update | penguin3D/component.cpp:621-631 | the log grows by exactly the wrapper's effect and memory becomes its effect's memory |
| Scene3D.ModeEntityLog | penguin3D/penguin.cpp:347-352 | wireFrameMode and solidMode disable lighting, then set the polygon mode to lines or to filled |
| Scene3D.ColorFlagLog | penguin3D/penguin.cpp:164-168 | ENABLE_COLOR_PENGUIN and DISABLE_COLOR_PENGUIN only set the colour flag on or off |
| Scene3D.WireFrameMode | penguin3D/penguin.cpp:347-348 | wireFrameMode is an entity of two leaves: disable lighting, then the polygon mode with lines |
| Scene3D.SolidMode | penguin3D/penguin.cpp:351-352 | solidMode is an entity of two leaves: disable lighting, then the polygon mode filled |
| Scene3D.SolidPass | penguin3D/penguin.cpp:1082-1083 | the solid pass wraps the penguin with ENABLE_COLOR_PENGUIN and solidMode before and nothing after |
| Scene3D.OutlinePass | penguin3D/penguin.cpp:1087-1093 | the outline pass wraps the penguin with the solid pass, DISABLE_COLOR_PENGUIN, black, wireFrameMode and polygonOffset(1, 2) before, and ENABLE_COLOR_PENGUIN after |
| Scene3D.LitSetup | penguin3D/penguin.cpp:1099-1105 | the METAL and MATTE set-up wraps the penguin with its six set-up components in the order of the source and nothing after |
| Scene3D.Lit | penguin3D/penguin.cpp:1097-1123 | the lit style is the set-up wrapper inside enableDisable(LIGHTING) inside enableDisable(LIGHT0), with enableDisable(COLOR_MATERIAL) outermost exactly when coloured materials are on |
| Scene3D.Styled | penguin3D/penguin.cpp:1078-1125 | every style is a wrapper: WIREFRAME and SOLID wrap the penguin after the colour flag and the mode entity, OUTLINED is the outline pass inside polygon-offset filling inside a colour-attribute push/pop, and METAL and MATTE are Lit with their finish |
| Scene3D.SolidPassLog | penguin3D/penguin.cpp:1082-1083 | SOLID sets the colour flag, disables lighting, fills polygons, then updates the penguin on the flagged memory |
| Scene3D.WireframePassLog | penguin3D/penguin.cpp:1079-1080 | WIREFRAME sets the colour flag, disables lighting, draws lines, then updates the penguin |
| Scene3D.PlainStylesLog | penguin3D/penguin.cpp:1079-1083 | the WIREFRAME and SOLID styles update the penguin once after the colour flag and the mode entity |
| Scene3D.OutlineTailEffect | penguin3D/penguin.cpp:1089-1092 | after the solid pass the outline pass clears the colour flag, sets black, draws lines and sets the polygon offset |
| Scene3D.OutlinePassLog | penguin3D/penguin.cpp:1085-1093 | the outline pass updates the penguin first with the flag set, then again with it cleared, and sets the flag again at the end |
| Scene3D.OutlinedTwoPasses | penguin3D/penguin.cpp:1085-1096 | OUTLINED draws the penguin twice, solid with colour then black wireframe, inside polygon-offset filling and a colour-attribute bracket |
| Scene3D.OffsetAttribLog | penguin3D/penguin.cpp:1094-1095 | the OUTLINED decorators open with PushAttrib and Enable(PolygonOffsetFill) and close with Disable and PopAttrib |
| Scene3D.LitSetupListEffect | penguin3D/penguin.cpp:1099-1105 | the METAL and MATTE set-up fills polygons, places and colours light 0 and sets the three material parameters, in that order, without touching memory |
| Scene3D.LitSetupEffect | penguin3D/penguin.cpp:1099-1105 | the set-up wrapper makes the set-up calls, then the penguin's |
| Scene3D.LightBracketLog | penguin3D/penguin.cpp:1106-1107 | enableDisable(LIGHTING) then enableDisable(LIGHT0) enables light 0 and lighting around the component and disables them in reverse order |
| Scene3D.LitLog | penguin3D/penguin.cpp:1097-1123 | METAL and MATTE enable lighting and light 0 (outermost colour-material when coloured materials are on) around the set-up and the penguin, and disable them in reverse |
| Scene3D.StyledNeutral | penguin3D/penguin.cpp:1078-1126 | every render style is stack-neutral when the penguin is |
| Scene3D.OutlinedNeutral | penguin3D/penguin.cpp:1085-1096 | OUTLINED is stack-neutral when both passes of the penguin are |
| Scene3D.OutlinedLogNeutral | penguin3D/penguin.cpp:1085-1096 | the OUTLINED log's brackets balance around two neutral passes |
| Scene3D.OutlineTailNeutral | penguin3D/penguin.cpp:1089-1092 | the outline set-up touches neither stack |
| Scene3D.ModeRestores | penguin3D/penguin.cpp:347-352 | the mode entities give back the machine they found |
| Scene3D.LitNeutral | penguin3D/penguin.cpp:1097-1123 | METAL and MATTE are stack-neutral when the penguin is |
| Scene3D.LitLogNeutral | penguin3D/penguin.cpp:1097-1123 | the lit log is neutral around a neutral penguin log |
| Scene3D.StarterOutlined | penguin3D/starterCode/penguinBackUpActual.cpp:1189-1205 | the starter's OUTLINED draws the bare outline pass and drops the decorated result |
| Scene3D.StarterLit | penguin3D/starterCode/penguinBackUpActual.cpp:1206-1237 | the starter's METAL and MATTE draw the set-up wrapper without the lighting bracket, with only the optional colour-material bracket |
| Scene3D.StarterOutlinedDropsBrackets | penguin3D/starterCode/penguinBackUpActual.cpp:1189-1205 | the starter's OUTLINED never enables polygon-offset filling or pushes colour attributes for a penguin that does neither, while penguin.cpp's OUTLINED opens with both |
| Scene3D.StarterLitNeverLights | penguin3D/starterCode/penguinBackUpActual.cpp:1206-1237 | the starter's lit styles never enable lighting for a penguin that does not, while penguin.cpp's do |
| Components2D.Zoomer.constructor | penguin2D/component.cpp:225 | the zoom factor is the one given |
| Components2D.Zoomer.SetF | penguin2D/component.cpp:238-241 | set_f changes only the factor |
| Components2D.Translator.constructor | penguin2D/component.cpp:249 | the offsets are the ones given |
| Components2D.Translator.SetX | penguin2D/component.cpp:267-270 | set_x changes only x |
| Components2D.Translator.SetY | penguin2D/component.cpp:272-275 | set_y changes only y |
| Components2D.Joint.constructor | penguin2D/component.cpp:89-93 | a joint holds its position, angle, child and mark flag as given |
| Components2D.Joint.SetA | penguin2D/component.cpp:100-103 | set_a changes only the angle |
| Components2D.Joint.SetY | penguin2D/component.cpp:115-118 | set_y changes only y |
| Components2D.Rectangle | penguin2D/component.cpp:16-20 | the corner rectangle keeps its corners and draws as a polygon |
| Components2D.CentredRectangle | penguin2D/component.cpp:22-27 | Rectangle(w, h) is centred on the origin with width w and height h and draws as a polygon |
| Components2D.Circle | penguin2D/component.cpp:187-188 | a circle keeps its centre and radius, with 90 points, filled |
| Components2D.UnitCircle | penguin2D/component.h:147 | Circle() is the unit circle at the origin |
| Components2D.Color | penguin2D/component.h:176-177 | a colour has alpha 1 unless given |
| Components2D.WithMode | penguin2D/component.cpp:42-45 | set_mode changes only the drawing mode |
| Components2D.WithSmoothness | penguin2D/component.cpp:195-198 | set_smoothness changes only the number of points |
| Components2D.MarkerLog | penguin2D/component.cpp:126-140 | the marker entity draws dark grey, then a 12-point line loop of radius 2 at the origin, inside a matrix push/pop |
| Components2D.AllRankedEach | penguin2D/component.cpp:65-68 | a component list is well formed exactly when each of its elements is |
| Components2D.RenderAllSnoc | penguin2D/component.cpp:65-68 | adding a component last makes its update come last |
| Components2D.RenderAllConcat | penguin2D/component.cpp:76-79 | the children of an entity update one after another in list order |
| Components2D.MarkerRestores | penguin2D/component.cpp:126-140 | the marker entity gives back the machine it found |
| Components2D.RenderNeutral | penguin2D/component.cpp:30-255 | every 2D component's update is stack-neutral |
| Components2D.RenderAllNeutral | penguin2D/component.cpp:76-79 | a list of components updated in order is stack-neutral |
| Components2D.EntityRestores | penguin2D/component.cpp:71-83 | an entity gives back the whole machine it found, current matrix included |
| Components2D.JointRestores | penguin2D/component.cpp:142-169 | a joint gives back the whole machine it found |
| Components2D.JointLogRestores | penguin2D/component.cpp:142-169 | the joint's two nested matrix brackets, with a neutral child and marker, restore the machine |
| Components2D.MarkerNeutral | penguin2D/component.cpp:159-165 | the optional marker inside its colour-attribute bracket is stack-neutral |
| Components2D.JointMarkerFrame | penguin2D/component.cpp:142-169 | the child is drawn translated then rotated about z; the marker is drawn after the rotation is popped, with only the joint's translation on top of the matrix it found |
| Components2D.JointMarkIff | penguin2D/component.cpp:159-165 | the marker is drawn exactly when the joint's mark flag is set |
| Components2D.ZoomerEffect | penguin2D/component.cpp:227-231 | a zoomer scales x and y by its factor and z by 1 |
| Components2D.TranslatorEffect | penguin2D/component.cpp:251-255 | a translator translates by (x, y, 0) |
| Components2D.RectangleOutline | penguin2D/component.cpp:30-39 | a rectangle draws exactly its four corners in the order (x1,y1), (x1,y2), (x2,y2), (x2,y1), so every edge is axis-parallel |
| Components2D.CentredRectangleOutline | penguin2D/component.cpp:22-39 | Rectangle(w, h) draws the polygon (-w/2,-h/2), (-w/2,h/2), (w/2,h/2), (w/2,-h/2) |
| Components2D.MarkerCache.constructor | penguin2D/component.cpp:128-129 | the marker entity is empty and not yet built |
| Components2D.MarkerCache.Get | penguin2D/component.cpp:126-140 | joint_marker fills the entity on the first call only and every call returns the same two-part marker entity |
| Components2D.Entity.constructor | penguin2D/component.cpp:55 | a new entity has no components |
| Components2D.Entity.AddComponent | penguin2D/component.cpp:65-68 | the component is appended last |
| Components2D.Entity.Destroy | penguin2D/component.cpp:58-63 | the destructor frees every child in order |
| Components2D.UpdateNode | penguin2D/component.cpp:30-255 | Update on any component makes exactly the calls Render specifies and keeps the marker cache valid |
| Components2D.UpdateChildren | penguin2D/component.cpp:71-83 | the entity loop makes its children's calls in insertion order |
| Components2D.UpdateJoint | penguin2D/component.cpp:142-169 | Joint::Update makes exactly the joint's specified log |
| Penguin2D.LimitsOrdered | penguin2D/penguin.cpp:59-116 | every minimum limit is at most its maximum, so every spinner range is non-empty |
| Penguin2D.BlendWithin | penguin2D/penguin.cpp:584-595 | for o in [0, 1] the animate blend stays within [min, max]; it is max at 0 and min at 1 |
| Penguin2D.NewPartJoint | penguin2D/penguin.cpp:250-351 | one body part: an entity filled with its parts in order, wrapped by a marking joint at the given position and angle |
| Penguin2D.NewJoints | penguin2D/penguin.cpp:250-351 | main's eight joints are distinct, wrap the parts main adds, mark their pivots and start at main's positions and angles |
| Penguin2D.RootOrder | penguin2D/penguin.cpp:353-359 | the root scales by the zoom factor, translates, then draws the body joint |
| Penguin2D.BodyOrder | penguin2D/penguin.cpp:344-349 | the body draws its colour and circle, then the head, hand, left-leg and right-leg joints |
| Penguin2D.MouthLast | penguin2D/penguin.cpp:256-278 | the mouth joint is the head's last part, so the mouth is drawn after every other head part |
| Penguin2D.NewRoot | penguin2D/penguin.cpp:353-359 | the penguin entity holds the zoomer, the translator and the body joint, in that order |
| Penguin2D.Puppet.constructor | penguin2D/penguin.cpp:214-359 | main builds the whole tree with zoom 1, no translation, and every handle within its spinner range |
| Penguin2D.Puppet.Animate | penguin2D/penguin.cpp:584-610 | animate moves the translator, the hand, leg and feet angles and the mouth height to their blends, leaves the body, head and mouth angles, the zoom and every joint position but the mouth height unchanged, keeps every handle in its spinner range and counts one frame |
| Penguin2D.Puppet.AnimateButton | penguin2D/penguin.cpp:409-421 | the frame count restarts at 0 and the idle callback is installed exactly when animate mode is on |
| Penguin2D.Puppet.Draw | penguin2D/penguin.cpp:639-659 | display's update of the penguin scales, translates, draws the body joint and gives back the machine |
| Keyframes.Plus | penguin3D/penguin.cpp:984-985 | vector sum, componentwise |
| Keyframes.Minus | penguin3D/penguin.cpp:970-978 | vector difference, componentwise |
| Keyframes.Times | penguin3D/penguin.cpp:971-978 | scaling by a constant, componentwise |
| Keyframes.Hermite | penguin3D/penguin.cpp:982-987 | the curve has one entry per DOF, each the scalar cubic with the coefficients a2 = -3p0 + 3p1 - 2t0 - t1 and a3 = 2p0 - 2p1 + t0 + t1, in Horner form |
| Keyframes.HermiteEnds | penguin3D/penguin.cpp:982-987 | the curve is p0 at u = 0 and p1 at u = 1 |
| Keyframes.ScanFrom | penguin3D/penguin.cpp:945-947 | the scan stops at the least index past the watermark or whose time is not before t |
| Keyframes.Scan | penguin3D/penguin.cpp:945-947 | the scan stops at most one past the watermark; every key before it is valid and before t, and a valid key where it stops is not before t |
| Keyframes.SegmentParam | penguin3D/penguin.cpp:959-960 | inside the keyed range the segment parameter lies in (0, 1], and is 1 at the time of the key ending the segment |
| Keyframes.Tangents | penguin3D/penguin.cpp:967-979 | the tangents of a segment have one entry per DOF |
| Keyframes.PoseAt | penguin3D/penguin.cpp:939-988 | the interpolated pose has one entry per DOF |
| Keyframes.ClampEnds | penguin3D/penguin.cpp:949-957 | the scan stops at 0 exactly when t is at or before the first key, and past the watermark exactly when every key is before t; those cases return the first and last valid pose |
| Keyframes.InteriorSegment | penguin3D/penguin.cpp:959-960 | inside the keyed range time[i-1] < t <= time[i], the denominator is positive and u lies in (0, 1], with no ordering of the times needed |
| Keyframes.HitsRightKey | penguin3D/penguin.cpp:982-987 | at the time of the key ending the segment, the pose is that key's |
| Keyframes.ScanFindsKey | penguin3D/penguin.cpp:945-947 | with increasing times, the scan for a key's own time stops at that key |
| Keyframes.InterpolatesKeys | penguin3D/starterCode/penguinBackUpActual.cpp:988-1043 | with increasing times, the curve passes through every valid keyframe's pose |
| Keyframes.ReadsInBounds | penguin3D/penguin.cpp:945-979 | the scan stops at most one past the watermark, inside the 32-slot array, so the slots PoseAt and Tangents read lie in the array |
| Keyframes.FirstSegmentReadsPastWatermark | penguin3D/penguin.cpp:968-971 | with two keyframes the first segment's end tangent is the centred difference through slot 2, past the watermark |
| Keyframes.PoseDependsOnSlotPastWatermark | penguin3D/penguin.cpp:968-971 | changing slot 2 with the watermark at 1 changes the pose halfway between keys 0 and 1 |
| Keyframes.FrameTime | penguin3D/penguin.cpp:1044-1050 | the frame time is the elapsed time or the reading after the restart, and is before the last key when that reading is |
| Keyframes.FrameTimeBeforeLastKey | penguin3D/penguin.cpp:1044-1052 | when the reading after a restart is before the last key, every frame time is before it and the past-the-end clamp is never used |
| Keyframes.RealTokens | penguin3D/penguin.cpp:591-592 | one real token per DOF, in order |
| Keyframes.SaveTokens | penguin3D/penguin.cpp:578-595 | the saved token stream is never empty and starts with the watermark |
| Keyframes.ParseReals | penguin3D/penguin.cpp:554-555 | a successful read of n reals gives n values and the tokens after the first n |
| Keyframes.ParseRecord | penguin3D/penguin.cpp:550-556 | a successful record read has one DOF per joint and consumes the id, the time and those DOFs |
| Keyframes.ParseRecords | penguin3D/penguin.cpp:550 | a successful read of count records gives count records, each with one DOF per joint |
| Keyframes.ParseFile | penguin3D/penguin.cpp:542-556 | a successful read gives one record per slot from 0 to the watermark read |
| Keyframes.ParseRecordRoundTrip | penguin3D/penguin.cpp:550-556 | a record reads back as the keyframe that was written |
| Keyframes.SaveLoadRoundTrip | penguin3D/starterCode/penguinBackUpActual.cpp:573-647 | loading what was saved gives back the watermark and slots 0 to the watermark |
| Keyframes.LoadSlotsAsWritten | penguin3D/penguin.cpp:542-556 | the source's load loop writes slots 0 to m for whatever m the file holds |
| Keyframes.LoadAsWrittenOverruns | penguin3D/penguin.cpp:542-556 | a file starting with 32 makes that loop write slot 32, past the array; one starting with -1 leaves a negative watermark |
| Keyframes.ParsedSized | penguin3D/penguin.cpp:553-555 | every record read has one DOF per joint |
| Keyframes.KeyframeTable.constructor | penguin3D/starterCode/penguinBackUpActual.cpp:488-497 | initDS gives every slot the blank keyframe with its own index as id |
| Keyframes.KeyframeTable.LoadKeyframe | penguin3D/penguin.cpp:492-509 | the user-interface keyframe becomes a copy of its slot; the table is unchanged |
| Keyframes.KeyframeTable.UpdateKeyframe | penguin3D/penguin.cpp:511-528 | the slot becomes the user-interface keyframe, the watermark moves to it (down as well as up) and no other slot changes |
| Keyframes.KeyframeTable.Interpolate | penguin3D/penguin.cpp:939-988 | the loop and the branches after it compute PoseAt on the table |
| Keyframes.KeyframeTable.ScanKeys | penguin3D/penguin.cpp:945-947 | the while loop stops where Scan says |
| Keyframes.KeyframeTable.SegmentTangents | penguin3D/penguin.cpp:967-979 | the tangent branches compute Tangents on the table |
| Keyframes.KeyframeTable.AnimationStep | penguin3D/penguin.cpp:1044-1053 | the timer restarts exactly when the elapsed time reaches the last key's time; the user-interface keyframe takes the frame time and the interpolated pose at it; the table is unchanged |
| Keyframes.KeyframeTable.Save | penguin3D/penguin.cpp:568-603 | the tokens written are the watermark then each valid record, or nothing when the file cannot be opened |
| Keyframes.KeyframeTable.Load | penguin3D/penguin.cpp:532-565 | loading succeeds exactly when the file opens and holds a well-formed record list; then slots 0 to m take the records, no other slot changes and the watermark becomes m, which lies in the array; otherwise nothing changes |
| Keyframes.KeyframeTable.CopyIn | penguin3D/penguin.cpp:550-556 | the load loop overwrites slots 0 to n-1 in order and keeps the rest |
| Keyframes.KeyframeTable.SaveThenLoad | penguin3D/starterCode/penguinBackUpActual.cpp:573-647 | saving and loading back restores the table, its watermark and the user-interface keyframe |
| Image.Decimal | penguin3D/image.cpp:18 | a "%d" numeral is a non-empty run of digits |
| Image.DecimalReads | penguin3D/image.cpp:26 | a numeral followed by a space reads back as its value |
| Image.HeaderReads | penguin3D/image.cpp:18 | the header is "P", the magic number, then the width, height and 255 as numerals |
| Image.FitsIff | penguin3D/image.cpp:81-89 | the buffer holds w * h pixels of 1 or 4 bytes each |
| Image.RowSampleAt | penguin3D/image.cpp:51-55 | sample c of pixel x of row y is byte (y * w + x) * stride + c of the buffer |
| Image.LineAt | penguin3D/image.cpp:19-29 | line r of the body is buffer row h - 1 - r, raw or as "%d " cells and a newline |
| Image.Lines | penguin3D/image.cpp:19-29 | the body has one line per buffer row |
| Image.RawPayload | penguin3D/image.cpp:47-57 | the raw body holds samples * w * h bytes, rows flipped, RGBA narrowed to RGB |
| Image.ReadsInside | penguin3D/image.cpp:20-62 | every index the writers read lies inside the w * h pixel buffer |
| Image.AsciiMatchesRaw | penguin3D/image.cpp:58-70 | the ASCII body reads back number by number as exactly the raw body's samples |
| Image.PgmAsciiReads | penguin3D/image.cpp:22-30 | the ASCII grey body reads back as the pixel values, rows flipped |
| Image.WritePgm | penguin3D/image.cpp:9-33 | writePGM writes the header and the rows top down, raw or ASCII, or nothing when the file cannot be opened |
| Image.PgmRawRow | penguin3D/image.cpp:20 | the fwrite of a row writes its w bytes |
| Image.PgmRow | penguin3D/image.cpp:17-30 | one row of writePGM: its w grey samples, raw or as "%d " cells and a newline |
| Image.PgmAsciiRow | penguin3D/image.cpp:25-28 | each pixel as "%d " then a newline |
| Image.GreyIndex | penguin3D/image.cpp:26 | pixel x of row y of a grey buffer is byte x + y * w |
| Image.WritePpm | penguin3D/image.cpp:39-73 | writePPM writes the header and each pixel's red, green and blue, raw or ASCII, rows top down, or nothing when the file cannot be opened |
| Image.ColourIndex | penguin3D/image.cpp:51-55 | pixel x of row y of a colour buffer is bytes 4 * (x + y * w) + 0, 1, 2 |
| Image.PpmRow | penguin3D/image.cpp:50-68 | one row of writePPM: three samples per pixel, raw or as "%d %d %d " and a newline |
| Image.AsciiTriple | penguin3D/image.cpp:64-66 | one "%d %d %d " is three "%d " cells |
| Image.StarterPgmIgnoresPixels | penguin3D/starterCode/penguinBackUpActual.cpp:1449-1458 | the starter's ASCII grey file is the same for a black (0) and a white (255) pixel, while image.cpp's reads back 0 and 255 |
| Image.FrameWriter.constructor | penguin3D/image.cpp:78-79 | no buffer and size -1 before the first frame |
| Image.FrameWriter.WriteFrame | penguin3D/image.cpp:77-103 | the buffer is reallocated exactly when it is missing or of another size, then holds the frame, and the binary file of it is written |

## Left out

- GL, GLUT and GLUI calls are abstract events in a log. Window set-up, callbacks, spinner wiring, camera and mouse handling, and GL constant values are not modelled.
- Vertex arithmetic is not modelled: Circle and CircleComponent use sin/cos, and Cuboid's normals and vertices are abstracted. Cuboids, discs, circles and wire spheres are single `Draw` events that carry their parameters.
- Floats are `real`. IEEE rounding, the bit-exactness of the interpolation and float-to-text conversion (`%f`) are not modelled.
- Penguin2D.Puppet.Animate takes the oscillation value as a parameter in [0, 1]. It stands for (sin(frame * 0.1) + 1) / 2.
- The Timer is not modelled. Elapsed times are parameters.
- The usleep between animation frames is not modelled.
- The light position (cosf/sinf of the light angle) is a parameter.
- Files are modelled only at the level of their tokens (keyframes) and bytes (images). fopen success is a parameter, and fscanf/fprintf text is not modelled.
- Image.WritePgm and Image.WritePpm open their files in mode "wt" (penguin3D/image.cpp:10, 40). The byte model assumes no newline translation: on a C library that translates newlines in text mode, payload bytes of value 10 in a raw P5/P6 file would be rewritten, and that is not modelled.
- Keyframes.KeyframeTable.Load validates the whole token stream before writing. On a truncated or mistyped file the source writes the fields it managed to read, and the model writes nothing.
- Keyframes.KeyframeTable.Load also rejects a watermark outside [0, 32). The source documents that it assumes a well-formed file and does not check (penguin3D/penguin.cpp:531), so this is hardening beyond that precondition. The as-written behaviour is Keyframes.LoadSlotsAsWritten; see Findings.
- The interpolation follows the code where it differs from the stated intent that slots past the watermark are ignored. The i == 1 branch reads slot 2 even when the watermark is 1 (Keyframes.FirstSegmentReadsPastWatermark, Keyframes.PoseDependsOnSlotPastWatermark). Everything else is in range.
- `keyframe.h`, `vector.h` and `timer.h` are not part of this model. A Keyframe is (id, time, DOF vector), the number of DOFs is the table's `dofCount`, and the vector operations are componentwise.
- The initDS call in penguin3D/penguin.cpp is commented out and its watermark starts at 10. The table constructor follows the starter's initDS, with the watermark at 0.
- Image.FrameWriter.WriteFrame writes the binary variant only, as writeFrame does. glReadBuffer's front/back choice and glReadPixels are parameters.
- Image.StarterPgmAscii takes the text "%p" prints for an address as a parameter, because it is up to the C library.
- The starter's copies of writePPM and writeFrame are identical to image.cpp, and the starter's interpolation, keyframe handlers and save/load match penguin3D/penguin.cpp. They are modelled once.
- Memory management is not modelled: the per-frame heap leaks of wrap() in display, and the double free when a wrapper in a destructor chain owns the global entities. Destroy returns the components freed instead of freeing them.
- The Joint destructor is empty, so a joint frees nothing. A joint refers to its child by the value the child had when the joint was built. This is exact here, because main completes every entity before wrapping it.
- The 3D Components3D.Entity and Components3D.Wrapper hold their components as values, where the source holds `Component*` pointers: display re-wraps the penguin in new wrappers (penguin3D/penguin.cpp:1078-1125) and shares `&solidMode` and `&wireFrameMode` between them. Sharing is not modelled. This is exact here, because nothing is changed after it is wrapped.
- The comment on the 2D Translator constructor says "Default is 1", but its defaults are (0, 0). The model follows the code.
- The comment on polyOffset says everything but the component is disabled when the condition is false. The code skips only the glPolygonOffset call, and Components3D.PolyOffsetLog states what the code does.
- glShadeModel in METAL and MATTE, the material constants' meaning and the 3D penguin's body geometry in main are not modelled. The penguin is any component.
- Scene3D.StyledNeutral requires the penguin to be stack-neutral on every memory, instead of deriving it from the 3D penguin's construction in main. The body parts in main are not modelled.

## Findings

| source | as written | input that shows it | evidently intended | confidence | as-written member | corrected member |
|---|---|---|---|---|---|---|
| penguin3D/starterCode/penguinBackUpActual.cpp:1189-1205 | OUTLINED evaluates `enableDisable(..)->pushPopAttribute(..)` on the outline pass, drops the result and draws the bare pass | any penguin that does not itself enable polygon-offset filling: Enable(PolygonOffsetFill) and PushAttrib(ColorBufferBit) never occur | draw the decorated pass, as penguin3D/penguin.cpp:1085-1096 does | not executed | Scene3D.StarterOutlinedDropsBrackets | Scene3D.OutlinedTwoPasses |
| penguin3D/starterCode/penguinBackUpActual.cpp:1206-1237 | METAL and MATTE drop the result of `enableDisable(GL_LIGHTING)->enableDisable(GL_LIGHT0)` | any penguin that does not itself enable lighting: lighting is never enabled | lighting and light 0 enabled around the set-up and the penguin, as penguin3D/penguin.cpp:1097-1123 does | not executed | Scene3D.StarterLitNeverLights | Scene3D.LitLog |
| penguin3D/penguin.cpp:530-556 | the handler is documented to assume a well-formed file (line 531: no error checking), and the watermark read bounds the load loop with no check against the array | a file whose first token is 32 (slot 32 written past the array), or -1 (negative watermark that display then uses as an index) | hardening beyond that documented precondition: reject a watermark outside [0, 32), so a malformed file cannot write outside the array | not executed | Keyframes.LoadAsWrittenOverruns | Keyframes.KeyframeTable.Load |
| penguin3D/starterCode/penguinBackUpActual.cpp:1449-1458 | ASCII writePGM prints each pixel's address (`%p`) instead of its value | a 1 x 1 black frame and a 1 x 1 white frame give the same file | print the value, as penguin3D/image.cpp:26 does | not executed | Image.StarterPgmIgnoresPixels | Image.PgmAsciiReads |
