# Verification of the Tomoe compositor core

This project models the algorithms and protocols at the centre of Tomoe, a Wayland compositor, and proves what they
promise, for every input and over every run:

- **Partial repaint** (`Boxes`, `Painting`, `Damage`, `Diff`, `Frames`, `Exactness`, `Ring`). A frame is a list of draw
  operations. It is compared with the last one, the damage goes into an eight-frame history, and a buffer that was drawn
  some frames ago is repainted only inside the damage since then, closed under the areas that operations read. The main
  result is that every ring buffer holds the full painting of the frame it is marked with, exactly as far as the code
  keeps that promise. An operation is an abstract painter, and a pixman region is a set of pixels.
- **Sound hand-over** (`Sound`, `SoundMemory`, `SoundRing`, `SoundFlow`). The lock-free protocol between the compositor thread and the
  audio thread, as interleaved atomic steps under sequential consistency. Freed addresses may be handed out again. The main
  results are that every bank has one owner, is freed once and is never used afterwards, and that the trigger ring with
  its wrapping counters is a first-in first-out queue.
- **Keys and bindings** (`Bindings`, `Keys`, `Tending`, `Publishing`, `Replacing`, `Input`). Several keyboards, latched
  bindings with reference counts, the merged keyboard, and what the focused client believes to be down. A whole binding
  list can be replaced while keys are held.
- **Layer layout** (`FixedPoint`, `Folding`, `Layers`, `LayerLaws`, `LayerCheck`, `LayerOrder`). Exclusive zones in two passes, in
  1/120 fixed-point arithmetic with its clamps and saturation.
- **Outputs** (`OutputLayout`, `OutputRequests`). Automatic placement with mirrors, and output requests that arrive while
  a configuration is being applied.
- **Geometry** (`Positioner`, `Transform`). The `xdg_positioner` adjustments, and the eight `wl_output.transform` values
  as a group acting on boxes.
- **Session lock** (`Lock`). The state machine of `ext-session-lock-v1`.

Classes hold the state that the source updates in place, with loops where the source loops. Each method is proved against
functions and predicates on values, and lemmas state what those mean. `Options`, `Pointers` and `Ids` hold the option type,
addresses and identifier counters.

## Where the code falls short

Some promises do not hold on every input. The model keeps the code as it is and proves exactly when they hold:

- The comparison of two frames tests box against box for operations that changed places
  (`native/render.c:963-970`), so a swap inside a backdrop that an operation reads can go unseen. `Exactness.FrameStepExact`
  gives the exact condition and `Exactness.UnseenSwap` an input that shows it.
- The clip is replaced by its extents after it was closed under the reaches (`native/space.c:496-500`), and the extents
  need not be closed. `Exactness.RepaintExact` gives the exact condition and `Exactness.ExtentsReadLate` an input.
- The one-pixel margin of the content damage (`native/render.c:928-933`) suffices exactly up to a threefold enlargement
  when the recorded box is the rectangle drawn (`Damage.PlainMarksIff`). `effect_texture` records a box one pixel larger
  on every side (`native/effects.c:47-58`, `native/effects.c:109-120`), and for those it suffices exactly without
  enlargement (`Damage.GrownMarksIff`). `Damage.PlainTextureMissed` and `Damage.GrownTextureMissed` give inputs.
- A frame whose recording fails repaints a buffer and leaves its old mark (`native/space.c:465-469`), so the mark is wrong
  unless both frames look the same: `Ring.Output.RenderUnrecorded`.
- `edges_invert` (`native/base.c:402-408`) flips nothing when both axes are asked for and the anchor sits on a single
  edge: `Positioner.EdgesInvertExact`.
- Logical exclusive zones survive the trip through physical pixels exactly for scales of at least 120/120, and for those
  that are not positive, which count as 120/120: `FixedPoint.ZonesSurviveIff`, with an input in
  `FixedPoint.ZoneLostAtHalfScale`.
- In the screenshot and grab modes the release of a key that the client holds is not passed on
  (`native/input.c:1646-1674`). `Input.Input.Key` says exactly when the client gets out of step, and
  `Input.ScreenshotSwallows` gives an input.
- A successful apply clears the waiting requests it captured when no newer one came (`native/output.c:916`,
  `native/output.c:989-998`), also where the committed state differs from what they ask: a request came after
  `tomoe_outputs_begin`, `tomoe_output_hold` copied the state anew (`native/output.c:798-823`), a setting of the same field
  contradicts the request (`native/output.c:741-780`), or the output is disabled and its mode and adaptive sync are
  stripped (`native/output.c:630-634`). `OutputRequests.LosesIff` and `OutputRequests.KeptIff` say exactly when, in terms
  of what a caller sees, and `OutputRequests.LateRequestLost`, `OutputRequests.HeldRequestLost`,
  `OutputRequests.SetUpAfterHoldLost`, `OutputRequests.OverriddenRequestLost` and `OutputRequests.DisabledRequestLost`
  give an input for each case.
- A popup that was clipped and is unconstrained again takes the place of a flip from the full size of its rules
  (`native/base.c:450-467`), so the recorded overflow is wrong exactly when an axis of another size takes a flipped place
  and nothing slides after: `Positioner.RecordExactIff`. `Positioner.ClippedPopupDrifts` gives an input that ends away
  from its anchor rectangle.

## Model

| member | source | states |
|---|---|---|
| Boxes.Intersection | native/base.c:68-81 | the overlap has exactly the common pixels, and is empty exactly when there are none |
| Boxes.EqualIffSamePixels | native/base.c:63-66 | boxes compare equal exactly when they cover the same pixels, empty ones included |
| Painting.TouchesNeighbours | native/render.c:920-934 | a texel has a positive bilinear weight exactly when the sample lies within one texel of its centre |
| Damage.PlainMarksIff | native/render.c:928-933 | when the recorded box is the rectangle drawn, the marked range holds every pixel sampling a changed texel if and only if the scale is at most 3, for each width |
| Damage.GrownMarksIff | native/effects.c:47-58 | when the recorded box is one pixel larger on every side, the same holds if and only if the scale is at most 1, for each width |
| Damage.PlainTextureMissed | native/render.c:920-934 | a concrete plain texture enlarged fourfold whose content damage misses a pixel |
| Damage.GrownTextureMissed | native/effects.c:109-120 | a concrete rounded window enlarged 2.5-fold whose content damage misses a pixel |
| Damage.ContentDamageSound | native/render.c:920-934 | within the scale limit of its kind, an operation sees the same texels at both commits outside its content damage |
| Damage.ContentDamageTight | native/render.c:920-934 | content damage stays in the box and, when the changed texels are known, within one pixel of where they land |
| Diff.FindExhaustive | native/render.c:947-955 | a search from the moving cursor that finds nothing has tried every unused old operation |
| Diff.FindNearest | native/render.c:947-955 | the search stops at the first free old operation with the hash, going round from the cursor |
| Diff.RunsStayTogether | native/render.c:947-955 | the search for an operation begins behind the partner of the one before, so runs are paired as runs |
| Diff.FindPair | native/render.c:947-955 | the cursor loop finds what the specification search finds |
| Diff.PairUpMatches | native/render.c:945-955 | the pairing is a hash-preserving partial injection, maximal for each hash |
| Diff.SameHashesPairInPlace | native/render.c:945-955 | lists with the same hashes are paired in place through the moving cursor, repeated hashes included |
| Diff.MatchOps | native/render.c:945-960 | the first loop pairs operations and damages exactly new boxes and changed contents |
| Diff.MarkOld | native/render.c:961-962 | exactly the boxes of unmatched old operations are added |
| Diff.MarkOrder | native/render.c:963-971 | exactly the overlaps of pairs that changed places are added |
| Diff.OplistDamage | native/render.c:936-975 | the damage is exactly what the pairing leaves unexplained; lists that lost operations cannot be compared |
| Diff.SameListUndamaged | native/render.c:936-975 | equal lists give empty damage |
| Diff.OplistExpand | native/render.c:977-990 | terminates with the least superset in which every reach is wholly inside or disjoint |
| Diff.NoPartIsClosed | native/render.c:977-990 | a region in which no reach is partly contained is closed |
| Frames.OldPartner | native/render.c:961-971 | outside the damage, an old operation over a pixel has a partner over it |
| Frames.BackdropAligned | native/render.c:936-990 | the backdrop of an operation outside the region is the same at aligned prefixes of both lists |
| Frames.AlignedSame | native/render.c:936-990 | aligned prefixes paint the same colour at a pixel outside the region |
| Frames.FrameStep | native/render.c:936-990 | outside the expanded damage the old and the new list paint the same pixels |
| Exactness.FrameStepExact | native/render.c:963-971 | the damage is right for every shader if and only if swaps inside backdrops are covered |
| Exactness.UnseenSwap | native/render.c:963-971 | a concrete pair of lists whose swap is not seen |
| Exactness.DamagedIff | native/render.c:936-975 | without repeated hashes a pixel is damaged if and only if the operations over it, their order, or their contents there changed |
| Exactness.Repaint | native/space.c:549-557 | painting inside the clip over a buffer right outside it gives the full painting |
| Exactness.RepaintExact | native/space.c:494-501 | a partial repaint is right for every shader and buffer if and only if nothing drawn reads a later pixel outside the clip |
| Exactness.ReachClosedNoLateReads | native/space.c:492-493 | a reach-closed clip, cut to the buffer, reads nothing late |
| Exactness.ExtentsReadLate | native/space.c:494-500 | a concrete clip whose extents read late |
| Ring.StepBack | native/space.c:490-492 | going back one frame outside the region changes no pixel and keeps the region safe |
| Ring.Chain | native/space.c:490-492 | the damage of any number of frames composes |
| Ring.RepaintSince | native/space.c:486-502 | a buffer holding frame g, painted inside the closed damage since g, holds the newest frame |
| Ring.Extents | native/space.c:496-500 | the bounding box holds the region and is tight on all four sides |
| Ring.Output.constructor | native/space.c:461-470 | a fresh output satisfies the invariant with no frame drawn |
| Ring.Output.Configure | native/render.c:1291-1308 | dropping the buffers forgets what they held, so that none can be wrong, and keeps the history |
| Ring.Output.Release | native/base.c:219-223 | a released buffer has one lock less, the others keep theirs |
| Ring.Output.Acquire | native/render.c:1316-1331 | an unlocked buffer, else a new one in an empty slot, else a failure because all are held |
| Ring.Output.Compare | native/space.c:470-482 | the recorded list replaces the old one and exact damage, or everything, enters the history; the first frame after the ring was configured is compared without any assumption on its hashes |
| Ring.Output.Since | native/space.c:490-491 | the union read modulo 8 is the damage of exactly the frames since the buffer was drawn |
| Ring.Output.Clip | native/space.c:490-501 | the clip is the least reach-closed region with the damage of exactly the frames since then, cut to the buffer, or the bounding box of that when it needs more than 16 rectangles; only then can there be late reads |
| Ring.Output.SceneDamage | native/space.c:470-502 | marks the buffer, enters the exact damage of the comparison, and repaints partially, in that clip, exactly when the comparison and the history allow it |
| Ring.Output.RenderScene | native/space.c:511-580 | over every run each buffer known to be right holds the full painting of its frame; a full repaint makes it right, a partial one if it was right, each comparison since met its conditions and nothing reads late; a partial repaint keeps every pixel outside the clip |
| Ring.Output.RenderUnrecorded | native/space.c:464-469 | a frame that is not recorded paints everything and leaves the mark, which is right if and only if both frames look the same |
| Ring.Output.Draw | native/space.c:549-557 | one pass leaves the buffer with the full painting of the newest frame, and a partial one touches nothing outside the clip |
| Transform.ComposeActs | native/base.c:118-124 | transforming by the composition is transforming by the second and then by the first |
| Transform.InvertUndoes | native/base.c:112-116 | the inverse with the mapped size restores every box and size |
| Transform.ActionFaithful | native/base.c:83-103 | different codes act differently |
| Transform.QuarterTurn | native/base.c:83-103 | code 1 turns clockwise: the left side comes to the top and the top to the right |
| Transform.Flip | native/base.c:83-103 | code 4 exchanges left and right |
| Transform.Generated | native/base.c:118-124 | the other codes are turns, and turns followed by the flip |
| Transform.ComposeAssociative | native/base.c:118-124 | composition is associative |
| Transform.InverseInGroup | native/base.c:112-124 | a code composed with its inverse is the identity |
| Transform.ApplyStaysInside | native/base.c:83-103 | a box inside the area stays inside the mapped area |
| Positioner.EdgesInvert | native/base.c:402-408 | the table loop gives the first entry with the flipped edges, or the anchor itself |
| Positioner.EdgesInvertExact | native/base.c:402-408 | flips the chosen axes if and only if not both are asked of an anchor on a single edge |
| Positioner.FlipReflects | native/base.c:410-423 | opposite anchor and gravity mirror the placement about the anchor rectangle |
| Positioner.AnchorSides | native/base.c:390-400 | which anchor and gravity values stand for which sides |
| Positioner.GeometryTouches | native/base.c:410-423 | on both axes the box meets the anchor point of the rectangle with the side that its gravity turns away from |
| Positioner.SlideContains | native/base.c:436-439 | sliding contains a span exactly when it is no longer than the constraint |
| Positioner.SlideStops | native/base.c:436-439 | a span that fits is moved to the end it sticks out of, and no further |
| Positioner.SlideTooLong | native/base.c:436-439 | a span too long keeps the end its gravity points at inside |
| Positioner.ClipIntersects | native/base.c:486-495 | resizing an axis intersects it with the constraint |
| Positioner.FlipStage | native/base.c:446-468 | a tried flip that fits gives an axis its place and its recorded overflow, but not its size; the record is the overflow of the new box if and only if no axis of another size than the rules took a flipped place |
| Positioner.SlideStage | native/base.c:470-479 | the slide moves the axes with recorded overflow; the record is right after it if and only if it was before or anything slid |
| Positioner.ResizeStage | native/base.c:481-495 | clips the axes with recorded overflow, both or none, unless nothing would be left |
| Positioner.Unconstrain | native/base.c:441-496 | from any box the stages give the specified one, which never grows; from the placement of the rules it is that of each axis on its own |
| Positioner.FromGeometry | native/base.c:441-496 | from the placement of the rules the recorded overflow is that of the current box after the flip and after the slide, so each axis can be taken on its own |
| Positioner.RecordExactIff | native/base.c:441-496 | from any box, the record is right after the flip if and only if no axis of another size took a flipped place, and after the slide also when anything slid |
| Positioner.ClippedPopupDrifts | native/base.c:441-496 | a concrete popup, clipped once, whose record is wrong and that ends away from its anchor rectangle |
| Positioner.NeverGrows | native/base.c:441-496 | no adjustment enlarges a box, and a contained one is left alone |
| Positioner.SlidesContainFrom | native/base.c:441-496 | both slide bits contain every box no larger than its rules and the constraint, a box clipped before included |
| Positioner.SlidesContain | native/base.c:441-496 | both slide bits contain every box no larger than the constraint |
| Positioner.ResizesContain | native/base.c:441-496 | both resize bits contain the box exactly when it still meets the constraint, and clip it to it |
| Positioner.UnadjustedAxisStays | native/base.c:441-496 | an axis without adjustment bits never changes |
| Positioner.FlipTaken | native/base.c:446-468 | a one-sided overflow ends at the mirrored place when that fits |
| Positioner.FlipTakenDown | native/base.c:446-468 | the same on the vertical axis |
| Positioner.FlipOnlyOneSided | native/base.c:446-468 | an axis that overflows on no side or on both is not flipped |
| FixedPoint.NearestIs | native/layer.c:57-74 | the rounded quotient is within half a unit, halves away from zero |
| FixedPoint.LogicalToPhysicalMonotone | native/layer.c:91-96 | monotone on every input, saturation included |
| FixedPoint.LogicalToPhysicalOdd | native/layer.c:91-96 | odd on every input, saturation included |
| FixedPoint.WidthWithinOne | native/layer.c:410-422 | the width between two rounded edges is within one pixel of exact |
| FixedPoint.ZoneResolved | native/layer.c:102-107 | without an override a surface keeps its own zone, with one it is the nearest logical length that fits |
| FixedPoint.ZoneSurvives | native/layer.c:102-107 | at scales of at least 120 every zone whose physical value fits an int is unchanged after the trip |
| FixedPoint.ZonesSurviveIff | native/layer.c:102-107 | for every int scale, all expressible zones survive if and only if the effective scale is at least 120 |
| FixedPoint.ZoneLostAtHalfScale | native/layer.c:102-107 | a concrete zone that comes back doubled at scale 60 |
| FixedPoint.FloorFits | native/layer.c:141-148 | the logical size of an output never sticks out of its physical size, and one more unit would before rounding |
| Layers.ExclusiveEdge | native/layer.c:109-139 | an edge exactly for a positive zone with a mask attached to one edge, and then that edge |
| Layers.ChosenEdge | native/layer.c:109-139 | a client that sets an exclusive edge gets that edge, whatever its anchors |
| Layers.Axis | native/layer.c:150-194 | the gaps to the bounds are the margins on anchored or unsized sides, otherwise the surface is centred to within one unit |
| LayerCheck.AdjacentStayAdjacent | native/layer.c:410-422 | logically adjacent boxes stay exactly adjacent in physical pixels |
| LayerCheck.EdgesRounded | native/layer.c:410-422 | without saturation the four physical edges are the rounded logical edges |
| LayerCheck.InRangeIff | native/layer.c:542-586 | nothing saturates exactly when the clamps change none of the four numbers |
| Layers.PlanLayer | native/layer.c:394-425 | one layer of one pass handles its surfaces once, each in the plan left by those before |
| Layers.PlanPass | native/layer.c:393-425 | one pass goes from the overlay layer down |
| Layers.PlanLayers | native/layer.c:392-426 | the two passes place every planned surface once in the specified order and touch nothing else |
| LayerOrder.OrderSorted | native/layer.c:393-397 | exclusive surfaces come first, then higher layers, then earlier entries of the list |
| LayerOrder.HandledBefore | native/layer.c:393-397 | what is handled before a surface is exactly what comes before it in that sense |
| LayerOrder.UnzonedInFinal | native/layer.c:392-426 | a planned surface without an exclusive zone is placed in the usable area left in the end, or in the whole output for zone -1 |
| LayerOrder.ZonedInLeft | native/layer.c:392-426 | a surface with a zone is placed in the output less what exactly the exclusive surfaces before it take |
| LayerOrder.TakenBefore | native/layer.c:392-425 | what has been taken when a surface is placed is the sum over exactly those before it |
| LayerOrder.GeometrySides | native/layer.c:150-194 | each margin applies on its own side, and sizes come from the wish or from the bounds less both margins |
| LayerOrder.ReservesIff | native/layer.c:406-409 | a surface reserves its strip if and only if it is mapped and visible and its positive zone has an edge |
| LayerLaws.OrderTakesTotal | native/layer.c:392-425 | the visiting order takes every reservation exactly once |
| LayerLaws.ReserveInsets | native/layer.c:196-224 | reserving a strip is one more inset, floors and clamps included |
| LayerLaws.UsableIsInset | native/layer.c:196-224 | the usable area is the full box inset per edge by the sum of the reservations, floored at zero |
| LayerLaws.UsableIgnoresOrder | native/layer.c:392-425 | the usable area does not depend on the order of the surfaces |
| LayerLaws.OwnStrip | native/layer.c:150-224 | a surface at its edge, no thicker than its zone, is disjoint from what it leaves |
| LayerLaws.StripsStayFree | native/layer.c:392-425 | such a surface, where it is placed, is disjoint from every later surface of its output that is placed inside the usable area it finds |
| LayerCheck.ArithmeticValid | native/layer.c:542-586 | the check loops, which skip unmapped and unplaced surfaces, accept exactly the accepted plans |
| LayerCheck.PlanAcceptedIff | native/layer.c:542-586 | a plan of `plan_layers` is accepted if and only if every mapped surface not marked as unplaced found an output and nothing about it saturated |
| Sound.PickVoice | native/sound.c:232-240 | the search loop picks the first silent voice, else the first of those that have played longest |
| Sound.Mixed | native/sound.c:251-260 | mixing never reads past the sample, and frees the voice exactly at its end |
| SoundFlow.ConsumeStarts | native/sound.c:228-241 | reading takes the next trigger of the queue, and it starts its sample on the chosen voice if and only if the playing bank has its generation and the sample |
| SoundFlow.ReadsAll | native/sound.c:225-242 | after loading the head the audio thread reads every trigger stored by then, in order |
| SoundFlow.TailStored | native/sound.c:242-246 | caught up, the audio thread gives back every slot it read and mixes if the buffer is mapped |
| SoundFlow.PendingPlays | native/sound.c:215-224 | a pending bank becomes the playing one, every voice falls silent, and the old bank is retired |
| SoundFlow.NothingPending | native/sound.c:215-224 | without a pending bank nothing changes |
| SoundFlow.MixAdvances | native/sound.c:249-261 | each mixed voice moves on by the frames mixed or falls silent at its end, and no other voice changes |
| SoundFlow.CuePlays | native/sound.c:413-428 | a cue queues its samples in turn, unless 64 triggers wait or it has none |
| SoundFlow.StagesEmpty | native/sound.c:149-155 | a new plan starts with an empty bank and frees the one before |
| SoundFlow.SampleJoins | native/sound.c:157-177 | a sample joins the cue of its event as long as the samples of the cue stay together |
| SoundFlow.PublishBegins | native/sound.c:392-406 | a bank with samples gets the next generation, one without samples ends the sound |
| SoundFlow.Discards | native/sound.c:149-155 | a plan that is given up takes its bank with it |
| SoundFlow.TakesRetired | native/sound.c:140-147 | the whole retired stack is taken to be freed |
| SoundFlow.CollectsAll | native/sound.c:140-147 | the whole retired list is freed and nothing else |
| SoundFlow.PublishEnds | native/sound.c:408-410 | the bank becomes pending and the one cues are played from, with its cursors at zero |
| SoundFlow.FinishEnds | native/sound.c:374-391 | finishing stops the loop once the callback has returned |
| SoundFlow.LastFreed | native/sound.c:386-389 | then the pending and the playing bank go, and the sound object with them |
| SoundRing.LoadTailKeepsRing | native/sound.c:418-422 | a trigger is dropped exactly when 64 wait, through the wrapped difference |
| SoundRing.FillSlotKeepsRing | native/sound.c:423-424 | filling a slot overwrites no unread trigger |
| SoundRing.StoreHeadKeepsRing | native/sound.c:425 | publishing the head appends the trigger to the queue |
| SoundRing.NextTrigger | native/sound.c:226-229 | the slot the audio thread reads holds the next trigger of the queue |
| SoundRing.ConsumeKeepsRing | native/sound.c:228-241 | reading a trigger takes it from the front of the queue |
| SoundRing.StoreTailKeepsRing | native/sound.c:242 | the tail gives back exactly the slots that were read |
| SoundRing.RunsKeepRing | native/sound.c:225-242 | in every run the triggers read are the first ones stored, in order, at most 64 wait, across wrap-around |
| SoundMemory.StageSafe | native/sound.c:149-155 | staging again frees the old staged bank once |
| SoundMemory.PresentSafe | native/sound.c:157-177 | cues always point at samples of their bank |
| SoundMemory.BeginPublishSafe | native/sound.c:392-406 | publishing gives a fresh generation; an empty bank is freed and playback ends |
| SoundMemory.CollectOneSafe | native/sound.c:140-147 | each round frees a retired bank that nothing else refers to |
| SoundMemory.ExchangePendingSafe | native/sound.c:408 | the exchange hands the new bank over and takes the old pending one back |
| SoundMemory.FreeReplacedSafe | native/sound.c:408 | a bank replaced before it was taken is freed once |
| SoundMemory.FreeLastSafe | native/sound.c:386-389 | finishing frees the pending and the playing bank and leaks nothing |
| SoundMemory.TakePendingSafe | native/sound.c:215 | the audio thread becomes the owner of the pending bank |
| SoundMemory.LinkOldSafe | native/sound.c:218-220 | linking the old bank touches no list another thread walks |
| SoundMemory.PushOldSafe | native/sound.c:220-221 | the compare-and-exchange pushes the old bank or, failing, changes only its own link |
| SoundMemory.ConsumeSafe | native/sound.c:228-241 | a trigger starts a voice only on the playing bank of its own generation |
| SoundMemory.MixSafe | native/sound.c:249-261 | mixing uses live samples only |
| SoundMemory.RunsSafe | native/sound.c:140-427 | the whole invariant holds after every interleaving |
| SoundMemory.OneOwnerAlways | native/sound.c:140-427 | no double free, no use after free, one owner for every live bank, nothing left without a sound object |
| SoundMemory.PointersAlways | native/sound.c:211-224 | voices point only into the playing bank, and the compositor's bank is pending, just taken or playing |
| SoundMemory.VoicesFollowTriggers | native/sound.c:228-241 | a voice plays the very sample of the very bank its trigger was made for |
| Bindings.First | native/input.c:1331-1340 | the first binding in the list that is wanted, or none |
| Bindings.UnrefCounted | native/input.c:847-850 | letting go keeps counts exact and frees exactly at zero |
| Bindings.OneRelease | native/input.c:1614-1628 | between two released events of a key there is a pressed event with the id of the second |
| Keys.PressesAlternate | native/input.c:1691-1704 | between two presses sent for a key there is a release of it or a change of focus |
| Keys.InStepAfter | native/input.c:1691-1704 | after a key changes the client is in step if and only if it was told, or what is shown did not change |
| Tending.TakesLatch | native/input.c:1675-1690 | a key taking a binding keeps all invariants of counts, latches and events |
| Tending.DropsLatch | native/input.c:1614-1624 | a key letting go of its binding keeps them |
| Publishing.AddedTended | native/input.c:896-920 | a new binding at the head of a list has a fresh id and one reference |
| Publishing.PoppedTended | native/input.c:852-859 | unlinking the head deactivates it and drops one reference |
| Publishing.GripTaken | native/input.c:1357-1363 | a pointer button holds its binding |
| Publishing.GripDropped | native/input.c:1343-1354 | the release gives the binding back and closes its press |
| Replacing.FindEquivalent | native/input.c:964-971 | an unmatched equivalent planned binding, or none exists |
| Replacing.MatchStep | native/input.c:1000-1008 | a round of the matching loop extends the pairing or proves that no equivalent is left |
| Replacing.AdoptCounted | native/input.c:977-995 | moving a latch to the replacement keeps every count exact |
| Replacing.LatchedBinding | native/input.c:983-992 | what the latch loop reads from the held binding decides its heir |
| Replacing.EndTended | native/input.c:997-1024 | the replacement keeps counts, ids and open presses |
| Replacing.PartnerKeepsId | native/input.c:1000-1008 | a replaced binding hands its id to its partner, the only active binding with it |
| Replacing.PartnersAlike | native/input.c:952-962 | partners were asked for alike by the same source, which is not 0 |
| Replacing.AloneOnly | native/input.c:1000-1008 | a published binding stays alone only when every planned one asked for alike has a partner |
| Replacing.NoPartnerNoLatch | native/input.c:983-989 | a key goes on holding a binding exactly when that binding found a partner |
| Input.Input.constructor | native/input.c:1842-1852 | nothing is held and everyone is in step |
| Input.Input.HasPressed | native/input.c:174-182 | whether another keyboard has the key down |
| Input.Input.HasUnconsumed | native/input.c:1499-1509 | whether another keyboard shows the key to clients |
| Input.Input.KeysPressed | native/input.c:1511-1516 | exactly the keys some keyboard shows |
| Input.Input.Focus | native/seat.c:492-518 | nothing happens when the surface has the focus; otherwise the old client is told to leave and the new one exactly what is shown, which puts it in step even after a swallowed release |
| Input.Input.SurfaceGone | native/seat.c:485-490 | a focused surface that is destroyed takes the focus with it and everyone stays in step |
| Input.Input.PressKey | native/input.c:1580-1707 | a terminal switch and the screenshot mode take the press; a lock looks up no binding; a grab latches its owner's binding, exact modifiers first; otherwise the first published binding with these modifiers and symbol is latched, if and only if there is one, and else the client is told |
| Input.Input.ReleaseKey | native/input.c:1580-1707 | a held binding loses a reference and its release command is sent while it is published; the client is told unless a silent mode, a latch or another keyboard hides it |
| Input.Input.Key | native/input.c:1580-1707 | all invariants are kept, and the client stays in step if and only if no silent mode swallows the release |
| Input.ScreenshotSwallows | native/input.c:1646-1653 | a concrete release that a screenshot swallows |
| Input.Input.FinishKey | native/input.c:1744-1776 | one key of a device that goes away is released like any other |
| Input.Input.Unplug | native/input.c:1740-1784 | removing a device keeps counts, the merged keyboard and the client in step |
| Input.Input.Plug | native/input.c:1799-1841 | a new keyboard has a fresh id and no key down |
| Input.Input.CancelLatches | native/input.c:867-878 | no key holds a binding any more and keys stay consumed |
| Input.Input.Bind | native/input.c:896-942 | a binding with the fields asked for, the next id and one reference joins the head of the published or the planned list |
| Input.Input.ClearBindings | native/input.c:922-927 | nothing is published, held or active any more |
| Input.Input.FinishPlan | native/input.c:973-975 | a plan that is given up leaves nothing behind |
| Input.Input.Button | native/input.c:1341-1364 | a press is taken by the first published binding of the button with these modifiers, if and only if there is one and it can be held, and the release lets it go |
| Input.Input.AdoptLatches | native/input.c:977-995 | every held key moves to its heir, with exact counts throughout |
| Input.Input.Publish | native/input.c:997-1024 | pairs bindings injectively and maximally, keeps partners' ids, moves held keys, and keeps everything else |
| OutputRequests.LastWriterWins | native/output.c:542-567 | for each of the four fields, the last request that sets it decides it |
| OutputRequests.StoredFaithful | native/output.c:589-613 | a request is refused exactly for a missing mode or exhausted ids, else laid over with a larger id |
| OutputRequests.RequestFieldsIff | native/output.c:589-613 | a request asks for something exactly when it sets one of the four fields |
| OutputRequests.SettledFaithful | native/output.c:989-998 | when a request arrived during the apply nothing is cleared: it and all those before it go on waiting, laid over the promoted state |
| OutputRequests.SinceStored | native/output.c:589-613 | requests stored during an apply only add to what was captured |
| OutputRequests.LosesIff | native/output.c:989-998 | a successful apply clears a field that a request asks for and that the committed state does not have if and only if no newer request came and a caller can see that the field will not be kept |
| OutputRequests.KeptIff | native/output.c:672-698 | the last request for a field is in the committed state if and only if the output is not being disabled for mode and adaptive sync, and a setting of the field agrees, or without one the request came before begin with no hold since or what was copied has it anyway |
| OutputRequests.DropsIff | native/output.c:989-998 | a successful apply clears a request that the committed state was copied without if and only if no newer request came, and one came after begin or the output was held |
| OutputRequests.NothingLost | native/output.c:989-998 | nothing is lost of requests from before begin when there was no hold, no setting contradicts them and the output is not disabled |
| OutputRequests.LostAndForgotten | native/output.c:989-998 | what is lost under a hold is gone, what is lost otherwise lives on in the initial state |
| OutputRequests.HeldRequestLost | native/output.c:798-823 | a concrete request from before begin that a held output loses |
| OutputRequests.LateRequestLost | native/output.c:989-998 | a concrete request from after begin that is cleared although the committed state lacks it |
| OutputRequests.SetUpAfterHoldLost | native/output.c:741-780 | setting up an output after a hold clears the hold, and the request is lost unless the setting repeats it |
| OutputRequests.OverriddenRequestLost | native/output.c:741-780 | a concrete request that is cleared although a setting of the scale overrode it |
| OutputRequests.DisabledRequestLost | native/output.c:630-634 | a concrete requested mode that is stripped because the output is disabled, and cleared |
| OutputRequests.NewerRequestSaves | native/output.c:989-998 | a concrete late request that a newer one keeps waiting |
| OutputRequests.HeldTakesNone | native/output.c:798-823 | a held output takes none of its waiting requests into the configuration |
| OutputRequests.BegunTakesAll | native/output.c:672-698 | what begins to be applied is the initial state with every waiting request laid over it |
| OutputRequests.BegunFrom | native/output.c:672-698 | without a waiting request a configuration begins from the initial state before the first commit or after a set-up, and else from the screen as it is |
| OutputRequests.NextBegins | native/output.c:672-698 | how an output was configured decides where its next configuration begins |
| OutputRequests.SetUpFields | native/output.c:741-780 | a setting replaces its fields, keeps the others, and clears the hold |
| OutputRequests.HeldBackFrom | native/output.c:798-823 | a held output is kept as its screen is, or disabled if it was never committed |
| OutputRequests.Outputs.Store | native/output.c:589-613 | keeps the request or changes nothing |
| OutputRequests.Outputs.Begin | native/output.c:672-698 | copies each output's waiting, initial or current state |
| OutputRequests.Outputs.CaptureAll | native/output.c:913-924 | captures id, hold and state of each output |
| OutputRequests.Outputs.Hold | native/output.c:798-823 | the pending state of one output is copied anew and held |
| OutputRequests.Outputs.Configure | native/output.c:741-780 | settings go into the pending state and clear the hold |
| OutputRequests.Outputs.AdmitAll | native/output.c:939-964 | after a commit every output is admitted and counts as configured if it was |
| OutputRequests.Outputs.Settle | native/output.c:966-1001 | a failed apply keeps every request, a successful one clears only the captured ids and loses a request exactly as stated |
| OutputLayout.Locations | native/output.c:102-192 | succeeds exactly when everything fits, and puts each output in its place |
| OutputLayout.PlaceAutomatic | native/output.c:142-157 | automatic outputs in a row, failing exactly on overflow |
| OutputLayout.PlaceMirrors | native/output.c:159-188 | mirrors at their targets, strays to the right of everything |
| OutputLayout.FindTarget | native/output.c:163-172 | the first active output of that name that is no mirror |
| OutputLayout.AppendedRight | native/output.c:142-188 | an automatic output or stray mirror lies at or right of all outputs placed before it |
| OutputLayout.AppendedTouches | native/output.c:129-188 | it begins at 0 or exactly where an output placed before it ends, so a row has no gap |
| OutputLayout.AppendedNonNegative | native/output.c:129-188 | it never begins left of 0 |
| OutputLayout.KeptPlaces | native/output.c:102-140 | sizes are kept, and positioned and inactive outputs stay where they are |
| OutputLayout.EdgesFit | native/output.c:94-100 | every right edge that is computed fits an int |
| OutputLayout.MirrorShares | native/output.c:159-178 | a mirror with a target shares its position |
| OutputLayout.PlacingIsStable | native/output.c:642-653 | laying out again after placing gives the same layout |
| Lock.LockedOnce | native/lock.c:161-165 | `locked` is sent at most once to a lock object |
| Lock.OpenedByTheLocked | native/lock.c:272-291 | a secured session opens only by an unlock from the current lock object, the one that was sent `locked` last |
| Lock.LastToldMeans | native/lock.c:161-165 | the lock object that was sent `locked` last was sent it, and no other one since |
| Lock.NeededIs | native/lock.c:247-256 | the screens waited for are the active powered ones |
| Lock.CoveredBeforeLocked | native/lock.c:247-256 | but for a take-over, `locked` follows a frame on every active powered screen since locking began |
| Lock.Session.Confirm | native/lock.c:161-165 | locked, and told once |
| Lock.Session.BeginLocking | native/lock.c:167-182 | nothing counts as rendered; without a screen to wait for the lock is confirmed at once |
| Lock.Session.LockRequest | native/lock.c:306-330 | one lock object at a time, a second one changing nothing but its own `finished`; take-over of a secured session, or a wait with a deadline |
| Lock.Session.SurfacesReady | native/lock.c:148-159 | every active screen has a mapped lock surface |
| Lock.Session.Refresh | native/lock.c:241-245 | a waiting lock begins exactly when every active screen is covered, with the state, the screens and the events that follow |
| Lock.Session.SurfaceCommit | native/lock.c:184-190 | the surface is mapped or not, and a waiting lock begins exactly when that covers every active screen |
| Lock.Session.GetLockSurface | native/lock.c:192-239 | a surface only for the current lock and a live output, one for each screen, without a buffer or another role, each refusal with its error |
| Lock.Session.SurfaceGone | native/lock.c:61-82 | one lock surface goes away and the others stay, whatever the state |
| Lock.Session.ScreenGone | native/lock.c:84-88 | a lock surface whose output goes covers nothing any more |
| Lock.Session.FrameRendered | native/lock.c:247-256 | confirms exactly when every active powered screen has then shown a frame since locking began, with the screens and the events that follow |
| Lock.Session.Deadline | native/lock.c:258-263 | a waiting lock begins when the time is up, and nothing else happens |
| Lock.Session.ResourceDestroyed | native/lock.c:299-304 | a client that goes away leaves the session secured, or secures it if it was waiting, and its lock surfaces go |
| Lock.Session.UnlockAndDestroy | native/lock.c:272-291 | an error before `locked`, opening only for the current lock, otherwise nothing |

## Left out

Assumptions of the partial repaint, stated as preconditions or invariants:

- Within one configuration of the ring, equal hashes mean the same painter, box, reach and surface;
  `surface_damage_since` never misses a changed texel.
- The first operation is the opaque rectangle over the whole buffer, and an operation that reads its backdrop has its box
  inside its reach.
- Sampling is bilinear without clamping at texture edges, so texels just outside the source rectangle count.

Deliberately weaker or outside:

- Ring.Output.RenderScene: promises the full painting of a buffer as long as every comparison since its last full repaint,
  and the clips it was painted in, met the exact conditions above, because the code does not meet the promise without them.
- The configure and acknowledge sequence of lock surfaces and their size check are outside.
- Input.Input.Key: takes the decisions of xkb (symbols, modifiers, virtual-terminal keys) as parameters, with key symbols
  already lowered.
- Sound.Mixed: the sample arithmetic, gains and the decoding of sound files are outside.
- C integers outside the layer and output arithmetic, the trigger counters and the id counters are unbounded; doubles are
  reals; a denominator of INT64_MIN in `round_div_away` is outside.
- Weak memory orders: the sound protocol is modelled under sequential consistency.
- Allocation failure, the damage debug overlay, direct scanout, captures and untracked renders; a failed fence leaves the
  buffer marked although its pass was issued, which the model keeps.
- Scroll bindings, events without a binding in the grab mode, and events suppressed while the compositor stops.
- LEDs, modifiers, keymaps and keymap replacement: only the set of keys down is kept.
- Building the layer plan before the two passes, staged overrides, keyboard interactivity and configures.
- Mode choice, colour profiles, rings, commit and rollback of outputs; an output that disappears during an apply.
- EGL, GLES, GBM, shaders, pixel formats, DRM and KMS, the nested and headless backends, libseat, libinput, udev,
  PipeWire set-up and ICC loading.
- Wayland resource plumbing, protocol error posting, text serialisation, animation curves, selection and drag-and-drop,
  foreign toplevels, gamma, power, decoration, tearing, screenshots as a feature and the portal.
