# libliftoff's plane allocator

libliftoff maps the layers of a compositor's output to the hardware planes of a KMS device. This
project models the allocator (`alloc.c`) and the state it reads and writes (`plane.c`, `layer.c`,
`output.c`, `list.c`), and proves what the allocation it ends with is worth.

The kernel is an arbitrary function from the number of earlier test commits and the request to a
return code. Two properties of it are named where they are needed: *steady* (the answer depends on the
request alone) and *benign* (only 0, EINVAL, ERANGE and ENOSPC occur). Safety, isolation, the frame of
the search and "emitted equals tested" hold for every kernel; optimality needs a steady one.

| file | contents |
|---|---|
| `Sequences.dfy`, `Lists.dfy` | list operations on sequences; the circular list of `list.c` refines them |
| `Props.dfy`, `Hardware.dfy`, `Atomic.dfy` | layer properties, planes and their writes, the atomic request, the kernel |
| `Scenes.dfy` | one allocation problem as a value: the rules of a placement, admissible allocations, score |
| `Stacking.dfy`, `Composition.dfy`, `Placements.dfy` | what the rules achieve: z-order, composition, the specification `Sound` of a mapping |
| `PlaneOrder.dfy`, `PlaneChanges.dfy` | which devices keep overlapping layers on separate planes; what adding or destroying a plane does to a mapping |
| `Optimum.dfy`, `Walks.dfy` | what the pruned search computes, and how each branch contributes |
| `Cache.dfy` | dirty tracking and the soundness of re-using the mapping over whole runs |
| `Emission.dfy` | the final request against the tested one |
| `Registration.dfy` | the sorted plane list |
| `Instances.dfy`, `Desktops.dfy` | devices built by calls of the modelled API on which the general theorems' exceptions occur |
| `Objects.dfy`, `Searching.dfy`, `Applying.dfy` | the imperative code: objects with mutual pointers, the recursive search on a shared array, record and request, and `liftoff_output_apply` |

The value-level files carry the theorems; the classes and methods are tied to them by contracts. A
ghost function `View` gives what one output holds as a value: each API method's contract says which
step of the value-level state machine it takes and that the views of all other outputs stand still.

Where the code and its documentation part:

- `include/libliftoff.h:105-114` says an output needs no composition if all visible layers could be
  mapped. With a composition layer set that says little: for a mapping that follows the composition rule
  the function is true exactly when the composition layer is visible, since that layer itself is left
  without a plane when all others have one (`Composition.ReportFollowsCompositionLayer`). The precise
  question is the one asked per layer in `doc/compositor.md:84-87`.
- `has_allocated_layer_over` can never refuse a layer, because placing the lower layer would have been
  refused before (`Stacking.VetoChangesNothing`).
- Overlapping layers on non-primary planes need not be on planes of strictly ordered zpos, because
  `last_layer_zpos` remembers only the latest placement. Every search on a device keeps the order, and so does
  every mapping a search ends with, if and only if no three non-primary planes that the output may use share a
  zpos (`PlaneOrder.StrictPlaneOrder`).
- The assertion in `apply_current` can fail on a device with several outputs: with a benign kernel it does
  so exactly when a plane of another output can no longer take what its layer asks for (`Applying.Apply`;
  `Instances.SecondOutputAborts` is a run that ends there). With one output it cannot fail, whatever planes are
  destroyed in between (`Applying.Apply` with `Cache.EveryRunFits`).
- `doc/compositor.md:84-87` promises that either all regular layers have planes or the composition layer is
  used. A mapping in force follows that rule or is empty (that is what `Sound` asks), and the empty mapping can
  break it after an apply that returns 0, in two ways. The search reached no acceptable allocation
  (`Applying.RecomputedFollowsRule`). Or an earlier apply failed, which unmaps the output without marking
  it dirty, so that the empty mapping is used again when nothing else is dirty (`Cache.EmptyMappingIsReused`;
  `Desktops.DesktopIsAbandoned` is such a run). There is no third way while no plane is destroyed
  (`Cache.EveryApplyFollowsRule`).
- Destroying a plane leaves the outputs clean, so the old mapping is used again if the kernel accepts it
  (`Applying.CleanSingleOutputReuses`). Both the composition rule and the z-order can be lost: a layer that lost
  its plane may lie over one that is still scanned out. `Cache.LostPlaneIsOverlooked` and `Cache.LossKeepsCache`
  give the exact condition, `Desktops.DesktopLosesOverlay` is a run that loses the z-order. The next
  recomputation repairs the damage (`Cache.ApplyRestoresCache`). Registering a plane does no such harm
  (`Cache.RegistrationKeepsCache`), though the new plane stays unused until something makes the output dirty.
- Z-order is a matter of non-primary planes only: the code exempts primary planes (`alloc.c:215`, `256`,
  `314`), and so do `Stacked` and the theorems about it.

## Model

| member | source | states |
|---|---|---|
| `Searching.ChooseLayers` | alloc.c:366-474 | For every node: entries of the shared array below plane_idx are untouched; on return 0 the request is the node's request again and the record is the old one or a better allocation all of whose steps were accepted; for a steady kernel the record is the optimum of the subtree challenged by the old record; fewer than (L+1)^(remaining planes) test commits, each of a proposal; a leaf and a pruned node make no test, and at any other node every proposal for its plane is tested; 0 is returned if and only if every answer was tolerated, and otherwise the search stopped at the first other answer and returns it. Terminates. |
| `Optimum.SearchedIsMaximum` | alloc.c:366-402 | The final score is the maximum over all admissible, acceptable, complete allocations, attained by the recorded one, and is -1 if and only if there is none. |
| `Optimum.SearchedIsUnique` | alloc.c:378-389 | The outcome is determined: among the maxima it is the first in the order of the tree (layers in list order, no layer last). |
| `Optimum.PrunedSubtree` | alloc.c:395-402 | A subtree whose score plus remaining planes does not exceed the record holds nothing better. |
| `Optimum.NextBranch` | alloc.c:417-471 | Searching one more branch with the record of the branches before it yields the first maximum of all of them. |
| `Optimum.Leaf` | alloc.c:378-390 | Replacing the record on a strictly greater score and a valid allocation keeps the first maximum. |
| `Optimum.RefusedBranch` | alloc.c:418-460 | A layer refused by any check, the test commit included, has no competitor in its whole subtree. |
| `Optimum.ScoreBound` | alloc.c:395-396 | Each remaining plane adds at most one to the score. |
| `Walks.WalkNext` | alloc.c:417-471 | The walk of a node's children composes: accepted requests only accumulate, the record only improves. |
| `Walks.AcceptedStep` | alloc.c:440-447 | A proposal the kernel has just accepted extends an admissible prefix to an admissible prefix. |
| `Walks.InquiryExtends` | alloc.c:428-440 | Every request a search tests begins with the request the search was given. |
| `Atomic.EndsLater` | alloc.c:451-459 | Two parts of a search, the first of which was not stopped, end like the second. |
| `Atomic.ToleratedAnswers` | alloc.c:451 | The answers that do not stop a search are 0, -22, -28 and -34. |
| `Walks.ErrorComesFromDriver` | alloc.c:451-459 | A search returns an error only if the driver gave an answer outside the tolerated ones. |
| `Walks.PowMeans` | alloc.c:417-467 | The laws of exponents for the test bound. |
| `Searching.TryLayers` | alloc.c:417-462 | After the loop over the layers all their subtrees have been accounted for, every proposal has been tested, the request is the node's again, and the tests are within the budget; an answer that is not tolerated stops the search and is returned. |
| `Searching.TryLayer` | alloc.c:418-461 | One layer: if it passes the checks its request is tested; its subtree is walked or shown empty, then its writes are gone from the request. |
| `Searching.Propose` | alloc.c:418-460 | Exactly the layers that pass all checks are tested, with exactly this request; accepted means the answer 0; EINVAL, ERANGE and ENOSPC are refusals and any other answer is returned. |
| `Searching.InitNext` | alloc.c:98-147 | The child step's score, last zpos and composited flag are those of the parent's choices plus this one, and only the parent's own entry of the shared array is written; the assertion against composing twice cannot fail. |
| `Searching.RecordBest` | alloc.c:378-390 | At a leaf the record is replaced if and only if the allocation is valid and scores strictly more, for every kernel. |
| `Searching.IsLayerAllocated` | alloc.c:149-162 | True exactly when the layer is among the choices of the step. |
| `Searching.HasCompositedLayerOver` | alloc.c:164-193 | True exactly when some unplaced layer overlaps this one with a greater zpos. |
| `Searching.HasAllocatedLayerOver` | alloc.c:195-239 | True exactly when this layer belongs over one already on a non-primary plane. |
| `Searching.HasAllocatedPlaneUnder` | alloc.c:241-270 | True exactly when an overlapping layer is on a non-primary plane that is not above this one. |
| `Searching.CheckLayerPlaneCompatible` | alloc.c:272-334 | Decides the compatibility rule that defines admissible allocations. |
| `Searching.CheckAllocValid` | alloc.c:336-364 | Decides the acceptance rule on the counts of the running step. |
| `Stacking.AdmissibleIsStacked` | alloc.c:164-193 | In every reachable step and result, whatever lies over a layer on a non-primary plane is on a plane tried earlier; nothing composited covers it. |
| `Stacking.NothingCoversAPixel` | alloc.c:164-193 | In every reachable step and result, a pixel of a layer on a non-primary plane belongs to no layer of greater zpos except to layers on planes tried earlier. |
| `Stacking.ProposedMeans` | alloc.c:406-430 | The exact condition for a layer to be tried on a plane, in terms of visibility, CRTC mask, supported properties, zpos and intersection; has_allocated_layer_over does not occur in it. |
| `Stacking.LastZposMeans` | alloc.c:126-134 | last_layer_zpos is the zpos, as an int, of the layer with a zpos placed last on a non-primary plane. |
| `Stacking.LastZposAtFirst` | alloc.c:736 | While there is no such layer it is INT_MAX. |
| `Stacking.NoInversion` | alloc.c:314-321 | Of two overlapping layers on non-primary planes the upper is on the plane tried first. |
| `Stacking.AdmissibleIsInjective` | alloc.c:149-162 | No layer is placed twice. |
| `Stacking.VetoIsRedundant` | alloc.c:289-298 | has_allocated_layer_over is false for every unplaced layer of every reachable step. |
| `Stacking.VetoChangesNothing` | alloc.c:289-298 | Deleting that check leaves the set of admissible allocations, hence the search, unchanged. |
| `Stacking.DominoClosure` | alloc.c:314-321 | Along a chain of overlapping, ever higher layers starting on a non-primary plane, all are placed on strictly earlier planes up to and including the first on a primary plane. |
| `Stacking.LongChainReachesPrimary` | alloc.c:314-321 | A placed chain longer than the plane list has a layer on a primary plane. |
| `PlaneOrder.StrictPlaneOrder` | alloc.c:299-311 | For planes with the properties every KMS plane has, in registration order: every allocation any search can build, and likewise every allocation a search ends with, whatever the layers (int zpos) and the kernel's answers, puts each overlapping pair on non-primary planes on planes of strictly ordered zpos if and only if no three non-primary planes that are free and can drive the CRTC share a zpos. |
| `PlaneOrder.CrowdLosesOrder` | alloc.c:272-334 | On any three such planes there is a search, of layers with zpos 5, 1 and 3 given by real property lists, that ends with an allocation in which the first overlaps the last on a plane of the same zpos. |
| `PlaneOrder.OnlySpread` | alloc.c:417-471 | When only the requests on the way to that allocation are accepted, no other allocation scores as much. |
| `PlaneOrder.UncrowdedKeepsOrder` | alloc.c:299-311 | Where no three such planes share a zpos, plane zpos follows layer zpos strictly on overlapping pairs. |
| `PlaneOrder.SoundKeepsOrder` | alloc.c:299-311 | The same for every mapping in force, re-used ones included. |
| `Stacking.AdmissibleIsSeparated` | alloc.c:299-311 | In every reachable step and result, an overlapping pair on non-primary planes is strictly ordered by plane zpos unless a third plane of the same zpos between them carries a layer not above the lower one. |
| `Stacking.OverlappingStackKeepsOrder` | alloc.c:299-311 | If all layers with a zpos on non-primary planes overlap pairwise the order is kept on every device. |
| `Composition.ScoreCountsPlaced` | alloc.c:122-126 | The score is the number of distinct placed layers other than the composition layer. |
| `Composition.AllOrComposite` | alloc.c:336-364 | The comparison of counts accepts exactly the allocations that either place the composition layer and leave out another visible layer, or leave it out and place all others. |
| `Composition.CompositionOnPrimary` | alloc.c:323-331 | The composition layer is only ever on a primary plane. |
| `Composition.ReportFollowsCompositionLayer` | output.c:60-72 | With a composition layer and a valid mapping, needs_composition is true if and only if the composition layer is visible. |
| `Placements.SearchResultIsSound` | alloc.c:366-474 | Every admissible accepted allocation is injective, places only visible non-forced layers on planes that fit the CRTC and the properties, keeps the z-order and the plane order, and follows the composition rule, the empty allocation not excepted. |
| `Placements.RuleAfterSearch` | alloc.c:712-764 | A search from the empty record ends with a mapping that follows the composition rule if and only if an acceptable complete allocation is admissible; otherwise the mapping is empty. |
| `Placements.SoundnessTransfers` | alloc.c:552-584 | The specification depends only on visibility, forcing, zpos, geometry and supported properties of the layers. |
| `PlaneChanges.SoundWithoutPlane` | plane.c:144-153 | A sound mapping stays sound without plane k if and only if it is then empty or composition is not newly needed, the layer that was on k lies over no layer on another non-primary plane, and no unordered pair had only k between them. |
| `PlaneChanges.StackedWithoutPlane` | plane.c:144-153 | The z-order half, for every mapping that had it. |
| `PlaneChanges.SeparatedWithoutPlane` | plane.c:144-153 | The plane-order half. |
| `PlaneChanges.RuleWithoutPlane` | plane.c:144-153 | The composition half: without a composition layer, with an empty plane, or with composition in use on another plane. |
| `PlaneChanges.SoundWithPlane` | plane.c:121-139 | An additional empty plane, wherever it is inserted, leaves a sound mapping sound. |
| `Cache.EveryApplyIsSound` | alloc.c:496-596 | Over every run of property changes, layer creation and destruction, composition-layer changes, plane registrations, plane losses and applies (failed ones included), from any state in which the invariant holds and as long as no plane is lost that the mapping cannot do without: the mapping after each successful apply, re-used or recomputed, meets the specification for the properties of that moment: all of it, or the empty mapping. |
| `Cache.EveryApplyFollowsRule` | alloc.c:496-596 | If no apply of the run failed, every recomputation reached an acceptable allocation and no plane was lost that the mapping cannot do without, the composition rule holds after each apply, the empty mapping not excepted. |
| `Cache.EmptyMappingIsReused` | alloc.c:562-583 | After an apply that failed on a clean output the output is clean with an empty mapping, and the composition rule holds if and only if nothing but the composition layer is to be shown. |
| `Cache.LostPlaneIsOverlooked` | plane.c:144-153 | A clean output stays clean when a plane is destroyed; exact conditions for its mapping to keep the z-order, the composition rule, and the whole specification. |
| `Cache.StepKeepsRule` | alloc.c:496-596 | Every step keeps the composition rule for the remembered properties, unless an apply fails or finds no acceptable allocation. |
| `Cache.CleanMeansSound` | alloc.c:496-570 | If no flag is set and no property changed in a way that counts, the old mapping is sound for the current properties, although prev_value dates from the last recomputation. |
| `Cache.EditKeepsCache` | layer.c:54-106 | Every API edit keeps the cache invariant. |
| `Cache.RegistrationKeepsCache` | plane.c:35-142 | Registering a plane keeps the cache invariant, although it marks no output as changed. |
| `Cache.LossKeepsCache` | plane.c:144-153 | Losing a plane keeps the cache invariant if and only if a flag was up or the plane was dispensable: composition not newly needed, nothing scanned out under its layer, no unordered pair that only this plane excused. |
| `Cache.ApplyRestoresCache` | alloc.c:687-779 | A recomputation, or an apply that fails, restores the invariant after any run, harmful losses included. |
| `Cache.EveryRunFits` | alloc.c:484-487 | Over every run from a fresh output, whatever planes are lost: while no flag is up, every mapped layer as last marked clean is visible, not forced, and fits its plane and CRTC. |
| `Cache.CleanMeansFitting` | alloc.c:484-491 | If nothing is dirty then the mapped layers fit their planes as they are now. |
| `Cache.StepKeepsFitting` | alloc.c:484-491 | Every operation, plane loss and failed apply included, keeps that. |
| `Cache.ReallocatedIsCached` | alloc.c:586-596 | Installing a sound mapping and marking the layers clean establishes the invariant and leaves nothing dirty. |
| `Cache.AbandonedIsCached` | alloc.c:687-741 | An apply that fails in the search keeps the invariant. |
| `Cache.SettledLayer` | alloc.c:496-550 | The exemptions of layer_needs_realloc are safe: a layer it lets pass is equivalent, for the specification on these planes, to the layer as last marked clean, alpha 0xFFFF and ROTATE_0 included. |
| `Cache.NoLayerEverHasACrtc` | layer.c:61-65 | No layer of any run carries a CRTC_ID of its own. |
| `Cache.SetReadsBack` | layer.c:54-93 | The value just set is read back and every other property keeps its value. |
| `Cache.LongNamesAreLost` | layer.c:67-83 | A name of 32 or more characters is stored cut, so it is never found again and every setting adds a property and marks the layer changed. |
| `Cache.FramebufferEndsForce` | layer.c:85-90 | Setting FB_ID on a layer forced to composition ends that and marks the layer changed; with a framebuffer it is visible unless fully transparent. |
| `Cache.ForceStays` | layer.c:85-90 | No other property ends forced composition, and none starts it. |
| `Cache.ForcedLosesFramebuffer` | layer.c:95-106 | set_fb_composited takes the framebuffer away, keeps the layer visible unless it is fully transparent, and is idempotent. |
| `Cache.DirtyExactlyIf` | alloc.c:496-550 | On a clean output, setting a property a layer has makes the output dirty if and only if FB_ID goes from or to 0, alpha leaves or reaches 0 or 0xFFFF, another property than the fence and the damage changes, or forced composition ends. |
| `Cache.NewPropertyDirties` | layer.c:67-83 | A property the layer did not have makes the output dirty. |
| `Cache.FlipStaysClean` | alloc.c:516-542 | A page flip between framebuffers, a fence, damage, and fading strictly between transparent and opaque leave a clean output clean. |
| `Cache.LightRunStaysClean` | alloc.c:562-583 | Over every run of such changes and successful applies a clean output stays clean, and its mapping stays the same while it is used again. |
| `Cache.CompositionLayerDirties` | output.c:49-58 | Setting the composition layer makes a clean output dirty if and only if it is another one. |
| `Cache.LayersDirty` | layer.c:18-29 | Creating or destroying a layer makes the output dirty. |
| `Instances.SecondOutputAborts` | alloc.c:484-487 | Two outputs, one plane without alpha, a kernel that accepts everything: apply the first, make its layer translucent, apply the second, and the assertion fails. |
| `Desktops.DesktopLosesOverlay` | plane.c:144-153 | Calls of the API in sequence: an output is filled and applied, an overlay is destroyed, and the next apply returns 0 with the old mapping; the composition rule holds and the z-order is lost. |
| `Desktops.DesktopIsAbandoned` | alloc.c:738-741 | Calls of the API in sequence: an output is filled and applied, an apply fails with the driver's error, and the next apply returns 0 with an empty mapping that breaks the composition rule. |
| `Desktops.FlipDesktop` | alloc.c:516-526 | Calls of the API in sequence: an output is filled and applied, a layer gets another framebuffer, and the next apply returns 0 with the old mapping. |
| `Desktops.DesktopFound` | alloc.c:366-474 | On that output the search ends with the composition layer on the primary plane and the overlapping layers on the overlays in the right order. |
| `Emission.EmittedAsTested` | alloc.c:687-772 | Disabling all free planes, searching, rolling back and writing every plane again gives every object but the planes of other outputs the same last-write values as the request of the chosen allocation alone. |
| `Emission.FinalAgrees` | alloc.c:769-772 | The same for what apply_current writes once the allocation is installed. |
| `Emission.AgreeingIsAccepted` | alloc.c:769-772 | For a kernel that judges a request by its last writes, agreeing with an accepted request where no plane is held by another output is being accepted. |
| `Emission.OffsOverwritten` | alloc.c:698-710 | Writing every plane overwrites every value that switching planes off had written, so leaving that out changes no last write. |
| `Emission.WholeIsAccepted` | alloc.c:574-583 | For a kernel that judges by last writes, with no plane held by another output, the request that writes every plane right away is accepted if the one tested for the allocation was. |
| `Hardware.EnableOverwritesDisable` | plane.c:218-258 | Putting a layer with a framebuffer on a plane writes every property that switching it off writes. |
| `Applying.RecomputedIsAccepted` | alloc.c:769-772 | For a steady kernel of that kind, when no plane is held by another output and something was placed, the request handed back is itself one the kernel accepts. |
| `Applying.RecomputedFollowsRule` | alloc.c:712-764 | The mapping a recomputation installs follows the composition rule if and only if the search can reach an acceptable allocation, and is empty otherwise. |
| `Applying.ReusableAfterwards` | alloc.c:552-584 | After a recomputation that placed something, with a steady kernel that judges by last writes and no plane held by another output, the next apply of the unchanged output with a request that starts alike uses the mapping again. |
| `Applying.CleanSingleOutputReuses` | alloc.c:552-584 | On a single-output device a clean output's mapping is used again if and only if the kernel accepts the request that writes every plane, also after planes were destroyed. |
| `Applying.FlippedIsReused` | alloc.c:552-584 | After a page flip or another light change, a clean single output keeps its mapping, and it is used again if and only if the kernel accepts the request that writes every plane. |
| `Emission.PlacedMeansTested` | alloc.c:440-447 | An admissible allocation that places something was itself the subject of an accepted test. |
| `Emission.RequestIsFlat` | alloc.c:428-471 | The request of a node is the base followed by one batch per chosen plane. |
| `Emission.FlattenAtPlane` | alloc.c:484-491 | In a request of per-plane batches a plane sees exactly its own batch. |
| `Emission.PlaneShowsLayer` | plane.c:227-258 | In the final request a used plane has the output's CRTC_ID and, for each property it has, the layer's value or, if the layer has none, what it had before. |
| `Emission.PlaneIsOff` | plane.c:218-224 | In the final request an unused free plane has FB_ID and CRTC_ID zero. |
| `Applying.Apply` | alloc.c:661-780 | The whole call, for every kernel: other outputs keep their planes and views on every path; the old mapping is used again if and only if nothing is dirty, every layer on a plane fits it and the kernel accepts the request that writes every plane; otherwise success is a recomputation whose mapping is sound, optimal for a steady kernel, installed, and emitted as tested; the search tests only proposals, tests every proposal for the first plane, returns 0 if and only if every answer it got was tolerated and otherwise the first answer that was not, and the output is then left unmapped; at most (L+1)^n test commits in all; success only if all other outputs' planes fit, the assertion fails only if one does not, so never on a single-output device. |
| `Applying.ReusePreviousAlloc` | alloc.c:552-584 | The outcome exactly: EINVAL when something is dirty, the failed assertion when a layer does not fit its plane, otherwise the kernel's answer to the whole request, which is the only test; on success the request is the whole one, on an error as it was. |
| `Applying.ApplyCurrent` | alloc.c:476-494 | Writes every plane in order, or fails the assertion exactly if some layer does not fit its plane. |
| `Applying.UnmapOutput` | alloc.c:687-693 | Exactly this output's layers lose their planes; the pointers stay mutually inverse. |
| `Applying.Release` | alloc.c:689-692 | One plane and its layer lose each other and the mutual links of all others stand. |
| `Applying.DisableFree` | alloc.c:698-710 | Exactly the planes nobody holds are switched off. |
| `Applying.NonCompositionLayersLength` | alloc.c:644-659 | Counts the visible layers other than the composition layer. |
| `Applying.SearchAllocation` | alloc.c:712-741 | The search starts from an empty record and the outcome is that of the whole tree; on success the request is as before the search; an error is the answer that stopped it. |
| `Applying.Install` | alloc.c:748-764 | The recorded layers are on their planes, the links are mutual, and the assertions that plane and layer are unoccupied cannot fail. |
| `Applying.Occupy` | alloc.c:760-763 | One plane and one layer, neither taken, get each other and the mutual links of all others stand. |
| `Applying.MarkLayersClean` | alloc.c:586-596 | All layers and the output become clean, prev_value becoming value; nothing else changes. |
| `Applying.IsDirty` | alloc.c:562-570 | Decides whether layers_changed or some layer needs reallocation. |
| `Applying.Reallocate` | alloc.c:687-779 | The recomputing path as a whole, with the exact condition of the failing assertion and the error the search returned. |
| `Applying.OthersFitMeans` | alloc.c:484-487 | The condition on the objects and the condition on what the planes hold are the same. |
| `Applying.ReuseMisfitIsForeign` | alloc.c:484-487 | While an output is clean and its mapped layers fitted when last marked clean, only a plane of another output can trip the assertion. |
| `Applying.SingleOutputFits` | alloc.c:484-487 | On a single-output device no plane is held by another output that does not fit; with Cache.EveryRunFits and the contract of Apply, which states the conclusion, the assertion cannot fail there. |
| `Applying.NeedsCompositionMeans` | output.c:60-72 | The answer is true exactly when a visible layer is missing from the mapping. |
| `Applying.LayerPlaceMeans` | layer.c:108-112 | A layer has no plane exactly when no plane has the layer. |
| `Objects.Plane.Apply` | plane.c:207-261 | With a layer: all its writes or EINVAL and none; without: the two writes that switch the plane off, or EINVAL if the plane lacks FB_ID or CRTC_ID. |
| `Objects.Plane.Enable` | plane.c:226-258 | Transactional append of CRTC_ID and the layer's properties; EINVAL exactly if the plane lacks a property that is not exempt. |
| `Objects.Plane.Disable` | plane.c:218-224 | Switches off; if CRTC_ID is missing the FB_ID write stays in the request. |
| `Objects.Plane.SetPropStr` | plane.c:190-205 | One write if the plane has the property, else EINVAL and none. |
| `Objects.Plane.GetProperty` | plane.c:161-172 | Finds the first property of that name. |
| `Hardware.PropWritesInOrder` | plane.c:231-258 | The appended entries are one per supported property other than zpos, in the layer's order. |
| `Hardware.PropWritesLand` | plane.c:231-258 | Read back by last write, each plane property holds the layer's value. |
| `Hardware.MaskBit` | alloc.c:409-411 | A plane can drive a CRTC if and only if the mask has the bit of the CRTC's index, the bits being written out. |
| `Hardware.SupportsOneMore` | plane.c:231-252 | What each layer property asks of a plane: nothing for zpos, alpha 0xFFFF and rotation 1, otherwise a plane property of that name. |
| `Hardware.PropWriteMeans` | plane.c:233-256 | zpos and properties the plane lacks are not written, any other with its value. |
| `Hardware.EnableBegins` | plane.c:226-229 | The output's CRTC is written first. |
| `Objects.Device.CreatePlane` | plane.c:35-142 | Registers into the sorted list, each output's mapping gaining an empty entry at that slot and no flag changing, or refuses with EEXIST or EINVAL and changes nothing; planes without FB_ID or CRTC_ID are registered too. |
| `Objects.Device.Add` | plane.c:121-139 | The plane is inserted at its slot, other planes keep their order. |
| `Objects.Device.Register` | plane.c:121-139 | Insertion at the slot as seen by every output. |
| `Objects.Device.DestroyPlane` | plane.c:144-153 | The plane leaves the list, its layer loses its plane, each output's mapping loses that entry and no flag changes. |
| `Registration.RegistrationSorts` | plane.c:121-139 | For every registration order, with explicit or guessed zpos: ids distinct, primary planes first, then non-increasing zpos. |
| `Registration.GuessesRank` | plane.c:7-33 | A cursor without zpos is guessed above every overlay without zpos, whatever was registered before; an overlay on a nonempty list is guessed above 0 if and only if its id is not below the first plane's. |
| `Registration.PrimaryGuess` | plane.c:16-17 | A primary plane without zpos is guessed at 0. |
| `Registration.CursorsBeforeOverlays` | plane.c:109-139 | When no plane reports a zpos, every registration order lists the primary planes before the cursors and the cursors before the overlays. |
| `Registration.Provenance` | plane.c:35-142 | Every plane of the list is as DRM described it when it was registered. |
| `Registration.SlotMeans` | plane.c:121-139 | A primary plane goes first; any other goes behind the primary planes and the greater zpos and before everything of equal zpos. |
| `Registration.DescribedMeans` | plane.c:67-112 | A plane is registered if and only if DRM reports a type, with the id, mask, type and properties DRM gives. |
| `Registration.ReportedMeans` | plane.c:84-106 | Of several properties of one name the last counts. |
| `Registration.ReportedZpos` | plane.c:102-105 | A reported zpos is taken as a signed number. |
| `Registration.InsertKeepsOrder` | plane.c:121-139 | One insertion keeps the list sorted. |
| `Registration.BelongsInSlot` | plane.c:121-139 | Everything before the slot belongs before the plane, everything from it on belongs after. |
| `Registration.DescribedHasBasics` | plane.c:84-106 | A registered plane has FB_ID and CRTC_ID exactly if DRM lists them. |
| `Objects.Layer.SetProperty` | layer.c:54-93 | The layer's new state, EINVAL for CRTC_ID, dirty flag on a new property or when forcing ends; other layers and outputs unchanged. |
| `Objects.Layer.Assign` | layer.c:54-93 | The same for the layer alone. |
| `Objects.Layer.SetFbComposited` | layer.c:95-106 | FB_ID 0, forced and changed; nothing if already forced. |
| `Objects.Layer.MarkClean` | layer.c:151-161 | prev_value becomes value for every property. |
| `Objects.Layer.NeedsReallocation` | alloc.c:496-550 | Decides the reallocation rule property by property. |
| `Objects.Layer.GetProperty` | layer.c:41-52 | Finds the first property of that name. |
| `Objects.Layer.Destroy` | layer.c:22-39 | The layer leaves its output, its plane and the composition role; every other layer keeps its plane. |
| `Objects.Output.CreateLayer` | layer.c:6-20 | Appends a fresh layer and marks the output changed. |
| `Objects.Output.SetCompositionLayer` | output.c:49-58 | Sets the layer; the output is marked changed if it is another one. |
| `Objects.Output.NeedsComposition` | output.c:60-72 | True exactly when some layer of the output is visible without a plane. |
| `Objects.Device.CreateOutput` | output.c:8-36 | A fresh output on the first index of the CRTC, in the initial state of the run theorems, or null exactly if the CRTC is unknown. |
| `Objects.Device.FindCrtc` | output.c:15-21 | The first index of the CRTC, or the length. |
| `Props.SameNamesSameFind` | layer.c:41-52 | Looking a property up depends on the names alone. |
| `Props.OverlapIsSharedPixel` | layer.c:139-149 | Rectangles of positive size intersect if and only if some pixel belongs to both. |
| `Props.LayersShareAPixel` | layer.c:123-149 | Two layers intersect if and only if they share a pixel of the screen, where CRTC_X, CRTC_Y, CRTC_W and CRTC_H are read as signed 32-bit numbers and are 0 when not set. |
| `Props.EmptyOverlap` | layer.c:139-149 | An empty rectangle intersects whatever it is strictly inside of. |
| `Props.VisibleMeans` | layer.c:193-217 | A layer with alpha 0 is never visible; without a framebuffer a layer is visible only if it must be composited; any other layer is. |
| `Props.Stored` | layer.c:80 | The stored name is the first 31 characters. |
| `Props.ToInt32` | layer.c:133-136 | The conversion to int keeps the number modulo 2^32. |
| `Atomic.Request.AddProperty` | test/libdrm_mock.c:509-519 | Appends one entry at the cursor. |
| `Atomic.Request.SetCursor` | test/libdrm_mock.c:527-531 | Drops exactly the entries from the cursor on. |
| `Atomic.LastWriteConcat` | test/libdrm_mock.c:203-219 | The last write wins across concatenated requests. |
| `Atomic.LastWriteMeans` | test/libdrm_mock.c:203-219 | The value of a property is that of the entry behind which it is not written again. |
| `Atomic.Kernel.TestCommit` | device.c:92-115 | One test of exactly the request's contents; the log and the counter grow by one. |
| `Lists.Init` | list.c:3-8 | A ring of the head alone. |
| `Lists.Insert` | list.c:10-17 | The ring with the element behind the given one; prev and next mutually inverse. |
| `Lists.InsertBefore` | plane.c:131 | Insertion via prev puts the element in front of the given one. |
| `Lists.Append` | plane.c:137 | Insertion behind the head's prev appends. |
| `Lists.Remove` | list.c:19-26 | The ring without the element, whose links are cleared. |
| `Lists.Length` | list.c:28-42 | Terminates with the number of elements. |
| `Lists.Empty` | list.c:44-48 | True exactly for the head alone. |
| `Lists.RingIsDetermined` | list.c:28-42 | The links determine the sequence: two readings of a ring from one head are equal. |

## Left out

- File descriptors, DRM resource queries, commit flags and the retry loop on EINTR and EAGAIN (`device.c`): a
  test commit is one call of an arbitrary function.
- Logging, `output_log_layers`, re-use counters and the reset of `test_commit_counter`: the model's counter
  only grows.
- Layer priorities (`alloc.c:598-616`, `layer.c:175-191`): the allocator never reads them.
- Failure of `malloc`, `calloc`, `realloc` and `drmModeAtomicAddProperty`, and freeing of memory.
- `liftoff_output_destroy` and `liftoff_device_destroy`: layers and outputs must be gone before.
- Property discovery in `liftoff_plane_create`: type, zpos, CRTC mask and properties of the DRM plane are
  inputs, and the plane's id is the requested one.
- Width of the sums in `layer_intersects`: coordinates are truncated to 32 bits as in the code, their sums
  are unbounded, where overflow of an `int` is undefined in C.
- Objects.Device.CreatePlane: registers planes without FB_ID or CRTC_ID, but the device is then not one the
  other operations are stated for; the assertions in `apply_current` and on disabling can fail there.
- Objects.Device.CreateOutput: the same for an output whose CRTC index does not fit the 32-bit CRTC mask.
- Objects.Layer.Destroy: the object is not freed; it is out of its output and no longer referenced by it.
- PlaneOrder.StrictPlaneOrder: needs layer zpos values that fit an `int`, which the code casts to, and planes with
  CRTC_W and CRTC_H, as every KMS plane has.
- Emission.EmittedAsTested: says nothing about planes held by other outputs; they are written again from
  their layers' current properties, which no test of a recomputation covers.
- Cache.EveryApplyIsSound: a run ends where an assertion fails.
- The device's and outputs' lists are sequences in `Objects`, `Searching` and `Applying`; `Lists` proves the
  circular list against the same sequence operations, the embedding of links in objects is not modelled.
- Loop bodies and phases of `output_choose_layers`, `liftoff_output_apply` and `plane_apply` are methods of
  their own.
