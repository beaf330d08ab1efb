# Container layout engine

A model of the container core of a small retained-mode GUI layer on top of SFML. A
`Container` owns an ordered list of children. Each child is either a nested container or a
leaf `UIComponent`. The model covers five parts of that core:

- **tree operations**: add children, look them up by name, remove them by name;
- **proportional box model**: size = size proportions × parent size, pushed down to
  every child; padding and spacing = their proportions × the current size;
- **layout pass** (`computeRenderInformation`): placement along the layout orientation,
  then the alignment pass of that orientation, then the render-update flag is cleared;
- **dirty-flag gate**: `draw` recomputes only when the flag is set, then draws every child;
- **event propagation**: an event is offered to the children in order, stopping at the first
  that handles it; the container's own callback runs only when no child handled it.

The state is modelled twice, and the two are tied together:

- as values: `Tree.Box` for a container, `Component.Leaf` for a leaf;
- as objects updated in place: `Container.Container` and `Component.UIComponent`.

Every method of the two classes is specified by the value function it performs on
`Model()` / `State()`. The properties are proved about those value functions.

Module layout:

| module | contents |
|---|---|
| `Geometry` | `Vec2` over exact reals, and reading a vector along an axis |
| `Enumerations` | `Alignment`, `LayoutOrientation`, and the alignment table as column and row scales |
| `Component` | the leaf value, its setters, and the `UIComponent` class |
| `Tree` | the container value, its setters, the child variant |
| `BoxModel` | `setParentSize` / `computeSize` and the top-down cascade |
| `Lookup` | `get*` / `remove*` by name |
| `Placement` | `handleLayoutOrientation` |
| `Alignment` | the three alignment handlers |
| `Render` | `computeRenderInformation` and `draw` |
| `LayoutFacts` | closed forms of where one recomputation puts each child |
| `Events` | `handleEvent` |
| `SizeInvariant` | every operation keeps each container's size equal to its proportions × its parent size |
| `Container` | the `Container` class |

The alignment table is read as a column scale and a row scale:

- column scale: 0 for the Leading column, ½ for the middle column (Top, Center, Bottom),
  1 for the Trailing column;
- row scale: 0 for the Top row, ½ for the middle row (Leading, Center, Trailing), 1 for the
  Bottom row.

The source writes the ½ and 1 as fall-through sums of halves. `HorizontalFactors`,
`VerticalFactors` and `StackedFactors` keep those switches as written, and their contracts
prove them equal to the table.

Four behaviours of the code are easy to miss:

- **Stacked vertical factor.** The stacked handler gives the Top row a vertical factor of 0
  (Container.cpp:787-792), so its children sit at the top padding. It does not use ½ or 1.
- **Stacked reduced size.** The stacked "reduced size" is `position + size − 2·padding`
  (Container.cpp:762), not `size − 2·padding`. `LayoutFacts.StackedTrailingCountsPositionTwice`
  shows the effect: a trailing child ends past the inner right edge by the container's own x.
- **setParentSize.** It recomputes the size and cascades it, but it recomputes neither padding
  nor spacing (Container.cpp:91-97). `BoxModel.PaddingGoesStale` shows that padding keeps the
  value set from the old size.
- **Leading in a horizontal row.** `Leading` centres each child vertically. Of the Leading
  column, only `TopLeading` puts the children at the top padding; in a horizontal row the
  whole Top row (`TopLeading`, `Top`, `TopTrailing`) does (Container.cpp:619-627).
  `LayoutFacts.LeadingRowExample` works through a two-leaf row.

## Model

| member | source | states |
|---|---|---|
| Component.UIComponent.constructor | UIComponent.cpp:9-17 | A new leaf keeps its name and size proportions. It starts visible, enabled, waiting for a render update and without a callback. |
| Component.UIComponent.SetVisible | UIComponent.cpp:19-25 | Visibility becomes `v`. The render-update flag is raised exactly when the visibility changed; otherwise it keeps its old value. |
| Component.UIComponent.SetEnabled | UIComponent.cpp:27-32 | Enabled becomes `v`. The render-update flag is never touched. |
| Component.UIComponent.SetParentSize | UIComponent.cpp:34-39 | Stores the parent size and raises the flag. The base class does not change its own size. |
| Component.UIComponent.SetSizeProportions | UIComponent.cpp:41-46 | Stores the proportions and raises the flag. The size is left unchanged. |
| Component.UIComponent.SetPosition | UIComponent.cpp:48-53 | The position becomes `p` and the flag is raised. |
| Component.UIComponent.UpdatePosition | UIComponent.cpp:55-60 | The position moves by `offset` and the flag is raised. |
| Component.UIComponent.SetCallback | UIComponent.cpp:62-64 | Stores whether a callback is present. The flag keeps its value. |
| Component.Leaf.SetVisible | UIComponent.cpp:19-25 | Visibility becomes `v`; the flag is raised iff it was raised or the visibility changed. No other field changes. |
| Component.Leaf.SetEnabled | UIComponent.cpp:27-32 | Enabled becomes `v`. No other field changes, the flag included. |
| Component.Leaf.SetParentSize | UIComponent.cpp:34-39 | The parent size becomes `p` and the flag is raised. No other field changes: the base class keeps its size. |
| Component.Leaf.SetSizeProportions | UIComponent.cpp:41-46 | The proportions become `q` and the flag is raised. No other field changes. |
| Component.Leaf.SetPosition | UIComponent.cpp:48-53 | The position becomes `p` and the flag is raised. No other field changes. |
| Component.Leaf.UpdatePosition | UIComponent.cpp:55-60 | The position moves by `offset` and the flag is raised. No other field changes. |
| Component.Leaf.SetCallback | UIComponent.cpp:62-64 | Stores whether a callback is present. No other field changes, the flag included. |
| Component.SetVisibleIdempotent | UIComponent.cpp:19-25 | Setting the same visibility twice equals setting it once. The flag ends up raised iff it was raised before or the visibility changed. |
| Component.DirtyFlagOfSetters | UIComponent.cpp:27-60 | Enabling and setting the callback leave the flag as it was; the size and position setters always raise it; neither size setter changes the leaf's size. |
| Tree.Box.SetPaddingProportions | Container.cpp:110-116 | The proportions become `q`, the padding becomes `q` × the current size, and the flag is raised. No other field changes. |
| Tree.Box.SetSpacingProportions | Container.cpp:119-125 | The proportions become `q`, the spacing becomes `q` × the current size, and the flag is raised. No other field changes. |
| Tree.Box.SetPosition | Container.cpp:128-133 | The position becomes `p` and the flag is raised. No other field changes. |
| Tree.Box.UpdatePosition | Container.cpp:135-140 | The position moves by `offset` and the flag is raised. No other field changes. |
| Tree.Box.SetLayoutOrientation | Container.cpp:143-148 | The orientation becomes `o` and the flag is raised. No other field changes. |
| Tree.Box.SetAlignment | Container.cpp:151-156 | The alignment becomes `a` and the flag is raised. No other field changes. |
| Tree.Box.SetCallback | Container.cpp:161-163 | Stores whether a callback is present. No other field changes, the flag included. |
| Tree.Box.SetVisible | Container.cpp:166-172 | Visibility becomes `v`; the flag is raised iff it was raised or the visibility changed. No other field changes. |
| Tree.Box.SetEnabled | Container.cpp:175-180 | Enabled becomes `v`. No other field changes, the flag included. |
| Tree.Box.SetBackground | Container.cpp:183-203 | The background shape exists afterwards. No other field changes, the flag included. |
| Tree.Box.AddContainer | Container.cpp:300-306 | The container is appended as the last child; every earlier child keeps its index; the flag is raised. No other field changes. |
| Tree.Box.AddUIComponent | Container.cpp:309-315 | The leaf is appended as the last child; every earlier child keeps its index; the flag is raised. No other field changes. |
| Tree.SetPositionOf | Container.cpp:519 | A child's `setPosition` puts it at `p`. Its variant, name and size are unchanged. |
| Tree.UpdatePositionOf | Container.cpp:135-140 | A child's `updatePosition` moves it by the offset. Its variant, name and size are unchanged. |
| Tree.Shift | Container.cpp:659-668 | Child i, and only child i, receives `updatePosition(offsets[i])`. The number of children is unchanged. |
| Tree.SetPositionRelocates | Container.cpp:128-133 | `setPosition` changes only the position and the flag of the child. Nothing below it changes. |
| Tree.UpdatePositionRelocates | Container.cpp:135-140 | `updatePosition` changes only the position and the flag of the child. Nothing below it changes. |
| BoxModel.SetParentSize | Container.cpp:91-97 | The size becomes proportions × parent size, and every child (recursively) gets that size as its parent size, so every container of the tree, whatever its state before, has its size derived (`Derived`). Every other field of the container is unchanged (parent size, size, children and flag are the only ones that differ), and the children keep their order, variants, names and positions. The container is dirty. |
| BoxModel.SetSizeProportions | Container.cpp:100-107 | The size becomes the new proportions × the stored parent size, cascaded to all children, so every size in the tree is derived. Every other field is unchanged (only proportions, size, children and flag differ), and the container is dirty. |
| BoxModel.PushParentSize | Container.cpp:431-434 | Child i becomes child i after its own `setParentSize(s)`, for every i, in order. |
| BoxModel.SetParentSizeOf | Container.cpp:426-435 | After `setParentSize(s)` a child's parent size is `s`. A leaf becomes exactly its own `setParentSize(s)`: it keeps its size and every other field. A nested container is cascaded all the way down and its sizes are derived; of its own fields only parent size, size, children and flag change. Variant, name and position are kept. |
| BoxModel.PaddingGoesStale | Container.cpp:91-97 | After a later parent-size change the size follows the new parent, but the padding keeps the value computed from the old size. |
| BoxModel.NewBoxDerived | Container.cpp:36-47 | A new container's size, zero, is its proportions × its parent size, also zero: its size is derived from the start. |
| SizeInvariant.SettersKeepDerived | Container.cpp:110-203 | No setter other than the two size setters touches a size or its inputs, so every container's size stays proportions × parent size. |
| SizeInvariant.AddingKeepsDerived | Container.cpp:300-315 | Adding a leaf, or a container whose sizes are derived, keeps every size derived. |
| SizeInvariant.RemovalKeepsDerived | Container.cpp:320-373 | A successful removal keeps every size derived. |
| SizeInvariant.LayoutKeepsDerived | Container.cpp:828-860 | A recomputation only moves children, so every size stays derived. |
| SizeInvariant.DrawKeepsDerived | Container.cpp:376-392 | A draw of the whole tree keeps every size derived, at every level. |
| SizeInvariant.HandlingKeepsDerived | Container.cpp:406-423 | Handling an event keeps every size derived, at every level. |
| Lookup.Find | Container.cpp:244-295 | Returns the index of the first child with both the name and the variant. It fails iff no child matches both. The failure is NotFound iff no child has the name at all, else TypeMismatch. |
| Lookup.FirstNamed | Container.cpp:321-326 | Returns the index of the first child with the name, whatever its variant. It fails with NotFound iff no child has the name. |
| Lookup.Remove | Container.cpp:320-373 | Succeeds iff the first child with the name has the requested variant; that child is then erased. It fails with NotFound iff no child has the name, and otherwise with TypeMismatch. |
| Lookup.RemoveErasesOne | Container.cpp:326-336 | A successful removal erases exactly the first child with the name. The children before and after it keep their order, and the multiset of children loses that one child. |
| Lookup.LookupAndRemovalDisagree | Container.cpp:244-345 | When the first child with the name has the wrong variant and a later one has the right one, `get*` finds the later one while `remove*` fails with TypeMismatch. |
| Placement.Place | Container.cpp:508-552 | Placement keeps the number of children and their variants, names and sizes. |
| Placement.PlaceAt | Container.cpp:515-551 | Child i is placed at the start position plus the cursor's advance over the children before it. |
| Placement.PlacedOnLine | Container.cpp:522-540 | In a Horizontal (Vertical) layout, child i sits at x (y) = start + the sum of the earlier children's widths (heights) + i spacings. The other coordinate is the start. |
| Placement.PlacedInPlace | Container.cpp:542-549 | With None or Stacked, every child is placed at the container's position. |
| Placement.AdvanceAlongLine | Container.cpp:522-550 | Along a line the cursor moves past a child by its extent plus the spacing along the line and not at all across; with None or Stacked it does not move. |
| Placement.RunAlongLine | Container.cpp:524-540 | Along a line, the cursor's advance over a run of children is their total extent plus one spacing per child. Nothing moves across the line. |
| Placement.RunStandsStill | Container.cpp:542-549 | None and Stacked never move the cursor. |
| Placement.PlaceRelocates | Container.cpp:519 | Placement changes only each child's position and flag. |
| Enumerations.ColumnScaleNamesColumn | Enumerations.h:14-26 | The column scale is 0 exactly for the Leading column (TopLeading, Leading, BottomLeading), ½ exactly for the middle column and 1 exactly for the Trailing column. |
| Enumerations.RowScaleNamesRow | Enumerations.h:14-26 | The row scale is 0 exactly for the Top row (TopLeading, Top, TopTrailing), ½ exactly for the middle row and 1 exactly for the Bottom row. |
| Alignment.HorizontalFactors | Container.cpp:605-657 | The fall-through switch of the horizontal handler gives (column scale, row scale) of the alignment for every one of the nine cases. |
| Alignment.VerticalFactors | Container.cpp:702-740 | The vertical handler's switch gives (row scale, column scale): the primary axis is y. |
| Alignment.StackedFactors | Container.cpp:785-812 | The stacked handler's factor is (column scale, row scale) for all nine alignments. |
| Alignment.MaxExtent | Container.cpp:586-595 | The largest child size along an axis: it bounds every child and is attained by one. |
| Alignment.LineBufferIsFreeSpace | Container.cpp:565-602 | The buffer is the free space left in the padded interior: along the line, last child's position + its extent + buffer + padding reaches the inner far edge; across, the same holds with the largest child's extent. The vertical handler (Container.cpp:674-700) is the same with the axes swapped. |
| Alignment.LineOffsetAlong | Container.cpp:663 | Along the line every child gets the same offset: padding + primary scale × buffer. Line 746 is the vertical handler's counterpart. |
| Alignment.LineOffsetAcross | Container.cpp:663 | Across the line child i gets padding + secondary scale × (buffer + the child's shortfall against the largest child): the base offset and the per-child shift of the switch add up to one scaled sum. |
| Alignment.StackedReducedSize | Container.cpp:762 | The reduced size minus the container's position is size − 2·padding: the position is counted in. |
| Alignment.LineOffsets | Container.cpp:659-668 | One offset per child, each computed from the shared alignment buffer and the child's own shortfall. |
| Alignment.StackedOffsets | Container.cpp:814-824 | Defines one offset per child, so the stacked handler moves every child and no other; where each child lands is stated by `LayoutFacts.StackedPosition`. |
| Alignment.Align | Container.cpp:836-856 | The alignment pass keeps the number of children. |
| Alignment.AlignRelocates | Container.cpp:659-668 | Alignment changes only each child's position and flag. |
| LayoutFacts.BufferAfterPlacement | Container.cpp:597-602 | Right after placement, the buffer along the line is the free space: size − 2·padding − total extent − (n−1) spacings. Across the line it is the padded interior minus the largest child. |
| LayoutFacts.LinePosition | Container.cpp:565-752 | After one recomputation, child i of a line is at its placed coordinate + padding + primary scale × free space along the line. Across the line it is at position + padding + secondary scale × (interior − own size). |
| LayoutFacts.LineTrailingIsFlush | Container.cpp:619-622 | With a Trailing scale along the line, the last child ends exactly at the inner far edge. |
| LayoutFacts.LineLeadingIsFlush | Container.cpp:623-627 | With a Leading scale along the line, the first child starts exactly at the inner near edge. |
| LayoutFacts.LineCenterIsSymmetric | Container.cpp:629-641 | With a middle scale along the line, the gap before the first child equals the gap after the last. |
| LayoutFacts.LineAcrossAlignment | Container.cpp:633-655 | Across the line each child is aligned on its own: at the near inner edge (scale 0), centred in the interior (½), or ending at the far inner edge (1). |
| LayoutFacts.StackedPosition | Container.cpp:760-825 | A stacked (or unset) child ends at position + padding + factor × (reduced size − own size). |
| LayoutFacts.StackedTrailingCountsPositionTwice | Container.cpp:762 | Because the reduced size starts from position + size, a trailing stacked child ends at the inner right edge plus the container's x once more. |
| LayoutFacts.NoneIsStacked | Container.cpp:851-855 | An unset orientation lays the children out exactly as Stacked does. |
| LayoutFacts.EmptyLayoutIsNoOp | Container.cpp:828-860 | With no children and no line layout, a recomputation only clears the flag. |
| LayoutFacts.LeadingRowExample | Container.cpp:629-641 | Leaves 50 and 30 wide, in a 200×100 row with spacing 10 and Leading alignment, start at x = 0 and x = 60, each centred vertically. |
| Render.Placed | Container.cpp:840 | Placement leaves the container's own fields alone, keeps the number of children and every child's size. |
| Render.ComputeRenderInformation | Container.cpp:828-860 | Recomputation clears the flag, changes none of the container's own fields, and only moves children (each child is relocated, nothing below it changes). |
| Render.Draw | Container.cpp:376-392 | After `draw` the container keeps all its own fields except the flag, which is cleared. It keeps its number of children, and every line layout in the tree still has a child. |
| Render.DrawKeepsChildren | Container.cpp:376-392 | `draw` keeps every child's variant and name. A clean container's children stay where they are; a dirty container's children end where one recomputation puts them. |
| Render.DrawChildren | Container.cpp:388-391 | Child i becomes child i after its own draw. Its variant, name and position are kept, and its layout stays defined. |
| Render.DrawElement | Container.cpp:389-391 | A child's own draw keeps its variant, name and position. |
| Render.DrawCleans | Container.cpp:376-392 | After a draw no container anywhere in the tree waits for a render update. |
| Render.DrawOfCleanChangesNothing | Container.cpp:378-380 | Drawing a tree in which no container is dirty changes nothing. |
| Render.DrawIdempotent | Container.cpp:376-392 | Two draws with no mutation in between equal one draw: the second recomputes nothing. |
| Events.HandledIffConsumed | Container.cpp:406-423 | A container reports an event handled iff some leaf below it consumes the event. |
| Events.StopsAtFirstHandler | Container.cpp:408-414 | The first consuming child ends the loop: it and the children before it are offered the event, the children after it are left untouched. |
| Events.OffersToAll | Container.cpp:408-414 | When no child consumes the event, every child is offered it and the answer is false. |
| Events.CallbackFiresOnlyWhenUnhandled | Container.cpp:417-419 | The container's callback runs once iff nothing below consumed the event and a callback is set. |
| Events.HandlingOnlyCounts | Container.cpp:406-423 | Handling an event changes no position, size, flag or child: only callback counters move. |
| Events.HandleEach | Container.cpp:408-414 | The loop yields one child per child it was given. |
| Events.HandleOne | Container.cpp:410 | A child stays a container or a leaf when it handles an event. |
| Events.HandleEvent | Container.h:74-77 | Only the children and the callback counter change. The counter grows by one exactly when the answer is false and a callback is set. |
| Container.Container.constructor | Container.cpp:36-47 | A new container has no layout orientation, Center alignment, no children, and is visible, enabled and dirty; its size is derived. |
| Container.Container.SetParentSize | Container.cpp:91-97 | The object's new state is `BoxModel.SetParentSize` of the old one; the tree below it is cascaded and every size in it is derived. |
| Container.Container.SetSizeProportions | Container.cpp:100-107 | The new state is `BoxModel.SetSizeProportions` of the old one, cascaded, with every size derived. |
| Container.Container.ComputeSize | Container.cpp:426-435 | The size is recomputed, and the children's loop pushes it to each child; nothing else changes. |
| Container.Container.PushParentSizes | Container.cpp:431-434 | The loop over the children returns `BoxModel.PushParentSize` of them. |
| Container.Container.SetPaddingProportions | Container.cpp:110-116 | Stores the proportions, recomputes the padding from the current size, and marks dirty. |
| Container.Container.SetSpacingProportions | Container.cpp:119-125 | Stores the proportions, recomputes the spacing from the current size, and marks dirty. |
| Container.Container.SetPosition | Container.cpp:128-133 | The position becomes `p`, and the container is dirty. |
| Container.Container.UpdatePosition | Container.cpp:135-140 | The position moves by `offset`, and the container is dirty. |
| Container.Container.SetLayoutOrientation | Container.cpp:143-148 | The orientation is stored, and the container is dirty. |
| Container.Container.SetAlignment | Container.cpp:151-156 | The alignment is stored, and the container is dirty. |
| Container.Container.SetCallback | Container.cpp:161-163 | Stores whether a callback is present. The flag keeps its value. |
| Container.Container.SetVisible | Container.cpp:166-172 | Visibility becomes `v`. The container becomes dirty only when the visibility changed. |
| Container.Container.SetEnabled | Container.cpp:175-180 | Enabled becomes `v`. The flag keeps its value. |
| Container.Container.SetOutline | Container.cpp:183-192 | The background shape exists afterwards. Nothing of the layout changes and the flag is untouched. |
| Container.Container.SetBackground | Container.cpp:195-203 | The background shape exists afterwards. Nothing of the layout changes and the flag is untouched. |
| Container.Container.GetElement | Container.cpp:248-267 | The scan with its counter of wrong-variant name matches returns exactly `Lookup.Find`. |
| Container.Container.GetContainer | Container.cpp:244-268 | Returns the index of the first nested container with the name, or the error `Lookup.Find` gives. |
| Container.Container.GetUIComponent | Container.cpp:271-295 | Returns the index of the first leaf with the name, or the error `Lookup.Find` gives. |
| Container.Container.AddContainer | Container.cpp:300-306 | The given container's state is appended as the last child, and the container is dirty. |
| Container.Container.AddUIComponent | Container.cpp:309-315 | The given leaf's state is appended as the last child, and the container is dirty. |
| Container.Container.RemoveElement | Container.cpp:321-344 | Succeeds iff `Lookup.Remove` does. On success the children become its result and the container is dirty. On failure it reports the same error and nothing changes. |
| Container.Container.RemoveContainer | Container.cpp:320-345 | `RemoveElement` for the nested-container variant. |
| Container.Container.RemoveUIComponent | Container.cpp:348-373 | `RemoveElement` for the leaf variant. |
| Container.Container.HandleEvent | Container.cpp:406-423 | The answer and the new state are exactly `Events.HandleEvent` of the old state. |
| Container.Container.OfferInOrder | Container.cpp:408-414 | The loop that leaves at the first handler returns exactly `Events.HandleEach`. |
| Container.Container.HandleLayoutOrientation | Container.cpp:508-552 | The children become `Placement.Place` of the old children, from the container's position. |
| Container.Container.MoveCursor | Container.cpp:522-550 | The switch moves the cursor by one child's `Advance`: extent plus spacing along the line, nothing for None or Stacked. |
| Container.Container.PlaceFrom | Container.cpp:510-551 | The cursor loop returns exactly `Placement.Place` of the children. |
| Container.Container.CollectSizes | Container.cpp:587-592 | Returns every child's size along the axis, in order. |
| Container.Container.CollectVectors | Container.cpp:765-772 | Returns every child's size, in order. |
| Container.Container.Largest | Container.cpp:595 | The maximum of a non-empty list: it bounds every entry and is one of them. |
| Container.Container.LargestExtent | Container.cpp:586-595 | Returns the children's sizes along the axis and their maximum, `Alignment.MaxExtent`. |
| Container.Container.ToShifts | Container.cpp:624-656 | The `std::transform` calls that turn the across-axis sizes into shifts: the top-row, centre-row and bottom-row cases of the horizontal handler (factor 0, ½, 1), and their vertical counterparts at Container.cpp:710-738. Entry j becomes factor × (largest − size j), for every j. |
| Container.Container.ApplyOffsets | Container.cpp:659-668 | The children become `Tree.Shift` of the offsets. |
| Container.Container.HorizontalOffsets | Container.cpp:565-657 | The offsets computed by the horizontal handler are exactly `Alignment.LineOffsets` along x. |
| Container.Container.HandleHorizontalAlignment | Container.cpp:565-669 | The children are shifted by `Alignment.LineOffsets` along x; nothing else changes. |
| Container.Container.VerticalOffsets | Container.cpp:672-740 | The offsets computed by the vertical handler are exactly `Alignment.LineOffsets` along y. |
| Container.Container.HandleVerticalAlignment | Container.cpp:672-752 | The children are shifted by `Alignment.LineOffsets` along y; nothing else changes. |
| Container.Container.StackedOffsetsOf | Container.cpp:760-812 | The offsets computed by the stacked handler are exactly `Alignment.StackedOffsets`. |
| Container.Container.HandleStackedAlignment | Container.cpp:760-825 | The children are shifted by `Alignment.StackedOffsets`; nothing else changes. |
| Container.Container.AlignByOrientation | Container.cpp:842-856 | The orientation switch, with None falling into Stacked, applies `Alignment.Align`. |
| Container.Container.ComputeRenderInformation | Container.cpp:828-860 | The new state is exactly `Render.ComputeRenderInformation` of the old one. |
| Container.Container.Draw | Container.cpp:376-392 | The new state is exactly `Render.Draw` of the old one. |
| Container.Container.DrawEach | Container.cpp:388-391 | The loop over the children returns exactly `Render.DrawChildren` of them. |

## Left out

- Drawing itself is not modelled: the SFML window, colours, outline thickness, and the background shape's position and size. A child's own `draw` is modelled only through what it does to the layout state. A leaf's draw is pure virtual and changes nothing here.
- `validateContainerContent` (Container.cpp:457-478) only prints diagnostics, and its proportion check is an empty stub. The console warning for the None orientation (Container.cpp:545-547) is also left out. Neither changes any state.
- Floating-point rounding: `sf::Vector2f` is modelled with exact reals, so every equation holds exactly rather than up to rounding.
- The move constructor and move assignment (Container.cpp:49-88) are left out, because children are modelled as values owned by exactly one parent; deleted copying (Container.h:21-27) is therefore implicit.
- The getters (Container.cpp:207-239, UIComponent.cpp:66-84) are left out; they only read a field, which the model reads directly.
- Callbacks (`std::function`) are modelled as a presence flag plus a counter of calls. What a callback does is code outside the core.
- A leaf's `handleEvent` is pure virtual. Its answer is modelled by the set of events the leaf consumes, and handling an event changes nothing in the leaf. `Events.HandlingOnlyCounts` therefore says nothing about what a concrete leaf may change while handling. A leaf's `size` is set by the concrete subclass, never by the base class, and is a field here.
- Application, Screen and main are not part of this model.
- BoxModel.Derived: speaks of containers only. `UIComponent` never assigns its `size_` (UIComponent.h:72-74). A concrete subclass sets it, for example in its `updateRenderInformation`, so nothing in the core ties a leaf's size to its proportions.
- SizeInvariant.AddingKeepsDerived: needs the added container's own sizes to be derived. `addContainer` does not push the parent's size to the new child, so the child keeps whatever parent size it had.
- Container.Container.GetContainer: returns the child's index instead of a reference to it, and a `Result` error instead of a thrown exception. The source hands out `Container&` (Container.h:61) so that callers can change a nested child in place. Such a change raises only the child's own render-update flag, never the parent's, so the parent's `draw` skips `computeRenderInformation` (Container.cpp:378-380) and the placement of the siblings goes stale. The model has no operation that changes a child through such a reference, so neither this aliasing nor the stale layout is captured.
- Container.Container.GetUIComponent: returns the child's index instead of a reference to it, and a `Result` error instead of a thrown exception. The source hands out `UIComponent&` (Container.h:62) for changes in place; as with `GetContainer`, such a change leaves the parent's flag unchanged and the siblings' layout stale, and the model captures neither.
- Container.Container.RemoveElement: reports the removed index or the error as a `Result` instead of returning nothing or throwing.
- Container.Container.AddContainer: appends a snapshot of the given container's state. The source moves the object itself into the tree, so later changes made through another handle are not modelled (the source leaves no such handle).
- Container.Container.AddUIComponent: appends a snapshot of the given leaf's state, for the same reason.
- Container.Container.HandleLayoutOrientation: the loops over the children build the updated child list and assign it once, rather than mutating each child in place. Since children are owned values, the resulting state is the same.
- Container.Container.HandleHorizontalAlignment: requires at least one child. The source reads `elements_.back()` (Container.cpp:581-584), which is undefined behaviour on an empty list.
- Container.Container.HandleVerticalAlignment: requires at least one child, for the same reason (Container.cpp:683-684).
- Container.Container.ComputeRenderInformation: requires a child when the orientation is Horizontal or Vertical, for the same reason.
- Container.Container.Draw: requires that every line layout in the tree has a child (`Render.LayoutDefined`), for the same reason.
- Container.Container.SetOutline: keeps only the presence of the background shape, because colour and thickness belong to the drawing library.
- Container.Container.SetBackground: keeps only the presence of the background shape, for the same reason.
- Container.Container.HandleEvent: the `enabled` flag is not consulted, matching the source; a disabled container still propagates events and runs its callback.
