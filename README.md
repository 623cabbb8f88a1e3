# ParticleSystemJS core, modelled in Dafny

This project models the simulation core of ParticleSystemJS, a pooled
particle system for THREE.js (`js/ParticleSystem.js` and `js/Atlas.js`).

**The pool.** A system owns a fixed number of particles and allocates them
once. Each particle is either in the live array or in the dead array. A
frame does the following:

- The emission controller decides how many dead particles to bring to life.
- Every live particle is aged and run through its modifiers.
- Particles whose age has passed their life span are killed and compacted
  back onto the dead array.
- Optionally, the live particles are sorted by depth.
- The live particles are written, six vertices each, into the flat vertex
  buffers of the mesh.

**The emission controller and the atlas.** The controller works in
continuous mode, a release rate per second, or in burst mode, the whole pool
at once. A system may also have a lifespan of its own, after which it stops
emitting. The texture atlas is the table of UV rectangles that the particles
index.

**The modules**, one concept each:

| module | file | what it holds |
|---|---|---|
| `Emission` | `emission.dfy` | Pool sizing, the average life span and the emission controller's decision for one frame. |
| `Particles` | `particles.dfy` | The particle record, the ten channels, the modifiers and the stage pipeline of `resetParticle` and `advanceParticle`. |
| `ParticleSeqs` | `particle_seqs.dfy` | Facts about sequences of particles: identities, the alive/dead split, one frame over all of them, and the pool invariant on values. |
| `DepthSort` | `depth_sort.dfy` | The keyed stable sort and the gather step of `sortParticleArray`. |
| `TextureAtlas` | `atlas.dfy` | The `Atlas` class and `createGridAtlas`. |
| `VertexBuffers` | `vertex_buffers.dfy` | The typed attribute arrays, the `updateAttribute*` helpers and the per-particle writer loop. |
| `ParticleSystems` | `particle_system.dfy` | The `ParticleSystem` class: its arrays, its counts, the controller's fields, `update` and the operations it calls. |
| `Vectors`, `Options`, `Sequences` | `vectors.dfy`, `options.dfy`, `sequences.dfy` | Small shared values and generic sequence lemmas. |

**How the model is built.**

- **State.** The system is a class whose methods update its fields in place.
  - The live, dead and spare particle arrays are `array<Particle>`.
  - The counts and the controller's timer, flags and age are fields.
  - The vertex buffers are `array<real>`.
- **Particles** are value records stored in those arrays.
- **Identity.** A particle's identity is its `id`, drawn from a counter object
  that stands for the source's global counter.
- **The pool invariant** (`Valid`) holds between operations:
  - the live and dead counts add up to the capacity;
  - the identities held by the two arrays are always the same set, with no
    identity twice;
  - every live particle is alive;
  - no dead particle is alive.

  Every state-changing operation is proved to keep it.
- **Frame outcome.** `update` returns whether the write to the vertex buffers
  succeeded. In the source, a particle whose atlas index names no atlas image
  raises a TypeError in the writer, and the frame stops there. The model
  returns `false` at the same point instead.

## Model

| member | source | states |
|---|---|---|
| Emission.MinLifeSpan | js/ParticleSystem.js:100-101 | The life span used for sizing is the particle life span, or the system lifespan when that is nonzero and shorter; it never exceeds either. |
| Emission.MaxParticleCount | js/ParticleSystem.js:92-108 | A burst system holds exactly `releaseAtOnceCount` particles; a continuous one holds the larger of one and twice the particles released over the sizing life span. |
| Emission.DefaultCapacity | js/ParticleSystem.js:51-67 | With the constructor's defaults (rate 100, particle life span 1, no lifespan) the pool holds exactly 200 particles, a whole number. |
| Emission.CalculateAverageParticleLifeSpan | js/ParticleSystem.js:76-90 | The loop summing one hundred copies of the particle life span and dividing by 100 yields exactly the particle life span. |
| Emission.ReleaseCount | js/ParticleSystem.js:702-705 | A continuous release asks for at least one particle, and otherwise for the whole number of emission intervals elapsed; rate 0 (an infinite interval) gives one. |
| Emission.ReleaseCountIsWholeIntervals | js/ParticleSystem.js:702-706 | When a continuous release is due, the count n it asks for satisfies n intervals <= elapsed time < n + 1 intervals. |
| Emission.EmissionStep | js/ParticleSystem.js:684-713 | Every release resets the timer to 0 and sets the released flag; no release advances the timer by deltaTime. The first frame always releases. Burst mode releases with the full capacity exactly on the first frame or after the wait with no live particle. Continuous mode releases exactly on the first frame or when an interval has passed, with ReleaseCount particles. |
| Emission.BurstWaitsForEmptyPool | js/ParticleSystem.js:688-698 | After the first burst, a burst system never releases while any particle is live. |
| Emission.ContinuousReleaseExample | js/ParticleSystem.js:700-711 | At 10 particles per second, a frame that brings the timer to 0.5 s asks for 5 particles and resets the timer. |
| Emission.StillEmitting | js/ParticleSystem.js:728-733 | Once off, emission stays off; it stays on exactly when it was on and the lifespan is 0 or the age has not passed it. |
| TextureAtlas.Atlas.constructor | js/Atlas.js:10-22 | A new atlas is empty, or holds exactly the one full-texture descriptor (0, 1, 1, 0) when asked for it; the count equals the table length. |
| TextureAtlas.Atlas.AddImageDescriptor | js/Atlas.js:38-43 | The descriptor is stored at the old count, the count grows by one, and the earlier descriptors are unchanged. |
| TextureAtlas.Atlas.GetImageDescriptor | js/Atlas.js:45-49 | A descriptor comes back exactly when the index is a whole number below the count, and it is the one stored at that slot; otherwise the result is undefined (None). |
| TextureAtlas.Atlas.CreateGridAtlas | js/Atlas.js:57-109 | The nested loops build exactly the grid of cells, rows outermost, each axis walked in its loop order. |
| TextureAtlas.Atlas.AddGridRow | js/Atlas.js:94-103 | The inner loop appends the cells of one row in the column order, and nothing else. |
| TextureAtlas.Order | js/Atlas.js:67-94 | An axis of n cells is visited n times: 0 up to n - 1, or n - 1 down to 0 when reversed. |
| TextureAtlas.GridAtlasLayout | js/Atlas.js:76-105 | A grid atlas has exactly xCount * yCount descriptors. The (r * xCount + c)-th is the cell at column c and row r, or at xCount - 1 - c and yCount - 1 - r when the axis is reversed. |
| TextureAtlas.CellGeometry | js/Atlas.js:61-99 | The cell (x, y) starts at left + (width / xCount) * x and has its top edge at bottom + (height / yCount) * (y + 1). Each cell is width / xCount by height / yCount. Neighbours share edges, and the outer cells end on the rectangle's edges. |
| VertexBuffers.CornersMatchShader | js/ParticleSystem.js:931-936 | For every vertex, the shader's x and y factors computed from its corner index are plus or minus one. Its texture coordinates are the image edge on that side: right exactly for +x, top exactly for +y. |
| VertexBuffers.TrianglesCoverQuad | js/ParticleSystem.js:370-376 | The corner indices 0, 1, 3, 1, 2, 3 form two triangles of three distinct corners each. Together they cover all four corners, and they share the diagonal between corners 1 and 3. |
| VertexBuffers.UpdateAttributeVector2XY | js/ParticleSystem.js:386-392 | Cells 2i and 2i + 1 receive x and y; every other cell is unchanged. |
| VertexBuffers.UpdateAttributeVector3 | js/ParticleSystem.js:394-401 | Cells 3i .. 3i + 2 receive the vector; every other cell is unchanged. |
| VertexBuffers.UpdateAttributeColor | js/ParticleSystem.js:403-411 | Cells 4i .. 4i + 3 receive red, green, blue and alpha; every other cell is unchanged. |
| VertexBuffers.UpdateAttributeScalar | js/ParticleSystem.js:413-418 | Cell i receives the value; every other cell is unchanged. |
| VertexBuffers.Geometry.constructor | js/ParticleSystem.js:110-145 | Six fresh, distinct, zero-filled buffers of 3, 2, 4, 2, 1 and 1 components per vertex, with no draw range set. |
| VertexBuffers.Geometry.SetDrawRange | js/ParticleSystem.js:380-381 | The draw range becomes the given vertex count. |
| VertexBuffers.WritePositions | js/ParticleSystem.js:335-341 | All six vertices of the slot receive the particle's position; cells outside the slot are unchanged. |
| VertexBuffers.WriteUvs | js/ParticleSystem.js:343-350 | The six vertices receive (l,t), (l,b), (r,t), (l,b), (r,b), (r,t) of the image; cells outside the slot are unchanged. |
| VertexBuffers.WriteVertex | js/ParticleSystem.js:363-366 | One vertex receives the colour with alpha, the size, and the rotation in radians. No other cell or vertex changes. |
| VertexBuffers.WriteVertexData | js/ParticleSystem.js:352-368 | All six vertices of the slot receive the colour with alpha, the size, and the rotation in radians; cells outside the slot are unchanged. |
| VertexBuffers.WriteCornerIndices | js/ParticleSystem.js:370-376 | The six corner indices of the slot are 0, 1, 3, 1, 2, 3; cells outside the slot are unchanged. |
| VertexBuffers.WriteParticleVertices | js/ParticleSystem.js:330-376 | Positions are always written. It succeeds exactly when the atlas index names an image, and then every vertex of the slot holds the particle with that image. A failure leaves the other buffers untouched. Only the slot's cells change. |
| VertexBuffers.WriteSlot | js/ParticleSystem.js:328-378 | One pass of the writer loop: slot p holds particle p exactly when its image exists, the earlier slots stay drawn, and only slot p's cells change. |
| VertexBuffers.WriteLiveParticles | js/ParticleSystem.js:328-378 | The loop succeeds exactly when every particle written has an atlas image. Then vertex i holds particle i / 6 with its image. Cells past the written slots are unchanged. |
| Particles.Apply | js/ParticleSystem.js:803-882 | No modifier changes a particle's id, age, liveness, life span or colour, and the default updater changes nothing at all. |
| Particles.NewParticle | js/ParticleSystem.js:1007-1031 | A new particle carries the given id, is not alive, has age 0 and life span 0, the colour white and a zero scratch vector. |
| Particles.Rebind | js/ParticleSystem.js:202-220 | Binding with an empty name changes nothing. Otherwise the named channel gets the modifier and every other channel keeps its own. |
| Particles.ColorStage | js/ParticleSystem.js:488-496 | The corrected colour stage: under the default updater the colour is kept, under the default initializer it becomes black, and the bookkeeping fields are untouched. |
| Particles.AdvanceParticle | js/ParticleSystem.js:478-486 | The age grows by exactly deltaTime; id, liveness and life span are untouched by the updaters. |
| Particles.ResetParticle | js/ParticleSystem.js:433-476 | A reset particle has age 0 and is not alive, with its id and life span unchanged. |
| Particles.ActivateParticle | js/ParticleSystem.js:550-556 | An activated particle keeps its id, has age 0, is alive and has the configured life span. |
| Particles.KillParticle | js/ParticleSystem.js:544-548 | A killed particle is not alive and differs from before in nothing else. |
| Particles.StepParticle | js/ParticleSystem.js:520-532 | After one frame the age has grown by deltaTime, id and life span are unchanged, and the particle is alive exactly when it was alive and its new age does not pass its life span. |
| Particles.DefaultInitializerZeroes | js/ParticleSystem.js:871-882 | Field by field: the channel's own field (the scratch vector for colour) becomes zero, and every other field, including identity, age, liveness, lifespan and colour, keeps its value. |
| Particles.DefaultResetZeroes | js/ParticleSystem.js:433-476 | With the default initializers, a reset particle has every channel zero, the colour black. |
| Particles.DefaultAdvanceIntegrates | js/ParticleSystem.js:478-514 | With the default updaters a frame is one explicit Euler step. Position moves by the velocity from before the frame, and velocity by the acceleration. Rotation moves by the rotational speed from before the frame, and the speed by the rotational acceleration. Every other channel is kept. |
| Particles.DefaultDisplayChain | js/ParticleSystem.js:488-496 | With the corrected colour stage, the default display updaters keep atlas index, size, colour and alpha. |
| Particles.DefaultPositionChain | js/ParticleSystem.js:498-506 | The default position chain updates the position with the old velocity before the velocity is updated, and keeps the acceleration. |
| Particles.DefaultRotationChain | js/ParticleSystem.js:508-514 | The default rotation chain updates the rotation with the old rotational speed before the speed is updated, and keeps the rotational acceleration. |
| Particles.DefaultDisplayChainAsWritten | js/ParticleSystem.js:488-496 | As written, the default display chain sets the colour from whatever the scratch vector holds and changes nothing else. |
| Particles.ColorStageAsWritten | js/ParticleSystem.js:490-491 | As written, the colour becomes whatever the scratch vector holds after the colour modifier ran on it. Under the default updater that is the scratch vector as the previous writer left it. The bookkeeping fields are untouched. |
| Particles.AdvanceParticleAsWritten | js/ParticleSystem.js:478-514 | As written, a frame grows the age by exactly deltaTime and leaves id, liveness and life span untouched. |
| Particles.DefaultAdvanceAsWrittenColor | js/ParticleSystem.js:478-514 | As written, a default frame is the same Euler step except that the colour is taken from the scratch vector that the previous frame left behind. |
| Particles.ColorStageAsWrittenLeaksScratch | js/ParticleSystem.js:488-496 | Counterexample: under constant acceleration, the source's colour after two default frames is the first frame's acceleration * dt, where the intended stage keeps it white. |
| ParticleSeqs.SplitIsPartition | js/ParticleSystem.js:558-599 | The alive and the dead particles of a sequence together are exactly its particles, with the counts adding up. |
| ParticleSeqs.SplitIsUnique | js/ParticleSystem.js:558-599 | Any split into an all-alive and a none-alive part holds exactly the alive and the dead particles. |
| ParticleSeqs.CompactionSelects | js/ParticleSystem.js:558-599 | After compaction the live part holds exactly the particles that were alive, and as many. The entries appended to the dead array are exactly those that were dead. |
| ParticleSeqs.StepsWithinLifeSpan | js/ParticleSystem.js:520-532 | Whatever the order, the particles that survive a frame are alive and none has an age past its life span. |
| ParticleSeqs.StepsSurvivors | js/ParticleSystem.js:516-542 | If every particle is alive and its new age does not pass its life span, the frame kills none. |
| ParticleSeqs.PooledSteps | js/ParticleSystem.js:516-534 | A frame of the live particles keeps the pool invariant. |
| ParticleSeqs.PooledRearrange | js/ParticleSystem.js:558-599 | Moving particles between live and dead, or reordering either side, keeps the pool invariant provided no dead entry is alive. |
| ParticleSeqs.PartitionKeepsPool | js/ParticleSystem.js:588-594 | Moving the dead tail of the partitioned live segment onto the dead stack keeps the pool invariant and the particles the two sides hold. |
| ParticleSeqs.CompactionKeepsPool | js/ParticleSystem.js:558-599 | A compaction into an all-alive live part and a dead stack that keeps its old entries keeps the pool invariant. The live part then holds exactly the alive particles and the new dead entries exactly the dead ones. |
| DepthSort.SortBy | js/ParticleSystem.js:632 | The stable sort yields a permutation of its input, ascending by key. |
| DepthSort.SortByKey | js/ParticleSystem.js:603-632 | Sorting with the comparator `a[0] - b[0]` yields a permutation of the entries, ascending by key. |
| DepthSort.KeyedBy | js/ParticleSystem.js:614-629 | Entry p holds the key of element p and the index p. |
| DepthSort.Gather | js/ParticleSystem.js:634-639 | Entry i of the result is the element named by the i-th sorted entry. |
| DepthSort.GatherSortByKey | js/ParticleSystem.js:632-639 | Sorting keyed entries and then gathering equals gathering and then sorting the elements by key. |
| DepthSort.KeyedSortIsSortBy | js/ParticleSystem.js:614-639 | Keying, sorting and gathering is the stable sort of the elements by key. |
| ParticleSystems.IdCounter.constructor | js/ParticleSystem.js:1006 | The counter starts at 0. |
| ParticleSystems.IdCounter.Next | js/ParticleSystem.js:1011 | Each particle takes the counter's next value, and the counter stands at it afterwards. |
| ParticleSystems.FreshPool | js/ParticleSystem.js:174-182 | The n particles created after the counter stood at `last` have ids last + 1 .. last + n in order, and each has age 0, lifespan 0 and is not alive. |
| ParticleSystems.FreshPoolAt | js/ParticleSystem.js:176-182 | The j-th created particle is a new particle with id last + j + 1, reset by the initializers. |
| ParticleSystems.FillPool | js/ParticleSystem.js:176-182 | The loop fills every slot with the next fresh particle and advances the counter by the array length. |
| ParticleSystems.Activations | js/ParticleSystem.js:652-662 | The j-th particle activated is the j-th from the top of the dead stack, activated with the configured life span. |
| ParticleSystems.ActivationsKeepIds | js/ParticleSystem.js:650-674 | The activated particles and the dead ones left beneath them together hold exactly the identities of the dead stack. |
| ParticleSystems.PooledActivations | js/ParticleSystem.js:650-674 | Moving k activated particles from the top of the dead stack to the end of the live array keeps the pool invariant, with every live particle alive. |
| ParticleSystems.EmittedKeepsPool | js/ParticleSystem.js:686-711 | An emission keeps the pool invariant and every live particle alive. The live count grows, never past the capacity, and the total stays. A request is cut short only when the dead stack runs out or the pool is full. |
| ParticleSystems.SurvivorsKeepParticles | js/ParticleSystem.js:516-542 | After a frame with compaction, live and dead together hold the stepped particles and the old dead ones, the total count is kept, and every live particle is alive with its age within its life span. |
| ParticleSystems.SimulatedOfAdvanced | js/ParticleSystem.js:715-724 | Sorting the result of a step when zSort is set, and keeping it otherwise, gives the particle part of a frame: the survivors, ascending in depth under zSort. |
| ParticleSystems.ActivationCount | js/ParticleSystem.js:652-667 | The number moved is the least of the request, the dead count and the free room: at most each of them and equal to one of them. A non-positive request moves none. |
| ParticleSystems.ActivateFromPool | js/ParticleSystem.js:652-669 | The loop moves exactly the ActivationCount particles from the top of the dead stack, in pop order, activated, to the end of the live array. No other live slot changes. |
| ParticleSystems.DepthSorted | js/ParticleSystem.js:601-648 | The sorted live particles are a permutation of the old ones, ascending in depth. |
| ParticleSystems.PooledSorted | js/ParticleSystem.js:601-648 | Sorting the live particles keeps the pool invariant and every live particle alive. |
| ParticleSystems.SkipDead | js/ParticleSystem.js:564-568 | The cursor stops at the nearest alive entry at or below it, or at 0, and every entry it passed is dead. |
| ParticleSystems.SkipAlive | js/ParticleSystem.js:570-574 | The cursor stops at the nearest dead entry at or above it, or at the last live slot, and every entry it passed is alive. |
| ParticleSystems.Swap | js/ParticleSystem.js:582-584 | The two entries are exchanged, nothing else changes, and the live segment stays a permutation of itself. |
| ParticleSystems.PartitionLive | js/ParticleSystem.js:560-586 | The two-cursor loop rearranges the live segment so that the alive entries come first and the dead ones after them. |
| ParticleSystems.PopDead | js/ParticleSystem.js:588-594 | The dead tail of the live segment moves onto the dead array. The live count drops to the last alive entry. The earlier dead entries are unchanged, and the dead array stays not alive. |
| ParticleSystems.CompactLive | js/ParticleSystem.js:558-594 | After both loops the live prefix is all alive and the dead prefix none alive, the old dead entries are unchanged, and the total and the multiset of particles are kept. |
| ParticleSystems.KeyByDepth | js/ParticleSystem.js:614-629 | The first loop keys every live particle by the depth of its position and its index. |
| ParticleSystems.GatherInto | js/ParticleSystem.js:634-639 | The gather loop copies the live particles into the spare array in sorted order; the rest of it is unchanged. |
| ParticleSystems.SortInto | js/ParticleSystem.js:614-639 | Keying, sorting and gathering put the depth-sorted live particles into the spare array. |
| ParticleSystems.StepAll | js/ParticleSystem.js:518-534 | The loop applies one frame to every live particle. It counts zero deaths exactly when all stay alive, and the rest of the array is unchanged. |
| ParticleSystems.ParticleSystem.constructor | js/ParticleSystem.js:229-262 | The configured capacity and average life span, with the default modifiers. The pool holds capacity fresh particles, all dead, with consecutive new ids. The system is inactive, emitting, at age 0 with timer 0 and no release yet, and has no draw range. |
| ParticleSystems.ParticleSystem.InitializeParticleArray | js/ParticleSystem.js:174-190 | Live count 0, dead count equal to the capacity, and the dead array holding the fresh, not-alive particles. The pool invariant is established. |
| ParticleSystems.ParticleSystem.ActivateParticles | js/ParticleSystem.js:650-674 | Exactly ActivationCount particles move from the top of the dead array to the end of the live array, in pop order, each activated. The dead array is truncated by that many, and nothing fails on a shortfall. |
| ParticleSystems.ParticleSystem.StepLiveParticles | js/ParticleSystem.js:518-534 | Every live particle takes one frame, and zero deaths are counted exactly when all stay alive. |
| ParticleSystems.ParticleSystem.AdvanceParticles | js/ParticleSystem.js:516-542 | The live particles afterwards are exactly the stepped particles that are alive (as a multiset), and the dead stack gains exactly the stepped ones that died, above its old entries, which are unchanged. If no particle died, the live array is exactly the stepped particles and the dead array is unchanged. No live particle has an age past its life span. |
| ParticleSystems.ParticleSystem.CleanupDeadParticles | js/ParticleSystem.js:558-599 | Every live entry is alive, and the live count becomes the number of alive entries before the call. The live part holds exactly the particles that were alive, and the entries added to the dead array exactly those that were dead. The earlier dead entries are unchanged. |
| ParticleSystems.ParticleSystem.CleanupIfAnyDied | js/ParticleSystem.js:536-540 | Compaction runs when some particle died; either way, live and dead are the compaction of the stepped particles, and with no death nothing moves. |
| ParticleSystems.ParticleSystem.BindInitializer | js/ParticleSystem.js:202-210 | The initializers are rebound at the named channel only; an empty name changes nothing. |
| ParticleSystems.ParticleSystem.BindUpdater | js/ParticleSystem.js:212-220 | The updaters are rebound at the named channel only; an empty name changes nothing. |
| ParticleSystems.ParticleSystem.BindModifier | js/ParticleSystem.js:222-227 | The initializer and the updater of the named channel both become the modifier. |
| ParticleSystems.ParticleSystem.Activate | js/ParticleSystem.js:756-765 | The system is active afterwards. |
| ParticleSystems.ParticleSystem.Deactivate | js/ParticleSystem.js:745-754 | The system is inactive afterwards. |
| ParticleSystems.ParticleSystem.SortParticleArray | js/ParticleSystem.js:601-648 | The live and spare arrays swap roles. The live segment becomes its depth-sorted permutation, and the counts and the dead array are unchanged. |
| ParticleSystems.ParticleSystem.UpdateAttributesWithParticleData | js/ParticleSystem.js:308-384 | Succeeds exactly when every live particle has an atlas image, and then every vertex of the live slots holds its particle. No buffer cell past the live slots changes. The draw range becomes 6 * liveCount only when that is positive; otherwise it stays. |
| ParticleSystems.ParticleSystem.EmissionNow | js/ParticleSystem.js:684-713 | A system that is not emitting asks for nothing and leaves the timer and flag as they were; the first emitting frame always releases. |
| ParticleSystems.ParticleSystem.Emit | js/ParticleSystem.js:686-711 | The controller's timer and release flag become the decision's. Without a request the live and dead particles are unchanged. With a request of n, exactly ActivationCount(n, dead count, free room) particles from the top of the dead stack are appended, activated, to the live ones, and the dead stack loses them. |
| ParticleSystems.ParticleSystem.Simulate | js/ParticleSystem.js:715-724 | The pool invariant holds. The live particles are exactly the stepped particles that are alive (as a multiset), and the dead stack gains exactly those that died, above its unchanged old entries. Under zSort the live particles ascend in depth. If none died, the live particles are the stepped ones, depth-sorted under zSort, and the dead stack is unchanged. |
| ParticleSystems.ParticleSystem.AgeBy | js/ParticleSystem.js:728-733 | The system's age grows by deltaTime, and emission stops once the age passes a nonzero lifespan. |
| ParticleSystems.ParticleSystem.EmitAndSimulate | js/ParticleSystem.js:684-724 | Through the particles right after emission (a ghost result): they are the emission of the old ones as Emit states, and the final ones are their simulation as Simulate states. The pool invariant holds, and the timer and release flag are those emission set. |
| ParticleSystems.ParticleSystem.WriteAndAge | js/ParticleSystem.js:726-733 | The write succeeds exactly when every live particle has an image. Then every live slot is drawn and the system has aged and applied the lifespan cutoff; after a failed write, age and emitting are unchanged. Either way no buffer cell past the live slots changes, and the draw range becomes 6 * liveCount only after a successful write with some particle live; otherwise it stays. |
| ParticleSystems.ParticleSystem.UpdateActive | js/ParticleSystem.js:684-733 | Through the particles right after emission (a ghost result): they are the emission of the old ones for the decision, and the final ones are their simulation, as Emit and Simulate state them. The frame succeeds exactly when every live particle after the step has an image; then every live slot is drawn, the age has grown by deltaTime and the lifespan cutoff is applied. After a failed write, age and emitting are as they were. Either way no buffer cell past the live slots changes, and the draw range becomes 6 * liveCount only after a successful write with some particle live; otherwise it stays. |
| ParticleSystems.ParticleSystem.Update | js/ParticleSystem.js:680-743 | An inactive system changes nothing: same controller state, particles, draw range and contents of all six vertex buffers. An active one keeps the pool invariant. Its particles go through the emission that EmissionNow decides and then one simulation step, as UpdateActive states. It succeeds exactly when every live particle has an image, and then is drawn, aged and subject to the lifespan cutoff; after a failed write age and emitting are as they were. No buffer cell past the live slots changes, and the draw range becomes 6 * liveCount only after a successful write with some particle live; otherwise it stays. |

## Left out

- THREE.js plumbing is not modelled: the material, the mesh, the scene calls in `activate`/`deactivate`, `getCameraWorldAxes`, `generateXYAlignedQuadForParticle`, the shader source and `getTexture`. These are calls into a library outside the core. The vertex shader is used only for the corner-factor formula.
- Numbers are exact reals and integers. The model does not capture JavaScript's double rounding, `Float32Array` storage of the vertex buffers, NaN or infinities, except that a release rate of 0 is handled as the infinite interval JavaScript computes.
- The depth key is an abstract function of a particle's position. It stands for the projected z coordinate that `sortParticleArray` gets from the inverted camera matrix, which is outside this model.
- `simulateInLocalSpace`, `customPositionTransform` and `setCustomPositionTransform` are matrix operations of THREE.js and are not part of this model.
- `mergeParameters` and the string-keyed lookups of the `bind*` methods are replaced by the `Config` datatype and the `Channel` enumeration. `FrameSet` and the other PHOTONS helpers are defined in files that are not part of this model.
- Particles are value records stored in arrays, not shared objects. The source's aliasing is not modelled: a particle object reachable from both arrays, and the stale references left in slots past a count.
- The `.length` truncations of `activateParticles`, `cleanupDeadParticles`, `initializeParticleArray` and `sortParticleArray` are not modelled. The model keeps fixed-length arrays with counts, so the entries past a count are simply not part of the live or dead particles.
- A custom modifier is a function that computes a new value for its own target channel. JavaScript modifiers may mutate any part of the particle; that is not modelled.
- The rotation initializers receive no elapsed time in the source (`undefined`); the model passes 0.
- The writer's `needsUpdate = true` flags on the six buffer attributes (js/ParticleSystem.js:390, 399, 409, 416) only ask THREE.js to upload the buffers to the GPU, and are not modelled.
- The writer's side effect of storing alpha in the particle's colour object is not modelled. The model writes the alpha straight into the buffer, which is what the source's buffer receives.
- The whole system model runs the corrected colour stage (`Particles.Stage` uses `ColorStage`), so `AdvanceParticle`, `StepParticle`, `ResetParticle`, `StepAll` and every frame of `ParticleSystem` keep a particle's colour under the default updater. The source does not: js/ParticleSystem.js:490-491 sets the colour from the scratch vector. For a white particle with acceleration (0, -1, 0), two frames at dt = 1 give the colour (0, -1, 0) in the source and white in the model. The as-written behaviour is modelled separately, as the Findings table says.
- `VertexBuffers.Pi` and `VertexBuffers.DegreesToRadians` stand in for `PHOTONS.Constants.DegreesToRadians`, which is not part of this model; the factor is taken to be pi / 180, with pi written as 3.141592653589793, the decimal form of JavaScript's `Math.PI`.
- The global particle identity counter is modelled as an `IdCounter` object passed to the constructor.
- ParticleSystems.ParticleSystem.constructor: requires the capacity to be a whole non-negative number. A fractional capacity would become an invalid array length in the source.
- ParticleSystems.ParticleSystem.constructor: folds the JavaScript constructor and `initialize` into one. The source's first `updateAttributesWithParticleData` writes nothing with no live particle, so it is left out here, and the draw range stays unset.
- ParticleSystems.ParticleSystem.ActivateParticles: the request is an integer. Every caller in the source passes one: the integral capacity, or a floored release count.
- TextureAtlas.Atlas.CreateGridAtlas: the counts are natural numbers. With a fractional or negative count the source's `!=` loops would not terminate.
- ParticleSystems.ParticleSystem.AdvanceParticles: when some particle died, the live particles and the new dead entries are stated as multisets, not in the order the partition loop leaves them.
- ParticleSystems.ParticleSystem.Simulate: when some particle died, the live particles are stated as a multiset ascending in depth under zSort. The order of particles of equal depth, which the stable sort takes from the compaction, is not stated.
- ParticleSystems.ParticleSystem.UpdateActive: does not restate the new emission timer and release flag, which are stated by EmitAndSimulate and Emit.
- ParticleSystems.ParticleSystem.Update: does not restate the new emission timer and release flag of an active frame, which are stated by EmissionNow, EmitAndSimulate and Emit.

## Findings

| source | as written | input that shows it | evidently intended | confidence | as-written member | corrected member |
|---|---|---|---|---|---|---|
| js/ParticleSystem.js:488-496 | The colour updater runs on the particle's scratch vector and the colour is then set from it. The scratch vector is never loaded with the colour. The default updater leaves it as the default position and velocity updaters (803-831) last wrote it: velocity * dt, then acceleration * dt. | A particle alive for two default frames of dt = 1 with acceleration (0, -1, 0): its colour becomes (0, -1, 0) on the second frame (ColorStageAsWrittenLeaksScratch). | The default colour updater keeps the colour, as the default updater does for every other channel. | not executed | Particles.AdvanceParticleAsWritten | Particles.ColorStage |
