# Open-Reality engine core, modelled in Dafny

Open-Reality is a game engine. Its scenes are authored elsewhere, exported to
a binary scene format (ORSB) and played back by several runtimes. This
project models the parts of the Rust side that hold the engine's logic:

- **Web player** (`openreality-web`):
  - loading a parsed scene into the runtime's tables (`Scene`);
  - keyframe animation: keyframe search, sampling, slerp and the clock (`Animation`);
  - resolving world transforms through the entity hierarchy (`Transform`);
  - skinning matrices for skeletons (`Skinning`);
  - the CPU particle system: pool, xorshift generator, emission, simulation, back-to-front sorting and billboard vertex generation (`Particles`);
  - the browser input state (`Input`).
- **Command-line tool** (`openreality-cli`):
  - platforms, backends and which backend needs a build step (`CliState`);
  - dashboard tabs (`CliState`);
  - bounded log buffers with scrolling (`CliState`);
  - the initial application state (`CliState`);
  - parsing the `build` command's backend argument and choosing the build tool (`BuildCmd`).
- **wgpu backend** (`openreality-wgpu`): the handle store, with handles drawn from one global counter (`Handles`).
- **Shared GPU math** (`openreality-gpu-shared`):
  - frustum plane extraction and sphere culling (`GpuMath`);
  - cascaded shadow map split distances (`GpuMath`).

Vectors, quaternions and matrices hold `real`s, not `f32`s. A 4x4 matrix is
a symbolic term (`Geometry.Mat4`): identity, composition from scale, rotation
and translation, product, or inverse. The properties are therefore about
which matrices are combined and in what order, not about their entries.

`sqrt`, `acos`, `sin`, `powf` and vector normalisation are function
parameters. Nothing in the model fixes their values.

Objects that the Rust code mutates in place are classes whose methods are
proved against pure specification functions:
- `LoadedScene`, `ParticlePool`, `InputState`, `LogBuffer`, `HandleStore`;
- the u64 handle counter (`HandleCounter`);
- the xorshift state (`RandomState`).

Where a method loops in the source, it loops here too.

The hierarchy pass reads each parent's world matrix as it stands when the
child is visited (`openreality-web/src/transform.rs:18-26`). A parent stored
after its child is therefore read stale. The model keeps this behaviour:
- `Transform.StaleParentExample` exhibits it.
- `Transform.ComputeWorldsFollowsHierarchy` proves the hierarchical result for scenes whose parents come first.

Scenes store their entities depth-first, so parents come before their
children. The code relies on this order but does not check it.

## Model

| member | source | states |
|---|---|---|
| Vectors.Resize | openreality-web/src/skinning.rs:22 | the vector takes the new length; old entries below it are kept and new slots hold the fill value |
| Scene.LoadedScene.NumEntities | openreality-web/src/scene.rs:251-253 | the entity count is the length of the entity table |
| Scene.LoadedScene.NumMeshes | openreality-web/src/scene.rs:255-257 | the mesh count is the length of the mesh table |
| Scene.LoadedScene.NumTextures | openreality-web/src/scene.rs:259-261 | the texture count is the length of the texture table |
| Scene.RotationOf | openreality-web/src/scene.rs:135-153 | a stored rotation `[w, x, y, z]` becomes the quaternion with those components |
| Scene.RotationRoundTrip | openreality-web/src/scene.rs:135-153 | reading a stored rotation and storing it again gives back the stored floats, and the reverse round trip gives back the quaternion |
| Scene.LoadAnimation | openreality-web/src/scene.rs:218-235 | a loaded animation starts at time zero and keeps the stored clips, active clip, playing and looping flags and speed |
| Scene.LoadEntity | openreality-web/src/scene.rs:138-151 | the entity for row i copies the id, parent, mesh, material and mask of that row, reads position and scale from the stored transform and the rotation in `[w, x, y, z]` order, and starts dirty with the identity world matrix |
| Scene.BuildEntities | openreality-web/src/scene.rs:135-153 | one entity per stored id, in order; each has the stored transform, is dirty, has the identity world matrix and its rotation round-trips |
| Scene.FromOrsb | openreality-web/src/scene.rs:131-249 | a parse error is passed through unchanged; a parsed scene becomes a fresh scene holding the loaded entities, meshes, textures and animations and no skeletons |
| Animation.Factor | openreality-web/src/animation.rs:119-125 | the interpolation factor is 0 on a degenerate span and lies in [0, 1) for a time inside the span |
| Animation.Bisect | openreality-web/src/animation.rs:108-117 | the binary search stays inside its bracket and, when the bracket's ends enclose the time, ends on two adjacent keyframes that enclose it |
| Animation.KeyframeSpan | openreality-web/src/animation.rs:92-128 | no span exactly for an empty track; otherwise two adjacent or equal keyframe indices in range and a factor in [0, 1), with the time bracketed when it lies inside the track |
| Animation.KeyframeClamps | openreality-web/src/animation.rs:96-105 | one keyframe, or a time before the first or after the last keyframe, selects that end keyframe with factor 0 |
| Animation.KeyframeSpanUnique | openreality-web/src/animation.rs:108-125 | on strictly increasing times, the span found is the only pair of adjacent keyframes around the time |
| Animation.KeyframeExamples | openreality-web/src/animation.rs:92-128 | on concrete tracks, a time between, before and after the keyframes selects the expected span and factor |
| Animation.FindKeyframeIndex | openreality-web/src/animation.rs:92-128 | the looping search returns exactly the specified keyframe span |
| Animation.GetVec3 | openreality-web/src/animation.rs:130-133 | keyframe `i` of a 3-float track is floats 3i, 3i+1 and 3i+2 |
| Animation.GetQuat | openreality-web/src/animation.rs:135-139 | keyframe `i` of a rotation track is read with `w` first at float 4i |
| Animation.GetQuatReadsStoredRotation | openreality-web/src/animation.rs:135-139 | the rotation track layout is the same as the scene file's rotation layout |
| Animation.LerpVec3 | openreality-web/src/animation.rs:141-143 | linear interpolation gives the first vector at t = 0 and the second at t = 1 |
| Animation.ShortestPath | openreality-web/src/animation.rs:147-155 | when the dot product is negative the second quaternion is negated, so the returned dot product is never negative |
| Animation.QuatLerp | openreality-web/src/animation.rs:157-166 | the componentwise blend of the near-parallel branch gives the first quaternion at t = 0, the second at t = 1, and blending a quaternion with itself gives it back |
| Animation.Slerp | openreality-web/src/animation.rs:145-179 | above the 0.9995 threshold slerp gives the normalised first quaternion at t = 0 and the normalised, hemisphere-aligned second quaternion at t = 1 |
| Animation.SlerpNearIdentical | openreality-web/src/animation.rs:157-166 | slerp between a quaternion and itself is that quaternion, normalised |
| Animation.SlerpBranches | openreality-web/src/animation.rs:145-179 | slerp is the normalised componentwise blend with the hemisphere-aligned second quaternion when the aligned dot product exceeds 0.9995, and the arc-weighted combination of the two otherwise |
| Animation.SampleVec3 | openreality-web/src/animation.rs:49-60 | a step channel gives the span's first keyframe; any other channel interpolates linearly between the span's two keyframes by its factor |
| Animation.SampleQuat | openreality-web/src/animation.rs:61-72 | a step channel gives the span's first rotation; any other channel slerps between the span's two rotations by its factor |
| Animation.Sampled | openreality-web/src/animation.rs:49-84 | sampling a channel changes only the targeted property and marks the transform dirty |
| Animation.CubicSplineIsLinear | openreality-web/src/animation.rs:49-84 | a cubic-spline channel is sampled exactly as a linear one |
| Animation.ApplyChannel | openreality-web/src/animation.rs:35-86 | a channel changes only its target entity; an empty track or a missing target changes nothing; otherwise the target holds the sample and is dirty |
| Animation.ApplyChannels | openreality-web/src/animation.rs:35-86 | applying a clip's channels leaves untargeted entities unchanged, never clears a dirty flag and leaves every targeted entity dirty |
| Animation.FMod | openreality-web/src/animation.rs:22-29 | for a positive time and duration, the wrapped time lies in [0, d) and differs from the time by a whole number of durations |
| Animation.FloorRemainder | openreality-web/src/animation.rs:22-29 | the remainder after removing whole durations lies in [0, d) |
| Animation.Advance | openreality-web/src/animation.rs:9-29 | a paused state or one without a valid clip is unchanged; otherwise time moves by dt times speed; past the end a looping clip wraps into [0, duration) and a non-looping one stops at the duration |
| Animation.AdvanceWraps | openreality-web/src/animation.rs:22-29 | after a step, a looping clip's time stays within its duration |
| Animation.StepState | openreality-web/src/animation.rs:7-88 | one animation state advances its clock and then applies its active clip at the new time, or changes nothing when it does not advance |
| Animation.AnimateAll | openreality-web/src/animation.rs:7-88 | all animation states are stepped in order; the entity and state lists keep their lengths |
| Animation.AnimateAllSnoc | openreality-web/src/animation.rs:7-88 | stepping one more state is stepping the previous states and then that one |
| Animation.AnimateAllClocks | openreality-web/src/animation.rs:9-29 | each state's clock after the update is its own advanced clock, independent of the other states |
| Animation.AnimateAllUntargeted | openreality-web/src/animation.rs:35-86 | an entity no running clip targets is left unchanged by the whole update |
| Animation.WriteChannel | openreality-web/src/animation.rs:35-86 | the in-place channel write leaves the scene's entities equal to the specified channel application |
| Animation.WriteChannels | openreality-web/src/animation.rs:35-86 | the in-place loop over a clip's channels equals the specified application of all channels |
| Animation.StepAnimation | openreality-web/src/animation.rs:7-88 | the in-place step of one animation state equals the specified step |
| Animation.UpdateAnimations | openreality-web/src/animation.rs:7-88 | the in-place update of every animation equals the specified update of all states |
| Transform.ComposeLocalTransform | openreality-web/src/transform.rs:34-45 | the local matrix is composed from exactly the entity's scale, rotation and position |
| Transform.ResolvePrefix | openreality-web/src/transform.rs:7-31 | after the first k entities are visited, each has its local or parent-combined world matrix and is clean, and the rest are untouched |
| Transform.ComputeWorlds | openreality-web/src/transform.rs:7-31 | every entity is clean after the pass, and the entity count is unchanged |
| Transform.ComputeWorldsFollowsHierarchy | openreality-web/src/transform.rs:18-26 | with parents stored first, each world matrix is the product of the local matrices along the parent chain |
| Transform.WorldOfIgnoresWorlds | openreality-web/src/transform.rs:7-31 | the hierarchical world matrix depends only on the local transforms and parent links, not on the stored world matrices |
| Transform.ComputeWorldsIdempotent | openreality-web/src/transform.rs:7-31 | with parents stored first, running the pass twice gives the same result as running it once |
| Transform.StaleParentExample | openreality-web/src/transform.rs:18-26 | a child stored before its parent is combined with the parent's old world matrix |
| Transform.ThreeLevelChain | openreality-web/src/transform.rs:18-26 | a grandchild's world matrix is the product of the three local matrices, root first |
| Transform.ComputeWorldTransforms | openreality-web/src/transform.rs:7-31 | the in-place pass over the scene equals the specified pass |
| Skinning.BoneCount | openreality-web/src/skinning.rs:21 | the bone count is the number of bones capped at 128 |
| Skinning.BoneMatrix | openreality-web/src/skinning.rs:24-35 | a bone whose entity index is out of range gets the identity; otherwise the matrix is the mesh's inverse world, times the bone's world, times the bone's inverse bind matrix |
| Skinning.SkinSkeleton | openreality-web/src/skinning.rs:11-37 | a skeleton whose mesh entity is missing is unchanged; otherwise it gets one matrix per bone up to the cap, and its other data is unchanged |
| Skinning.SkinSkeletonIdempotent | openreality-web/src/skinning.rs:11-37 | skinning twice against the same entities gives the same matrices as skinning once |
| Skinning.SkinSkeletonIgnoresExtraBones | openreality-web/src/skinning.rs:21 | bones past the first 128 have no effect on the matrices |
| Skinning.SkinOne | openreality-web/src/skinning.rs:12-36 | one iteration of the pass replaces skeleton j by its specified skinned version and leaves every other skeleton unchanged |
| Skinning.UpdateSkinnedMeshes | openreality-web/src/skinning.rs:11-37 | the in-place update gives every skeleton its specified bone matrices |
| Particles.Lerp | openreality-web/src/particles.rs:256-258 | interpolation gives a at 0 and b at 1, and stays between them for t in [0, 1] |
| Particles.XorShift | openreality-web/src/particles.rs:266-268 | the xorshift step reaches the all-zero state exactly from the all-zero state, so a nonzero generator never gets stuck |
| Particles.RandomState.constructor | openreality-web/src/particles.rs:262 | the generator state starts at 12345 |
| Particles.UnitOf | openreality-web/src/particles.rs:264-271 | a generator state maps to a number in [0, 1] |
| Particles.Draw | openreality-web/src/particles.rs:273-275 | a draw advances the generator by one xorshift step and gives a value in [lo, hi] |
| Particles.RandRange | openreality-web/src/particles.rs:262-275 | the method on the shared generator state returns the specified draw and leaves the state advanced |
| Particles.Spawn | openreality-web/src/particles.rs:107-124 | a new particle is alive at the emitter, at full lifetime, with lifetime and size inside the configured ranges |
| Particles.EmitOnce | openreality-web/src/particles.rs:107-124 | one emission leaves a full pool and the generator as they are; otherwise the first dead slot receives the spawned particle, the generator moves on by its draws, one more particle is alive and every live particle keeps its slot |
| Particles.EmitN | openreality-web/src/particles.rs:236-248 | n emissions in a row, each on the pool and generator the previous one left, add exactly min(n, dead slots) live particles and move no live particle |
| Particles.EmitNNext | openreality-web/src/particles.rs:236-248 | one emission on the result of n emissions is the result of n + 1, and a dead slot remains for it exactly when n is below the number of dead slots at the start |
| Particles.EmitOnceWithinSpan | openreality-web/src/particles.rs:107-124 | an emission keeps every live particle within its lifetime span, since a spawned particle starts at its full span |
| Particles.EmitNWithinSpan | openreality-web/src/particles.rs:236-248 | any number of emissions keeps every live particle within its lifetime span |
| Particles.BurstEmissions | openreality-web/src/particles.rs:236-241 | a burst adds nothing when its count is not positive, otherwise the count capped by the dead slots |
| Particles.AliveOf | openreality-web/src/particles.rs:149-158 | the live particles in order: no more than the pool, and all alive |
| Particles.CountAliveAll | openreality-web/src/particles.rs:149-158 | the live count equals the pool size exactly when every particle is alive |
| Particles.CountAliveUpdate | openreality-web/src/particles.rs:107-124 | replacing one slot changes the live count by the change in that slot's liveness |
| Particles.FirstDead | openreality-web/src/particles.rs:107-108 | the first free slot: every slot before it is alive and the slot itself is dead |
| Particles.Integrate | openreality-web/src/particles.rs:127-144 | a dead particle is unchanged; a live one loses dt of lifetime and dies exactly when its lifetime is no longer positive |
| Particles.IntegrateAll | openreality-web/src/particles.rs:127-144 | every slot is aged and moved independently of the others, and the pool keeps its size |
| Particles.InsertByDepth | openreality-web/src/particles.rs:160-165 | inserting into a back-to-front list keeps it back-to-front and adds exactly that particle |
| Particles.SortByDepth | openreality-web/src/particles.rs:160-165 | the sorted list is a permutation of its input, ordered farthest from the camera first |
| Particles.InsertNearestAppends | openreality-web/src/particles.rs:160-165 | a particle no farther than the last of a back-to-front list is inserted at its end |
| Particles.SortByDepthKeepsSorted | openreality-web/src/particles.rs:160-165 | sorting a list that is already back to front leaves it unchanged, so particles of equal depth keep their slot order, as a stable sort does |
| Particles.BackToFrontPairwise | openreality-web/src/particles.rs:160-165 | in a back-to-front list every earlier particle is at least as far as every later one |
| Particles.Clamp | openreality-web/src/particles.rs:183-202 | the clamped value lies in the range and equals the input when the input already does |
| Particles.AgeFactor | openreality-web/src/particles.rs:183-202 | a particle's age factor lies in [0, 1] and is 0 for a newly spawned particle |
| Particles.Corners | openreality-web/src/particles.rs:183-202 | each particle gives six billboard vertices |
| Particles.Tint | openreality-web/src/particles.rs:183-190 | each colour channel and the alpha of a particle lie between their start and end values, whatever its age |
| Particles.TintFades | openreality-web/src/particles.rs:183-190 | the tint of `Tint` is the start colour and alpha for a new particle and the end ones for an expired particle; the alpha stays between start and end alpha |
| Particles.VertexFloats | openreality-web/src/particles.rs:204-214 | a vertex is nine floats from which the reader recovers its position, texture coordinates, colour and alpha |
| Particles.BillboardFloats | openreality-web/src/particles.rs:169-221 | the vertex data holds nine floats per vertex and six vertices per live particle |
| Particles.BillboardFloatsSnoc | openreality-web/src/particles.rs:169-221 | one more slot appends its six-vertex quad when alive and nothing otherwise |
| Particles.Overlay | openreality-web/src/particles.rs:204-218 | writing into the fixed vertex buffer keeps its length, copies as many whole vertices as fit, and leaves the rest as it was |
| Particles.OverlayFits | openreality-web/src/particles.rs:204-218 | when the buffer is large enough, all the data is written and the vertex count is six per live particle |
| Particles.OverlayStep | openreality-web/src/particles.rs:204-218 | writing one more vertex either appends it at the write position or, once the buffer is full, changes nothing |
| Particles.PartitionStep | openreality-web/src/particles.rs:151-157 | one step of the swap partition permutes the pool, extends the front by exactly the particle at i when it is alive, and keeps the dead middle and the untouched tail |
| Particles.PermutationKeepsAlive | openreality-web/src/particles.rs:160-165 | a permutation of live particles is all alive |
| Particles.CountAlivePartitioned | openreality-web/src/particles.rs:149-158 | a pool with k live particles in front and dead ones after has a live count of k |
| Particles.ParticlePool.constructor | openreality-web/src/particles.rs:70-89 | a new pool holds the given number of dead particles and a zeroed vertex buffer of matching size |
| Particles.ParticlePool.Resize | openreality-web/src/particles.rs:92-104 | resizing truncates or pads the pool with dead particles and the buffer with zeros; the same size changes nothing |
| Particles.ParticlePool.Emit | openreality-web/src/particles.rs:107-124 | emission fills the first dead slot with a spawned particle and advances the generator by its draws, or reports failure and changes nothing when the pool is full; the new pool and generator are `EmitOnce` of the old |
| Particles.ParticlePool.EmitBurst | openreality-web/src/particles.rs:236-241 | a pending burst is emitted once and then cleared: the pool and generator become `EmitN` of the old ones with `BurstEmissions` emissions, so the new particles are spawned in successive first dead slots; live particles are untouched |
| Particles.ParticlePool.EmitMany | openreality-web/src/particles.rs:237-239 | up to n emissions, stopping at the first failure: the count is min(n, dead slots) and the pool and generator are `EmitN` of the old ones with that count |
| Particles.ParticlePool.EmitContinuous | openreality-web/src/particles.rs:244-248 | the accumulator gains the frame's share (rate times dt, passed in by the caller), and one particle is emitted per whole unit until the pool is full; the pool and generator are `EmitN` of the old ones with the returned count; a leftover of 1 or more means the pool is full |
| Particles.ParticlePool.Drain | openreality-web/src/particles.rs:245-248 | the accumulator loses one unit per emission; the pool and generator are `EmitN` of the old ones with that count; a leftover of 1 or more means every dead slot was filled |
| Particles.ParticlePool.Simulate | openreality-web/src/particles.rs:127-144 | every particle is integrated independently, and the live count is recounted |
| Particles.ParticlePool.PartitionAlive | openreality-web/src/particles.rs:149-158 | the swap partition is a permutation that brings the live particles to the front in their original order |
| Particles.ParticlePool.SortBackToFront | openreality-web/src/particles.rs:147-166 | the pool is permuted so that the live particles come first, sorted back to front, and the dead ones after |
| Particles.WriteVertexStep | openreality-web/src/particles.rs:205-216 | one corner: a vertex that fits after the counted ones is written there and counted, one that does not changes nothing, and the buffer stays the overlay of the data with the vertex appended |
| Particles.ParticlePool.WriteCorners | openreality-web/src/particles.rs:204-218 | writing one quad's corners extends the data written so far by those corners' floats, vertex by vertex, as far as whole vertices fit in the buffer |
| Particles.ParticlePool.WriteParticle | openreality-web/src/particles.rs:178-219 | one pass of the particle loop: a dead slot writes nothing and an alive one appends its quad, so after slot i the buffer holds the billboards of the first i + 1 slots, as far as they fit |
| Particles.ParticlePool.BuildBillboards | openreality-web/src/particles.rs:169-221 | the vertex buffer receives the live particles' billboard data, as much as fits, and the vertex count is the number written |
| Particles.ParticlePool.Replenish | openreality-web/src/particles.rs:233-248 | the pool is resized to the configured capacity, then the burst and the continuous emissions (for a given share, rate times dt) follow as two `EmitN` steps on the resized pool and the old generator; live particles stay in their slots |
| Particles.ParticlePool.AgeAndSort | openreality-web/src/particles.rs:250-251 | the pool becomes a permutation of every slot aged by one frame, with the survivors in front, sorted back to front, and the live count recounted |
| Particles.ParticlePool.Refresh | openreality-web/src/particles.rs:250-252 | the pool becomes a permutation of every slot aged by one frame, survivors in front sorted back to front with positive lifetimes, and the vertex buffer begins with their billboards, six vertices each |
| Particles.ParticlePool.Update | openreality-web/src/particles.rs:224-253 | a frame relates the new pool to the old one: `spawned` and the new generator state are the resized pool after the burst and continuous `EmitN` steps; each slot is then aged, the survivors sorted to the front back to front with positive lifetimes, and the vertex buffer begins with their billboards, six vertices each |
| Input.InputState.constructor | openreality-web/src/input.rs:12-21 | a new input state has every key and button up and the mouse still at the origin |
| Input.InputState.Update | openreality-web/src/input.rs:24-27 | the per-frame reset clears the mouse movement and nothing else |
| Input.InputState.IsKeyDown | openreality-web/src/input.rs:29-31 | a key is down exactly when its entry in the key table is set; every byte code is a valid index |
| CliState.SupportsMetal | openreality-cli/src/state.rs:27-29 | Metal is supported exactly on macOS |
| CliState.SupportsVulkan | openreality-cli/src/state.rs:31-33 | Vulkan is supported exactly where Metal is not |
| CliState.Label | openreality-cli/src/state.rs:102-110 | every backend has a non-empty display name |
| CliState.LabelsDistinct | openreality-cli/src/state.rs:102-110 | distinct backends have distinct display names |
| CliState.AvailableOn | openreality-cli/src/state.rs:112-123 | OpenGL, WebGPU and the WASM export are always offered; Metal exactly on macOS and Vulkan exactly elsewhere; four backends in a fixed order, without duplicates |
| CliState.NativeSecond | openreality-cli/src/state.rs:112-123 | the second backend offered is Metal on macOS and Vulkan elsewhere |
| CliState.NeedsBuild | openreality-cli/src/state.rs:125-127 | a backend needs a build step exactly when it is neither OpenGL nor Vulkan |
| CliState.Index | openreality-cli/src/state.rs:267-275 | each tab's index is its position in the list of all tabs |
| CliState.Next | openreality-cli/src/state.rs:277-285 | the next tab is one position on, wrapping from the last tab to the first |
| CliState.Prev | openreality-cli/src/state.rs:287-295 | the previous tab is one position back, wrapping from the first tab to the last |
| CliState.IndexBijective | openreality-cli/src/state.rs:255 | distinct tabs have distinct indices |
| CliState.NextPrevRoundTrip | openreality-cli/src/state.rs:277-295 | next and previous undo each other |
| CliState.PushLines | openreality-cli/src/state.rs:201-214 | a pushed line becomes the last line; a full buffer drops exactly its oldest line, a buffer with room drops nothing |
| CliState.PushLinesKeepsSuffix | openreality-cli/src/state.rs:201-214 | after a push, everything before the new last line is a suffix of the old lines: no line is reordered or invented |
| CliState.PushAll | openreality-cli/src/state.rs:201-214 | pushing many lines never exceeds the capacity |
| CliState.PushAllKeepsNewest | openreality-cli/src/state.rs:201-214 | after many pushes the buffer holds exactly the newest lines, as many as fit |
| CliState.PushAllStep | openreality-cli/src/state.rs:201-214 | when the first pushes leave the newest lines, one more push does too |
| CliState.NewestStep | openreality-cli/src/state.rs:201-214 | one push onto the newest lines of a history gives the newest lines of the history extended by that line |
| CliState.EvictionExample | openreality-cli/src/state.rs:536-545 | pushing four lines into a three-line buffer keeps the last three |
| CliState.LogBuffer.constructor | openreality-cli/src/state.rs:192-199 | a new buffer is empty, scrolled to the bottom, and follows new output |
| CliState.LogBuffer.Push | openreality-cli/src/state.rs:201-214 | the lines become the specified push result; when following output the view is on the last line, otherwise the offset moves back one line exactly when a line was evicted |
| CliState.LogBuffer.ScrollToBottom | openreality-cli/src/state.rs:216-218 | the view moves to the last line, or to 0 when the buffer is empty |
| CliState.LogBuffer.Clear | openreality-cli/src/state.rs:220-223 | the buffer is emptied and the offset reset |
| CliState.LogBuffer.ScrollUp | openreality-cli/src/state.rs:225-228 | scrolling up moves the offset back, stopping at zero, and stops following output |
| CliState.LogBuffer.ScrollDown | openreality-cli/src/state.rs:230-235 | scrolling down moves the offset forward, stopping at the last line, and resumes following output on reaching it; otherwise the follow flag is kept |
| CliState.LogBuffer.ScrollToTop | openreality-cli/src/state.rs:237-240 | the view moves to the first line and stops following output |
| CliState.NewBackendStates | openreality-cli/src/state.rs:372-383 | one state per available backend, in order; those needing a build start unbuilt, the others need no build; none has its dependencies satisfied |
| CliState.RunnableBackends | openreality-cli/src/state.rs:413-418 | a state is kept exactly when it is in the input and is not the WASM export; a list without the WASM export is kept whole |
| CliState.RunnableSingle | openreality-cli/src/state.rs:413-418 | a single state is kept exactly when it is not the WASM export |
| CliState.RunnableConcat | openreality-cli/src/state.rs:413-418 | filtering a concatenation filters each part, so the result keeps the input's order and multiplicity |
| CliState.RunnableOfFour | openreality-cli/src/state.rs:413-418 | of four states whose last alone is the WASM export, the first three are kept in order |
| CliState.RunnableOnPlatform | openreality-cli/src/state.rs:413-418 | on any platform the runnable backends are OpenGL, the native API, and WebGPU |
| CliState.AppState.constructor | openreality-cli/src/state.rs:370-410 | the dashboard tab is active, the backends are those of the platform, and the log buffers have capacities 5000, 5000, 5000 and 10000 |
| BuildCmd.AsciiLower | openreality-cli/src/commands/build_cmd.rs:50 | each letter is lower-cased independently and the length is kept |
| BuildCmd.ParseBackend | openreality-cli/src/commands/build_cmd.rs:49-58 | a name parses exactly when its lower case is one of a backend's spellings; otherwise the error quotes the name as given and lists the options |
| BuildCmd.ParseIgnoresCase | openreality-cli/src/commands/build_cmd.rs:50 | names that differ only in letter case parse to the same result |
| BuildCmd.SpellingsParse | openreality-cli/src/commands/build_cmd.rs:51-55 | every accepted spelling parses to its backend |
| BuildCmd.EveryBackendHasSpelling | openreality-cli/src/commands/build_cmd.rs:51-55 | every backend can be named on the command line |
| BuildCmd.BuildPlan | openreality-cli/src/commands/build_cmd.rs:4-47 | an unknown name is an error with the parser's message; a known backend spawns a build tool exactly when it needs a build |
| Handles.HandleCounter.constructor | openreality-wgpu/src/handle.rs:4 | the counter starts at 1 |
| Handles.HandleCounter.FetchAdd | openreality-wgpu/src/handle.rs:20-24 | the counter returns its old value and moves on by one, modulo 2^64 |
| Handles.HandleStore.constructor | openreality-wgpu/src/handle.rs:13-17 | a new store is empty |
| Handles.HandleStore.Insert | openreality-wgpu/src/handle.rs:20-24 | the item is stored under the next counter value; before the counter wraps, that handle is nonzero and new, and the store grows by one |
| Handles.HandleStore.Get | openreality-wgpu/src/handle.rs:27-29 | a lookup finds the stored item exactly when the handle is present |
| Handles.HandleStore.GetMut | openreality-wgpu/src/handle.rs:32-34 | an update through a present handle changes only that entry; an absent handle changes nothing |
| Handles.HandleStore.Remove | openreality-wgpu/src/handle.rs:37-39 | removal returns the item exactly when present, and the handle is then absent |
| Handles.HandleStore.Len | openreality-wgpu/src/handle.rs:47-49 | the length is the number of stored items |
| Handles.HandleStore.Clear | openreality-wgpu/src/handle.rs:52-54 | the store is emptied |
| Handles.TwoStoresShareCounter | openreality-wgpu/src/handle.rs:4 | two stores drawing from the one counter never hand out the same handle |
| GpuMath.RawPlanesBoundClipVolume | openreality-gpu-shared/src/math.rs:6-18 | the six raw planes evaluate to w+x, w-x, w+y, w-y, w+z and w-z of the clip-space point |
| GpuMath.NormalizePlane | openreality-gpu-shared/src/math.rs:21-29 | a plane with a normal too short to divide by is unchanged; otherwise every coefficient is divided by the normal's length |
| GpuMath.NormalizedNormalIsUnit | openreality-gpu-shared/src/math.rs:21-29 | after normalisation, with a true square root, the normal has unit length |
| GpuMath.NormalizeKeepsSides | openreality-gpu-shared/src/math.rs:21-29 | normalisation keeps the sign of every point's distance to the plane |
| GpuMath.FrustumPlanes | openreality-gpu-shared/src/math.rs:5-32 | a view-projection matrix gives six planes |
| GpuMath.ExtractFrustumPlanes | openreality-gpu-shared/src/math.rs:5-32 | the in-place loop over the plane array returns the specified normalised planes |
| GpuMath.SphereInFrustum | openreality-gpu-shared/src/math.rs:35-43 | a sphere is visible exactly when its centre lies no further than its radius behind every plane |
| GpuMath.VisibleForLargerRadius | openreality-gpu-shared/src/math.rs:35-43 | a visible sphere stays visible when its radius grows |
| GpuMath.ClipVolumePointsVisible | openreality-gpu-shared/src/math.rs:5-43 | a point inside the clip volume passes the zero-radius sphere test against the extracted (normalised) planes, whatever square root is used |
| GpuMath.ComputeCascadeSplits | openreality-gpu-shared/src/math.rs:46-58 | the splits have one more entry than there are cascades, start at the near plane, and each blends the logarithmic and uniform splits |
| GpuMath.LastSplitIsFar | openreality-gpu-shared/src/math.rs:50-55 | the last split is the far plane |
| GpuMath.UniformSplits | openreality-gpu-shared/src/math.rs:50-55 | with blend 0 the splits are evenly spaced, and they increase when near is below far |

## Left out

- Floating point: every `f32`/`f64` value is a `real`, so rounding, NaN, infinities and the `f64` to `f32` casts in `compose_local_transform` are not modelled.
- Matrix entries: `Mat4` is a symbolic term, so matrix products, inverses and the quaternion-to-matrix conversion are not evaluated.
- Transcendental functions: `sqrt`, `acos`, `sin`, `powf` and quaternion normalisation are function parameters. The arc weights of slerp's trigonometric branch are one parameter, so that branch is stated only as "the weighted combination".
- Animation.SampleQuat, Animation.SampleVec3: a cubic-spline channel is sampled linearly, as the web player's code does; the in/out tangents are not read.
- Animation.Advance: a looping clip of duration 0 is a precondition. The Rust `%` by zero would give NaN there.
- Scene.FromOrsb: requires every per-entity table of the parsed scene (parents, transforms, meshes, materials, masks) to have a row for each entity id. On a shorter table the Rust loader indexes out of bounds and panics.
- Animation and skinning preconditions: keyframe value arrays long enough for every keyframe, and inverse bind matrices covering every bone, are required. The Rust code would panic on a short slice.
- Particles.ParticlePool.Update: requires `dt >= 0`. Nothing is stated for a negative frame time.
- Particles.UnitOf: the division of the 32-bit state by `u32::MAX` is exact here; its `f32` rounding is not modelled.
- Particles.ParticlePool.SortBackToFront: the order of particles at equal depth is the one fixed by `SortByDepth` (insertion after every particle at least as far); `SortByDepthKeepsSorted` shows it keeps slot order on already sorted input, but no general stability lemma is stated. The order of the dead slots after partitioning is stated only as a permutation.
- `parse_orsb` and the binary format: the parsed scene is an input. Materials, lights, cameras and the physics configuration carried by `from_orsb` are not modelled.
- GGX and Fresnel shading helpers in `openreality-gpu-shared/src/math.rs`: pure floating-point formulas with nothing to state beyond their bodies.
- Rendering plumbing: the renderer, WebGL/wgpu calls, `app.rs`, `lib.rs`, the FFI in `backend.rs` and the browser event handlers that write the input state.
- `Platform::detect`: the platform is a parameter.
- Log-line timestamps: not modelled.
- Handles.HandleCounter: the atomic counter is sequential. Its relaxed memory ordering and concurrent callers are not modelled.
- The store's `iter` method: not modelled.
- CLI display-only data: labels of platforms and tabs, the setup-action, tool and process-status records, and the other `AppState` fields.
- BuildCmd.BuildPlan: describes the process to start. Spawning it, its exit status and the printed messages are not modelled.
- BuildCmd.AsciiLower: lower-cases ASCII letters only. Rust's Unicode `to_lowercase` also maps other letters, such as the Kelvin sign to `k`.
- CliState.LogBuffer.ScrollDown: does not model `usize` overflow of offset plus amount.
- CliState.LogBuffer.Push: requires a capacity of at least 1. With capacity 0 the Rust code panics removing from an empty vector.
- GpuMath.ComputeCascadeSplits: requires a nonzero near plane. `far / near` is infinite or NaN in `f32` otherwise.
