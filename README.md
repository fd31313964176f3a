# minengine client core, modelled in Dafny

This project models the stateful core of the minengine game client, in two parts.

The first part is the GPU buffer lifecycle of a renderable model, `ClientModel`:

- a binding from a mesh and an optional shader to three driver handles (vertex array, vertex buffer, index buffer), a primitive tag and a draw count;
- lazy allocation on the first `render`;
- the draw path, which draws indexed or non-indexed depending on whether an index buffer exists;
- teardown in `destroyVertexArrays`, `setModel` and the destructor.

The graphics driver is not modelled. Every call the binding makes to it is appended to a ghost log of `GLOp`s. The driver's handle generator is a method returning an arbitrary name, where 0 means failure. Each method of the `ClientModel` class is proved against a pure function of the fields it starts from:

- `Create`, `CreateBuffers` and `CreateIndexBuffer` for allocation;
- `DrawOps` for the draw path;
- `RenderSpec` for `render`;
- `DestroyOps` for teardown.

The properties of the client are then proved about those functions.

The second part is the controller and frame-loop state in `client.cpp`:

- the player's memoised view transform behind a dirty flag, the pitch clamp and the eye-height offset (`PlayerControl`);
- the window flags changed by events, the quit guard, the fixed-timestep tick loop with its cap, the one-second statistics window, and the rasteriser state of the 3D and 2D passes (`Game`);
- the refresh of the light cone cosines, the selection of the light for each of the four shader light slots, and the named uniforms uploaded per slot (`Lighting`).

Files:

- `Optional.dfy`: a nullable reference.
- `Geometry.dfy`: vectors and matrices over `real`.
- `ModelBinding.dfy`: `ClientModel`.
- `PlayerControl.dfy`: `Player`.
- `Lighting.dfy`: the light slots.
- `Game.dfy`: `GameWindow`.

In these places the model follows the code as written:

- **Partial allocation is never repaired.** `render` retries allocation only while the vertex array is 0. If the vertex buffer or the index buffer cannot be generated, the binding keeps what it has and draws with it on every later render. In the index-buffer case the draw count has already become the index count, and no data was uploaded (`VertexBufferFailurePersists`, `IndexBufferFailureDrawsIndexCount`). The class invariant is only that handles are held in acquisition order (`InOrder`), not "all or none".
- **`look` does not invalidate the cached view transform.** After `look`, `getTransform` keeps returning the transform computed before it, until `setPosition`, `setLook` or `move` sets the dirty flag (`LookLeavesCacheStale`).
- **The constructors never set the primitive from the mesh.** Only `setModel` does. A binding built directly on a mesh draws with primitive 0 until `setModel` is called.
- **The cone cosines of the static default light are never refreshed.** The refresh loop covers only registered lights. An empty slot therefore uploads cosines of 0 rather than cos 0° = 1, which is harmless because all of its colours are zero too (`DefaultSlotUploadsZero`).
- **The cosine refresh loop does not check for absent entries.** The slot selection at `client.cpp:952` does check. `RefreshCosines` therefore requires every registry entry to be present.
- **The F11 handler and the 3D set-up.** The F11 handler restores the mouse lock it had, rather than locking it. The 3D set-up never restores filled polygons or turns culling off; only the 2D pass does (`Start3DDoesNotResetPolygonMode`).

Three things the model assumes because the declaring header is not part of this model:

- The handle fields `mVAO` and `mIBO`, which the constructors do not list, start at 0.
- The player's position starts at the origin, and its unset transform starts as the identity.
- A vertex occupies 32 bytes (three floats of position, three of normal, two shorts of texture coordinate, four bytes of colour).

## Model

| member | source | states |
|---|---|---|
| ModelBinding.Create | src/client/ClientModel.cpp:131-215 | Allocation keeps the primitive and every handle already held. A mesh with no vertices sets the count to 0 and issues no driver call. |
| ModelBinding.CreateBuffers | src/client/ClientModel.cpp:161-211 | Allocation after the vertex array is bound keeps the vertex array, the primitive and any buffer already held. |
| ModelBinding.CreateIndexBuffer | src/client/ClientModel.cpp:176-197 | Index-buffer allocation changes only the index handle, and keeps one already held. |
| ModelBinding.CreateIssuesOnlyAllocationCalls | src/client/ClientModel.cpp:131-215 | Allocation never draws, binds or unbinds a shader, or deletes a handle. |
| ModelBinding.CreateKeepsOrder | src/client/ClientModel.cpp:147-187 | Even when it stops part-way, allocation keeps the held handles a prefix of the order vertex array, vertex buffer, index buffer. |
| ModelBinding.CreateCountAndUpload | src/client/ClientModel.cpp:136-209 | The count is the index count exactly when the vertex array, the vertex buffer and indices exist, and the vertex count otherwise. Vertex data is uploaded iff every needed handle exists. Index data is uploaded iff an index buffer was obtained for an indexed mesh. |
| ModelBinding.IndexBufferGeneratesOnlyMissing | src/client/ClientModel.cpp:179-187 | An index buffer is generated only when none is held. |
| ModelBinding.BuffersGenerateOnlyMissing | src/client/ClientModel.cpp:163-187 | A vertex or index buffer is generated only when that handle is zero, and the generated name is what the field then holds. |
| ModelBinding.CreateGeneratesOnlyMissingHandles | src/client/ClientModel.cpp:147-187 | Each handle is generated only while it is zero, and the driver's answer becomes the field, so existing handles are reused. |
| ModelBinding.DrawPhasesNeutral | src/client/ClientModel.cpp:74-123 | The bind, enable, layout, disable and unbind phases neither draw, touch a shader, nor create or delete handles. Slots 0-3 are all enabled and all disabled. |
| ModelBinding.DrawCall | src/client/ClientModel.cpp:106-110 | The draw is indexed iff an index buffer is held, otherwise non-indexed from offset 0. It uses the stored primitive and count. |
| ModelBinding.BeforeDrawProtocol | src/client/ClientModel.cpp:70-94 | Before the draw, a non-null shader is bound first and exactly once, and all four attribute slots are enabled. Nothing is drawn, unbound, created or deleted. |
| ModelBinding.AfterDrawProtocol | src/client/ClientModel.cpp:112-127 | After the draw, all four slots are disabled and a non-null shader is unbound last and exactly once. Nothing is drawn, bound, created or deleted. |
| ModelBinding.DrawOps | src/client/ClientModel.cpp:70-127 | A non-null shader is bound first and unbound last. The error flag is cleared right after it. The draw call follows the whole set-up. |
| ModelBinding.DrawOpsCounts | src/client/ClientModel.cpp:70-127 | The draw path draws exactly once and binds a non-null shader exactly as often as it unbinds it. It creates and deletes nothing. |
| ModelBinding.RenderSpec | src/client/ClientModel.cpp:61-129 | Without a mesh, render does nothing. A vertex-less mesh with no vertex array only zeroes the count. A held vertex array leaves the fields unchanged. The primitive never changes. |
| ModelBinding.RenderProtocol | src/client/ClientModel.cpp:61-129 | Every render draws at most once, exactly when there is a mesh and a vertex array. A non-null shader is bound exactly when it draws, binds and unbinds pair up, and nothing is deleted. |
| ModelBinding.FirstRenderDrawCount | src/client/ClientModel.cpp:106-110 | When the driver grants every handle, the first render draws indexed with the index count for an indexed mesh, and non-indexed from 0 with the vertex count otherwise. |
| ModelBinding.VertexBufferFailurePersists | src/client/ClientModel.cpp:163-170 | A failed vertex-buffer generation keeps the vertex array. The next render does not retry allocation and draws non-indexed with buffer 0 bound. |
| ModelBinding.IndexBufferFailureDrawsIndexCount | src/client/ClientModel.cpp:176-187 | A failed index-buffer generation leaves the count at the index count, uploads no data, and the render draws that many vertices non-indexed. |
| ModelBinding.DestroyOps | src/client/ClientModel.cpp:217-235 | Teardown of a binding that holds nothing issues no driver call. |
| ModelBinding.DestroyDeletesHeldHandles | src/client/ClientModel.cpp:217-235 | Exactly the non-zero handles are deleted, each once: the held vertex array, and the held vertex and index buffers. |
| ModelBinding.ClientModel.constructor | src/client/ClientModel.cpp:12-16 | Records the mesh and shader pointers and starts with no handles, primitive 0, count 0 and an empty call log. |
| ModelBinding.ClientModel.FromMesh | src/client/ClientModel.cpp:18-21 | Binds a mesh with no shader and starts with no handles, primitive 0 and count 0. |
| ModelBinding.ClientModel.WithShader | src/client/ClientModel.cpp:23-27 | Binds a mesh and a shader and starts with no handles, primitive 0 and count 0. |
| ModelBinding.ClientModel.CreateVertexArrays | src/client/ClientModel.cpp:131-215 | Changes the fields and extends the call log exactly as `Create` prescribes for the driver's answers, keeping handles in order. |
| ModelBinding.ClientModel.AllocateBuffers | src/client/ClientModel.cpp:161-211 | Changes the fields and extends the log as `CreateBuffers` prescribes. |
| ModelBinding.ClientModel.AllocateIndexBuffer | src/client/ClientModel.cpp:179-196 | Changes the index handle and extends the log as `CreateIndexBuffer` prescribes. |
| ModelBinding.ClientModel.UploadIndices | src/client/ClientModel.cpp:192-196 | Binds the index buffer, uploads two bytes per index, and unbinds it. |
| ModelBinding.ClientModel.UploadVertices | src/client/ClientModel.cpp:203-211 | Binds the vertex buffer, uploads the vertex data, and unbinds it and the vertex array. |
| ModelBinding.ClientModel.BindForDraw | src/client/ClientModel.cpp:74-82 | Clears errors, then binds the vertex array, the vertex buffer and, when held, the index buffer. |
| ModelBinding.ClientModel.EnableSlots | src/client/ClientModel.cpp:86-89 | Enables attribute slots 0 to 3 in order. |
| ModelBinding.ClientModel.SetLayout | src/client/ClientModel.cpp:91-94 | Declares the four attribute layouts: position, then normalised normal, texture coordinate and colour. |
| ModelBinding.ClientModel.DisableSlots | src/client/ClientModel.cpp:112-115 | Disables attribute slots 0 to 3 in order. |
| ModelBinding.ClientModel.UnbindAfterDraw | src/client/ClientModel.cpp:117-123 | Unbinds the vertex buffer, the index buffer when held, and the vertex array. |
| ModelBinding.ClientModel.PrepareDraw | src/client/ClientModel.cpp:70-94 | Appends exactly the calls of `BeforeDraw`. |
| ModelBinding.ClientModel.FinishDraw | src/client/ClientModel.cpp:112-127 | Appends exactly the calls of `AfterDraw`. |
| ModelBinding.ClientModel.Draw | src/client/ClientModel.cpp:70-127 | Appends exactly the draw path `DrawOps` for the current fields and shader. |
| ModelBinding.ClientModel.Render | src/client/ClientModel.cpp:61-129 | Changes the fields and extends the log exactly as `RenderSpec` prescribes, keeping handles in order. |
| ModelBinding.ClientModel.DestroyVertexArrays | src/client/ClientModel.cpp:217-235 | Leaves every handle, the primitive and the count zero. It issues exactly the deletes of `DestroyOps` for the handles it held. |
| ModelBinding.ClientModel.SetModel | src/client/ClientModel.cpp:33-43 | Tears down first. Afterwards every handle and the count are 0, and the primitive is the new mesh's primitive, or 0 without a mesh. |
| ModelBinding.ClientModel.SetShader | src/client/ClientModel.cpp:49-55 | Changes only the shader pointer. |
| ModelBinding.ClientModel.Dispose | src/client/ClientModel.cpp:29-31 | The destructor tears down like `destroyVertexArrays`. |
| ModelBinding.DestroyTwice | src/client/ClientModel.cpp:217-235 | A second teardown issues no further delete: teardown is idempotent. |
| ModelBinding.ShaderChangeKeepsBuffers | src/client/ClientModel.cpp:49-51 | Changing the shader leaves the handles, the count and the call log as they were. |
| PlayerControl.EyePosition | src/client/client.cpp:139-142 | The eye is the position raised by the eye height of 1.7 and moved in no other direction. |
| PlayerControl.EyeFollowsPosition | src/client/client.cpp:139-142 | Moving the player by an offset moves the eye by the same offset. |
| PlayerControl.ClampPitch | src/client/client.cpp:156-160 | The pitch ends in [-90, 90]. In-range values are kept, values above become 90 and values below become -90. |
| PlayerControl.LookStep | src/client/client.cpp:153-161 | `look` adds the offset to both angles and clamps only the pitch. The yaw is the plain sum. |
| PlayerControl.LookAllBounds | src/client/client.cpp:153-161 | After any non-empty sequence of `look` calls the pitch is in [-90, 90]. The yaw is the start plus the sum of all yaw offsets, never clamped. |
| PlayerControl.LookZeroIsIdentity | src/client/client.cpp:153-161 | The clamp is idempotent: a zero look after any look changes nothing. |
| PlayerControl.Player.constructor | src/client/client.cpp:83-93 | Starts at the origin with look (0, 0), an identity transform and the dirty flag set. |
| PlayerControl.Player.GetTransform | src/client/client.cpp:111-128 | Recomputes the transform only when the dirty flag is set, then clears it. Otherwise it returns the cached transform. A coherent cache yields the current view. |
| PlayerControl.Player.GetEyePosition | src/client/client.cpp:139-142 | Returns `EyePosition` of the current position. |
| PlayerControl.Player.SetPosition | src/client/client.cpp:134-137 | Sets the position and the dirty flag. |
| PlayerControl.Player.SetLook | src/client/client.cpp:144-147 | Sets the look direction and the dirty flag. |
| PlayerControl.Player.Look | src/client/client.cpp:153-161 | Changes only the look direction, to `LookStep` of the old one; the dirty flag is untouched. |
| PlayerControl.Player.Move | src/client/client.cpp:163-170 | Moves by the offset rotated by the negated yaw, through `setPosition`, so the dirty flag is set. |
| PlayerControl.TransformCachedTwice | src/client/client.cpp:111-128 | Two transform queries with no mutator between them return the same value. |
| PlayerControl.LookLeavesCacheStale | src/client/client.cpp:153-161 | After the cache is filled, `look` followed by a query returns the transform of the look direction from before the `look`. |
| PlayerControl.SetLookRefreshes | src/client/client.cpp:144-147 | After `setLook` the next query returns the view for the new look direction. |
| Lighting.WithCosines | src/client/client.cpp:935-938 | Sets both cone cosines from the cone angles and changes no other field. |
| Lighting.WithCosinesIdempotent | src/client/client.cpp:935-938 | Refreshing the cosines twice equals refreshing once. |
| Lighting.RefreshCosines | src/client/client.cpp:935-938 | Every registry entry, in place, becomes its light with refreshed cosines. |
| Lighting.SelectLight | src/client/client.cpp:952 | Slot i takes the registered light i when i is below the registry size and the entry is present, and the default light otherwise. |
| Lighting.Decimal | src/client/client.cpp:953 | The slot index is printed as one digit when below ten. |
| Lighting.FitBuffer | src/client/client.cpp:953 | The bounded formatter keeps at most size - 1 characters, a prefix of the text, and the whole text when it fits. |
| Lighting.NamesFitBuffer | src/client/client.cpp:940-975 | Every name `uLights[i].<field>` for slots 0-3 and the eleven fields fits the 32-byte buffer untruncated. |
| Lighting.UniformNamesDistinct | src/client/client.cpp:951-975 | Names that fit determine their slot and field, so the uploads of a shader never share a name. |
| Lighting.FieldNamesDistinct | src/client/client.cpp:953-974 | The eleven field names are pairwise distinct. |
| Lighting.SlotNamesDistinct | src/client/client.cpp:951-975 | Within the four-slot loop, a name determines its slot and field, so no two of the 44 uploads share a name. |
| Lighting.FieldValue | src/client/client.cpp:953-975 | Colours and the position upload as four-vectors, the spot direction as a three-vector, the five cone fields as scalars, and the attenuation as three floats. |
| Lighting.OnlyPositionUsesView | src/client/client.cpp:959-960 | Only the position is moved by the model-view matrix; every other field is sent as stored. |
| Lighting.LightUniforms | src/client/client.cpp:951-976 | The uploads of n slots number 11n: eleven per slot. |
| Lighting.SlotUploads | src/client/client.cpp:953-975 | A slot uploads eleven values in the fixed field order, each under its own `uLights[i].<field>` name. |
| Lighting.LightUniformsLayout | src/client/client.cpp:951-976 | The uploads of n slots number 11n. Upload 11s+k is field k of slot s's selected light under slot s's name. |
| Lighting.DefaultSlotUploadsZero | src/client/client.cpp:933-952 | A slot beyond the registry, or whose entry is absent, uploads zero for every field, its never-refreshed cosines included. |
| Lighting.UploadLights | src/client/client.cpp:951-976 | The four-slot loop uploads exactly 44 values, slot by slot, in the layout above. |
| Game.RequestQuit | src/client/client.cpp:521-525 | The quitting flag is set iff it was set, the request is internal, or quitting is allowed. No other flag changes. |
| Game.ReactFlags | src/client/client.cpp:535-660 | Each flag changes only on its own event. Quitting is set iff it was set, or quitting is allowed and the event is a close request or Escape. Pause flips iff Space, the mouse lock iff Tab, fullscreen iff F11. The view mode changes only on 1, 2 or 3, and zoom only on a non-zero wheel delta. |
| Game.ReactAll | src/client/client.cpp:527-533 | A queue of events never clears a set quit flag, and never sets it while quitting is not allowed. |
| Game.SpaceTwiceRestores | src/client/client.cpp:582-585 | Two Space presses restore every flag. |
| Game.PauseParity | src/client/client.cpp:582-585 | After any event queue, pause has flipped iff Space was pressed an odd number of times. |
| Game.ViewModeKeys | src/client/client.cpp:587-600 | Keys 1, 2 and 3 set the view mode whatever it was and change nothing else. |
| Game.FullscreenKeepsMouseLock | src/client/client.cpp:602-621 | F11 flips fullscreen and leaves the mouse lock and every other flag as they were. |
| Game.WheelZoom | src/client/client.cpp:652-658 | A positive wheel delta sets zoom, a negative one clears it, and zero changes nothing. |
| Game.QuitOnlyOnRequest | src/client/client.cpp:535-572 | After any queue, quitting holds iff it already held, or quitting is allowed and the queue held a close request or Escape. The flag is never cleared. |
| Game.TicksDue | src/client/client.cpp:349-357 | The number of whole ticks in a non-negative accumulator. |
| Game.TickRemainder | src/client/client.cpp:349-351 | A non-negative accumulator keeps less than one tick: its value minus its whole ticks. A negative one is left alone. |
| Game.CloseFrame | src/client/client.cpp:380-389 | The window resets tick count, frame count and time to zero together, iff the frame's time fills one second. Otherwise the frame's ticks and the frame are counted and its time added. |
| Game.FrameTicks | src/client/client.cpp:347-356 | A frame simulates at most 5 ticks, and no more than its accumulator holds. |
| Game.StatsBounds | src/client/client.cpp:344-389 | With a forward clock, after any frames, the accumulator holds less than one tick and the window less than one second. At most 5 ticks are counted per counted frame, and no more frames are counted than were run. |
| Game.StatsWithinWindow | src/client/client.cpp:380-389 | Until one second has elapsed, every frame is counted and the window holds the total elapsed time. |
| Game.StartFlags | src/client/client.cpp:327-331 | The loop starts not quitting, and with the mouse locked when the window had the focus at start-up. No other flag changes. |
| Game.FrameGain | src/client/client.cpp:349-356 | A frame adds between 0 and 5 ticks of play time, and none when its events left the window paused. |
| Game.PlayGainBounds | src/client/client.cpp:344-357 | Over any frames, play time never goes backwards and gains at most 5 ticks per frame. |
| Game.RunStep | src/client/client.cpp:335-389 | Flags, counters and play time after n + 1 frames follow from those after n by one more frame. |
| Game.Start3D | src/client/client.cpp:854-874 | Depth testing on, then culling for the normal view, back faces as lines for the inside wireframe view, or all faces as lines for the wireframe view. Nothing else changes. |
| Game.Start2D | src/client/client.cpp:880-887 | Depth testing and culling off, all faces filled, no vertex buffer bound, from any state. |
| Game.FrameRasterState | src/client/client.cpp:854-887 | After a 2D pass, the next 3D pass runs with a state fixed by the view mode alone. |
| Game.Start3DDoesNotResetPolygonMode | src/client/client.cpp:854-874 | Without the 2D pass, switching from the wireframe view back to the normal view keeps drawing lines. |
| Game.GameWindow.constructor | src/client/client.cpp:278-316 | Starts windowed, unlocked, quit allowed, not quitting, unpaused, normal view, no zoom, play time 0. |
| Game.GameWindow.Quit | src/client/client.cpp:521-525 | Sets quitting iff the request is internal or quitting is allowed, and never clears it. |
| Game.GameWindow.QuitExternal | src/client/client.cpp:395-397 | The public quit is a non-internal request. |
| Game.GameWindow.LockMouse | src/client/client.cpp:1043-1047 | Sets the mouse-lock flag. |
| Game.GameWindow.UnlockMouse | src/client/client.cpp:1049-1051 | Clears the mouse-lock flag. |
| Game.GameWindow.HandleEvent | src/client/client.cpp:535-660 | Changes the flags exactly as `React` prescribes for the event. |
| Game.GameWindow.HandleEvents | src/client/client.cpp:527-533 | Handles the queued events in order: the flags become `ReactAll` of the queue. |
| Game.GameWindow.Update | src/client/client.cpp:848-852 | Play time advances by the step unless paused. |
| Game.GameWindow.RunTicks | src/client/client.cpp:344-357 | A non-negative accumulator ends as its value modulo 20000 µs, in [0, 20000). The tick count grows by min(5, whole ticks). Play time advances by that many ticks unless paused. Extra ticks are drained, not deferred. |
| Game.GameWindow.AdvanceClock | src/client/client.cpp:344-389 | Feeds one frame's time to the tick loop and closes its statistics: the counters become `FrameStep` of the old ones, and play time grows by `FrameGain`. |
| Game.GameWindow.RunFrame | src/client/client.cpp:336-389 | One pass over frame n after frames 0 to n - 1: flags, counters and play time move from their values after n frames to their values after n + 1. |
| Game.GameWindow.Run | src/client/client.cpp:318-393 | A failed `init` runs no frame and changes no flag other than clearing quitting. After a successful one, the loop starts from `StartFlags`: the mouse is locked when the window has the focus. The loop ends only when it finds the quit flag at its head: the frames run are those before the first frame whose events left the window quitting, plus that frame. The flags, the four counters and play time are exactly those of the folds `AfterFrames`, `StatsAfter` and `PlayGain` over the frames run. Hence the accumulator stays below one tick, the window below one second, and at most 5 ticks are counted per frame. |

## Left out

- Every OpenGL, GLEW and SFML call is represented only as an entry in a call log (`GLOp`) or not at all. This covers buffer contents, uniform locations, error checking, window creation and fullscreen re-creation, mouse position, event polling, `display` and `sleep`.
- The clock and the event queue are parameters: `Run` reads a finite sequence of frames, each a time delta and a queue of events. It stops when quitting or when the sequence is exhausted.
- `init`, which creates the window and loads resources, is a boolean parameter of `Run`. Whether the window has the focus when `init` ends is a second parameter; with the focus, the mouse is locked before the first frame. The Lua scene builder `initScene` is not part of this model; it drives a foreign interpreter.
- `handleInput` is not part of this model. It does keyboard and mouse polling, the field-of-view zoom ramp, and the `look` and `move` calls it makes each frame.
- The smoothed timing averages, the frames- and ticks-per-second figures and the frame delay of `run` are float arithmetic and are not part of this model.
- The 2D overlay, the debug text, and the per-object loop of `render` are not part of this model. The per-object loop binds a shader, uploads the three matrices, then the light slots, then draws the object.
- The `Resized` event (viewport and aspect ratio), the `R` key (cache reloads) and the joystick and other events change no modelled flag; they are treated as no-ops.
- Matrix composition, the yaw rotation of `move`, the normal matrix and the cosine function are parameters (`viewOf`, `rotateYaw`, `cosDeg`). The model-view matrix is applied to the light position by an explicit matrix-vector product.
- Floats are exact `real`s. The eye height is 1.7 rather than the nearest single-precision value, and no rounding is modelled.
- `sf::Time` and `size_t` counters are unbounded integers; 64-bit overflow is not modelled.
- Light names are formatted with the slot printed by `%d`. The argument is a `size_t`, which on common 64-bit ABIs prints the same digit for slots 0-3; other ABIs are not modelled.
- Aliasing between registry entries (two entries pointing to the same light) is not modelled: the registry is an array of light values.
- ModelBinding.ClientModel.CreateVertexArrays: the driver's handle generator may answer with a name already in use. The model does not track which names are live; generated names are arbitrary.
- The `getModel`, `getShader`, `getPosition`, `getLook`, `getCamera` and `getBody` accessors return a field and are not modelled separately.
