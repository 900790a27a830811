# OpenGL app shell: input state, message pump, window setup, vertex buffers and shaders

This project models the core of a small Win32/OpenGL application framework.

- **`OpenGLApp`** owns a window and an OpenGL 4.6 context.
  - It keeps a per-frame state for every keyboard key and mouse button: up, pressed in this frame, down, or released in this frame.
  - It tracks the mouse position, the movement since the last mouse move, the window size, and whether the window was resized in the current frame.
- **The window procedure** turns Win32 messages into updates of that state.
- **`GameLoop`** starts each frame in two steps:
  - it decays every "pressed/released this frame" state to "down/up";
  - it then drains the message queue until it is empty or a quit message arrives.
- **`openApp` and `embedApp`** place the window and run the context handshake:
  - get a device context;
  - choose and set a pixel format;
  - create a bootstrap context and make it current;
  - create the 4.6 context, delete the bootstrap context, and make the 4.6 context current.
- **`VertexBuffer<TVertex>`**
  - It declares an attribute layout (the `setup` overloads, with stride checking against `sizeof(TVertex)`).
  - It collects vertices and uploads them, creating its GL objects lazily on first bind.
- **`Shader`**
  - It compiles and links a program, stopping at the first failed stage.
  - It caches uniform locations by name.

The modules are:

- **Input**: key states, their integer encoding and the `updateKeyStateOnKey*` transitions.
- **Keys**: `mapKey` and `mapButton`.
- **OpenGLApp**: the app object and its six queries.
- **Dispatch**: the window procedure and `GameLoop`.
- **Window**: `openApp`/`embedApp`.
- **VertexBuffers** and **Shaders**.

The world outside the program is modelled in two ways:

- **Failures are parameters.**
  - A `Wgl` object carries the set of handshake steps that fail.
  - `Shader.Compile` takes which stages succeed and the program name it gets.
  - Uniform lookups take the location the driver reports.
  - `VertexBuffer` methods take the GL names that `glGen*` would return.
- **Some calls are recorded.** The calls the model keeps are appended to a log so that their order can be stated:
  - `Shader.calls`: shader creation and the compile of each stage, program creation and linking, shader deletion, `glUseProgram`, `glGetUniformLocation` and the uniform uploads. `glShaderSource`, `glGetShaderiv`/`glGetProgramiv` and `glAttachShader` are not recorded.
  - `Wgl.attempted`: the seven handshake steps that can fail. `gladLoadWGL` and `gladLoadGL` are not recorded.
  - `VertexBuffer` keeps no call log. `pointers` is the list of attribute declarations made so far (each one stands for `glVertexAttribPointer` followed by `glEnableVertexAttribArray`), and `gpuData` is the buffer's content after `upload`. `glBindVertexArray` and `glBindBuffer` are not recorded.

## Model

| member | source | states |
|---|---|---|
| Input.Encoding | include/openglapp.hpp:141-147 | each key state is encoded as an integer in -1..2 |
| Input.StateOfEncoding | include/openglapp.hpp:141-147 | decoding is defined exactly on -1..2 |
| Input.EncodingRoundTrip | include/openglapp.hpp:141-147 | decoding an encoded state gives it back; 0 is the up state a zero-initialised array holds |
| Input.EncodingInjective | include/openglapp.hpp:141-147 | distinct states have distinct encodings |
| Input.QueriesConsistent | include/openglapp.hpp:176-192 | pressed-this-frame implies down, released-this-frame implies not down, never both |
| Input.AfterKeyDown | src/openglapp.cpp:417-428 | after a key-down the key is down unless it was released this frame, in which case it stays released; it reads as pressed this frame exactly when it was up |
| Input.AfterKeyUp | src/openglapp.cpp:430-441 | released this frame exactly when it was down; not down afterwards unless it was pressed this frame |
| Input.Decay | src/openglapp.cpp:381-388 | decay leaves no transient state and keeps whether the key is down |
| Input.TransitionsAreValid | src/openglapp.cpp:381-441 | key-down, key-up and decay only make transitions of the four-state machine |
| Input.KeyDownTwiceIsDown | src/openglapp.cpp:417-428 | an auto-repeated key-down leaves the key down, not pressed again |
| Input.KeyUpKeepsPressed | src/openglapp.cpp:430-441 | a key-up in the frame the key was pressed keeps it pressed |
| Input.TapWithinFrameReadsAsHeld | src/openglapp.cpp:381-441 | a press and release within one frame reads as held down in the next frame |
| Input.RepressWithinFrameReadsAsUp | src/openglapp.cpp:381-441 | a release and a re-press within one frame leave the key released, so after the next decay it reads as up |
| Input.PressReleaseCycle | src/openglapp.cpp:381-441 | press, new frame, release, new frame returns the key to up |
| Input.PressedLastsOneFrame | src/openglapp.cpp:381-428 | a key reads as pressed in the frame of the key-down and in no later frame |
| Input.UpdateKeyStateOnKeyDown | src/openglapp.cpp:417-428 | updates exactly the given slot of the state array, by the key-down transition |
| Input.UpdateKeyStateOnKeyUp | src/openglapp.cpp:430-441 | updates exactly the given slot of the state array, by the key-up transition |
| Keys.MapKey | src/openglapp.cpp:465-798 | every virtual-key code maps to a key slot below the key count |
| Keys.VirtualKey | src/openglapp.cpp:465-798 | a slot has a virtual key only when it is a real key slot |
| Keys.MapKeyInverse | src/openglapp.cpp:465-798 | every listed virtual-key code is recovered from its slot |
| Keys.VirtualKeyRoundTrip | src/openglapp.cpp:465-798 | every key slot with a code maps back to itself, so the mapping is injective on listed codes |
| Keys.MapKeyCharacterised | src/openglapp.cpp:465-798 | a code maps to a known slot exactly when that slot's virtual key is the code |
| Keys.MapKeyUnlisted | src/openglapp.cpp:795-797 | a code listed for no slot maps to the unknown key |
| Keys.MapKeyFamilies | src/openglapp.cpp:543-742 | digits and letters map to themselves, F1-F24 to code+178 and keypad digits to code+224 |
| Keys.MapButton | src/openglapp.cpp:443-463 | every button code maps below the button count, and each known button's code is the one it came from |
| Keys.ButtonCodeRoundTrip | src/openglapp.cpp:443-463 | each known button is recovered from its code |
| OpenGLApp.App.constructor | include/openglapp.hpp:149-215 | a new app has zeroed fields and all keys and buttons up |
| OpenGLApp.App.Snap | include/openglapp.hpp:149-215 | the value view of the app reflects the key and button arrays |
| OpenGLApp.App.PressedKeyInCurrentFrame | include/openglapp.hpp:176-180 | true exactly when the key's slot reads pressed this frame |
| OpenGLApp.App.IsKeyDown | include/openglapp.hpp:182-186 | true exactly when the key's slot is pressed or down |
| OpenGLApp.App.ReleasedKeyInCurrentFrame | include/openglapp.hpp:188-192 | true exactly when the key's slot reads released this frame |
| OpenGLApp.App.PressedButtonInCurrentFrame | include/openglapp.hpp:197-201 | the same as for keys, for mouse buttons |
| OpenGLApp.App.IsButtonDown | include/openglapp.hpp:203-207 | the same as for keys, for mouse buttons |
| OpenGLApp.App.ReleasedButtonInCurrentFrame | include/openglapp.hpp:209-213 | the same as for keys, for mouse buttons |
| OpenGLApp.QueriesConsistentOnApp | include/openglapp.hpp:176-213 | on a live app, pressed implies down, released implies not down, never both, for keys and buttons |
| Dispatch.LoWord | src/openglapp.cpp:139-149 | the low word of an LPARAM is a 16-bit value |
| Dispatch.HiWord | src/openglapp.cpp:139-149 | the high word of an LPARAM is a 16-bit value |
| Dispatch.SignedShort | src/openglapp.cpp:122-137 | a word read as a short lies in -32768..32767 and has the same 16 bits |
| Dispatch.WordsRoundTrip | src/openglapp.cpp:139-149 | LOWORD and HIWORD recover the two words of a packed size |
| Dispatch.PointRoundTrip | src/openglapp.cpp:122-137 | GET_X_LPARAM and GET_Y_LPARAM recover signed 16-bit coordinates |
| Dispatch.DispatchApp | src/openglapp.cpp:38-149 | handling one message keeps the app well formed |
| Dispatch.Step | src/openglapp.cpp:16-160 | one call of the window procedure keeps the state well formed and keeps whether an app is attached |
| Dispatch.Drain | src/openglapp.cpp:390-403 | the drain loop keeps the state well formed |
| Dispatch.Decayed | src/openglapp.cpp:381-388 | after the decay loop no key is in a transient state |
| Dispatch.PumpSpec | src/openglapp.cpp:372-404 | one GameLoop call keeps the state well formed |
| Dispatch.Replay | src/openglapp.cpp:390-403 | dispatching a message sequence one by one keeps the state well formed |
| Dispatch.FirstQuit | src/openglapp.cpp:392-396 | the index of the first quit message, with no quit before it |
| Dispatch.Dispatched | src/openglapp.cpp:390-403 | the messages the drain loop dispatches contain no quit message |
| Dispatch.ReplayCons | src/openglapp.cpp:390-403 | replaying m then q is replaying q from the state after m |
| Dispatch.DrainIsReplay | src/openglapp.cpp:390-403 | the drain loop dispatches exactly the messages before the first quit; it keeps running iff there is no quit, and the rest of the queue is what follows the quit |
| Dispatch.KeyMessageEffect | src/openglapp.cpp:40-66 | a key message of an unmapped code changes nothing; otherwise it applies the key transition to exactly the mapped slot |
| Dispatch.ButtonMessageEffect | src/openglapp.cpp:68-120 | each button message applies the transition to its fixed button slot and nothing else |
| Dispatch.MouseMoveEffect | src/openglapp.cpp:122-137 | a mouse move records its LPARAM as previous and sets the position and the difference from the previous point (zero on the first move); keys, buttons, size and the resize flag are unchanged |
| Dispatch.MouseDelta | src/openglapp.cpp:122-137 | the difference is the previous point minus the new one, coordinate by coordinate |
| Dispatch.SizeEffect | src/openglapp.cpp:139-149 | a size message sets width and height from its words and raises the resized flag, nothing else |
| Dispatch.StepResized | src/openglapp.cpp:139-149 | after one message the resized flag is set exactly when it was set or the message is a size message |
| Dispatch.ReplayResized | src/openglapp.cpp:139-149 | after a run of messages the flag is set iff it was set or one of them is a size message |
| Dispatch.ReplayKeyUntouched | src/openglapp.cpp:40-66 | a key slot that no message maps to keeps its state |
| Dispatch.ReplayButtonsUntouched | src/openglapp.cpp:68-120 | messages that are not button messages leave every button state unchanged |
| Dispatch.PumpStopsAtFirstQuit | src/openglapp.cpp:390-403 | GameLoop returns false iff a quit is queued, and leaves exactly the messages after the first quit |
| Dispatch.PumpResizeFlag | src/openglapp.cpp:381-403 | after a frame the resized flag is set iff a size message was dispatched in that frame |
| Dispatch.PumpKeyDecays | src/openglapp.cpp:381-403 | a key that no dispatched message touches ends the frame decayed |
| Dispatch.PumpUnknownSlot | src/openglapp.cpp:40-66 | the unknown-key slot is never written by a message, since the key cases skip unmapped codes; each frame it only decays |
| Dispatch.PumpUnmappedSlot | src/openglapp.cpp:40-66 | a slot that no virtual-key code maps to is only ever decayed |
| Dispatch.PumpButtonsNotDecayed | src/openglapp.cpp:381-388 | button states are not decayed: without button messages a pressed button still reads pressed next frame |
| Dispatch.PressedForOneFrame | src/openglapp.cpp:372-404 | a key pressed in one frame and not touched in the next reads as down, not pressed, in the next |
| Dispatch.WndProc.constructor | src/openglapp.cpp:124-126 | no previous mouse position is known before the first mouse move |
| Dispatch.WndProc.Dispatch | src/openglapp.cpp:16-160 | one call of the window procedure changes the app and the previous position as Step says, and leaves the installed game loop alone |
| Dispatch.WndProc.GameLoop | src/openglapp.cpp:372-404 | decays every key slot, then drains the queue; the new state, the result and the rest of the queue are PumpSpec's; the installed game loop is left alone |
| Window.PlaceWindow | src/openglapp.cpp:235-249 | full screen popup at the origin iff width or height is 0; otherwise an overlapped window of the requested size at the default position |
| Window.PlacementStable | src/openglapp.cpp:235-249 | on a non-empty screen the window never gets a zero side, and placing it again with its own size keeps that size |
| Window.FirstFailing | src/openglapp.cpp:268-360 | the index of the first failing step; every earlier step succeeds |
| Window.FailedStep | src/openglapp.cpp:268-360 | the step that failed is a failing one; there is none exactly when no handshake step fails |
| Window.StepsRun | src/openglapp.cpp:268-360 | the steps attempted are a non-empty prefix of the handshake; all but the last succeed, and the last fails iff the handshake fails |
| Window.FirstFailingUnrolled | src/openglapp.cpp:268-360 | the first failing index, written as the chain of checks the code makes |
| Window.EmbedStepsUnrolled | src/openglapp.cpp:268-360 | the failed step and the steps run split into the pixel-format phase and the context phase |
| Window.Wgl.Delete | src/openglapp.cpp:351 | deleting a context removes it, and it is no longer current |
| Window.PreparePixelFormat | src/openglapp.cpp:268-312 | gets the device context, chooses and sets the format, stops at the first failure and touches no context |
| Window.CreateContexts | src/openglapp.cpp:314-360 | creates and activates the bootstrap context, then creates the 4.6 context, deletes the bootstrap one and activates 4.6, stopping at the first failure; contexts as written |
| Window.CreateContextsReleasingTemp | src/openglapp.cpp:314-360 | the same steps, with the bootstrap context deleted on every failure path |
| Window.EmbedApp | src/openglapp.cpp:257-415 | succeeds iff no step fails, runs exactly the steps up to the first failure, leaves the contexts as written, installs GameLoop only on success; size, mouse fields and resize flag are unchanged |
| Window.EmbedAppReleasingTemp | src/openglapp.cpp:257-415 | the same, leaving no bootstrap context behind; size, mouse fields and resize flag are unchanged |
| Window.OpenApp | src/openglapp.cpp:212-255 | sizes the window as PlaceWindow says and stores that size in the app, then runs the as-written handshake: succeeds iff no step fails, with the contexts ContextsAfter gives (a failure can leave the bootstrap context); mouse fields and resize flag unchanged |
| Window.OpenAppReleasingTemp | src/openglapp.cpp:212-255 | the same sizing over the corrected handshake, so a failure leaves no bootstrap context |
| Window.EmbedSucceedsIffNoFailure | src/openglapp.cpp:257-415 | the handshake succeeds iff no step fails, and then all seven steps run in order |
| Window.Context46NeedsBootstrap | src/openglapp.cpp:314-349 | the 4.6 context is attempted only after the bootstrap context was created and made current |
| Window.EmbedSuccessContexts | src/openglapp.cpp:342-360 | a successful handshake adds exactly the 4.6 context and makes it current |
| Window.EmbedLeaksBootstrap | src/openglapp.cpp:323-349 | as written, a failed handshake leaves a context behind exactly when it fails at activating the bootstrap context or creating the 4.6 one |
| Window.EmbedLeakExample | src/openglapp.cpp:342-349 | when only 4.6 creation fails, the bootstrap context stays alive and current |
| Window.ReleasingLeavesNothing | src/openglapp.cpp:314-360 | with the release added, every failed handshake leaves the live contexts as it found them |
| VertexBuffers.TotalSizeConcat | vertexbuffer.hpp:100-128 | the size of two runs of attributes laid out one after the other is the sum of their sizes |
| VertexBuffers.DataTypeOf | vertexbuffer.hpp:215-229 | 1 and 2 byte elements map to the types of that width, everything else to float; the width equals the element size iff it is 1, 2 or 4 |
| VertexBuffers.Resized | vertexbuffer.hpp:197-201 | resizing keeps the leading elements and fills new ones with the default value |
| VertexBuffers.VertexBuffer.constructor | vertexbuffer.hpp:170-174 | a new buffer has no GL objects, stride 0 and empty lists |
| VertexBuffers.VertexBuffer.Bind | vertexbuffer.hpp:130-144 | creates the vertex array and the buffer only when they do not exist yet; nothing else changes |
| VertexBuffers.VertexBuffer.Upload | vertexbuffer.hpp:146-151 | binds, then the GPU copy equals the vertices |
| VertexBuffers.VertexBuffer.Resize | vertexbuffer.hpp:153-157 | the vertices are resized, nothing else changes |
| VertexBuffers.VertexBuffer.Add | vertexbuffer.hpp:159-167 | appends the vertex and returns its index, the old count |
| VertexBuffers.VertexBuffer.EnsureAttrArrays | vertexbuffer.hpp:197-201 | the names are resized to the requested count |
| VertexBuffers.VertexBuffer.CheckStride | vertexbuffer.hpp:203-213 | accepts exactly the strides whose unsigned value equals the vertex size |
| VertexBuffers.VertexBuffer.SetupAttribute | vertexbuffer.hpp:176-195 | on an accepted stride, records the name at the index and appends the pointer; otherwise changes nothing |
| VertexBuffers.VertexBuffer.SetupSingle | vertexbuffer.hpp:10-26 | the one-attribute overload: binds, sizes the names when the stride is 0, sets the stride to the attribute's size, declares the attribute if the stride is accepted |
| VertexBuffers.VertexBuffer.Setup | vertexbuffer.hpp:10-128 | any overload: succeeds iff the stride is accepted; names as NamesAfter; pointers for every attribute at consecutive offsets |
| VertexBuffers.VertexBuffer.SetupChained | vertexbuffer.hpp:28-128 | the overloads for two or more attributes: the nested call, then the last attribute at the offset after the others |
| VertexBuffers.ResizedTwice | vertexbuffer.hpp:197-201 | a resize to n, then to a smaller m, is a resize to m |
| VertexBuffers.NamesAfterStep | vertexbuffer.hpp:28-128 | the names after an overload are those after its nested call, with the last name written |
| VertexBuffers.SetupStep | vertexbuffer.hpp:28-128 | the pointers of a layout are those of its prefix plus one for the last attribute |
| VertexBuffers.PrefixSizeMonotone | vertexbuffer.hpp:100-128 | a longer prefix of a layout is never smaller |
| VertexBuffers.PointersLayout | vertexbuffer.hpp:28-195 | the declared layout has one pointer per attribute at its own index, with its count, GL type and the common stride; offsets start at 0, each begins where the previous ends, and the last ends at the total size |
| VertexBuffers.LayoutConsecutive | vertexbuffer.hpp:28-128 | each attribute starts where the previous one ends |
| VertexBuffers.LayoutDisjoint | vertexbuffer.hpp:28-128 | attributes never overlap |
| VertexBuffers.LayoutFits | vertexbuffer.hpp:28-128 | every attribute ends within the layout's size, and the last ends exactly at it |
| VertexBuffers.NamesRecorded | vertexbuffer.hpp:176-195 | after an accepted setup the first names are the attributes' names, in order |
| VertexBuffers.PackedSetupIdempotent | vertexbuffer.hpp:18-20 | repeating the same packed setup leaves the names as the first one left them |
| Shaders.ToGLuint | src/shader.cpp:100-104 | a location stored as GLuint keeps every non-negative 32-bit value |
| Shaders.ToGLint | src/shader.cpp:107-150 | a cached GLuint passed back as GLint lies in the 32-bit signed range |
| Shaders.LocationRoundTrip | src/shader.cpp:88-150 | a location, -1 included, survives being cached as GLuint and passed back as GLint |
| Shaders.Lookup | src/shader.cpp:88-105 | a cached name returns its cached id and leaves the cache; a new name returns and caches the reported location as GLuint; existing entries never change |
| Shaders.LookupAll | src/shader.cpp:88-105 | a run of lookups returns one id per request and never changes an existing entry |
| Shaders.LookupAllStable | src/shader.cpp:88-105 | every id returned is the one the final cache holds for its name |
| Shaders.QueriedOncePerName | src/shader.cpp:88-105 | the driver is asked about each name at most once, and only about names not cached before |
| Shaders.CompileStopsAtFirstFailure | src/shader.cpp:20-86 | the calls are a prefix of a successful compile's calls; shaders are deleted and the program used only if all stages succeed |
| Shaders.Shader.constructor | src/shader.cpp:6 | a new shader has program 0 and an empty cache |
| Shaders.Shader.Bind | src/shader.cpp:15-18 | puts the current program in use, nothing else changes |
| Shaders.Shader.Compile | src/shader.cpp:20-86 | succeeds iff all three stages do; the program id is replaced once both stages compile; the cache is kept |
| Shaders.Shader.EnsureUniformId | src/shader.cpp:88-105 | the id and new cache are Lookup's; it asks the driver only for a name not yet cached |
| Shaders.Shader.SetUniform | src/shader.cpp:107-150 | looks the location up as EnsureUniformId does, then uploads to it |
| Shaders.CacheSurvivesRecompile | src/shader.cpp:20-105 | lookup, recompile, lookup again: the second lookup returns the first id whatever the new program would report, and the only driver query is the first lookup's, on a miss |

Proof helpers carry no row: the chunked round-trip lemmas in keys.dfy (`MapKeyInverseFrom*`, `VirtualKeyRoundTripFrom*`), `Window.AllStepsListed`, the phase functions `PixelFormatFailure`/`ContextFailure`/`PixelFormatRun`/`ContextRun`, and `VertexBuffers.Pointers`, `Names`, `WriteName` and `PrefixStep`.

## Left out

- **Win32, WGL, OpenGL and spdlog calls are not executed.**
  - Their results are parameters (the `Wgl` failure set, the compile stage outcomes, reported locations, generated GL names).
  - Some of their effects are recorded as logs, as described above.
  - Logging is omitted.
- **Debug output.** `OpenGLMessageCallback` and `enableOpenGlDebug` only log driver messages.
- **Window creation and teardown.**
  - The WM_NCCREATE association of the window with the app is not modelled. The window procedure is given the app, or none.
  - WM_DESTROY/`PostQuitMessage` is represented by the quit message it queues.
  - `RegisterClass`/`CreateWindow` failure is not modelled; the handshake starts with `GetDC`.
  - `ShowWindow` and `glViewport` are not modelled.
- Window.OpenApp / Window.EmbedApp: messages that `CreateWindow` and `ShowWindow`/`UpdateWindow` send to the window procedure before returning (WM_SIZE among them, once WM_NCCREATE has attached the app) are not modelled. The stored size is therefore the requested outer size rather than the client size, and the resize flag is not raised during `openApp`.
- **`TranslateMessage` and `SwapBuffers`** have no effect on the modelled state.
- **The device context from `GetDC` is never released by the source.** The model does not track device contexts.
- **The `Cleanup` closure is not modelled.**
  - It unregisters a class named differently from the one `openApp` registers.
  - It works only on OS handles.
- **`Shader::id` is not modelled separately.** It returns the `shaderId` field, which the model exposes directly.
- **The values that `setUniform` uploads** are opaque `UniformValue`s; the overloads differ only in the GL upload function.
- **GL binding state beyond the call logs** (the current program, the bound vertex array) is not modelled.
- **program.cpp and the copy of openglapp.hpp under src/** are not part of this model; the first is a demo and the second is an older declaration of the app with only title, width, height, `GameLoop` and `Cleanup`, and has no key or button state and no queries.
- **VertexBuffers.TotalSize** and the offsets are unbounded integers. 32-bit overflow of attribute sizes is not modelled; only the stride's conversion to `unsigned int` in `checkStride` is.
- **VertexBuffers.VertexBuffer.Setup**
  - It requires enough name slots when an explicit non-zero stride is accepted. In the source, writing past the vector's end is undefined behaviour.
  - An explicit non-zero stride never updates the stored stride, as in the source.
- **VertexBuffers.VertexBuffer.Setup** models the C++ template overloads (1 to 5 attributes) as one method on a sequence of one to five attributes.
- **Keys.MapButton** is modelled, but the window procedure writes fixed button slots without calling it, as the source does.
- **Shaders.Shader.Compile**
  - On a failed stage the shader objects are not deleted, as in the source.
  - After a link failure `shaderId` holds the unlinked program, as in the source.
- **Shaders.Shader.Compile** does not clear the uniform cache, as in the source (see `Shaders.CacheSurvivesRecompile`).

## Findings

| source | as written | input that shows it | evidently intended | confidence | as-written member | corrected member |
|---|---|---|---|---|---|---|
| src/openglapp.cpp:323-349 | if making the bootstrap context current fails, or creating the 4.6 context fails, `embedApp` returns false without deleting the bootstrap context | a driver where `wglCreateContextAttribsARB` returns NULL: the bootstrap context stays alive and current | the bootstrap context is deleted on every failure path, so a failed handshake leaves no context behind | not executed | Window.EmbedLeakExample | Window.EmbedAppReleasingTemp |
