# Hazel application controller

A Dafny model of `Hazel::Application`, the controller at the centre of the Hazel engine. It owns two
flags, `m_Running` (initially set) and `m_Minimized` (initially clear), and an ordered layer stack.
It does four things:

- it pushes layers and overlays onto the stack and attaches each one after it is inserted;
- it handles window events: a close clears `m_Running`; a resize minimizes the application when a
  dimension is zero, and otherwise restores it and forwards the new size to the renderer;
- it routes every event: first through the two window handlers, then down the layer stack from the
  top, testing the event's `Handled` flag after each layer and stopping once it is set;
- it runs the main loop. While running, each iteration updates every layer front to back unless
  minimized. It then renders every layer's ImGui front to back between the ImGui layer's `Begin`
  and `End`. Finally it updates the window, which delivers the polled events.

Layout:

- `events.dfy` (module `Events`): layer identities, events and their `Handled` flag, the two
  collaborator oracles, and the `Call` log of what the controller calls.
  - `LayerHandler` is a layer's `OnEvent`: the `Handled` value the event carries after that layer.
  - `Merge` is how the event dispatcher folds a handler's answer into `Handled`.
- `propagation.dfy` (module `Propagation`): the reverse walk over the stack as pure functions.
  - `Walk` / `Propagate` is the walk itself.
  - `Trail` is a reference walk without the early exit.
  - Lemmas relate the two.
- `frames.dfy` (module `Frames`): pure specifications of what one event, one frame and a whole run
  do to the flags and which calls they make, with lemmas about them.
- `application.dfy` (module `Hazel`): class `Application` with the fields `running`, `minimized`,
  `layers` (the stack, front to back) and a ghost `trace` of calls. Its methods update these fields
  in place. Each method's contract ties the new state to the functions of `Frames` and `Propagation`.

The event's `Handled` flag is mutated through a reference in the source. Here `OnEvent` returns
the updated event value instead.

`Handled` is checked only after a layer's call. So the topmost layer always sees the event, even one
that the close handler has already marked handled. The model follows the code here, not a reading
where an event that is already handled propagates no further.

## Model

| member | source | states |
|---|---|---|
| `Hazel.Application.constructor` | Hazel/src/Hazel/Core/Application.h:38-39 | Starts running and not minimized; the ImGui layer is the only layer, pushed as an overlay and then attached (Application.cpp:26-27). |
| `Hazel.Application.PushLayer` | Hazel/src/Hazel/Core/Application.cpp:35-39 | The layer is inserted into the stack at the position the stack chooses, the rest of the stack keeps its order, and the log gains exactly the insertion followed by one `OnAttach` of that layer. |
| `Hazel.Application.PushOverlay` | Hazel/src/Hazel/Core/Application.cpp:41-45 | The same for an overlay: insertion, then exactly one `OnAttach`, after the insertion. |
| `Hazel.Application.OnWindowClosed` | Hazel/src/Hazel/Core/Application.cpp:85-89 | Running is cleared and the handler answers true. |
| `Hazel.Application.OnWindowResize` | Hazel/src/Hazel/Core/Application.cpp:91-104 | Minimized is set exactly when width or height is zero. Only when both are non-zero does the renderer get one resize with exactly that width and height. The handler always answers false. |
| `Hazel.Application.DispatchWindowHandlers` | Hazel/src/Hazel/Core/Application.cpp:49-51 | A close event reaches only the close handler and a resize event only the resize handler; the answer is merged into `Handled`; other events are left untouched. |
| `Hazel.Application.WalkLayers` | Hazel/src/Hazel/Core/Application.cpp:55-60 | The loop calls exactly the layers `Propagate` invokes, in that order, one `OnEvent` each, and returns the event that walk leaves behind; the stack is not modified. |
| `Hazel.Application.OnEvent` | Hazel/src/Hazel/Core/Application.cpp:47-61 | Flags change only as the window handlers say. The log holds the handlers' renderer call, then the walk's layer calls. The returned event is the walk's result on the event as the handlers left it. |
| `Propagation.TopDown` | Hazel/src/Hazel/Core/Application.cpp:55-57 | Position k of the result is the layer at stack position size-1-k: the stack read from the end back to the beginning. |
| `Propagation.Walk` | Hazel/src/Hazel/Core/Application.cpp:55-60 | The walk invokes at most the layers it is given and, on a non-empty stack, at least one. It keeps the event's kind. If it stops early, the event it returns is handled. |
| `Propagation.WalkOrder` | Hazel/src/Hazel/Core/Application.cpp:55-57 | The k-th invoked layer is the one k places below the top: strictly reverse stack order, each position at most once. |
| `Propagation.InvokesTopDownPrefix` | Hazel/src/Hazel/Core/Application.cpp:55-59 | The invoked layers are a prefix of the stack read top down. On a non-empty stack the top layer is always invoked, whatever `Handled` was on arrival. |
| `Propagation.WalkStopsAtFirstHandled` | Hazel/src/Hazel/Core/Application.cpp:58-59 | No invoked layer but the last leaves `Handled` set. If the walk stops before the bottom, the last invoked layer did set it, so nothing below it is invoked. The returned `Handled` is the last invoked layer's. |
| `Propagation.EveryLayerWhenNoneHandles` | Hazel/src/Hazel/Core/Application.cpp:55-60 | When no layer leaves `Handled` set, every layer is invoked exactly once, top down, and the event comes back unhandled. |
| `Frames.RunningAfterEvents` | Hazel/src/Hazel/Core/Application.cpp:85-89 | After a sequence of events, running is set exactly when it was set before and none of the events was a close. |
| `Frames.MinimizedWithoutResize` | Hazel/src/Hazel/Core/Application.cpp:91-99 | Events without a resize leave minimized unchanged. |
| `Frames.MinimizedByLastResize` | Hazel/src/Hazel/Core/Application.cpp:93-99 | After a sequence of events, minimized is decided by the last resize among them: set exactly when its width or height is zero. |
| `Hazel.Application.UpdateLayers` | Hazel/src/Hazel/Core/Application.cpp:72-73 | One `OnUpdate` per layer with the frame's time step, front to back. |
| `Hazel.Application.RenderImGui` | Hazel/src/Hazel/Core/Application.cpp:76-79 | `Begin` on the application's own ImGui layer, one `OnImGuiRender` per layer front to back, then `End` on that same ImGui layer. |
| `Hazel.Application.PollEvents` | Hazel/src/Hazel/Core/Application.cpp:81 | The window update delivers each polled event to `OnEvent` (the callback registered at line 22), first to last; flags and log follow from the events in that order. |
| `Hazel.Application.RunFrame` | Hazel/src/Hazel/Core/Application.cpp:65-81 | One loop iteration: the update pass only if not minimized at the start of the iteration, then the ImGui pass, then the window update's events. |
| `Frames.FrameBodyOrder` | Hazel/src/Hazel/Core/Application.cpp:70-79 | Within a frame, `OnUpdate` runs on every layer front to back exactly when not minimized. `OnImGuiRender` runs on every layer front to back unconditionally, strictly between `Begin` and `End`. |
| `Frames.RunSpec` | Hazel/src/Hazel/Core/Application.cpp:63-83 | The loop runs at most one iteration per input and none when not running. If it ends before the inputs run out, running is cleared. |
| `Frames.RunStopsAfterCloseFrame` | Hazel/src/Hazel/Core/Application.cpp:64 | `m_Running` is checked only at the top of an iteration: when the first close arrives during iteration k, exactly k+1 iterations run, the closing one included. |
| `Frames.RunAllFramesWithoutClose` | Hazel/src/Hazel/Core/Application.cpp:64-82 | Without a close, a running loop runs one iteration per input and is still running afterwards. |
| `Frames.NextFrameSkipsUpdates` | Hazel/src/Hazel/Core/Application.cpp:70-74 | After a frame whose last resize has a zero dimension, the next frame makes no `OnUpdate` call. |
| `Frames.NoUpdateInPoll` | Hazel/src/Hazel/Core/Application.cpp:47-61 | Delivering polled events never calls `OnUpdate`: an event leads only to a renderer resize and layer `OnEvent` calls. |
| `Frames.StaysMinimized` | Hazel/src/Hazel/Core/Application.cpp:93-99 | A minimized application stays minimized through any events whose resizes all have a zero width or height. |
| `Frames.NoUpdatesWhileMinimized` | Hazel/src/Hazel/Core/Application.cpp:70-74 | Once minimized, no later iteration of the loop calls `OnUpdate` on any layer for as long as every resize that arrives has a zero dimension: the updates stay suspended until a resize with both dimensions non-zero arrives. |
| `Hazel.Application.Run` | Hazel/src/Hazel/Core/Application.cpp:63-83 | The number of iterations, the final flags and the log are exactly those of `RunSpec` for the given inputs. |

## Left out

- `glfwGetTime` and the float time-step arithmetic (Application.cpp:66-68): a foreign clock and floating point. Each iteration receives its time step as an opaque input, and `m_LastFrameTime` is not modelled.
- Construction side effects (Application.cpp:18-24, 30-33): window creation, registering the event callback, `Renderer::Init` and `Renderer::Shutdown`. The singleton `s_Instance` and its assertion are global state and are not modelled. The callback registration shows up only in `PollEvents` delivering events to `OnEvent`.
- `LayerStack` internals: where normal layers and overlays go is not part of this model. `PushLayer` and `PushOverlay` take the insertion position the stack would choose as a parameter. Their `requires` that it lies within the stack is an assumption about that collaborator.
- `EventDispatcher` internals: type matching is the event's kind. How a handler's answer is merged into `Handled` is the `merge` parameter.
- A layer's own `OnEvent`, `OnUpdate`, `OnImGuiRender` and `OnAttach` bodies are not modelled. `OnEvent` is the `handler` oracle; the others are recorded as calls in the log. A layer that pushes layers or touches the application from inside a callback is therefore not modelled either.
- `Renderer::OnWindowResize`, `ImGuiLayer::Begin`/`End` and the buffer swap of `Window::OnUpdate` are recorded as calls (or left out, for the swap), not modelled.
- Hazel.Application.Run: the source loop `while (m_Running)` is unbounded. The model runs on a finite sequence of per-iteration inputs and also stops when they run out, so non-termination is not captured.
- Hazel.Application.Run: one `handler` function answers for every layer over the whole run. A layer's `OnEvent` verdict depends only on the layer and the event, so a verdict that changes with the layer's own state (left behind by its earlier `OnUpdate` or `OnEvent` calls) is not modelled. The flag and walk properties hold for any handler, but `Run` and `RunSpec` describe only runs in which each layer's verdicts are state-independent.
- Hazel.Application.OnWindowResize: window sizes are unsigned 32-bit values in the source and `nat` here. Only their comparison with zero matters, so the width is not bounded.
- The scene renderer, render command, content browser panel, sandbox layer, UUID and window headers are not part of this model. They are GUI, rendering, or declarations without bodies.
