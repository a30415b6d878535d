/** The Hazel application controller: its flags, its layer stack, the window handlers,
    the event walk and the main loop. */
module Hazel {
  import opened Events
  import opened Propagation
  import opened Frames

  /** Regrouping a concatenation; proved apart from the large contexts of the loops below that use it. */
  lemma ConcatAssoc<T>(a: seq<T>, b: seq<T>, c: seq<T>)
    ensures (a + b) + c == a + (b + c)
  {
  }

  class Application {
    /** m_Running: the main loop goes on while it is set. */
    var running: bool
    /** m_Minimized: while set, a frame skips the layers' updates. */
    var minimized: bool
    /** The layer stack in iteration order, front (begin) to back (end). */
    var layers: seq<LayerId>
    /** m_ImGuiLayer: the overlay whose Begin and End bracket the ImGui pass. */
    const imGuiLayer: LayerId
    /** Every call the controller has made into a collaborator, oldest first. */
    ghost var trace: seq<Call>

    /** The two flags as one value. */
    function CurrentFlags(): Flags
      reads this
    {
      Flags(running, minimized)
    }

    /** Starts running and not minimized, with the ImGui layer pushed as an overlay and attached. */
    constructor (imGui: LayerId)
      ensures running && !minimized && imGuiLayer == imGui
      ensures layers == [imGui]
      ensures trace == [StackPush(imGui, true), Attach(imGui)]
    {
      running := true;
      minimized := false;
      layers := [];
      imGuiLayer := imGui;
      trace := [];
      new;
      PushOverlay(imGui, 0);
    }

    /** Inserts a normal layer at the position the layer stack chooses, then attaches it once. */
    method PushLayer(layer: LayerId, at: nat)
      requires at <= |layers|
      modifies this`layers, this`trace
      ensures layers == old(layers[..at]) + [layer] + old(layers[at..])
      ensures trace == old(trace) + [StackPush(layer, false), Attach(layer)]
    {
      layers := layers[..at] + [layer] + layers[at..];
      trace := trace + [StackPush(layer, false)];
      trace := trace + [Attach(layer)];
    }

    /** Inserts an overlay at the position the layer stack chooses, then attaches it once. */
    method PushOverlay(layer: LayerId, at: nat)
      requires at <= |layers|
      modifies this`layers, this`trace
      ensures layers == old(layers[..at]) + [layer] + old(layers[at..])
      ensures trace == old(trace) + [StackPush(layer, true), Attach(layer)]
    {
      layers := layers[..at] + [layer] + layers[at..];
      trace := trace + [StackPush(layer, true)];
      trace := trace + [Attach(layer)];
    }

    /** The close handler: stops the main loop and reports the event handled. */
    method OnWindowClosed() returns (handled: bool)
      modifies this`running
      ensures !running && handled
    {
      running := false;
      handled := true;
    }

    /** The resize handler: a zero width or height minimizes without touching the renderer;
        otherwise it restores and forwards the size to the renderer. It never reports handled. */
    method OnWindowResize(width: nat, height: nat) returns (handled: bool)
      modifies this`minimized, this`trace
      ensures !handled
      ensures minimized <==> width == 0 || height == 0
      ensures trace == old(trace) + (if minimized then [] else [RendererResize(width, height)])
    {
      if width == 0 || height == 0 {
        minimized := true;
        return false;
      }
      minimized := false;
      trace := trace + [RendererResize(width, height)];
      return false;
    }

    /** The two EventDispatcher calls of OnEvent: a close event goes to the close handler and a
        resize event to the resize handler; the handler's answer is merged into Handled. */
    method DispatchWindowHandlers(e: Event, merge: Merge) returns (out: Event)
      modifies this`running, this`minimized, this`trace
      ensures CurrentFlags() == AfterEvent(old(CurrentFlags()), e.kind)
      ensures trace == old(trace) + HandlerCalls(e.kind)
      ensures out == AfterHandlers(e, merge)
    {
      out := e;
      if out.kind.WindowClose? {
        var h := OnWindowClosed();
        out := out.(handled := merge(out.handled, h));
      }
      if out.kind.WindowResize? {
        var h := OnWindowResize(out.kind.width, out.kind.height);
        out := out.(handled := merge(out.handled, h));
      }
    }

    /** The loop of OnEvent: walks the layers from the top of the stack down, calling each layer's
        OnEvent and testing Handled only after the call; stops after the first layer that leaves it
        set. Returns the event as the walk leaves it. */
    method WalkLayers(e: Event, handler: LayerHandler) returns (out: Event)
      modifies this`trace
      ensures trace == old(trace) + LayerEventCalls(Propagate(layers, e, handler).invoked)
      ensures out == Propagate(layers, e, handler).event
    {
      out := e;
      var stack := layers;
      ghost var whole := Propagate(stack, e, handler);
      ghost var invoked: seq<LayerId> := [];
      ghost var calls: seq<Call> := [];
      var i := |stack|;
      while i != 0
        invariant 0 <= i <= |stack|
        invariant whole.invoked == invoked + Walk(stack, i, out, handler).invoked
        invariant whole.event == Walk(stack, i, out, handler).event
        invariant calls == LayerEventCalls(invoked)
        invariant trace == old(trace) + calls
      {
        var top := stack[i - 1];
        ConcatAssoc(invoked, [top], Walk(stack, i - 1, out.(handled := handler(top, out)), handler).invoked);
        out := out.(handled := handler(top, out));
        trace := trace + [LayerOnEvent(top)];
        calls := calls + [LayerOnEvent(top)];
        assert LayerEventCalls(invoked + [top]) == calls;
        invoked := invoked + [top];
        i := i - 1;
        if out.handled {
          break;
        }
      }
      assert whole.invoked == invoked;
    }

    /** Application::OnEvent: the window handlers through the dispatcher, then the walk down the
        layer stack. Returns the event as the walk leaves it; the stack is untouched. */
    method OnEvent(e: Event, merge: Merge, handler: LayerHandler) returns (out: Event)
      modifies this`running, this`minimized, this`trace
      ensures CurrentFlags() == AfterEvent(old(CurrentFlags()), e.kind)
      ensures trace == old(trace) + EventCalls(layers, e, merge, handler)
      ensures out == EventWalk(layers, e, merge, handler).event
    {
      out := DispatchWindowHandlers(e, merge);
      ghost var mid := trace;
      out := WalkLayers(out, handler);
      ghost var hc, lc := HandlerCalls(e.kind), LayerEventCalls(EventWalk(layers, e, merge, handler).invoked);
      assert trace == (old(trace) + hc) + lc;
    }

    /** The update pass of a frame: OnUpdate on every layer, front to back. */
    method UpdateLayers(ts: TimeStep)
      modifies this`trace
      ensures trace == old(trace) + UpdateCalls(layers, ts)
    {
      var stack := layers;
      ghost var calls: seq<Call> := [];
      for i := 0 to |stack|
        invariant calls == UpdateCalls(stack[..i], ts)
        invariant trace == old(trace) + calls
      {
        trace := trace + [Update(stack[i], ts)];
        calls := calls + [Update(stack[i], ts)];
        assert UpdateCalls(stack[..i + 1], ts) == calls;
      }
      assert stack[..|stack|] == stack;
    }

    /** The ImGui pass of a frame: Begin, OnImGuiRender on every layer front to back, End. */
    method RenderImGui()
      modifies this`trace
      ensures trace == old(trace) + [ImGuiBegin(imGuiLayer)] + RenderCalls(layers) + [ImGuiEnd(imGuiLayer)]
    {
      var stack := layers;
      trace := trace + [ImGuiBegin(imGuiLayer)];
      ghost var calls: seq<Call> := [];
      for i := 0 to |stack|
        invariant calls == RenderCalls(stack[..i])
        invariant trace == old(trace) + [ImGuiBegin(imGuiLayer)] + calls
      {
        trace := trace + [ImGuiRender(stack[i])];
        calls := calls + [ImGuiRender(stack[i])];
        assert RenderCalls(stack[..i + 1]) == calls;
      }
      assert stack[..|stack|] == stack;
      trace := trace + [ImGuiEnd(imGuiLayer)];
    }

    /** The window update of a frame: the window delivers the events it polled, first to last,
        to OnEvent, the callback the constructor registers. */
    method PollEvents(events: seq<Event>, merge: Merge, handler: LayerHandler)
      modifies this`running, this`minimized, this`trace
      ensures CurrentFlags() == FlagsAfter(old(CurrentFlags()), events)
      ensures trace == old(trace) + PollCalls(layers, events, merge, handler)
    {
      for k := 0 to |events|
        invariant CurrentFlags() == FlagsAfter(old(CurrentFlags()), events[..k])
        invariant trace == old(trace) + PollCalls(layers, events[..k], merge, handler)
      {
        assert events[..k + 1][..k] == events[..k];
        ConcatAssoc(old(trace), PollCalls(layers, events[..k], merge, handler), EventCalls(layers, events[k], merge, handler));
        var _ := OnEvent(events[k], merge, handler);
      }
      assert events[..|events|] == events;
    }

    /** One iteration of the main loop: the update pass unless minimized, the ImGui pass, then
        the window update. */
    method RunFrame(input: FrameInput, merge: Merge, handler: LayerHandler)
      modifies this`running, this`minimized, this`trace
      ensures CurrentFlags() == FlagsAfter(old(CurrentFlags()), input.polled)
      ensures trace == old(trace) + FrameCalls(layers, imGuiLayer, old(CurrentFlags()), input, merge, handler)
    {
      if minimized == false {
        UpdateLayers(input.ts);
      }
      RenderImGui();
      assert trace == old(trace) + FrameBodyCalls(layers, imGuiLayer, old(minimized), input.ts);
      PollEvents(input.polled, merge, handler);
    }

    /** The main loop: running is checked only at the top of an iteration, so a close delivered
        during an iteration lets that iteration finish. Consumes one input per iteration and
        returns how many iterations ran. */
    method Run(inputs: seq<FrameInput>, merge: Merge, handler: LayerHandler) returns (frames: nat)
      modifies this`running, this`minimized, this`trace
      ensures var r := RunSpec(layers, imGuiLayer, old(CurrentFlags()), inputs, merge, handler);
              frames == r.frames && CurrentFlags() == r.flags && trace == old(trace) + r.calls
    {
      var stack := layers;
      ghost var whole := RunSpec(stack, imGuiLayer, CurrentFlags(), inputs, merge, handler);
      ghost var rest := whole;
      ghost var done: seq<Call> := [];
      frames := 0;
      while running && frames < |inputs|
        invariant frames <= |inputs|
        invariant rest == RunSpec(stack, imGuiLayer, CurrentFlags(), inputs[frames..], merge, handler)
        invariant trace == old(trace) + done
        invariant whole.frames == frames + rest.frames
        invariant whole.flags == rest.flags
        invariant whole.calls == done + rest.calls
        decreases |inputs| - frames
      {
        ghost var before := CurrentFlags();
        ghost var frame := FrameCalls(stack, imGuiLayer, before, inputs[frames], merge, handler);
        RunSpecStep(stack, imGuiLayer, before, inputs, frames, merge, handler);
        RunFrame(inputs[frames], merge, handler);
        ghost var next := RunSpec(stack, imGuiLayer, CurrentFlags(), inputs[frames + 1..], merge, handler);
        ConcatAssoc(done, frame, next.calls);
        ConcatAssoc(old(trace), done, frame);
        done := done + frame;
        rest := next;
        frames := frames + 1;
      }
    }
  }
}
