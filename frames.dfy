/** What the application controller does to its flags and which calls it makes, per event,
    per frame and over a run, as pure functions of the inputs. */
module Frames {
  import opened Events
  import opened Propagation

  /** The controller's two flags: m_Running and m_Minimized. */
  datatype Flags = Flags(running: bool, minimized: bool)

  /** The effect of the window handlers on the flags: a close clears running; a resize sets
      minimized exactly when one of its dimensions is zero; other events leave both alone. */
  function AfterEvent(f: Flags, kind: EventKind): Flags
  {
    match kind
    case WindowClose => f.(running := false)
    case WindowResize(width, height) => f.(minimized := width == 0 || height == 0)
    case Other(_) => f
  }

  /** The event as the two dispatcher calls leave it, before any layer sees it: the close handler
      answers true, the resize handler answers false, and the dispatcher merges the answer. */
  function AfterHandlers(e: Event, merge: Merge): Event
  {
    match e.kind
    case WindowClose => e.(handled := merge(e.handled, true))
    case WindowResize(_, _) => e.(handled := merge(e.handled, false))
    case Other(_) => e
  }

  /** The renderer call a window handler makes: a resize with both dimensions non-zero is forwarded. */
  function HandlerCalls(kind: EventKind): seq<Call>
  {
    if kind.WindowResize? && kind.width != 0 && kind.height != 0
    then [RendererResize(kind.width, kind.height)]
    else []
  }

  /** One OnEvent call per invoked layer, in the order given. */
  function LayerEventCalls(invoked: seq<LayerId>): seq<Call>
  {
    seq(|invoked|, k requires 0 <= k < |invoked| => LayerOnEvent(invoked[k]))
  }

  /** The walk Application::OnEvent starts once the window handlers have run. */
  function EventWalk(stack: seq<LayerId>, e: Event, merge: Merge, handler: LayerHandler): Outcome
  {
    Propagate(stack, AfterHandlers(e, merge), handler)
  }

  /** All calls of one Application::OnEvent: the handlers' renderer call, then the layers' OnEvent calls. */
  function EventCalls(stack: seq<LayerId>, e: Event, merge: Merge, handler: LayerHandler): seq<Call>
  {
    HandlerCalls(e.kind) + LayerEventCalls(EventWalk(stack, e, merge, handler).invoked)
  }

  /** The flags after a sequence of events, delivered first to last. */
  function FlagsAfter(f: Flags, events: seq<Event>): Flags
  {
    if events == [] then f else AfterEvent(FlagsAfter(f, events[..|events| - 1]), events[|events| - 1].kind)
  }

  /** The calls of a sequence of OnEvent calls, delivered first to last. */
  function PollCalls(stack: seq<LayerId>, events: seq<Event>, merge: Merge, handler: LayerHandler): seq<Call>
  {
    if events == [] then []
    else PollCalls(stack, events[..|events| - 1], merge, handler) + EventCalls(stack, events[|events| - 1], merge, handler)
  }

  predicate HasClose(events: seq<Event>)
  {
    exists i :: 0 <= i < |events| && events[i].kind.WindowClose?
  }

  /** Running survives a sequence of events exactly when it was set and none of them is a close. */
  lemma {:induction false} RunningAfterEvents(f: Flags, events: seq<Event>)
    ensures FlagsAfter(f, events).running <==> f.running && !HasClose(events)
  {
    if events != [] {
      var init := events[..|events| - 1];
      RunningAfterEvents(f, init);
      if HasClose(init) {
        var i :| 0 <= i < |init| && init[i].kind.WindowClose?;
        assert events[i] == init[i];
      }
      if HasClose(events) && !events[|events| - 1].kind.WindowClose? {
        var i :| 0 <= i < |events| && events[i].kind.WindowClose?;
        assert init[i] == events[i];
      }
    }
  }

  /** Without a resize among the events, minimized keeps its value. */
  lemma {:induction false} MinimizedWithoutResize(f: Flags, events: seq<Event>)
    requires forall i :: 0 <= i < |events| ==> !events[i].kind.WindowResize?
    ensures FlagsAfter(f, events).minimized == f.minimized
  {
    if events != [] {
      var init := events[..|events| - 1];
      assert forall i :: 0 <= i < |init| ==> init[i] == events[i];
      MinimizedWithoutResize(f, init);
    }
  }

  /** Minimized after a sequence of events is decided by the last resize among them:
      set exactly when that resize has a zero width or a zero height. */
  lemma {:induction false} MinimizedByLastResize(f: Flags, events: seq<Event>, i: nat)
    requires i < |events| && events[i].kind.WindowResize?
    requires forall j :: i < j < |events| ==> !events[j].kind.WindowResize?
    ensures FlagsAfter(f, events).minimized == (events[i].kind.width == 0 || events[i].kind.height == 0)
  {
    if i < |events| - 1 {
      var init := events[..|events| - 1];
      assert init[i] == events[i];
      assert forall j :: i < j < |init| ==> init[j] == events[j];
      MinimizedByLastResize(f, init, i);
    }
  }

  /** Everything the controller needs from the environment for one iteration of its main loop:
      the time step and the events the window delivers while it is updated. */
  datatype FrameInput = FrameInput(ts: TimeStep, polled: seq<Event>)

  /** One OnUpdate call per layer, front to back. */
  function UpdateCalls(layers: seq<LayerId>, ts: TimeStep): seq<Call>
  {
    seq(|layers|, i requires 0 <= i < |layers| => Update(layers[i], ts))
  }

  /** One OnImGuiRender call per layer, front to back. */
  function RenderCalls(layers: seq<LayerId>): seq<Call>
  {
    seq(|layers|, i requires 0 <= i < |layers| => ImGuiRender(layers[i]))
  }

  /** The calls of one loop iteration before the window update: updates unless minimized,
      then every layer's ImGui render between Begin and End. */
  function FrameBodyCalls(layers: seq<LayerId>, imGui: LayerId, minimized: bool, ts: TimeStep): seq<Call>
  {
    (if minimized then [] else UpdateCalls(layers, ts)) + [ImGuiBegin(imGui)] + RenderCalls(layers) + [ImGuiEnd(imGui)]
  }

  /** The calls of one whole loop iteration, the polled events' included. */
  function FrameCalls(layers: seq<LayerId>, imGui: LayerId, f: Flags, input: FrameInput, merge: Merge, handler: LayerHandler): seq<Call>
  {
    FrameBodyCalls(layers, imGui, f.minimized, input.ts) + PollCalls(layers, input.polled, merge, handler)
  }

  /** The shape of one frame: OnUpdate on every layer front to back exactly when not minimized,
      then Begin, OnImGuiRender on every layer front to back, End. */
  lemma FrameBodyOrder(layers: seq<LayerId>, imGui: LayerId, minimized: bool, ts: TimeStep)
    ensures var c := FrameBodyCalls(layers, imGui, minimized, ts);
            var u := if minimized then 0 else |layers|;
            |c| == u + |layers| + 2 &&
            (forall i :: 0 <= i < u ==> c[i] == Update(layers[i], ts)) &&
            c[u] == ImGuiBegin(imGui) &&
            (forall i :: 0 <= i < |layers| ==> c[u + 1 + i] == ImGuiRender(layers[i])) &&
            c[u + 1 + |layers|] == ImGuiEnd(imGui)
    ensures var c := FrameBodyCalls(layers, imGui, minimized, ts);
            (exists i :: 0 <= i < |c| && c[i].Update?) <==> !minimized && layers != []
  {
  }

  /** What a run of the main loop amounts to: how many iterations ran, the final flags and the calls. */
  datatype RunOutcome = RunOutcome(frames: nat, flags: Flags, calls: seq<Call>)

  /** The main loop: running is checked at the top of each iteration only, so the iteration whose
      events close the window still completes. The loop is fed one input per iteration and ends
      when the inputs run out. */
  function RunSpec(layers: seq<LayerId>, imGui: LayerId, f: Flags, inputs: seq<FrameInput>, merge: Merge, handler: LayerHandler): (r: RunOutcome)
    ensures r.frames <= |inputs|
    ensures !f.running ==> r == RunOutcome(0, f, [])
    ensures r.frames < |inputs| ==> !r.flags.running
    decreases |inputs|
  {
    if !f.running || inputs == [] then RunOutcome(0, f, [])
    else
      var rest := RunSpec(layers, imGui, FlagsAfter(f, inputs[0].polled), inputs[1..], merge, handler);
      RunOutcome(1 + rest.frames, rest.flags, FrameCalls(layers, imGui, f, inputs[0], merge, handler) + rest.calls)
  }

  /** One iteration of the main loop, taken from the inputs at position k on. */
  lemma RunSpecStep(layers: seq<LayerId>, imGui: LayerId, f: Flags, inputs: seq<FrameInput>, k: nat, merge: Merge, handler: LayerHandler)
    requires f.running && k < |inputs|
    ensures var rest := RunSpec(layers, imGui, FlagsAfter(f, inputs[k].polled), inputs[k + 1..], merge, handler);
            RunSpec(layers, imGui, f, inputs[k..], merge, handler) ==
              RunOutcome(1 + rest.frames, rest.flags, FrameCalls(layers, imGui, f, inputs[k], merge, handler) + rest.calls)
  {
    assert inputs[k..][1..] == inputs[k + 1..];
  }

  /** A close delivered during iteration k ends the run after that iteration, not before. */
  lemma {:induction false} RunStopsAfterCloseFrame(layers: seq<LayerId>, imGui: LayerId, f: Flags, inputs: seq<FrameInput>,
                                                  merge: Merge, handler: LayerHandler, k: nat)
    requires f.running
    requires k < |inputs| && HasClose(inputs[k].polled)
    requires forall j :: 0 <= j < k ==> !HasClose(inputs[j].polled)
    ensures RunSpec(layers, imGui, f, inputs, merge, handler).frames == k + 1
    decreases k
  {
    var g := FlagsAfter(f, inputs[0].polled);
    RunningAfterEvents(f, inputs[0].polled);
    if k == 0 {
      assert !g.running;
    } else {
      assert g.running;
      forall j | 0 <= j < k - 1 ensures !HasClose(inputs[1..][j].polled) {
        assert inputs[1..][j] == inputs[j + 1];
      }
      RunStopsAfterCloseFrame(layers, imGui, g, inputs[1..], merge, handler, k - 1);
    }
  }

  /** Without a close, a running loop consumes every input and is still running. */
  lemma {:induction false} RunAllFramesWithoutClose(layers: seq<LayerId>, imGui: LayerId, f: Flags, inputs: seq<FrameInput>,
                                                   merge: Merge, handler: LayerHandler)
    requires f.running
    requires forall j :: 0 <= j < |inputs| ==> !HasClose(inputs[j].polled)
    ensures RunSpec(layers, imGui, f, inputs, merge, handler).frames == |inputs|
    ensures RunSpec(layers, imGui, f, inputs, merge, handler).flags.running
    decreases |inputs|
  {
    if inputs != [] {
      RunningAfterEvents(f, inputs[0].polled);
      var g := FlagsAfter(f, inputs[0].polled);
      forall j | 0 <= j < |inputs| - 1 ensures !HasClose(inputs[1..][j].polled) {
        assert inputs[1..][j] == inputs[j + 1];
      }
      RunAllFramesWithoutClose(layers, imGui, g, inputs[1..], merge, handler);
    }
  }

  /** A zero-size resize as the last resize of a frame's events suspends the next frame's updates. */
  lemma NextFrameSkipsUpdates(layers: seq<LayerId>, imGui: LayerId, f: Flags, events: seq<Event>, i: nat, ts: TimeStep)
    requires i < |events| && events[i].kind.WindowResize?
    requires events[i].kind.width == 0 || events[i].kind.height == 0
    requires forall j :: i < j < |events| ==> !events[j].kind.WindowResize?
    ensures forall c :: c in FrameBodyCalls(layers, imGui, FlagsAfter(f, events).minimized, ts) ==> !c.Update?
  {
    MinimizedByLastResize(f, events, i);
  }

  /** Polled events make no OnUpdate call: their calls are renderer resizes and layer OnEvent calls. */
  lemma {:induction false} NoUpdateInPoll(stack: seq<LayerId>, events: seq<Event>, merge: Merge, handler: LayerHandler)
    ensures forall c :: c in PollCalls(stack, events, merge, handler) ==> !c.Update?
  {
    if events != [] {
      NoUpdateInPoll(stack, events[..|events| - 1], merge, handler);
    }
  }

  /** Zero-size resizes keep a minimized application minimized; only a resize with both dimensions
      non-zero restores it. */
  lemma {:induction false} StaysMinimized(f: Flags, events: seq<Event>)
    requires f.minimized
    requires forall i :: 0 <= i < |events| && events[i].kind.WindowResize? ==>
                         events[i].kind.width == 0 || events[i].kind.height == 0
    ensures FlagsAfter(f, events).minimized
  {
    if events != [] {
      var init := events[..|events| - 1];
      assert forall i :: 0 <= i < |init| ==> init[i] == events[i];
      StaysMinimized(f, init);
    }
  }

  /** Once minimized, the loop makes no OnUpdate call in any later iteration as long as every resize
      that arrives has a zero dimension: the updates stay suspended until a resize with both
      dimensions non-zero arrives. */
  lemma {:induction false} NoUpdatesWhileMinimized(layers: seq<LayerId>, imGui: LayerId, f: Flags, inputs: seq<FrameInput>,
                                                  merge: Merge, handler: LayerHandler)
    requires f.minimized
    requires forall j, i :: 0 <= j < |inputs| && 0 <= i < |inputs[j].polled| && inputs[j].polled[i].kind.WindowResize? ==>
                              inputs[j].polled[i].kind.width == 0 || inputs[j].polled[i].kind.height == 0
    ensures forall c :: c in RunSpec(layers, imGui, f, inputs, merge, handler).calls ==> !c.Update?
    decreases |inputs|
  {
    if f.running && inputs != [] {
      var g := FlagsAfter(f, inputs[0].polled);
      StaysMinimized(f, inputs[0].polled);
      NoUpdateInPoll(layers, inputs[0].polled, merge, handler);
      forall j, i | 0 <= j < |inputs| - 1 && 0 <= i < |inputs[1..][j].polled| && inputs[1..][j].polled[i].kind.WindowResize?
        ensures inputs[1..][j].polled[i].kind.width == 0 || inputs[1..][j].polled[i].kind.height == 0
      {
        assert inputs[1..][j] == inputs[j + 1];
      }
      NoUpdatesWhileMinimized(layers, imGui, g, inputs[1..], merge, handler);
    }
  }
}
