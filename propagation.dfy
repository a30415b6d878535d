/** The reverse walk of Application::OnEvent over the layer stack, as pure functions. */
module Propagation {
  import opened Events

  /** The stack read from the top (the end, last in iteration order) down to the bottom. */
  function TopDown(stack: seq<LayerId>): (r: seq<LayerId>)
    ensures |r| == |stack|
    ensures forall k :: 0 <= k < |r| ==> r[k] == stack[|stack| - 1 - k]
  {
    if stack == [] then [] else [stack[|stack| - 1]] + TopDown(stack[..|stack| - 1])
  }

  /** The layers a walk invoked, top first, and the event as the walk leaves it. */
  datatype Outcome = Outcome(invoked: seq<LayerId>, event: Event)

  /** The walk over the bottom i layers of the stack: from position i - 1 down, each layer sees
      the event; Handled is checked only after a layer's call, and the walk stops after the first
      layer that leaves it set. */
  function Walk(stack: seq<LayerId>, i: nat, e: Event, handler: LayerHandler): (r: Outcome)
    requires i <= |stack|
    ensures |r.invoked| <= i
    ensures i > 0 ==> |r.invoked| >= 1
    ensures r.event.kind == e.kind
    ensures |r.invoked| < i ==> r.event.handled
  {
    if i == 0 then Outcome([], e)
    else
      var seen := e.(handled := handler(stack[i - 1], e));
      if seen.handled then Outcome([stack[i - 1]], seen)
      else
        var rest := Walk(stack, i - 1, seen, handler);
        Outcome([stack[i - 1]] + rest.invoked, rest.event)
  }

  /** The walk over the whole stack, starting at its top. */
  function Propagate(stack: seq<LayerId>, e: Event, handler: LayerHandler): Outcome
  {
    Walk(stack, |stack|, e, handler)
  }

  /** The walk over the bottom i layers invokes them strictly from position i - 1 downwards,
      each position at most once. */
  lemma {:induction false} WalkOrder(stack: seq<LayerId>, i: nat, e: Event, handler: LayerHandler)
    requires i <= |stack|
    ensures forall k :: 0 <= k < |Walk(stack, i, e, handler).invoked| ==>
              Walk(stack, i, e, handler).invoked[k] == stack[i - 1 - k]
  {
    if i > 0 {
      var seen := e.(handled := handler(stack[i - 1], e));
      if !seen.handled {
        WalkOrder(stack, i - 1, seen, handler);
        var r := Walk(stack, i, e, handler).invoked;
        var rest := Walk(stack, i - 1, seen, handler).invoked;
        assert r == [stack[i - 1]] + rest;
        forall k | 0 < k < |r| ensures r[k] == stack[i - 1 - k] {
          assert r[k] == rest[k - 1];
          assert rest[k - 1] == stack[i - 1 - 1 - (k - 1)];
        }
      }
    }
  }

  /** The walk invokes a prefix of the stack read top down, never an empty one unless the stack
      is empty: the top layer is called even when the event arrives already handled. */
  lemma InvokesTopDownPrefix(stack: seq<LayerId>, e: Event, handler: LayerHandler)
    ensures var r := Propagate(stack, e, handler);
            r.invoked == TopDown(stack)[..|r.invoked|] &&
            (stack != [] ==> r.invoked != [] && r.invoked[0] == stack[|stack| - 1])
  {
    WalkOrder(stack, |stack|, e, handler);
    var r := Propagate(stack, e, handler);
    var td := TopDown(stack);
    assert |r.invoked| <= |td|;
    forall k | 0 <= k < |r.invoked| ensures r.invoked[k] == td[..|r.invoked|][k] {
      assert td[k] == stack[|stack| - 1 - k];
      assert r.invoked[k] == stack[|stack| - 1 - k];
    }
  }

  /** Reference semantics without the early exit: the Handled flag after each layer of the
      bottom i, top down, if every one of them were called in turn. */
  function Trail(stack: seq<LayerId>, i: nat, e: Event, handler: LayerHandler): (t: seq<bool>)
    requires i <= |stack|
    ensures |t| == i
  {
    if i == 0 then []
    else
      var seen := e.(handled := handler(stack[i - 1], e));
      [seen.handled] + Trail(stack, i - 1, seen, handler)
  }

  /** The walk invokes exactly the layers down to the first one after which Handled is set,
      and the event it returns carries that layer's verdict. */
  lemma {:induction false} WalkStopsAtFirstHandled(stack: seq<LayerId>, i: nat, e: Event, handler: LayerHandler)
    requires i <= |stack|
    ensures var r := Walk(stack, i, e, handler);
            var t := Trail(stack, i, e, handler);
            (forall j :: 0 <= j < |r.invoked| - 1 ==> !t[j]) &&
            (|r.invoked| < i ==> t[|r.invoked| - 1]) &&
            r.event.handled == (if i == 0 then e.handled else t[|r.invoked| - 1])
  {
    if i > 0 {
      var seen := e.(handled := handler(stack[i - 1], e));
      if !seen.handled {
        WalkStopsAtFirstHandled(stack, i - 1, seen, handler);
      }
    }
  }

  /** When no layer leaves the event handled, every layer is invoked exactly once, top down,
      and the event comes back unhandled. */
  lemma EveryLayerWhenNoneHandles(stack: seq<LayerId>, e: Event, handler: LayerHandler)
    requires forall j :: 0 <= j < |stack| ==> !Trail(stack, |stack|, e, handler)[j]
    ensures Propagate(stack, e, handler).invoked == TopDown(stack)
    ensures stack != [] ==> !Propagate(stack, e, handler).event.handled
  {
    WalkStopsAtFirstHandled(stack, |stack|, e, handler);
    InvokesTopDownPrefix(stack, e, handler);
  }
}
