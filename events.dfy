/** Values that flow through the Hazel application controller. */
module Events {

  /** Identity of a layer object; the layer stack holds layer pointers, modelled by their identity. */
  type LayerId = nat

  /** The time step handed to OnUpdate. Its clock and float arithmetic are not modelled: it is an opaque value. */
  datatype TimeStep = TimeStep(seconds: real)

  /** The runtime kind of an event, as far as the application controller tells kinds apart. */
  datatype EventKind =
    | WindowClose
    | WindowResize(width: nat, height: nat)
    | Other(code: nat)

  /** An event together with its Handled flag, which handlers and layers update. */
  datatype Event = Event(kind: EventKind, handled: bool)

  /** How an EventDispatcher folds a handler's result into Handled:
      (Handled before the handler, the handler's result) to Handled after it. */
  type Merge = (bool, bool) -> bool

  /** A layer's OnEvent seen from outside: the Handled flag the event carries once that layer has seen it. */
  type LayerHandler = (LayerId, Event) -> bool

  /** One call the controller makes into a collaborator, in the order it makes them. */
  datatype Call =
    | StackPush(layer: LayerId, overlay: bool)
    | Attach(layer: LayerId)
    | LayerOnEvent(layer: LayerId)
    | Update(layer: LayerId, ts: TimeStep)
    | ImGuiBegin(layer: LayerId)
    | ImGuiRender(layer: LayerId)
    | ImGuiEnd(layer: LayerId)
    | RendererResize(width: nat, height: nat)
}
