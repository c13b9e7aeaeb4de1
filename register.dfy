/// Membership events a discovery adapter or the health checker sends to the
/// dispatcher (internal/backend/register/register.go). The event type is the
/// source's string, so a value other than the two constants is representable.
module Register {

  const BackendAddedEvent := "add"
  const BackendRemovedEvent := "remove"

  datatype BackendEvent = BackendEvent(eventType: string, actor: string)

  function Added(actor: string): BackendEvent {
    BackendEvent(BackendAddedEvent, actor)
  }

  function Removed(actor: string): BackendEvent {
    BackendEvent(BackendRemovedEvent, actor)
  }
}
