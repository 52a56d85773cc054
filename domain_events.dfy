/** The domain events that entity transitions append to their event list (EntityDomainEvent.cs). */
module DomainEvents {

  datatype EventType = Created | Updated | Deleted | Restored | Locked

  /**
   * One `EntityDomainEvent<T>`: the entity's slug when the event was raised, `typeof(T).Name`,
   * the kind of transition and its state dictionary (only boolean entries occur in the code).
   * `OccurredOn` reads the clock on every access and is not part of the value.
   */
  datatype DomainEvent = DomainEvent(slug: string, entityName: string, eventType: EventType, state: seq<(string, bool)>)
}
