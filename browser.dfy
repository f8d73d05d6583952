/** The parts of the browser that the client mutates: `localStorage`,
    `window.location.href`, and the effects of `alert` and `console.error`
    recorded as logs. */
module Browser {
  import opened Values

  /** A snapshot of the browser state, used to state effects as values. */
  datatype BrowserState = BrowserState(
    storage: map<string, string>,
    location: string,
    alerts: seq<string>,
    errors: seq<string>)
  {
    /** `localStorage.getItem(key)` in this state. */
    function Item(key: string): (v: Option<string>)
      ensures v.Some? <==> key in storage
      ensures v.Some? ==> v.value == storage[key]
    {
      if key in storage then Some(storage[key]) else None
    }

    function Alerted(message: string): (t: BrowserState)
      ensures t.storage == storage && t.location == location && t.errors == errors
      ensures t.alerts == alerts + [message]
    {
      this.(alerts := alerts + [message])
    }
  }

  class BrowserEnv {
    var storage: map<string, string>
    var location: string
    var alerts: seq<string>
    var errors: seq<string>

    constructor (storage: map<string, string>, location: string)
      ensures this.storage == storage && this.location == location
      ensures alerts == [] && errors == []
    {
      this.storage := storage;
      this.location := location;
      alerts := [];
      errors := [];
    }

    function Snapshot(): BrowserState
      reads this
    {
      BrowserState(storage, location, alerts, errors)
    }

    /** `localStorage.getItem(key)`: null when the key is absent. */
    function GetItem(key: string): Option<string>
      reads this
    {
      Snapshot().Item(key)
    }

    method SetItem(key: string, value: string)
      modifies this
      ensures Snapshot() == old(Snapshot()).(storage := old(storage)[key := value])
    {
      storage := storage[key := value];
    }

    method RemoveItem(key: string)
      modifies this
      ensures Snapshot() == old(Snapshot()).(storage := old(storage) - {key})
    {
      storage := storage - {key};
    }

    method Alert(message: string)
      modifies this
      ensures Snapshot() == old(Snapshot()).Alerted(message)
    {
      alerts := alerts + [message];
    }

    method LogError(message: string)
      modifies this
      ensures Snapshot() == old(Snapshot()).(errors := old(errors) + [message])
    {
      errors := errors + [message];
    }

    /** `window.location.href = href`. */
    method Navigate(href: string)
      modifies this
      ensures Snapshot() == old(Snapshot()).(location := href)
    {
      location := href;
    }
  }
}
