/**
 * The browser and router services the session logic talks to:
 * `window.localStorage`, `window.location.href`, and react-router's
 * `navigate`, whose calls are recorded in order.
 */
module Platform {
  import opened Wrappers

  /** `localStorage.getItem(key)`: the stored string, or null. */
  function GetItem(storage: map<string, string>, key: string): (r: Option<string>)
    ensures r.Some? <==> key in storage
    ensures r.Some? ==> r.value == storage[key]
  {
    if key in storage then Some(storage[key]) else None
  }

  /** The page's durable storage and its current address. */
  class Browser {
    var storage: map<string, string>
    var href: string

    constructor (storage: map<string, string>, href: string)
      ensures this.storage == storage && this.href == href
    {
      this.storage := storage;
      this.href := href;
    }

    /** `localStorage.setItem(key, value)`. */
    method SetItem(key: string, value: string)
      modifies this`storage
      ensures storage == old(storage)[key := value]
    {
      storage := storage[key := value];
    }

    /** `localStorage.removeItem(key)`; removing an absent key does nothing. */
    method RemoveItem(key: string)
      modifies this`storage
      ensures storage == old(storage) - {key}
    {
      storage := storage - {key};
    }
  }

  /** A router location: its path and the state the navigation that reached it carried. */
  datatype Location = Location(pathname: string, state: Option<RouteState>)

  /** The `state` object of a navigation; the guard stores the location it turned away in `from`. */
  datatype RouteState = RouteState(from: Option<Location>)

  /** One client-side navigation: target path, whether it replaces the history entry, and its state. */
  datatype Navigation = Navigation(to: string, replace: bool, state: Option<RouteState>)

  /** react-router's `navigate`, as the sequence of navigations requested so far. */
  class Router {
    var history: seq<Navigation>

    constructor ()
      ensures history == []
    {
      history := [];
    }

    method Navigate(to: string, replace: bool, state: Option<RouteState>)
      modifies this
      ensures history == old(history) + [Navigation(to, replace, state)]
    {
      history := history + [Navigation(to, replace, state)];
    }
  }
}
