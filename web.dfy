/**
 * The browser and library services the session code talks to, reduced to what
 * the code observes of them: `localStorage` as a string map, assignments to
 * `window.location.href`, `router.push` calls, toast notifications, and the
 * HTTP requests that leave the page.
 */
module Web {
  import opened Wrappers

  /** `window.localStorage`: string keys to string values. */
  class LocalStorage {
    var items: map<string, string>

    constructor(initial: map<string, string>)
      ensures items == initial
    {
      items := initial;
    }

    /** `localStorage.getItem(key)`: the stored value, or null. */
    function Get(key: string): (r: Option<string>)
      reads this
      ensures r.Some? <==> key in items
      ensures r.Some? ==> r.value == items[key]
    {
      if key in items then Some(items[key]) else None
    }

    /** `localStorage.setItem(key, value)`. */
    method Set(key: string, value: string)
      modifies this
      ensures items == old(items)[key := value]
    {
      items := items[key := value];
    }

    /** `localStorage.removeItem(key)`. */
    method Remove(key: string)
      modifies this
      ensures items == old(items) - {key}
    {
      items := items - {key};
    }
  }

  /** Every assignment to `window.location.href`, in order. */
  class Window {
    var hrefs: seq<string>

    constructor()
      ensures hrefs == []
    {
      hrefs := [];
    }

    method Assign(href: string)
      modifies this
      ensures hrefs == old(hrefs) + [href]
    {
      hrefs := hrefs + [href];
    }
  }

  /** Every `router.push(path)`, in order. */
  class Router {
    var pushes: seq<string>

    constructor()
      ensures pushes == []
    {
      pushes := [];
    }

    method Push(path: string)
      modifies this
      ensures pushes == old(pushes) + [path]
    {
      pushes := pushes + [path];
    }
  }

  /** A `toast.success`, `toast.error` or `toast.info` notification. */
  datatype Toast = Success(text: string) | Error(text: string) | Info(text: string)

  /** Every notification shown, in order. */
  class Toaster {
    var shown: seq<Toast>

    constructor()
      ensures shown == []
    {
      shown := [];
    }

    method Show(t: Toast)
      modifies this
      ensures shown == old(shown) + [t]
    {
      shown := shown + [t];
    }
  }

  datatype Verb = Get | Post | Put

  /**
   * One HTTP request as it leaves the page: the `Authorization` header it carries,
   * and whether it went through the intercepted `api` instance or bare `axios`.
   */
  datatype Call = Call(verb: Verb, url: string, authorization: Option<string>, intercepted: bool)

  /** Every request sent, in order. */
  class Network {
    var sent: seq<Call>

    constructor()
      ensures sent == []
    {
      sent := [];
    }

    method Send(c: Call)
      modifies this
      ensures sent == old(sent) + [c]
    {
      sent := sent + [c];
    }
  }
}
