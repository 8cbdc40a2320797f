/** The browser's `localStorage`, shared by the case-input page and the
    result page: a mutable map from keys to string values. */
module BrowserStorage {
  import opened Wrappers

  /** The key under which the case-input page leaves the submitted text. */
  const SubmittedCaseKey := "submittedCase"
  /** The key both pages clear on logout. */
  const CurrentUserKey := "currentUser"

  class Storage {
    var items: map<string, string>

    constructor (initial: map<string, string>)
      ensures items == initial
    {
      items := initial;
    }

    /** `localStorage.getItem(key)`, with `None` for `null`. */
    function GetItem(key: string): (r: Option<string>)
      reads this
      ensures r.Some? <==> key in items
      ensures r.Some? ==> r.value == items[key]
    {
      if key in items then Some(items[key]) else None
    }

    /** `localStorage.setItem(key, value)`. */
    method SetItem(key: string, value: string)
      modifies this
      ensures items == old(items)[key := value]
    {
      items := items[key := value];
    }

    /** `localStorage.removeItem(key)`: removing a missing key does nothing. */
    method RemoveItem(key: string)
      modifies this
      ensures items == old(items) - {key}
    {
      items := items - {key};
    }
  }
}
