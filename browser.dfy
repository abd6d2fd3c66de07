/** What the client components observe of the browser and of the calls they
    await: the local storage, the notices they show (toasts and alerts), and the
    outcome of an awaited request, which the model takes as a parameter. */
module Browser {
  import opened Js
  import Api

  /** The key under which the sign-in page stores the token. */
  const USER_TOKEN := "userToken"

  /** A notice shown to the user: a success or error toast, or an `alert`. */
  datatype Notice = SuccessToast(text: string) | ErrorToast(text: string) | Alert(text: string)

  /** The outcome of an awaited call whose resolved value is not used. A
      rejection carries the thrown error's `message`; "" stands for a falsy one. */
  datatype Call = Resolved | Rejected(message: string)

  /** The outcome of an awaited call whose `res.data` is used: `Loaded(None)`
      when the resolved body has no `data`. A rejection, including the TypeError
      of reading `data` from a `null` result, is `LoadFailed`. */
  datatype Fetch<+T> = Loaded(data: Option<T>) | LoadFailed

  /** A request that was issued, with the value of the component's `loading`
      flag while the request is in flight. */
  datatype Sent = Sent(request: Api.Request, loading: bool)

  /** `getItem(key)` on storage holding `items`: None stands for `null`. */
  function Lookup(items: map<string, string>, key: string): (v: Option<string>)
    ensures v.Some? <==> key in items
    ensures v.Some? ==> v.value == items[key]
  {
    if key in items then Some(items[key]) else None
  }

  /** `localStorage`: a string-to-string store shared by all components. */
  class LocalStorage {
    var items: map<string, string>

    constructor (items: map<string, string>)
      ensures this.items == items
    {
      this.items := items;
    }

    /** `getItem(key)`. */
    function Get(key: string): (v: Option<string>)
      reads this
      ensures v == Lookup(items, key)
    {
      Lookup(items, key)
    }

    /** `setItem(key, value)`: overwrites or adds `key`, nothing else changes. */
    method SetItem(key: string, value: string)
      modifies this
      ensures items == old(items)[key := value]
      ensures Get(key) == Some(value)
      ensures forall k :: k != key ==> Get(k) == old(Get(k))
    {
      items := items[key := value];
    }
  }
}
