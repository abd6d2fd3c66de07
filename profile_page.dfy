/** The profile page of src/app/user/page.tsx: on mount it loads the user and the
    saved addresses with the stored token; adding an address posts the form,
    clears it and refetches the list; removing one drops every address with that
    id from the list once the call resolves. `loading` ends low on every path
    that passes the token check. */
module ProfilePage {
  import opened Js
  import opened Browser
  import Api

  const PLEASE_LOG_IN := "Please log in."
  const PROFILE_FAILED := "Failed to load profile"
  const ADDRESSES_FAILED := "Failed to load addresses"
  const ADDRESS_ADDED := "Address added!"
  const ADD_FAILED := "Failed to add address"
  const ADDRESS_REMOVED := "Address removed!"
  const REMOVE_FAILED := "Failed to remove address"

  /** A saved address as the API returns it; `id` is its `_id`. */
  datatype Address = Address(id: string, name: string, details: string, phone: string, city: string)

  /** The profile shown on the page. */
  datatype User = User(name: string, email: Option<string>, phone: Option<string>)

  /** The form of a new address: four empty strings. */
  const EmptyForm := Api.AddressForm("", "", "", "")

  // ---------------------------------------------------------------------------
  // Removal: `prev.filter((addr) => addr._id !== id)`

  /** The addresses whose id differs from `id`, in their order: no address with
      the removed id is left, and the list does not grow. */
  function RemoveById(addrs: seq<Address>, id: string): (r: seq<Address>)
    ensures forall k :: 0 <= k < |r| ==> r[k].id != id
    ensures |r| <= |addrs|
  {
    if addrs == [] then []
    else (if addrs[0].id != id then [addrs[0]] else []) + RemoveById(addrs[1..], id)
  }

  /** An address survives exactly when it was there and its id differs. */
  lemma {:induction false} RemoveByIdMembers(addrs: seq<Address>, id: string, a: Address)
    ensures a in RemoveById(addrs, id) <==> a in addrs && a.id != id
  {
    if addrs != [] {
      RemoveByIdMembers(addrs[1..], id, a);
      assert addrs == [addrs[0]] + addrs[1..];
    }
  }

  /** Filtering distributes over concatenation, so the survivors keep their order. */
  lemma {:induction false} RemoveByIdConcat(xs: seq<Address>, ys: seq<Address>, id: string)
    ensures RemoveById(xs + ys, id) == RemoveById(xs, id) + RemoveById(ys, id)
  {
    if xs == [] {
      assert xs + ys == ys;
    } else {
      assert (xs + ys)[1..] == xs[1..] + ys;
      RemoveByIdConcat(xs[1..], ys, id);
    }
  }

  /** Removing an id no address has changes nothing. */
  lemma {:induction false} RemoveAbsentId(addrs: seq<Address>, id: string)
    requires forall k :: 0 <= k < |addrs| ==> addrs[k].id != id
    ensures RemoveById(addrs, id) == addrs
  {
    if addrs != [] {
      RemoveAbsentId(addrs[1..], id);
    }
  }

  /** Removing the same id twice is removing it once. */
  lemma {:induction false} RemoveByIdIdempotent(addrs: seq<Address>, id: string)
    ensures RemoveById(RemoveById(addrs, id), id) == RemoveById(addrs, id)
  {
    if addrs != [] {
      var head := if addrs[0].id != id then [addrs[0]] else [];
      RemoveByIdConcat(head, RemoveById(addrs[1..], id), id);
      RemoveByIdIdempotent(addrs[1..], id);
      if addrs[0].id != id {
        assert RemoveById(head, id) == head by {
          assert head[1..] == [];
        }
      }
    }
  }

  // ---------------------------------------------------------------------------
  // The page

  datatype State = State(
    loading: bool,
    user: Option<User>,
    addresses: seq<Address>,
    newAddress: Api.AddressForm,
    sent: seq<Sent>,
    notices: seq<Notice>)

  /** The state before the mount effect runs: loading, no user, no addresses. */
  const Initial := State(true, None, [], EmptyForm, [], [])

  /** The form has inputs for details and city only, so name and phone stay empty. */
  predicate FormInvariant(s: State) {
    s.newAddress.name == "" && s.newAddress.phone == ""
  }

  /** The mount effect, with the profile fetch applied before the address fetch. */
  function Mount(s: State, stored: Option<string>, profile: Fetch<User>, list: Fetch<seq<Address>>): (r: State)
    ensures !Present(stored) ==>
              r == s.(loading := false, notices := s.notices + [ErrorToast(PLEASE_LOG_IN)])
    ensures Present(stored) ==>
              r.sent == s.sent + [Sent(Api.GetUserProfile(stored.value), s.loading),
                                   Sent(Api.GetUserAddresses(stored.value), s.loading)]
    ensures Present(stored) && profile.Loaded? ==> r.user == profile.data
    ensures Present(stored) && list.Loaded? ==> r.addresses == list.data.GetOr([])
    ensures profile.LoadFailed? ==> r.user == s.user
    ensures list.LoadFailed? ==> r.addresses == s.addresses
    ensures !r.loading && r.newAddress == s.newAddress
  {
    if !Present(stored) then
      s.(loading := false, notices := s.notices + [ErrorToast(PLEASE_LOG_IN)])
    else
      var t := stored.value;
      var sent := s.sent + [Sent(Api.GetUserProfile(t), s.loading), Sent(Api.GetUserAddresses(t), s.loading)];
      var s1 := match profile
        case Loaded(u) => s.(user := u, sent := sent)
        case LoadFailed => s.(sent := sent, notices := s.notices + [ErrorToast(PROFILE_FAILED)]);
      match list
      case Loaded(d) => s1.(addresses := d.GetOr([]), loading := false)
      case LoadFailed => s1.(loading := false, notices := s1.notices + [ErrorToast(ADDRESSES_FAILED)])
  }

  /** handleAddAddress, on the outcome of the post and, when it resolves, of the refetch. */
  function AddAddress(s: State, stored: Option<string>, added: Call, refetched: Fetch<seq<Address>>): (r: State)
    ensures !Present(stored) ==> r == s
    // A resolved post clears the form and refetches; a rejected one keeps form and list.
    ensures Present(stored) && added.Resolved? ==>
              r.newAddress == EmptyForm
              && r.sent == s.sent + [Sent(Api.AddAddress(stored.value, s.newAddress), true),
                                      Sent(Api.GetUserAddresses(stored.value), true)]
              && r.addresses == (if refetched.Loaded? then refetched.data.GetOr([]) else s.addresses)
    ensures Present(stored) && added.Rejected? ==>
              r.newAddress == s.newAddress && r.addresses == s.addresses
              && r.sent == s.sent + [Sent(Api.AddAddress(stored.value, s.newAddress), true)]
              && r.notices == s.notices + [ErrorToast(ADD_FAILED)]
    ensures Present(stored) ==> !r.loading
    ensures r.user == s.user
  {
    if !Present(stored) then s
    else
      var t := stored.value;
      var posted := s.sent + [Sent(Api.AddAddress(t, s.newAddress), true)];
      match added
      case Rejected(_) =>
        s.(loading := false, sent := posted, notices := s.notices + [ErrorToast(ADD_FAILED)])
      case Resolved =>
        var cleared := s.(newAddress := EmptyForm, sent := posted + [Sent(Api.GetUserAddresses(t), true)],
                          notices := s.notices + [SuccessToast(ADDRESS_ADDED)]);
        match refetched
        case Loaded(d) => cleared.(addresses := d.GetOr([]), loading := false)
        case LoadFailed => cleared.(loading := false, notices := cleared.notices + [ErrorToast(ADD_FAILED)])
  }

  /** handleRemoveAddress(id), on the outcome of the delete call. */
  function RemoveAddress(s: State, stored: Option<string>, id: string, outcome: Call): (r: State)
    ensures !Present(stored) ==> r == s
    ensures Present(stored) ==>
              r.sent == s.sent + [Sent(Api.RemoveAddress(stored.value, id), true)] && !r.loading
    ensures Present(stored) && outcome.Resolved? ==>
              r.addresses == RemoveById(s.addresses, id)
              && r.notices == s.notices + [SuccessToast(ADDRESS_REMOVED)]
    ensures outcome.Rejected? ==> r.addresses == s.addresses
    ensures r.user == s.user && r.newAddress == s.newAddress
  {
    if !Present(stored) then s
    else
      var sent := s.sent + [Sent(Api.RemoveAddress(stored.value, id), true)];
      match outcome
      case Resolved =>
        s.(loading := false, sent := sent, addresses := RemoveById(s.addresses, id),
           notices := s.notices + [SuccessToast(ADDRESS_REMOVED)])
      case Rejected(_) =>
        s.(loading := false, sent := sent, notices := s.notices + [ErrorToast(REMOVE_FAILED)])
  }

  /** The details input: `setNewAddress({ ...newAddress, details: value })`. */
  function EditDetails(s: State, value: string): (r: State)
    ensures r.newAddress.details == value
    ensures r.newAddress.name == s.newAddress.name && r.newAddress.phone == s.newAddress.phone
    ensures r.newAddress.city == s.newAddress.city
    ensures r.(newAddress := s.newAddress) == s
  {
    s.(newAddress := s.newAddress.(details := value))
  }

  /** The city input: `setNewAddress({ ...newAddress, city: value })`. */
  function EditCity(s: State, value: string): (r: State)
    ensures r.newAddress.city == value
    ensures r.newAddress.name == s.newAddress.name && r.newAddress.phone == s.newAddress.phone
    ensures r.newAddress.details == s.newAddress.details
    ensures r.(newAddress := s.newAddress) == s
  {
    s.(newAddress := s.newAddress.(city := value))
  }

  /** Every handler keeps name and phone of the form empty, so every posted
      address has an empty name and phone. */
  lemma HandlersKeepFormInvariant(s: State, stored: Option<string>, profile: Fetch<User>,
                                  list: Fetch<seq<Address>>, added: Call, id: string, outcome: Call, value: string)
    requires FormInvariant(s)
    ensures FormInvariant(Mount(s, stored, profile, list))
    ensures FormInvariant(AddAddress(s, stored, added, list))
    ensures FormInvariant(RemoveAddress(s, stored, id, outcome))
    ensures FormInvariant(EditDetails(s, value)) && FormInvariant(EditCity(s, value))
  {
  }

  /** A successful removal followed by a second successful removal of the same
      id leaves the same list as one removal. */
  lemma RemoveTwiceIsRemoveOnce(s: State, stored: Option<string>, id: string)
    ensures RemoveAddress(RemoveAddress(s, stored, id, Resolved), stored, id, Resolved).addresses ==
            RemoveAddress(s, stored, id, Resolved).addresses
  {
    RemoveByIdIdempotent(s.addresses, id);
  }

  class Page {
    const storage: LocalStorage
    var loading: bool
    var user: Option<User>
    var addresses: seq<Address>
    var newAddress: Api.AddressForm
    var sent: seq<Sent>
    var notices: seq<Notice>

    function Snapshot(): State
      reads this
    {
      State(loading, user, addresses, newAddress, sent, notices)
    }

    predicate Valid()
      reads this
    {
      FormInvariant(Snapshot())
    }

    constructor (storage: LocalStorage)
      ensures this.storage == storage
      ensures Snapshot() == Initial && Valid()
    {
      this.storage := storage;
      loading := true;
      user := None;
      addresses := [];
      newAddress := EmptyForm;
      sent := [];
      notices := [];
    }

    /** The `useEffect` that runs once on mount. */
    method OnMount(profile: Fetch<User>, list: Fetch<seq<Address>>)
      requires Valid()
      modifies this
      ensures Valid()
      ensures Snapshot() == Mount(old(Snapshot()), storage.Get(USER_TOKEN), profile, list)
    {
      var token := storage.Get(USER_TOKEN);
      if !Present(token) {
        notices := notices + [ErrorToast(PLEASE_LOG_IN)];
        loading := false;
        return;
      }
      sent := sent + [Sent(Api.GetUserProfile(token.value), loading), Sent(Api.GetUserAddresses(token.value), loading)];
      match profile {
        case Loaded(u) =>
          user := u;
        case LoadFailed =>
          notices := notices + [ErrorToast(PROFILE_FAILED)];
      }
      match list {
        case Loaded(d) =>
          addresses := d.GetOr([]);
        case LoadFailed =>
          notices := notices + [ErrorToast(ADDRESSES_FAILED)];
      }
      loading := false;
    }

    method HandleAddAddress(added: Call, refetched: Fetch<seq<Address>>)
      requires Valid()
      modifies this
      ensures Valid()
      ensures Snapshot() == AddAddress(old(Snapshot()), storage.Get(USER_TOKEN), added, refetched)
    {
      var token := storage.Get(USER_TOKEN);
      if !Present(token) {
        return;
      }
      loading := true;
      sent := sent + [Sent(Api.AddAddress(token.value, newAddress), loading)];
      if added.Rejected? {
        notices := notices + [ErrorToast(ADD_FAILED)];
      } else {
        notices := notices + [SuccessToast(ADDRESS_ADDED)];
        newAddress := EmptyForm;
        sent := sent + [Sent(Api.GetUserAddresses(token.value), loading)];
        if refetched.Loaded? {
          addresses := refetched.data.GetOr([]);
        } else {
          notices := notices + [ErrorToast(ADD_FAILED)];
        }
      }
      loading := false;
    }

    method HandleRemoveAddress(id: string, outcome: Call)
      requires Valid()
      modifies this
      ensures Valid()
      ensures Snapshot() == RemoveAddress(old(Snapshot()), storage.Get(USER_TOKEN), id, outcome)
    {
      var token := storage.Get(USER_TOKEN);
      if !Present(token) {
        return;
      }
      loading := true;
      sent := sent + [Sent(Api.RemoveAddress(token.value, id), loading)];
      if outcome.Resolved? {
        notices := notices + [SuccessToast(ADDRESS_REMOVED)];
        addresses := RemoveById(addresses, id);
      } else {
        notices := notices + [ErrorToast(REMOVE_FAILED)];
      }
      loading := false;
    }

    method HandleDetailsChange(value: string)
      requires Valid()
      modifies this
      ensures Valid()
      ensures Snapshot() == EditDetails(old(Snapshot()), value)
    {
      newAddress := newAddress.(details := value);
    }

    method HandleCityChange(value: string)
      requires Valid()
      modifies this
      ensures Valid()
      ensures Snapshot() == EditCity(old(Snapshot()), value)
    {
      newAddress := newAddress.(city := value);
    }
  }
}
