/** The profile store: the signed-in user's profile with its favourite
    stores, a store profile, and the lists of orders and sales. Record ids
    and dates come from the clock; here they are parameters. */
module UserProfiles {
  import opened Wrappers
  import Seqs

  datatype UserProfile = UserProfile(id: int, name: string, email: string, userType: string,
                                     document: string, phone: Option<string>,
                                     address: Option<string>, favoriteStores: seq<int>)

  datatype StoreProfile = StoreProfile(id: int, name: string, description: string,
                                       address: string, phone: string, email: string,
                                       ownerId: int)

  datatype Status = Pending | Processing | Delivered | Cancelled

  datatype OrderLine = OrderLine(id: int, name: string, price: int, quantity: int)

  datatype Order = Order(id: int, userId: int, items: seq<OrderLine>, total: int,
                         status: Status, date: string)

  datatype Sale = Sale(id: int, storeId: int, orderId: int, total: int, date: string,
                       status: Status)

  /** An order or sale as submitted, before it gets its id and date. */
  datatype NewOrder = NewOrder(userId: int, items: seq<OrderLine>, total: int, status: Status)
  datatype NewSale = NewSale(storeId: int, orderId: int, total: int, status: Status)

  /** A store profile as submitted, before it gets its id and owner. */
  datatype NewStore = NewStore(name: string, description: string, address: string,
                               phone: string, email: string)

  /** The payload of the login event; the session's user record has no role
      or document, so those arrive as whatever the sender put there. */
  datatype LoginDetail = LoginDetail(id: int, name: string, email: string, userType: string,
                                     document: string)

  /** A partial profile: each supplied field overwrites, absent ones stay. */
  datatype UserPatch = UserPatch(id: Option<int>, name: Option<string>, email: Option<string>,
                                 userType: Option<string>, document: Option<string>,
                                 phone: Option<Option<string>>, address: Option<Option<string>>,
                                 favoriteStores: Option<seq<int>>)

  datatype StorePatch = StorePatch(id: Option<int>, name: Option<string>,
                                   description: Option<string>, address: Option<string>,
                                   phone: Option<string>, email: Option<string>,
                                   ownerId: Option<int>)

  const NoUserChange := UserPatch(None, None, None, None, None, None, None, None)

  function Pick<T>(update: Option<T>, current: T): T
  {
    if update.Some? then update.value else current
  }

  /** A merged field: the supplied value when the patch has one, the
      current value otherwise. */
  predicate Merged<T(==)>(update: Option<T>, current: T, merged: T)
  {
    (update.Some? ==> merged == update.value) && (update.None? ==> merged == current)
  }

  /** The spread `{ ...profile, ...patch }`: each field the patch supplies
      overrides, every other field is kept. */
  function MergeUser(p: UserProfile, patch: UserPatch): (r: UserProfile)
    ensures Merged(patch.id, p.id, r.id) && Merged(patch.name, p.name, r.name)
    ensures Merged(patch.email, p.email, r.email)
    ensures Merged(patch.userType, p.userType, r.userType)
    ensures Merged(patch.document, p.document, r.document)
    ensures Merged(patch.phone, p.phone, r.phone) && Merged(patch.address, p.address, r.address)
    ensures Merged(patch.favoriteStores, p.favoriteStores, r.favoriteStores)
  {
    UserProfile(Pick(patch.id, p.id), Pick(patch.name, p.name), Pick(patch.email, p.email),
                Pick(patch.userType, p.userType), Pick(patch.document, p.document),
                Pick(patch.phone, p.phone), Pick(patch.address, p.address),
                Pick(patch.favoriteStores, p.favoriteStores))
  }

  /** A merge that supplies nothing changes nothing, and applying the same
      partial profile twice is the same as applying it once. */
  lemma MergeUserLaws(p: UserProfile, patch: UserPatch)
    ensures MergeUser(p, NoUserChange) == p
    ensures MergeUser(MergeUser(p, patch), patch) == MergeUser(p, patch)
  {
  }

  /** The spread `{ ...storeProfile, ...patch }`. */
  function MergeStore(s: StoreProfile, patch: StorePatch): (r: StoreProfile)
    ensures Merged(patch.id, s.id, r.id) && Merged(patch.name, s.name, r.name)
    ensures Merged(patch.description, s.description, r.description)
    ensures Merged(patch.address, s.address, r.address)
    ensures Merged(patch.phone, s.phone, r.phone) && Merged(patch.email, s.email, r.email)
    ensures Merged(patch.ownerId, s.ownerId, r.ownerId)
  {
    StoreProfile(Pick(patch.id, s.id), Pick(patch.name, s.name),
                 Pick(patch.description, s.description), Pick(patch.address, s.address),
                 Pick(patch.phone, s.phone), Pick(patch.email, s.email),
                 Pick(patch.ownerId, s.ownerId))
  }

  lemma MergeStoreLaws(s: StoreProfile, patch: StorePatch)
    ensures MergeStore(s, StorePatch(None, None, None, None, None, None, None)) == s
    ensures MergeStore(MergeStore(s, patch), patch) == MergeStore(s, patch)
  {
  }

  /** `userProfile?.id || 1`: the profile's id, unless there is no profile
      or the id is 0. */
  function OwnerFor(profile: Option<UserProfile>): (r: int)
    ensures r != 0
    ensures profile.Some? && profile.value.id != 0 ==> r == profile.value.id
    ensures profile.None? || profile.value.id == 0 ==> r == 1
  {
    if profile.Some? && profile.value.id != 0 then profile.value.id else 1
  }

  /** Append with no de-duplication. */
  function WithFavorite(favs: seq<int>, storeId: int): (r: seq<int>)
    ensures |r| == |favs| + 1 && r[..|favs|] == favs && r[|favs|] == storeId
  {
    favs + [storeId]
  }

  function OtherStore(storeId: int): int -> bool
  {
    (id: int) => id != storeId
  }

  /** Every occurrence of `storeId` removed, the rest kept in order. */
  function WithoutFavorite(favs: seq<int>, storeId: int): (r: seq<int>)
    ensures storeId !in r
    ensures forall id :: id in r <==> id in favs && id != storeId
    ensures storeId in favs ==> |r| < |favs|
  {
    Seqs.Filter(OtherStore(storeId), favs)
  }

  lemma WithoutFavoriteKeepsOrder(favs: seq<int>, storeId: int)
    ensures Seqs.SubsequenceOf(WithoutFavorite(favs, storeId), favs)
  {
    Seqs.FilterIsSubsequence(OtherStore(storeId), favs);
  }

  /** Marking a store that is not yet a favourite and then unmarking it gives
      back the list as it was. */
  lemma AddThenRemoveFavorite(favs: seq<int>, storeId: int)
    requires storeId !in favs
    ensures WithoutFavorite(WithFavorite(favs, storeId), storeId) == favs
  {
    var keep := OtherStore(storeId);
    Seqs.FilterConcat(keep, favs, [storeId]);
    Seqs.FilterKeepsAll(keep, favs);
    assert [storeId][1..] == [];
  }

  class ProfileState {
    var userProfile: Option<UserProfile>
    var storeProfile: Option<StoreProfile>
    var orders: seq<Order>
    var sales: seq<Sale>

    constructor ()
      ensures userProfile == None && storeProfile == None && orders == [] && sales == []
    {
      userProfile, storeProfile, orders, sales := None, None, [], [];
    }

    /** The login event handler: a profile with no favourites is created
        only when there is none yet. */
    method OnUserLoggedIn(detail: Option<LoginDetail>)
      modifies this
      ensures detail.Some? && old(userProfile).None? ==>
        var d := detail.value;
        userProfile == Some(UserProfile(d.id, d.name, d.email, d.userType, d.document,
                                        None, None, []))
      ensures detail.None? || old(userProfile).Some? ==> userProfile == old(userProfile)
      ensures storeProfile == old(storeProfile) && orders == old(orders) && sales == old(sales)
    {
      if detail.Some? && userProfile.None? {
        var d := detail.value;
        userProfile := Some(UserProfile(d.id, d.name, d.email, d.userType, d.document,
                                        None, None, []));
      }
    }

    method UpdateUserProfile(patch: UserPatch)
      modifies this
      ensures userProfile == if old(userProfile).None? then None
                             else Some(MergeUser(old(userProfile).value, patch))
      ensures storeProfile == old(storeProfile) && orders == old(orders) && sales == old(sales)
    {
      if userProfile.Some? {
        userProfile := Some(MergeUser(userProfile.value, patch));
      }
    }

    /** The new store gets the clock value `now` as id and the profile's id
        (or 1) as owner. */
    method CreateStoreProfile(store: NewStore, now: int)
      modifies this
      ensures storeProfile == Some(StoreProfile(now, store.name, store.description, store.address,
                                                store.phone, store.email, OwnerFor(userProfile)))
      ensures userProfile == old(userProfile) && orders == old(orders) && sales == old(sales)
    {
      storeProfile := Some(StoreProfile(now, store.name, store.description, store.address,
                                        store.phone, store.email, OwnerFor(userProfile)));
    }

    method UpdateStoreProfile(patch: StorePatch)
      modifies this
      ensures storeProfile == if old(storeProfile).None? then None
                              else Some(MergeStore(old(storeProfile).value, patch))
      ensures userProfile == old(userProfile) && orders == old(orders) && sales == old(sales)
    {
      if storeProfile.Some? {
        storeProfile := Some(MergeStore(storeProfile.value, patch));
      }
    }

    method AddFavoriteStore(storeId: int)
      modifies this
      ensures old(userProfile).None? ==> userProfile == None
      ensures old(userProfile).Some? ==>
        var p := old(userProfile).value;
        userProfile == Some(p.(favoriteStores := WithFavorite(p.favoriteStores, storeId)))
      ensures storeProfile == old(storeProfile) && orders == old(orders) && sales == old(sales)
    {
      if userProfile.Some? {
        var p := userProfile.value;
        userProfile := Some(p.(favoriteStores := WithFavorite(p.favoriteStores, storeId)));
      }
    }

    method RemoveFavoriteStore(storeId: int)
      modifies this
      ensures old(userProfile).None? ==> userProfile == None
      ensures old(userProfile).Some? ==>
        var p := old(userProfile).value;
        userProfile == Some(p.(favoriteStores := WithoutFavorite(p.favoriteStores, storeId)))
      ensures storeProfile == old(storeProfile) && orders == old(orders) && sales == old(sales)
    {
      if userProfile.Some? {
        var p := userProfile.value;
        userProfile := Some(p.(favoriteStores := WithoutFavorite(p.favoriteStores, storeId)));
      }
    }

    /** Records an order with the clock value `now` as id and `date` as its
        timestamp. */
    method AddOrder(order: NewOrder, now: int, date: string)
      modifies this
      ensures |orders| == |old(orders)| + 1 && orders[..|old(orders)|] == old(orders)
      ensures orders[|old(orders)|] == Order(now, order.userId, order.items, order.total,
                                             order.status, date)
      ensures userProfile == old(userProfile) && storeProfile == old(storeProfile)
      ensures sales == old(sales)
    {
      orders := orders + [Order(now, order.userId, order.items, order.total, order.status, date)];
    }

    method AddSale(sale: NewSale, now: int, date: string)
      modifies this
      ensures |sales| == |old(sales)| + 1 && sales[..|old(sales)|] == old(sales)
      ensures sales[|old(sales)|] == Sale(now, sale.storeId, sale.orderId, sale.total, date,
                                          sale.status)
      ensures userProfile == old(userProfile) && storeProfile == old(storeProfile)
      ensures orders == old(orders)
    {
      sales := sales + [Sale(now, sale.storeId, sale.orderId, sale.total, date, sale.status)];
    }
  }
}
