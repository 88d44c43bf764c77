/** The favourite-stores page: the registered stores read from storage, the
    favourites among them, and the heart button that toggles one. */
module FavoriteStores {
  import opened Wrappers
  import opened Storage
  import Seqs
  import opened UserProfiles

  /** The `freshmarket_store_profiles` key: an absent, empty or unparsable
      entry yields no stores. */
  function RegisteredStores(entry: Option<Entry<seq<StoreProfile>>>): (r: seq<StoreProfile>)
    ensures entry.Some? && entry.value.Parsed? ==> r == entry.value.value
    ensures !(entry.Some? && entry.value.Parsed?) ==> r == []
  {
    Restore(entry, [])
  }

  /** The favourite list after a toggle of `storeId`: a favourite is
      dropped everywhere it occurs, a non-favourite is appended. */
  function Toggled(favs: seq<int>, storeId: int): (r: seq<int>)
    ensures storeId in favs ==> storeId !in r && |r| < |favs|
    ensures storeId !in favs ==> r == favs + [storeId]
  {
    if storeId in favs then WithoutFavorite(favs, storeId) else WithFavorite(favs, storeId)
  }

  /** A toggle leaves the membership of every other store as it was. */
  lemma ToggleFlips(favs: seq<int>, storeId: int)
    ensures forall id :: id != storeId ==> (id in Toggled(favs, storeId) <==> id in favs)
  {
    if storeId !in favs {
      assert WithFavorite(favs, storeId)[|favs|] == storeId;
      forall id | id != storeId ensures id in Toggled(favs, storeId) <==> id in favs {
        assert Toggled(favs, storeId) == favs + [storeId];
      }
    }
  }

  /** Toggling a non-favourite twice gives back the exact list. */
  lemma ToggleTwice(favs: seq<int>, storeId: int)
    requires storeId !in favs
    ensures Toggled(Toggled(favs, storeId), storeId) == favs
  {
    assert Toggled(favs, storeId) == WithFavorite(favs, storeId);
    assert storeId in WithFavorite(favs, storeId) by {
      assert WithFavorite(favs, storeId)[|favs|] == storeId;
    }
    AddThenRemoveFavorite(favs, storeId);
  }

  /** The heart button: nothing without a profile, otherwise the store is
      unmarked when it is a favourite and marked when it is not. */
  method ToggleFavorite(profiles: ProfileState, storeId: int) returns (added: Option<bool>)
    modifies profiles
    ensures old(profiles.userProfile).None? ==> added == None && unchanged(profiles)
    ensures old(profiles.userProfile).Some? ==>
      var p := old(profiles.userProfile).value;
      && added == Some(storeId !in p.favoriteStores)
      && profiles.userProfile == Some(p.(favoriteStores := Toggled(p.favoriteStores, storeId)))
    ensures profiles.storeProfile == old(profiles.storeProfile)
    ensures profiles.orders == old(profiles.orders) && profiles.sales == old(profiles.sales)
  {
    if profiles.userProfile.None? {
      return None;
    }
    var isFavorite := storeId in profiles.userProfile.value.favoriteStores;
    if isFavorite {
      profiles.RemoveFavoriteStore(storeId);
      added := Some(false);
    } else {
      profiles.AddFavoriteStore(storeId);
      added := Some(true);
    }
  }

  function IsFavoriteOf(profile: Option<UserProfile>): StoreProfile -> bool
  {
    (s: StoreProfile) => profile.Some? && s.id in profile.value.favoriteStores
  }

  /** The favourites listed: the registered stores marked in the profile. */
  function ShownFavorites(stores: seq<StoreProfile>, profile: Option<UserProfile>): (r: seq<StoreProfile>)
    ensures forall k :: 0 <= k < |r| ==>
              r[k] in stores && profile.Some? && r[k].id in profile.value.favoriteStores
    ensures forall k :: (0 <= k < |stores| && profile.Some?
              && stores[k].id in profile.value.favoriteStores) ==> stores[k] in r
  {
    Seqs.Filter(IsFavoriteOf(profile), stores)
  }

  /** The favourites keep the registered order. */
  lemma ShownFavoritesInOrder(stores: seq<StoreProfile>, profile: Option<UserProfile>)
    ensures Seqs.SubsequenceOf(ShownFavorites(stores, profile), stores)
  {
    Seqs.FilterIsSubsequence(IsFavoriteOf(profile), stores);
  }
}
