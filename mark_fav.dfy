/**
  The heart button of components/MarkFav.jsx: a local copy of the user's
  favourites, fetched once per component instance, toggled optimistically and
  rolled back when the write fails.
 */
module MarkFav {
  import opened Js
  import opened Identity
  import opened Shared

  /** `favorites.includes(petId)`. */
  predicate IsFav(favorites: seq<string>, petId: string) {
    petId in favorites
  }

  /** `favorites.filter(id => id !== petId)`. */
  function RemoveAll(s: seq<string>, x: string): (r: seq<string>)
    ensures x !in r
    ensures forall y :: y != x ==> multiset(r)[y] == multiset(s)[y]
  {
    if s == [] then []
    else
      assert s == [s[0]] + s[1..];
      if s[0] == x then RemoveAll(s[1..], x) else [s[0]] + RemoveAll(s[1..], x)
  }

  /** Filtering works element by element, so the kept ids stay in their original order. */
  lemma {:induction false} RemoveAllAppend(a: seq<string>, b: seq<string>, x: string)
    ensures RemoveAll(a + b, x) == RemoveAll(a, x) + RemoveAll(b, x)
  {
    if a == [] {
      assert a + b == b;
    } else {
      assert (a + b)[0] == a[0];
      assert (a + b)[1..] == a[1..] + b;
      RemoveAllAppend(a[1..], b, x);
    }
  }

  /** Removing an id that is not in the list changes nothing. */
  lemma {:induction false} RemoveAllAbsent(s: seq<string>, x: string)
    requires x !in s
    ensures RemoveAll(s, x) == s
  {
    if s != [] {
      RemoveAllAbsent(s[1..], x);
    }
  }

  /** The list `toggleFav` computes: remove every occurrence of a favourite, else append it. */
  function Toggled(favorites: seq<string>, petId: string): (r: seq<string>)
    ensures IsFav(r, petId) <==> !IsFav(favorites, petId)
    ensures forall y :: y != petId ==> multiset(r)[y] == multiset(favorites)[y]
    ensures !IsFav(favorites, petId) ==> r == favorites + [petId]
  {
    if IsFav(favorites, petId) then RemoveAll(favorites, petId) else favorites + [petId]
  }

  /** Toggling an id that is not a favourite twice restores the original list. */
  lemma AddThenRemoveRestores(favorites: seq<string>, petId: string)
    requires !IsFav(favorites, petId)
    ensures Toggled(Toggled(favorites, petId), petId) == favorites
  {
    RemoveAllAppend(favorites, [petId], petId);
    RemoveAllAbsent(favorites, petId);
  }

  /** Toggling a favourite twice leaves it once, at the end, after the other ids in their order. */
  lemma RemoveThenAdd(favorites: seq<string>, petId: string)
    requires IsFav(favorites, petId)
    ensures Toggled(Toggled(favorites, petId), petId) == RemoveAll(favorites, petId) + [petId]
  {
  }

  /** `res?.favorites ?? []`, with `None` for a fetch that threw. */
  function FetchedFavorites(res: Option<FavDoc>): (r: seq<string>)
    ensures res.Some? && res.value.favorites.Some? ==> r == res.value.favorites.value
    ensures res.None? || res.value.favorites.None? ==> r == []
  {
    match res
    case None => []
    case Some(d) => if d.favorites.Some? then d.favorites.value else []
  }

  /** `user?.id`, the dependency of the mount effect. */
  function UserId(user: Option<User>): Option<string> {
    if user.Some? then Some(user.value.id) else None
  }

  /** One mounted `MarkFav` component. */
  class FavButton {
    /** The `useUser()` value of the latest render. */
    var user: Option<User>
    const petId: Option<string>
    var favorites: seq<string>
    /** The `hasFetched` ref. */
    var hasFetched: bool

    constructor (user: Option<User>, petId: Option<string>)
      ensures this.user == user && this.petId == petId
      ensures favorites == [] && !hasFetched
    {
      this.user := user;
      this.petId := petId;
      favorites := [];
      hasFetched := false;
    }

    /** Without a user or a pet id the component renders nothing, so there is no button to press. */
    predicate Rendered()
      reads this
    {
      user.Some? && Truthy(petId)
    }

    /**
      A render with a new `useUser()` value. The method answers whether the
      mount effect runs again, which it does when `user?.id` changed; the effect
      itself is `FetchFavorites`.
     */
    method SetUser(u: Option<User>) returns (rerun: bool)
      modifies this
      ensures user == u && favorites == old(favorites) && hasFetched == old(hasFetched)
      ensures rerun <==> UserId(old(user)) != UserId(u)
    {
      rerun := UserId(user) != UserId(u);
      user := u;
    }

    /** The heart is filled. */
    predicate ShowsFav()
      reads this
      requires Rendered()
    {
      IsFav(favorites, petId.value)
    }

    /** The local list is the one stored for the user's email. */
    predicate Synced(store: FavStore)
      reads this, store
    {
      var email := GetEmail(user);
      Truthy(email) ==> email.value in store.docs && store.docs[email.value].favorites == Some(favorites)
    }

    /** The mount effect: fetch the list once; a failed fetch leaves it empty. */
    method FetchFavorites(store: FavStore, fetchOk: bool)
      modifies this, store
      ensures user == old(user)
      ensures old(user.None? || hasFetched) ==>
                favorites == old(favorites) && hasFetched == old(hasFetched) &&
                store.docs == old(store.docs) && store.writes == old(store.writes)
      ensures !old(user.None? || hasFetched) ==> hasFetched
      ensures !old(user.None? || hasFetched) && fetchOk ==>
                var s := GetFavListSpec(old(store.docs), user);
                favorites == FetchedFavorites(Some(s.result)) && store.docs == s.docs
      ensures !old(user.None? || hasFetched) && !fetchOk ==>
                favorites == [] && store.docs == old(store.docs)
      ensures !old(user.None? || hasFetched) && fetchOk &&
              (var e := GetEmail(user); Truthy(e) && e.value in old(store.docs) ==> old(store.docs)[e.value].favorites.Some?) ==>
                Synced(store)
    {
      if user.None? || hasFetched {
        return;
      }
      hasFetched := true;
      if fetchOk {
        var res := store.GetFavList(user);
        favorites := FetchedFavorites(Some(res));
      } else {
        favorites := FetchedFavorites(None);
      }
    }

    /** `toggleFav`: update the local list, write it, and restore the old list if the write fails. */
    method ToggleFav(store: FavStore, writeOk: bool)
      requires Rendered()
      modifies this, store
      ensures user == old(user) && hasFetched == old(hasFetched)
      ensures writeOk ==> ShowsFav() == !old(ShowsFav())
      ensures !writeOk ==> ShowsFav() == old(ShowsFav())
      ensures writeOk ==>
                favorites == Toggled(old(favorites), petId.value) &&
                store.docs == UpdateFavSpec(old(store.docs), user, favorites)
      ensures !writeOk ==> favorites == old(favorites) && store.docs == old(store.docs)
      ensures old(Synced(store)) ==> Synced(store)
    {
      var previous := favorites;
      var updated := Toggled(favorites, petId.value);
      favorites := updated;
      if writeOk {
        store.UpdateFav(user, updated);
      } else {
        favorites := previous;
      }
    }
  }
}
