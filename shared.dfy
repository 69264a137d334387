/**
  The favourites store of Shared/Shared.jsx: the `UserFavPet` collection, one
  document per email address, read with create-if-absent and updated with a
  merge write of the `favorites` field.
 */
module Shared {
  import opened Js
  import opened Identity

  /** `user?.primaryEmailAddress?.emailAddress`. */
  function GetEmail(user: Option<User>): (r: Option<string>)
    ensures r.Some? <==> user.Some? && user.value.primaryEmail.Some?
    ensures r.Some? ==> r.value == user.value.primaryEmail.value
  {
    match user
    case None => None
    case Some(u) => u.primaryEmail
  }

  /**
    A `UserFavPet` document. A document created by the merge write alone has no
    `email` field, and a document written by another client may lack `favorites`.
   */
  datatype FavDoc = FavDoc(email: Option<string>, favorites: Option<seq<string>>)

  /** The `{ favorites: [] }` object returned when nothing is stored. */
  const NoFavorites := FavDoc(None, Some([]))

  /** What `GetFavList` returns, the collection afterwards, and whether it wrote. */
  datatype FavRead = FavRead(result: FavDoc, docs: map<string, FavDoc>, wrote: bool)

  /** `GetFavList` on the collection `docs`. */
  function GetFavListSpec(docs: map<string, FavDoc>, user: Option<User>): (r: FavRead)
    ensures r.wrote <==> Truthy(GetEmail(user)) && GetEmail(user).value !in docs
    ensures !r.wrote ==> r.docs == docs
    ensures r.wrote ==> r.docs == docs[GetEmail(user).value := FavDoc(GetEmail(user), Some([]))]
    ensures Truthy(GetEmail(user)) ==> GetEmail(user).value in r.docs
    ensures forall k :: k in docs ==> k in r.docs && r.docs[k] == docs[k]
    ensures Truthy(GetEmail(user)) && GetEmail(user).value in docs ==> r.result == docs[GetEmail(user).value]
    ensures !(Truthy(GetEmail(user)) && GetEmail(user).value in docs) ==> r.result == NoFavorites
  {
    var email := GetEmail(user);
    if !Truthy(email) then FavRead(NoFavorites, docs, false)
    else if email.value in docs then FavRead(docs[email.value], docs, false)
    else FavRead(NoFavorites, docs[email.value := FavDoc(email, Some([]))], true)
  }

  /** `UpdateFav` on the collection `docs`: `setDoc(ref, { favorites }, { merge: true })`. */
  function UpdateFavSpec(docs: map<string, FavDoc>, user: Option<User>, favorites: seq<string>): (r: map<string, FavDoc>)
    ensures !Truthy(GetEmail(user)) ==> r == docs
    ensures Truthy(GetEmail(user)) ==>
              var e := GetEmail(user).value;
              && r.Keys == docs.Keys + {e}
              && r[e].favorites == Some(favorites)
              && r[e].email == (if e in docs then docs[e].email else None)
    ensures forall k :: k in docs && (!Truthy(GetEmail(user)) || k != GetEmail(user).value) ==> k in r && r[k] == docs[k]
  {
    var email := GetEmail(user);
    if !Truthy(email) then docs
    else if email.value in docs then docs[email.value := docs[email.value].(favorites := Some(favorites))]
    else docs[email.value := FavDoc(None, Some(favorites))]
  }

  /** Two successive reads for the same user write at most once, and agree on the favourites. */
  lemma GetFavListTwiceWritesOnce(docs: map<string, FavDoc>, user: Option<User>)
    ensures var first := GetFavListSpec(docs, user);
            var second := GetFavListSpec(first.docs, user);
            && !second.wrote
            && second.docs == first.docs
            && second.result.favorites == first.result.favorites
  {
  }

  /** A read after an update sees exactly the favourites written, and writes nothing. */
  lemma ReadAfterUpdate(docs: map<string, FavDoc>, user: Option<User>, favorites: seq<string>)
    requires Truthy(GetEmail(user))
    ensures var r := GetFavListSpec(UpdateFavSpec(docs, user, favorites), user);
            !r.wrote && r.result.favorites == Some(favorites)
  {
  }

  /** The merge write replaces the list wholesale: the last update wins, with no union. */
  lemma UpdateFavLastWriterWins(docs: map<string, FavDoc>, user: Option<User>, a: seq<string>, b: seq<string>)
    ensures UpdateFavSpec(UpdateFavSpec(docs, user, a), user, b) == UpdateFavSpec(docs, user, b)
  {
    var email := GetEmail(user);
    if Truthy(email) {
      var e := email.value;
      var left := UpdateFavSpec(UpdateFavSpec(docs, user, a), user, b);
      var right := UpdateFavSpec(docs, user, b);
      assert left.Keys == right.Keys;
      assert left[e] == right[e];
    }
  }

  /** Without a signed-in user with an email address neither operation touches the collection. */
  lemma WithoutEmailNothingStored(docs: map<string, FavDoc>, user: Option<User>, favorites: seq<string>)
    requires !Truthy(GetEmail(user))
    ensures GetFavListSpec(docs, user) == FavRead(NoFavorites, docs, false)
    ensures UpdateFavSpec(docs, user, favorites) == docs
  {
  }

  /**
    The record is keyed by the email address alone: an update is read back by
    every user with that address and changes nothing another address reads.
   */
  lemma FavoritesKeyedByEmail(docs: map<string, FavDoc>, writer: Option<User>, reader: Option<User>, favorites: seq<string>)
    requires Truthy(GetEmail(writer)) && Truthy(GetEmail(reader))
    ensures GetEmail(writer) == GetEmail(reader) ==>
              GetFavListSpec(UpdateFavSpec(docs, writer, favorites), reader).result.favorites == Some(favorites)
    ensures GetEmail(writer) != GetEmail(reader) ==>
              GetFavListSpec(UpdateFavSpec(docs, writer, favorites), reader).result == GetFavListSpec(docs, reader).result
  {
  }

  /** The favourites collection `UserFavPet`, updated in place. */
  class FavStore {
    var docs: map<string, FavDoc>
    /** The number of writes issued against the collection. */
    ghost var writes: nat

    constructor (docs: map<string, FavDoc>)
      ensures this.docs == docs && writes == 0
    {
      this.docs := docs;
      writes := 0;
    }

    /** Reads the user's record, creating an empty one when it is absent. */
    method GetFavList(user: Option<User>) returns (r: FavDoc)
      modifies this
      ensures var s := GetFavListSpec(old(docs), user);
              r == s.result && docs == s.docs && writes == old(writes) + (if s.wrote then 1 else 0)
    {
      var email := GetEmail(user);
      if !Truthy(email) {
        return NoFavorites;
      }
      if email.value in docs {
        return docs[email.value];
      }
      docs := docs[email.value := FavDoc(email, Some([]))];
      writes := writes + 1;
      return NoFavorites;
    }

    /** Replaces the user's `favorites` field, keeping the rest of the record. */
    method UpdateFav(user: Option<User>, favorites: seq<string>)
      modifies this
      ensures docs == UpdateFavSpec(old(docs), user, favorites)
      ensures writes == old(writes) + (if Truthy(GetEmail(user)) then 1 else 0)
    {
      var email := GetEmail(user);
      if !Truthy(email) {
        return;
      }
      var e := email.value;
      var merged := if e in docs then docs[e].(favorites := Some(favorites)) else FavDoc(None, Some(favorites));
      docs := docs[e := merged];
      writes := writes + 1;
    }
  }
}
