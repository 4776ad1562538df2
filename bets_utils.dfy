/** The public projection of a user row attached to every published bet. */
module BetsUtils {
  import opened Common

  /** The five display fields a bet carries about its player. */
  datatype FormattedUser = FormattedUser(
    id: string,
    username: Option<string>,
    avatar: Option<string>,
    rank: string,
    anonymous: bool)

  const AnonymousName := "Anonymous"
  const AnonymousRank := "user"

  /** No row gives no user; an anonymous player is shown under a fixed name,
      without avatar and with the base rank, keeping only the id; anyone else
      is shown with their own display fields. Private fields never appear. */
  function FormatUser(user: Option<Profile>): (r: Option<FormattedUser>)
    ensures r.Some? <==> user.Some?
    ensures r.Some? ==> r.value.id == user.value.id && r.value.anonymous == user.value.anonymous
    ensures r.Some? && user.value.anonymous ==>
      r.value.username == Some(AnonymousName) && r.value.avatar.None? && r.value.rank == AnonymousRank
    ensures r.Some? && !user.value.anonymous ==>
      && r.value.username == user.value.username && r.value.avatar == user.value.avatar
      && r.value.rank == user.value.rank
  {
    match user
    case None => None
    case Some(u) =>
      if u.anonymous then Some(FormattedUser(u.id, Some(AnonymousName), None, AnonymousRank, true))
      else Some(FormattedUser(u.id, u.username, u.avatar, u.rank, u.anonymous))
  }

  /** Two anonymous rows with the same id are shown identically, whatever
      their names, avatars, ranks and balances. */
  lemma AnonymousIndistinguishable(a: Profile, b: Profile)
    requires a.anonymous && b.anonymous && a.id == b.id
    ensures FormatUser(Some(a)) == FormatUser(Some(b))
  {
  }

  /** The projection depends on the display fields only: rows differing in
      their private fields are shown identically. */
  lemma PrivateFieldsHidden(a: Profile, balance: Option<int>)
    ensures FormatUser(Some(a)) == FormatUser(Some(a.(balance := balance)))
  {
  }
}
