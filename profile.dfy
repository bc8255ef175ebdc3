/** The signed-in user's profile and the profile that signing in creates. */
module Profile {

  /** The record kept for the signed-in user (UserProfile in types.ts). */
  datatype UserProfile = UserProfile(
    name: string,
    location: string,
    avatar: string,
    joinDate: string,
    phoneNumber: string)

  /** The location every new profile is given. */
  const DefaultLocation: string := "Pune, Maharashtra"

  /** The avatar service URL wraps the user's name between these two pieces. */
  const AvatarPrefix: string := "https://api.dicebear.com/7.x/avataaars/svg?seed="
  const AvatarSuffix: string := "&backgroundColor=d1fae5"

  /** The avatar URL derived from a name (the name is inserted verbatim, not URL-encoded). */
  function AvatarUrl(name: string): string
  {
    AvatarPrefix + name + AvatarSuffix
  }

  /** Two names give the same avatar URL only when they are the same name. */
  lemma AvatarUrlInjective(a: string, b: string)
    ensures AvatarUrl(a) == AvatarUrl(b) <==> a == b
  {
    if AvatarUrl(a) == AvatarUrl(b) {
      var p := |AvatarPrefix|;
      assert |a| == |b|;
      assert a == AvatarUrl(a)[p..p + |a|];
      assert b == AvatarUrl(b)[p..p + |b|];
    }
  }

  /** The profile created when a user signs in; the join date is the caller's
      reading of the clock. */
  function NewProfile(name: string, phoneNumber: string, joinDate: string): UserProfile
  {
    UserProfile(name, DefaultLocation, AvatarUrl(name), joinDate, phoneNumber)
  }
}
