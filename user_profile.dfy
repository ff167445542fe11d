/** The per-user record kept in user state once the intake completes. */
module Profiles {

  import opened Options

  /** The five string properties of the profile; a property still `null` is None. */
  datatype UserProfile = UserProfile(
    language: Option<string>,
    name: Option<string>,
    county: Option<string>,
    subcounty: Option<string>,
    ward: Option<string>)

  /** The profile `new UserProfile()` creates: every property `null`. */
  const EmptyProfile := UserProfile(None, None, None, None, None)
}
