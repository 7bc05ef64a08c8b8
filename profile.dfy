/** The profile page's own copy of the greeting-name helper. */
module Profile {
  import opened Wrappers
  import opened Text
  import Dashboard

  /** `getAdminName` as the profile page writes it: `"Admin"` for a null or
      empty email, otherwise `email.split('@')[0]` with its first character
      upper-cased. */
  function GetAdminName(email: Option<string>): string
  {
    if email == None || email.value == [] then "Admin"
    else ToUpper(CharAt(Split(email.value, '@')[0], 0)) + SliceFrom(Split(email.value, '@')[0], 1)
  }

  /** The profile copy greets every email exactly as the dashboard does. */
  lemma AgreesWithDashboard(email: Option<string>)
    ensures GetAdminName(email) == Dashboard.GetAdminName(email)
  {
  }

  /** The profile greeting: "Admin" for no email or an empty one; otherwise
      the text before the first `@`, capitalised, which is the whole email
      capitalised when there is no `@` and empty when the email starts with
      one. */
  lemma AdminNameCases(email: string, local: string)
    requires IsBeforeFirst(email, '@', local)
    ensures GetAdminName(None) == "Admin" && GetAdminName(Some([])) == "Admin"
    ensures email != [] ==> GetAdminName(Some(email)) == Dashboard.Capitalized(local)
    ensures email != [] && '@' !in email ==> GetAdminName(Some(email)) == [UpperChar(email[0])] + email[1..]
    ensures email != [] && email[0] == '@' ==> GetAdminName(Some(email)) == []
  {
    if email != [] {
      AgreesWithDashboard(Some(email));
      Dashboard.AdminNameIsCapitalizedLocalPart(email, local);
      if '@' !in email {
        Dashboard.AdminNameWithoutAt(email);
      }
      if email[0] == '@' {
        Dashboard.AdminNameLeadingAt(email);
      }
    }
  }
}
