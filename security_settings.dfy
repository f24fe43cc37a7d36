/**
 * The security settings handler's guard: a public-wiki-only installation may
 * neither turn on Basic authentication nor switch guests to "Deny".
 */
module SecuritySettings {
  import opened Wrappers
  import opened ApiResponses

  const BASIC_AUTH_UNAVAILABLE: string := "Public Wikiのため、Basic認証は利用できません。"
  const PRIVATE_WIKI_UNAVAILABLE: string := "Private Wikiへの設定変更はできません。"

  function Lookup(form: map<string, string>, key: string): Option<string> {
    if key in form then Some(form[key]) else None
  }

  /** JavaScript's `value != ''`: an absent field (`undefined`) also differs from ''. */
  predicate DiffersFromEmpty(value: Option<string>) {
    value != Some("")
  }

  /** The form asks for Basic authentication: a name or a secret other than ''. */
  predicate RequestsBasicAuth(form: map<string, string>) {
    DiffersFromEmpty(Lookup(form, "security:basicName")) || DiffersFromEmpty(Lookup(form, "security:basicSecret"))
  }

  /** The form turns guest access to "Deny", i.e. makes the wiki private. */
  predicate DeniesGuests(form: map<string, string>) {
    Lookup(form, "security:restrictGuestMode") == Some("Deny")
  }

  /** What securitySetting does with the submitted form: save it, or answer with an error. */
  datatype Decision = Save | Reject(response: ApiResponse)

  /**
   * securitySetting. On a public-wiki-only installation a Basic
   * authentication request, and then a switch to "Deny", are refused with
   * their own message appended to the validator's; otherwise the validator's
   * verdict decides. The form is saved exactly when it is valid and, on a
   * public-wiki-only installation, requests neither.
   */
  function SecuritySetting(isPublicWikiOnly: bool, form: map<string, string>, isValid: bool, errors: seq<string>): (d: Decision)
    ensures d.Save? <==> isValid && (isPublicWikiOnly ==> !RequestsBasicAuth(form) && !DeniesGuests(form))
    ensures isPublicWikiOnly && RequestsBasicAuth(form) ==>
      d == Reject(Rejected(errors + [BASIC_AUTH_UNAVAILABLE]))
    ensures isPublicWikiOnly && !RequestsBasicAuth(form) && DeniesGuests(form) ==>
      d == Reject(Rejected(errors + [PRIVATE_WIKI_UNAVAILABLE]))
    ensures !isValid && !(isPublicWikiOnly && (RequestsBasicAuth(form) || DeniesGuests(form))) ==>
      d == Reject(Rejected(errors))
    ensures d.Reject? ==> !d.response.status
  {
    if isPublicWikiOnly && RequestsBasicAuth(form) then
      Reject(Rejected(errors + [BASIC_AUTH_UNAVAILABLE]))
    else if isPublicWikiOnly && DeniesGuests(form) then
      Reject(Rejected(errors + [PRIVATE_WIKI_UNAVAILABLE]))
    else if isValid then
      Save
    else
      Reject(Rejected(errors))
  }

  /** A public-wiki-only form that leaves out the Basic authentication fields is refused, since `undefined != ''`. */
  lemma MissingBasicFieldsRefused(isValid: bool, errors: seq<string>)
    ensures SecuritySetting(true, map[], isValid, errors).Reject?
  {
  }
}
