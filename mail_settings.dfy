/** The SMTP transport options that validateMailSetting builds from the app settings form. */
module MailSettings {
  import opened Wrappers

  /** A form field's value: the binder may leave it a string or turn it into a number. */
  datatype FormValue = Text(text: string) | Number(number: int)

  /** JavaScript truthiness of a possibly absent field: '' and 0 are falsy, like `undefined`. */
  predicate Truthy(v: Option<FormValue>) {
    match v
    case None => false
    case Some(Text(t)) => t != ""
    case Some(Number(n)) => n != 0
  }

  datatype SmtpAuth = SmtpAuth(user: FormValue, pass: FormValue)

  /** `{host, port, auth?, secure?}`; an absent property is None. */
  datatype SmtpOption = SmtpOption(host: Option<FormValue>, port: Option<FormValue>, auth: Option<SmtpAuth>, secure: Option<bool>)

  function Field(form: map<string, FormValue>, key: string): Option<FormValue> {
    if key in form then Some(form[key]) else None
  }

  /**
   * The option object of validateMailSetting: host and port copied from the
   * form; `auth` exactly when both user and password are truthy, carrying them;
   * `secure: true` exactly when the port is the number 465 (strict equality, so
   * the string "465" does not count).
   */
  function SmtpOptions(form: map<string, FormValue>): (option: SmtpOption)
    ensures option.host == Field(form, "mail:smtpHost") && option.port == Field(form, "mail:smtpPort")
    ensures option.auth.Some? <==> Truthy(Field(form, "mail:smtpUser")) && Truthy(Field(form, "mail:smtpPassword"))
    ensures option.auth.Some? ==>
      option.auth.value == SmtpAuth(form["mail:smtpUser"], form["mail:smtpPassword"])
    ensures option.secure.Some? <==> option.port == Some(Number(465))
    ensures option.secure != Some(false)
  {
    var user := Field(form, "mail:smtpUser");
    var pass := Field(form, "mail:smtpPassword");
    var port := Field(form, "mail:smtpPort");
    SmtpOption(
      Field(form, "mail:smtpHost"),
      port,
      if Truthy(user) && Truthy(pass) then Some(SmtpAuth(user.value, pass.value)) else None,
      if port == Some(Number(465)) then Some(true) else None)
  }

  /** A port left as the string "465" does not make the connection secure. */
  lemma TextPortNotSecure(form: map<string, FormValue>)
    requires Field(form, "mail:smtpPort") == Some(Text("465"))
    ensures SmtpOptions(form).secure == None
  {
  }
}
