/**
 * The registration screen: the five password requirements, the e-mail shape test and the
 * order of the checks `handleRegister` runs before and after the sign-up call.
 */
module Register {
  import opened Wrappers
  import opened JsText

  predicate IsUpper(c: char) { 'A' <= c <= 'Z' }
  predicate IsLower(c: char) { 'a' <= c <= 'z' }

  /** The character class `[!@#$%^&*(),.?":{}|<>]`. */
  predicate IsSymbol(c: char) {
    c in "!@#$%^&*(),.?\":{}|<>"
  }

  predicate HasUpper(s: string) { exists k | 0 <= k < |s| :: IsUpper(s[k]) }
  predicate HasLower(s: string) { exists k | 0 <= k < |s| :: IsLower(s[k]) }
  predicate HasDigit(s: string) { exists k | 0 <= k < |s| :: IsDigit(s[k]) }
  predicate HasSymbol(s: string) { exists k | 0 <= k < |s| :: IsSymbol(s[k]) }

  /** The five requirements shown under the password field, each as a tick or a cross. */
  datatype Requisitos = Requisitos(longitud: bool, mayuscula: bool, minuscula: bool, numero: bool, simbolo: bool)

  /** `validarPassword`: an empty field ticks none of the five requirements. */
  function ValidarPassword(pass: string): (r: Requisitos)
    ensures pass == "" ==> r == Requisitos(false, false, false, false, false)
  {
    Requisitos(|pass| >= 8, HasUpper(pass), HasLower(pass), HasDigit(pass), HasSymbol(pass))
  }

  /** Typing more characters never takes back a tick: every met requirement stays met. */
  lemma RequirementsKeptByTyping(pass: string, more: string)
    ensures var r, r' := ValidarPassword(pass), ValidarPassword(pass + more);
      (r.longitud ==> r'.longitud) && (r.mayuscula ==> r'.mayuscula) && (r.minuscula ==> r'.minuscula)
      && (r.numero ==> r'.numero) && (r.simbolo ==> r'.simbolo)
  {
    var w := pass + more;
    assert forall k | 0 <= k < |pass| :: w[k] == pass[k];
  }

  /** `Object.values(requisitos).every(Boolean)`. */
  function EsSegura(r: Requisitos): bool {
    r.longitud && r.mayuscula && r.minuscula && r.numero && r.simbolo
  }

  /** A password is secure exactly when it meets all five requirements. */
  lemma SecureIff(pass: string)
    ensures EsSegura(ValidarPassword(pass)) <==>
      |pass| >= 8 && HasUpper(pass) && HasLower(pass) && HasDigit(pass) && HasSymbol(pass)
  {
  }

  /** A password with one character of each kind and eight characters in all is secure. */
  lemma SecureExample()
    ensures EsSegura(ValidarPassword("Abcdef1!"))
    ensures !EsSegura(ValidarPassword("abcdef1!"))
  {
    var p := "Abcdef1!";
    assert IsUpper(p[0]) && IsLower(p[1]) && IsDigit(p[6]) && IsSymbol(p[7]);
    var q := "abcdef1!";
    assert forall k | 0 <= k < |q| :: !IsUpper(q[k]);
  }

  predicate NoSpace(s: string) {
    forall k | 0 <= k < |s| :: !IsSpace(s[k])
  }

  /**
   * `/\S+@\S+\.\S+/.test(email)`, unanchored: somewhere there is a non-space character, an
   * '@', one or more non-space characters, a '.', and another non-space character.
   */
  predicate ValidateEmail(email: string): (ok: bool)
    ensures ok ==> |email| >= 5 && '@' in email && '.' in email
  {
    exists at, dot | 0 < at < dot < |email| - 1 :: EmailAt(email, at, dot)
  }

  predicate EmailAt(email: string, at: int, dot: int)
    requires 0 < at < dot < |email| - 1
  {
    !IsSpace(email[at - 1]) && email[at] == '@' && at + 1 < dot
    && NoSpace(email[at + 1..dot]) && email[dot] == '.' && !IsSpace(email[dot + 1])
  }

  /** The test is a search: text around a valid address does not make it invalid. */
  lemma EmailUnanchored(email: string, before: string, after: string)
    requires ValidateEmail(email)
    ensures ValidateEmail(before + email + after)
  {
    var at, dot :| 0 < at < dot < |email| - 1 && EmailAt(email, at, dot);
    var w := before + email + after;
    var o := |before|;
    assert w[o + at + 1..o + dot] == email[at + 1..dot];
    assert EmailAt(w, o + at, o + dot);
  }

  /** Every accepted address has an '@' followed later by a '.'. */
  lemma EmailNeedsAtAndDot(email: string)
    requires ValidateEmail(email)
    ensures exists i, j | 0 <= i < j < |email| :: email[i] == '@' && email[j] == '.'
  {
    var at, dot :| 0 < at < dot < |email| - 1 && EmailAt(email, at, dot);
  }

  /** A plain address is accepted; one without a dot after the '@' is not. */
  lemma EmailExamples()
    ensures ValidateEmail("ana@mail.com")
    ensures !ValidateEmail("ana@mail")
  {
    var e := "ana@mail.com";
    assert e[4..8] == "mail";
    assert EmailAt(e, 3, 8);
    var f := "ana@mail";
    assert forall j | 0 <= j < |f| :: f[j] != '.';
  }

  /** An alert's title and message. */
  datatype Alert = Alert(title: string, message: string)

  /** The reply of `signUp`: its error message, if any, and the new user's id, if any. */
  datatype SignUpReply = SignUpReply(errorMessage: Option<string>, userId: Option<string>)

  /** What one tap on the register button did. */
  datatype RegisterEffects = RegisterEffects(
    signUp: Option<(string, string)>,
    alert: Option<Alert>,
    insertedUser: Option<(string, string)>,
    showMessage: bool)

  /** `handleRegister`, given what `signUp` would reply. */
  function HandleRegister(email: string, password: string, repeatPassword: string, reply: SignUpReply): (r: RegisterEffects)
    // The three local checks, in order; the first failure aborts before sign-up.
    ensures r.signUp.Some? <==>
      ValidateEmail(email) && EsSegura(ValidarPassword(password)) && password == repeatPassword
    ensures !ValidateEmail(email) ==> r.alert == Some(Alert("Formato inválido", "Por favor ingresa un email válido."))
    ensures ValidateEmail(email) && !EsSegura(ValidarPassword(password)) ==>
      r.alert == Some(Alert("Contraseña débil", "La contraseña debe cumplir con todos los requisitos de seguridad."))
    ensures ValidateEmail(email) && EsSegura(ValidarPassword(password)) && password != repeatPassword ==>
      r.alert == Some(Alert("Error", "Las contraseñas no coinciden."))
    ensures r.signUp.Some? ==> r.signUp == Some((email, password))
    // The sign-up reply.
    ensures r.signUp.Some? && reply.errorMessage.Some? ==>
      r.alert == Some(if Includes(reply.errorMessage.value, "already registered")
                      then Alert("Correo en uso", "Este correo ya está registrado.")
                      else Alert("Error al registrarse", reply.errorMessage.value))
    ensures r.insertedUser.Some? <==> r.signUp.Some? && reply.errorMessage.None? && reply.userId.Some?
    ensures r.insertedUser.Some? ==> r.insertedUser == Some((reply.userId.value, email))
    ensures r.showMessage <==> r.insertedUser.Some?
    ensures r.alert.None? <==> r.signUp.Some? && reply.errorMessage.None?
  {
    if !ValidateEmail(email) then
      RegisterEffects(None, Some(Alert("Formato inválido", "Por favor ingresa un email válido.")), None, false)
    else if !EsSegura(ValidarPassword(password)) then
      RegisterEffects(None, Some(Alert("Contraseña débil", "La contraseña debe cumplir con todos los requisitos de seguridad.")), None, false)
    else if password != repeatPassword then
      RegisterEffects(None, Some(Alert("Error", "Las contraseñas no coinciden.")), None, false)
    else if reply.errorMessage.Some? then
      var m := reply.errorMessage.value;
      var alert := if Includes(m, "already registered") then Alert("Correo en uso", "Este correo ya está registrado.")
                   else Alert("Error al registrarse", m);
      RegisterEffects(Some((email, password)), Some(alert), None, false)
    else if reply.userId.Some? then
      RegisterEffects(Some((email, password)), None, Some((reply.userId.value, email)), true)
    else
      RegisterEffects(Some((email, password)), None, None, false)
  }
}
