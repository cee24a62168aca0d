/**
 * The settings screen: the four-rule password check, the `passwordValid`/`passwordMatch`
 * flags kept up to date as either field is edited, the change-password gate and the
 * away-mode switch.
 */
module Configuracion {
  import opened Wrappers
  import opened JsText
  import Register

  /** The four results of `validarContrasena`; there is no lower-case rule here. */
  datatype Checks = Checks(length: bool, upperCase: bool, number: bool, specialChar: bool)

  /** `validarContrasena`: its four rules are the registration screen's rules of the same name. */
  function ValidarContrasena(password: string): (c: Checks)
    ensures var r := Register.ValidarPassword(password);
      c.length == r.longitud && c.upperCase == r.mayuscula && c.number == r.numero && c.specialChar == r.simbolo
  {
    Checks(|password| >= 8, Register.HasUpper(password), Register.HasDigit(password), Register.HasSymbol(password))
  }

  /** `valid.length && valid.upperCase && valid.number && valid.specialChar`. */
  predicate ContrasenaValida(password: string) {
    var c := ValidarContrasena(password);
    c.length && c.upperCase && c.number && c.specialChar
  }

  /**
   * Every password the registration screen accepts is accepted here, but not the other
   * way round: without the lower-case rule, 'ABCDEFG1!' passes here and fails there.
   */
  lemma RegistrationRuleIsStricter(password: string)
    ensures Register.EsSegura(Register.ValidarPassword(password)) ==> ContrasenaValida(password)
    ensures ContrasenaValida("ABCDEFG1!") && !Register.EsSegura(Register.ValidarPassword("ABCDEFG1!"))
  {
    var p := "ABCDEFG1!";
    assert Register.IsUpper(p[0]) && IsDigit(p[7]) && Register.IsSymbol(p[8]);
    assert forall k | 0 <= k < |p| :: !Register.IsLower(p[k]);
  }

  datatype Alert = Alert(title: string, message: string)

  /** What a tap on "Cambiar contraseña" did: the `updateUser` request, if any, and the alert. */
  datatype ChangeOutcome = ChangeOutcome(update: Option<string>, alert: Alert)

  class SettingsForm {
    var password: string
    var confirmPassword: string
    var isAbsent: bool
    var passwordValid: bool
    var passwordMatch: bool
    /** Whether the password field has been edited since the screen opened. */
    ghost var passwordEdited: bool

    /**
     * `passwordMatch` always compares the two stored fields; `passwordValid` is the
     * four-rule check of the stored password once it has been edited, and true before.
     */
    ghost predicate Valid()
      reads this
    {
      passwordMatch == (password == confirmPassword)
      && (passwordEdited ==> passwordValid == ContrasenaValida(password))
      && (!passwordEdited ==> passwordValid && password == "")
    }

    constructor ()
      ensures Valid() && !passwordEdited
      ensures password == "" && confirmPassword == "" && !isAbsent
      ensures passwordValid && passwordMatch
    {
      password := "";
      confirmPassword := "";
      isAbsent := false;
      passwordValid := true;
      passwordMatch := true;
      passwordEdited := false;
    }

    /** `handlePasswordChange`: store the text and recompute both flags against it. */
    method HandlePasswordChange(value: string)
      requires Valid()
      modifies this`password, this`passwordValid, this`passwordMatch, this`passwordEdited
      ensures Valid() && passwordEdited
      ensures password == value && confirmPassword == old(confirmPassword)
      ensures passwordValid == ContrasenaValida(value)
      ensures passwordMatch == (value == confirmPassword)
    {
      password := value;
      var valid := ValidarContrasena(value);
      passwordValid := valid.length && valid.upperCase && valid.number && valid.specialChar;
      passwordMatch := value == confirmPassword;
      passwordEdited := true;
    }

    /** `handleConfirmPasswordChange`: store the text and recompute only the match flag. */
    method HandleConfirmPasswordChange(value: string)
      requires Valid()
      modifies this`confirmPassword, this`passwordMatch
      ensures Valid()
      ensures confirmPassword == value && password == old(password)
      ensures passwordValid == old(passwordValid)
      ensures passwordMatch == (password == value)
    {
      confirmPassword := value;
      passwordMatch := password == value;
    }

    /**
     * `cambiarContrasena`: the validity flag is checked first, then the match flag, and
     * only then is the stored password sent; the reply picks the final alert.
     */
    method CambiarContrasena(updateError: Option<string>) returns (r: ChangeOutcome)
      requires Valid()
      ensures r.update.Some? <==> passwordValid && passwordMatch
      ensures r.update.Some? ==> r.update == Some(password)
      ensures !passwordValid ==> r.alert == Alert("Error", "La contraseña no cumple con los requisitos.")
      ensures passwordValid && !passwordMatch ==> r.alert == Alert("Error", "Las contraseñas no coinciden.")
      ensures r.update.Some? ==> r.alert == (if updateError.Some? then Alert("Error al cambiar la contraseña", updateError.value)
                                            else Alert("Éxito", "Contraseña cambiada correctamente"))
      // What the flags guarantee about the password that is sent.
      ensures r.update.Some? ==> password == confirmPassword
      ensures r.update.Some? ==> ContrasenaValida(password) || password == ""
    {
      if !passwordValid {
        return ChangeOutcome(None, Alert("Error", "La contraseña no cumple con los requisitos."));
      }
      if !passwordMatch {
        return ChangeOutcome(None, Alert("Error", "Las contraseñas no coinciden."));
      }
      var alert := if updateError.Some? then Alert("Error al cambiar la contraseña", updateError.value)
                   else Alert("Éxito", "Contraseña cambiada correctamente");
      return ChangeOutcome(Some(password), alert);
    }

    /**
     * `toggleModoAusente`: flip the switch; the alert reads the value from before the flip,
     * so it describes the new mode.
     */
    method ToggleModoAusente() returns (alert: Alert)
      modifies this`isAbsent
      ensures isAbsent == !old(isAbsent)
      ensures alert == Alert("Modo Ausente", if isAbsent then "Estás en modo ausente." else "Has desactivado el modo ausente.")
    {
      var wasAbsent := isAbsent;
      isAbsent := !isAbsent;
      alert := Alert("Modo Ausente", if wasAbsent then "Has desactivado el modo ausente." else "Estás en modo ausente.");
    }
  }

  /**
   * Because both flags start true, tapping "Cambiar contraseña" on a fresh screen sends an
   * empty password to `updateUser`.
   */
  method FreshScreenSendsEmptyPassword(updateError: Option<string>) returns (r: ChangeOutcome)
    ensures r.update == Some("")
  {
    var form := new SettingsForm();
    r := form.CambiarContrasena(updateError);
  }
}
