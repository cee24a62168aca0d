/**
 * The login screen: the saved-email suggestions list, the decision order of an email
 * login, and the Google sign-in path that takes the payload segment of the ID token and
 * turns its base64url alphabet into the standard base64 alphabet before decoding it.
 */
module Login {
  import opened Wrappers
  import opened Seqs
  import opened JsText

  // ---- Saved e-mail addresses -------------------------------------------------------

  /** `lista.includes(nuevo) ? lista : [nuevo, ...lista]`. */
  function WithEmail(lista: seq<string>, nuevo: string): (r: seq<string>)
    ensures nuevo in r
    ensures forall x | x in lista :: x in r
    ensures forall x | x in r :: x in lista || x == nuevo
    ensures nuevo in lista ==> r == lista
    ensures nuevo !in lista ==> r[0] == nuevo && r[1..] == lista
  {
    if nuevo in lista then lista else [nuevo] + lista
  }

  /** A duplicate-free list stays duplicate-free. */
  lemma WithEmailNoDuplicates(lista: seq<string>, nuevo: string)
    requires NoDuplicates(lista)
    ensures NoDuplicates(WithEmail(lista, nuevo))
  {
    if nuevo !in lista {
      var r := WithEmail(lista, nuevo);
      forall i, j | 0 <= i < j < |r| ensures r[i] != r[j] {
        assert r[j] == lista[j - 1];
        if i > 0 {
          assert r[i] == lista[i - 1];
        }
      }
    }
  }

  /** Saving the same address twice is the same as saving it once. */
  lemma WithEmailIdempotent(lista: seq<string>, nuevo: string)
    ensures WithEmail(WithEmail(lista, nuevo), nuevo) == WithEmail(lista, nuevo)
  {
  }

  // ---- The ID token's payload ----------------------------------------------------------

  /** `s.split(sep)`: the pieces between separators; there is always at least one. */
  function Split(s: string, sep: char): (pieces: seq<string>)
    ensures |pieces| >= 1
    ensures forall i | 0 <= i < |pieces| :: sep !in pieces[i]
  {
    if s == [] then [""]
    else
      var rest := Split(s[1..], sep);
      if s[0] == sep then [""] + rest
      else [[s[0]] + rest[0]] + rest[1..]
  }

  /** `pieces.join(sep)`. */
  function Join(pieces: seq<string>, sep: char): string
    requires |pieces| >= 1
  {
    if |pieces| == 1 then pieces[0] else pieces[0] + [sep] + Join(pieces[1..], sep)
  }

  /** Joining the pieces back gives the original text. */
  lemma {:induction false} JoinSplit(s: string, sep: char)
    ensures Join(Split(s, sep), sep) == s
  {
    if s != [] {
      JoinSplit(s[1..], sep);
      var rest := Split(s[1..], sep);
      if s[0] != sep {
        if |rest| > 1 {
          assert ([[s[0]] + rest[0]] + rest[1..])[1..] == rest[1..];
        }
      }
    }
  }

  /** Text without the separator is a single piece. */
  lemma {:induction false} SplitWithoutSep(s: string, sep: char)
    requires sep !in s
    ensures Split(s, sep) == [s]
  {
    if s != [] {
      assert s[0] in s;
      assert forall k | 0 <= k < |s| - 1 :: s[1..][k] == s[k + 1];
      assert sep !in s[1..];
      SplitWithoutSep(s[1..], sep);
      assert [s[0]] + s[1..] == s;
    }
  }

  /** A piece without the separator, then the separator, then the rest, splits off that piece. */
  lemma {:induction false} SplitFirst(a: string, b: string, sep: char)
    requires sep !in a
    ensures Split(a + [sep] + b, sep) == [a] + Split(b, sep)
  {
    if a == [] {
      assert a + [sep] + b == [sep] + b;
      assert ([sep] + b)[1..] == b;
    } else {
      assert (a + [sep] + b)[1..] == a[1..] + [sep] + b;
      SplitFirst(a[1..], b, sep);
      assert [a[0]] + a[1..] == a;
    }
  }

  /** `id_token.split('.')[1]`; `None` when there is no second segment (the access throws). */
  function PayloadSegment(idToken: string): (segment: Option<string>)
    ensures segment.Some? ==> '.' !in segment.value
  {
    var pieces := Split(idToken, '.');
    if |pieces| >= 2 then Some(pieces[1]) else None
  }

  /**
   * For a compact serialization `header.payload.signature` (section 7.1 of RFC 7515) the
   * segment taken is the payload.
   */
  lemma PayloadOfCompactToken(header: string, payload: string, signature: string)
    requires '.' !in header && '.' !in payload && '.' !in signature
    ensures PayloadSegment(header + "." + payload + "." + signature) == Some(payload)
  {
    assert header + "." + payload + "." + signature == header + ['.'] + (payload + ['.'] + signature);
    SplitFirst(header, payload + ['.'] + signature, '.');
    SplitFirst(payload, signature, '.');
    SplitWithoutSep(signature, '.');
  }

  // ---- base64url to base64 ---------------------------------------------------------------

  /** `s.replace(/from/g, to)` for a single character. */
  function ReplaceAll(s: string, from: char, to: char): (r: string)
    ensures |r| == |s|
    ensures forall k | 0 <= k < |s| :: r[k] == (if s[k] == from then to else s[k])
  {
    seq(|s|, k requires 0 <= k < |s| => if s[k] == from then to else s[k])
  }

  /** `base64Url.replace(/-/g, '+').replace(/_/g, '/')`. */
  function Base64FromUrl(s: string): (r: string)
    ensures |r| == |s|
    ensures forall k | 0 <= k < |s| ::
      r[k] == (if s[k] == '-' then '+' else if s[k] == '_' then '/' else s[k])
  {
    ReplaceAll(ReplaceAll(s, '-', '+'), '_', '/')
  }

  /** The inverse direction, standard base64 to base64url. */
  function Base64ToUrl(s: string): (r: string)
    ensures |r| == |s|
    ensures forall k | 0 <= k < |s| ::
      r[k] == (if s[k] == '+' then '-' else if s[k] == '/' then '_' else s[k])
  {
    ReplaceAll(ReplaceAll(s, '+', '-'), '/', '_')
  }

  predicate IsAlnum(c: char) {
    ('A' <= c <= 'Z') || ('a' <= c <= 'z') || ('0' <= c <= '9')
  }

  /** The alphabet of section 5 of RFC 4648, with the '=' pad. */
  predicate IsBase64UrlChar(c: char) { IsAlnum(c) || c == '-' || c == '_' || c == '=' }

  /** The alphabet of section 4 of RFC 4648, with the '=' pad. */
  predicate IsBase64Char(c: char) { IsAlnum(c) || c == '+' || c == '/' || c == '=' }

  /** The mapping takes base64url text to base64 text of the same length. */
  lemma FromUrlAlphabet(s: string)
    requires forall k | 0 <= k < |s| :: IsBase64UrlChar(s[k])
    ensures forall k | 0 <= k < |s| :: IsBase64Char(Base64FromUrl(s)[k])
  {
  }

  /** On base64url text the mapping is undone by the inverse mapping. */
  lemma FromUrlRoundTrip(s: string)
    requires forall k | 0 <= k < |s| :: IsBase64UrlChar(s[k])
    ensures Base64ToUrl(Base64FromUrl(s)) == s
  {
    var r := Base64ToUrl(Base64FromUrl(s));
    assert forall k | 0 <= k < |s| :: r[k] == s[k];
  }

  /** On base64 text the inverse mapping is undone by the mapping. */
  lemma ToUrlRoundTrip(s: string)
    requires forall k | 0 <= k < |s| :: IsBase64Char(s[k])
    ensures Base64FromUrl(Base64ToUrl(s)) == s
  {
    var r := Base64FromUrl(Base64ToUrl(s));
    assert forall k | 0 <= k < |s| :: r[k] == s[k];
  }

  /** What `atob` receives: the payload segment in the standard alphabet. */
  function DecoderInput(idToken: string): (input: Option<string>)
    ensures input.Some? <==> PayloadSegment(idToken).Some?
    ensures input.Some? ==> |input.value| == |PayloadSegment(idToken).value|
  {
    var segment := PayloadSegment(idToken);
    if segment.Some? then Some(Base64FromUrl(segment.value)) else None
  }

  // ---- The screen ---------------------------------------------------------------------------

  /** The password sign-in reply: an error, or a user with or without a confirmed email. */
  datatype SignInReply = SignInError | SignedIn(emailConfirmedAt: Option<string>)

  const NotRegisteredText := "El correo electrónico no está registrado."
  const WrongPasswordText := "Contraseña incorrecta o error al iniciar sesión."
  const GoogleNotRegisteredText := "Tu correo de Google no está registrado en la app."

  class LoginScreen {
    var email: string
    var password: string
    var errorMessage: string
    var emailSuggestions: seq<string>
    /** The 'correosGuardados' slot of the device store, parsed; `None` when empty. */
    var correosGuardados: Option<seq<string>>
    /** The 'correoLogueado' slot of the device store. */
    var correoLogueado: Option<string>

    constructor (saved: Option<seq<string>>)
      ensures email == "" && password == "" && errorMessage == ""
      ensures correosGuardados == saved && correoLogueado == None
      ensures emailSuggestions == saved.GetOr([])
    {
      email, password, errorMessage := "", "", "";
      correosGuardados, correoLogueado := saved, None;
      emailSuggestions := saved.GetOr([]);
    }

    /**
     * `guardarCorreo`: an address not yet saved is put first in the stored list and in the
     * suggestions; a saved one changes nothing.
     */
    method GuardarCorreo(nuevo: string)
      modifies this`correosGuardados, this`emailSuggestions
      ensures var lista := old(correosGuardados).GetOr([]);
        if nuevo in lista then
          correosGuardados == old(correosGuardados) && emailSuggestions == old(emailSuggestions)
        else
          correosGuardados == Some(WithEmail(lista, nuevo)) && emailSuggestions == WithEmail(lista, nuevo)
    {
      var lista := correosGuardados.GetOr([]);
      if nuevo !in lista {
        var nuevaLista := [nuevo] + lista;
        correosGuardados := Some(nuevaLista);
        emailSuggestions := nuevaLista;
      }
    }

    /**
     * `handleLogin`: an unknown address stops before any sign-in attempt; a failed sign-in
     * shows its error; an unconfirmed user goes to the pending-verification screen without
     * saving the address; only a confirmed login saves it and goes home.
     */
    method HandleLogin(registered: bool, reply: SignInReply) returns (attempted: bool, screen: Option<string>)
      modifies this`errorMessage, this`correosGuardados, this`emailSuggestions
      ensures attempted <==> registered
      ensures !registered ==> errorMessage == NotRegisteredText && screen.None?
      ensures registered && reply.SignInError? ==> errorMessage == WrongPasswordText && screen.None?
      ensures registered && reply.SignedIn? ==> errorMessage == ""
      ensures registered && reply.SignedIn? && !Truthy(reply.emailConfirmedAt) ==>
        screen == Some("VerificacionPendiente")
      ensures registered && reply.SignedIn? && Truthy(reply.emailConfirmedAt) ==> screen == Some("Home")
      ensures screen != Some("Home") ==>
        correosGuardados == old(correosGuardados) && emailSuggestions == old(emailSuggestions)
      ensures screen == Some("Home") ==>
        var lista := old(correosGuardados).GetOr([]);
        email in correosGuardados.GetOr([])
        && (email in lista ==> correosGuardados == old(correosGuardados) && emailSuggestions == old(emailSuggestions))
        && (email !in lista ==> correosGuardados == Some(WithEmail(lista, email)) && emailSuggestions == WithEmail(lista, email))
    {
      errorMessage := "";
      if !registered {
        errorMessage := NotRegisteredText;
        return false, None;
      }
      attempted := true;
      match reply
      case SignInError =>
        errorMessage := WrongPasswordText;
        screen := None;
      case SignedIn(confirmedAt) =>
        if !Truthy(confirmedAt) {
          screen := Some("VerificacionPendiente");
        } else {
          GuardarCorreo(email);
          screen := Some("Home");
        }
    }

    /**
     * The Google sign-in effect: the token's payload segment, in the standard alphabet, is
     * what is decoded; `googleEmail` stands for the address read from it. A known address
     * is remembered and saved and leads home; an unknown one shows an error. A token
     * without a payload segment stops the effect with nothing changed.
     */
    method AutenticarConGoogle(idToken: string, googleEmail: string, registered: bool)
      returns (decoded: Option<string>, home: bool)
      modifies this`errorMessage, this`correosGuardados, this`emailSuggestions, this`correoLogueado
      ensures decoded == DecoderInput(idToken)
      ensures home <==> decoded.Some? && registered
      ensures decoded.None? ==>
        (errorMessage == old(errorMessage) && correoLogueado == old(correoLogueado)
         && correosGuardados == old(correosGuardados) && emailSuggestions == old(emailSuggestions))
      ensures home ==>
        var lista := old(correosGuardados).GetOr([]);
        correoLogueado == Some(googleEmail) && errorMessage == old(errorMessage)
        && googleEmail in correosGuardados.GetOr([])
        && (googleEmail in lista ==> correosGuardados == old(correosGuardados) && emailSuggestions == old(emailSuggestions))
        && (googleEmail !in lista ==>
              correosGuardados == Some(WithEmail(lista, googleEmail)) && emailSuggestions == WithEmail(lista, googleEmail))
      ensures decoded.Some? && !registered ==>
        (errorMessage == GoogleNotRegisteredText && correoLogueado == old(correoLogueado)
         && correosGuardados == old(correosGuardados) && emailSuggestions == old(emailSuggestions))
    {
      decoded := DecoderInput(idToken);
      if decoded.None? {
        return decoded, false;
      }
      if registered {
        correoLogueado := Some(googleEmail);
        GuardarCorreo(googleEmail);
        home := true;
      } else {
        errorMessage := GoogleNotRegisteredText;
        home := false;
      }
    }
  }
}
