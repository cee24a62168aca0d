/**
 * The authentication hook `useAuthSession`: its state fields, the secure-store entries it
 * writes, the transitions `clearError`, `handleError`, `saveCredentials`, `getCredentials`,
 * `clearCredentials`, `saveSession`, `getSession`, `rememberLoginMethod`, `emailLogin` and
 * `logout`, the login error-message mapping and the backup refresh-timer arithmetic.
 * Every SDK call (Supabase auth, SecureStore) is replaced by the result it delivered,
 * passed in as a parameter; `Date.now()` is the parameter `now` (milliseconds).
 */
module AuthSession {
  import opened Wrappers
  import opened JsText

  /** The backup refresh fires this many milliseconds before expiry (five minutes). */
  const SessionRefreshThreshold: int := 5 * 60 * 1000
  /** The backup refresh timer is never given a shorter delay than this (milliseconds). */
  const MinRefreshDelay: int := 1000

  const MissingFieldsText := "Email y contraseña son requeridos"
  const InvalidCredentialsText := "Credenciales inválidas"
  const InvalidSessionText := "Datos de sesión inválidos"
  const NoSessionText := "No se recibió información de sesión válida"
  const UnconfirmedText := "Tu correo electrónico no ha sido confirmado. Por favor revisa tu bandeja de entrada."
  const SessionNotSavedText := "Error al guardar la sesión"
  const SessionNotReadText := "Error al recuperar la sesión"
  const CredentialsNotSavedText := "Error al guardar credenciales"
  const MethodNotSavedText := "Error al guardar el método de inicio de sesión"

  datatype AuthState = Idle | Authenticating | Authenticated | Error
  datatype LoginMethod = Email | Phone | Biometric | NoMethod

  /** A Supabase session as far as the hook looks into it; `expiresAt` is `expires_at`, in seconds. */
  datatype Session = Session(accessToken: string, expiresAt: Option<int>)
  datatype Credentials = Credentials(email: string, password: string)
  datatype User = User(id: string, emailConfirmedAt: Option<string>)

  /** What a failing step throws or returns: a bare string, or an error object whose `message` may be missing. */
  datatype Failure = Text(text: string) | Exception(message: Option<string>)

  /** The reply of `signInWithPassword`: its `error` and the `session` and `user` of its `data`. */
  datatype SignInResponse = SignInResponse(error: Option<Failure>, session: Option<Session>, user: Option<User>)
  /** The arguments `emailLogin` hands to `signInWithPassword`. */
  datatype SignInRequest = SignInRequest(email: string, password: string)
  /** `emailLogin` either resolves to `{ data, error }` (only `error` is modelled) or rejects. */
  datatype LoginResult = Returned(error: Option<Failure>) | Threw(exception: Failure)

  /** `err.message`: a bare string has none. */
  function MessageOf(err: Failure): Option<string> {
    if err.Exception? then err.message else None
  }

  /** The text `handleError` stores: the string itself, else a truthy `message`, else the fallback. */
  function ErrorText(err: Failure, fallback: string): string {
    match err
    case Text(t) => t
    case Exception(m) => if Truthy(m) then m.value else fallback
  }

  predicate Usable(c: Credentials) {
    c.email != "" && c.password != ""
  }

  /** `expires_at` is truthy: present and not zero. */
  predicate HasExpiry(s: Session) {
    s.expiresAt.Some? && s.expiresAt.value != 0
  }

  function ExpiryMillis(s: Session): int
    requires HasExpiry(s)
  {
    s.expiresAt.value * 1000
  }

  /** The test `getSession` applies to a stored session. */
  predicate Expired(s: Session, now: int) {
    HasExpiry(s) && ExpiryMillis(s) < now
  }

  /** A session without `expires_at` is never treated as expired, whatever the clock says. */
  lemma NoExpiryNeverExpires(s: Session, now: int)
    requires !HasExpiry(s)
    ensures !Expired(s, now)
  {
  }

  /** An error-message rule: when the caught message contains `fragment`, show `text`. */
  datatype MessageRule = MessageRule(fragment: string, text: string)

  const LoginRules: seq<MessageRule> := [
    MessageRule("Invalid login credentials", "Credenciales inválidas. Verifica tu email y contraseña."),
    MessageRule("Email not confirmed", "Tu correo electrónico no ha sido confirmado."),
    MessageRule("Too many requests", "Demasiados intentos. Espera un momento antes de intentar nuevamente.")
  ]
  const LoginDefault := "Error desconocido al iniciar sesión"

  const BiometricRules: seq<MessageRule> := [
    MessageRule("cancelada", "Autenticación cancelada"),
    MessageRule("credenciales guardadas", "Credenciales no válidas. Inicia sesión con email nuevamente.")
  ]
  const BiometricDefault := "Error en la autenticación biométrica"

  /** The index of the first rule whose fragment the message contains, or `|rules|` when none does. */
  function FirstMatch(rules: seq<MessageRule>, message: string): (k: nat)
    ensures k <= |rules|
    ensures forall j | 0 <= j < k :: !Includes(message, rules[j].fragment)
    ensures k < |rules| ==> Includes(message, rules[k].fragment)
  {
    if rules == [] then 0
    else if Includes(message, rules[0].fragment) then 0
    else 1 + FirstMatch(rules[1..], message)
  }

  /**
   * The `if … else if …` chain of a catch block: the first matching rule's text, else the
   * message itself when it is truthy, else the default.
   */
  function FriendlyText(rules: seq<MessageRule>, message: Option<string>, default: string): string {
    if message.None? then default
    else
      var k := FirstMatch(rules, message.value);
      if k < |rules| then rules[k].text
      else if message.value != "" then message.value
      else default
  }

  function LoginText(message: Option<string>): string {
    FriendlyText(LoginRules, message, LoginDefault)
  }

  function BiometricText(message: Option<string>): string {
    FriendlyText(BiometricRules, message, BiometricDefault)
  }

  /**
   * Login errors are mapped with priority 'Invalid login credentials' over 'Email not
   * confirmed' over 'Too many requests' over the raw message over the default text.
   */
  lemma LoginTextPriority(message: Option<string>)
    ensures message.None? ==> LoginText(message) == LoginDefault
    ensures message.Some? && Includes(message.value, "Invalid login credentials") ==>
      LoginText(message) == "Credenciales inválidas. Verifica tu email y contraseña."
    ensures (message.Some? && !Includes(message.value, "Invalid login credentials")
      && Includes(message.value, "Email not confirmed")) ==>
      LoginText(message) == "Tu correo electrónico no ha sido confirmado."
    ensures (message.Some? && !Includes(message.value, "Invalid login credentials")
      && !Includes(message.value, "Email not confirmed") && Includes(message.value, "Too many requests")) ==>
      LoginText(message) == "Demasiados intentos. Espera un momento antes de intentar nuevamente."
    ensures (message.Some? && !Includes(message.value, "Invalid login credentials")
      && !Includes(message.value, "Email not confirmed") && !Includes(message.value, "Too many requests")) ==>
      LoginText(message) == (if message.value != "" then message.value else LoginDefault)
  {
    if message.Some? {
      var k := FirstMatch(LoginRules, message.value);
      assert LoginRules[0].fragment == "Invalid login credentials";
      assert LoginRules[1].fragment == "Email not confirmed";
      assert LoginRules[2].fragment == "Too many requests";
    }
  }

  /**
   * Biometric errors: a message mentioning 'cancelada' wins over one mentioning
   * 'credenciales guardadas', which wins over the raw message and the default.
   */
  lemma BiometricTextPriority(message: Option<string>)
    ensures message.None? ==> BiometricText(message) == BiometricDefault
    ensures message.Some? && Includes(message.value, "cancelada") ==>
      BiometricText(message) == "Autenticación cancelada"
    ensures message.Some? && !Includes(message.value, "cancelada") && Includes(message.value, "credenciales guardadas") ==>
      BiometricText(message) == "Credenciales no válidas. Inicia sesión con email nuevamente."
    ensures message.Some? && !Includes(message.value, "cancelada") && !Includes(message.value, "credenciales guardadas") ==>
      BiometricText(message) == (if message.value != "" then message.value else BiometricDefault)
  {
    if message.Some? {
      var k := FirstMatch(BiometricRules, message.value);
      assert BiometricRules[0].fragment == "cancelada";
      assert BiometricRules[1].fragment == "credenciales guardadas";
    }
  }

  /**
   * With `exception` set, the failed login hands the friendly text to `handleError` only as
   * its fallback, so an error carrying a non-empty message stores that raw message.
   */
  lemma FriendlyTextIsOnlyFallback(m: string)
    requires m != ""
    ensures ErrorText(Exception(Some(m)), LoginText(Some(m))) == m
  {
  }

  function Max(a: int, b: int): int {
    if a >= b then a else b
  }

  /**
   * The delay, in milliseconds, of the backup refresh timer set up for `session` at time
   * `now`, or `None` when no timer is scheduled.
   */
  function RefreshDelay(session: Option<Session>, now: int): (delay: Option<int>)
    ensures delay.Some? <==>
      session.Some? && HasExpiry(session.value) && ExpiryMillis(session.value) - now > SessionRefreshThreshold
    ensures delay.Some? ==> delay.value >= MinRefreshDelay
    ensures delay.Some? ==>
      ExpiryMillis(session.value) - SessionRefreshThreshold <= now + delay.value < ExpiryMillis(session.value)
  {
    if session.None? || !HasExpiry(session.value) then None
    else
      var timeUntilExpiry := ExpiryMillis(session.value) - now;
      var refreshDelay := Max(timeUntilExpiry - SessionRefreshThreshold, MinRefreshDelay);
      if timeUntilExpiry > SessionRefreshThreshold then Some(refreshDelay) else None
  }

  /**
   * When at least five minutes and one second remain, the refresh fires exactly five
   * minutes before expiry; with less left it fires after the minimum delay.
   */
  lemma RefreshTiming(s: Session, now: int)
    requires HasExpiry(s)
    ensures var t := ExpiryMillis(s) - now;
      (t >= SessionRefreshThreshold + MinRefreshDelay ==>
        RefreshDelay(Some(s), now) == Some(ExpiryMillis(s) - SessionRefreshThreshold - now))
      && (SessionRefreshThreshold < t < SessionRefreshThreshold + MinRefreshDelay ==>
        RefreshDelay(Some(s), now) == Some(MinRefreshDelay))
  {
  }

  /** `email.trim().toLowerCase()`, the address actually sent to sign-in. */
  function NormalizedEmail(email: string): string {
    ToLower(Trim(email))
  }

  /** The checks `emailLogin` runs on the sign-in reply before saving anything. */
  function SignInFailure(response: SignInResponse): Option<Failure> {
    if response.error.Some? then response.error
    else if response.session.None? || response.user.None? then Some(Exception(Some(NoSessionText)))
    else if !Truthy(response.user.value.emailConfirmedAt) then Some(Exception(Some(UnconfirmedText)))
    else None
  }

  /**
   * The error text left after the credential and method store steps of a sign-in: each
   * failure overwrites the error, so the method step's failure wins over the credential step's.
   */
  function SaveStepsError(credentialStore: Option<Failure>, methodStore: Option<Failure>, before: Option<string>): Option<string> {
    if methodStore.Some? then Some(ErrorText(methodStore.value, MethodNotSavedText))
    else if credentialStore.Some? then Some(ErrorText(credentialStore.value, CredentialsNotSavedText))
    else before
  }

  /** The state of one mounted `useAuthSession` hook together with the secure-store entries it owns. */
  class AuthHook {
    var session: Option<Session>
    var authState: AuthState
    var loginMethod: LoginMethod
    var error: Option<string>
    var biometricType: Option<string>
    var hasStoredCredentials: bool
    // Secure-store entries: supabase_session, supabase_credentials, last_login_method,
    // last_biometric_auth.
    var storedSession: Option<Session>
    var storedCredentials: Option<Credentials>
    var storedLoginMethod: Option<LoginMethod>
    var storedBiometricAuth: Option<int>

    /**
     * The authenticated state always holds a session, and the stored-credentials flag is
     * only raised while usable credentials sit in the store.
     */
    predicate Valid()
      reads this
    {
      (authState == Authenticated ==> session.Some?)
      && (hasStoredCredentials ==> storedCredentials.Some? && Usable(storedCredentials.value))
    }

    /** The hook on mount, over whatever the device store already holds. */
    constructor (savedSession: Option<Session>, savedCredentials: Option<Credentials>,
                 savedMethod: Option<LoginMethod>, savedBiometricAuth: Option<int>)
      ensures Valid()
      ensures session == None && authState == Idle && loginMethod == NoMethod
      ensures error == None && biometricType == None && !hasStoredCredentials
      ensures !IsAuthenticated() && !IsLoading() && !IsBiometricAvailable()
      ensures storedSession == savedSession && storedCredentials == savedCredentials
      ensures storedLoginMethod == savedMethod && storedBiometricAuth == savedBiometricAuth
    {
      session := None;
      authState := Idle;
      loginMethod := NoMethod;
      error := None;
      biometricType := None;
      hasStoredCredentials := false;
      storedSession := savedSession;
      storedCredentials := savedCredentials;
      storedLoginMethod := savedMethod;
      storedBiometricAuth := savedBiometricAuth;
    }

    /** `isAuthenticated`; an authenticated hook always holds a session. */
    function IsAuthenticated(): (b: bool)
      reads this
      requires Valid()
      ensures b <==> authState == Authenticated
      ensures b ==> session.Some?
    {
      authState == Authenticated
    }

    /** `isLoading`: a login is in flight, so the hook is not authenticated. */
    function IsLoading(): (b: bool)
      reads this
      requires Valid()
      ensures b <==> authState == Authenticating
      ensures b ==> !IsAuthenticated()
    {
      authState == Authenticating
    }

    /** `isBiometricAvailable`: a biometric type has been detected. */
    function IsBiometricAvailable(): (b: bool)
      reads this
      ensures b <==> biometricType.Some?
    {
      biometricType != None
    }

    /** `clearError`: the error goes away and an error state falls back to idle. */
    method ClearError()
      requires Valid()
      modifies this`error, this`authState
      ensures Valid()
      ensures error == None
      ensures authState == if old(authState) == Error then Idle else old(authState)
    {
      error := None;
      if authState == Error {
        authState := Idle;
      }
    }

    /** `handleError`: store the error text; move to the error state only when asked to. */
    method HandleError(err: Failure, fallback: string, setErrorState: bool)
      requires Valid()
      modifies this`error, this`authState
      ensures Valid()
      ensures error == Some(ErrorText(err, fallback))
      ensures err.Text? ==> error == Some(err.text)
      ensures err.Exception? && Truthy(err.message) ==> error == err.message
      ensures err.Exception? && !Truthy(err.message) ==> error == Some(fallback)
      ensures authState == if setErrorState then Error else old(authState)
    {
      error := Some(ErrorText(err, fallback));
      if setErrorState {
        authState := Error;
      }
    }

    /** `saveCredentials`: store non-empty credentials; any failure only records an error. */
    method SaveCredentials(email: string, password: string, storeFailure: Option<Failure>) returns (saved: bool)
      requires Valid()
      modifies this`error, this`authState, this`hasStoredCredentials, this`storedCredentials
      ensures Valid() && authState == old(authState)
      ensures saved <==> email != "" && password != "" && storeFailure.None?
      ensures saved ==> storedCredentials == Some(Credentials(email, password)) && hasStoredCredentials
      ensures saved ==> error == old(error)
      ensures !saved ==> storedCredentials == old(storedCredentials) && hasStoredCredentials == old(hasStoredCredentials)
      ensures !saved ==> error == Some(
        if email == "" || password == "" then MissingFieldsText
        else ErrorText(storeFailure.value, CredentialsNotSavedText))
    {
      if email == "" || password == "" {
        HandleError(Exception(Some(MissingFieldsText)), CredentialsNotSavedText, false);
        return false;
      }
      if storeFailure.Some? {
        HandleError(storeFailure.value, CredentialsNotSavedText, false);
        return false;
      }
      storedCredentials := Some(Credentials(email, password));
      hasStoredCredentials := true;
      return true;
    }

    /**
     * `getCredentials`: the stored credentials when both parts are present; the flag follows.
     * `readFailure` is what `getItemAsync` or `JSON.parse` threw, if anything.
     */
    method GetCredentials(readFailure: Option<Failure>) returns (credentials: Option<Credentials>)
      requires Valid()
      modifies this`error, this`authState, this`hasStoredCredentials
      ensures Valid() && authState == old(authState)
      ensures credentials.Some? <==> readFailure.None? && storedCredentials.Some? && Usable(storedCredentials.value)
      ensures credentials.Some? ==> credentials == storedCredentials
      ensures hasStoredCredentials == credentials.Some?
      ensures readFailure.Some? ==> error == Some(ErrorText(readFailure.value, "Error al obtener credenciales"))
      ensures readFailure.None? ==>
        error == if storedCredentials.Some? && !Usable(storedCredentials.value)
                 then Some(InvalidCredentialsText) else old(error)
    {
      if readFailure.Some? {
        hasStoredCredentials := false;
        HandleError(readFailure.value, "Error al obtener credenciales", false);
        return None;
      }
      if storedCredentials.None? {
        hasStoredCredentials := false;
        return None;
      }
      if !Usable(storedCredentials.value) {
        hasStoredCredentials := false;
        HandleError(Exception(Some(InvalidCredentialsText)), "Error al obtener credenciales", false);
        return None;
      }
      hasStoredCredentials := true;
      return storedCredentials;
    }

    /** `clearCredentials`: delete the stored credentials, or record why that failed. */
    method ClearCredentials(deleteFailure: Option<Failure>) returns (cleared: bool)
      requires Valid()
      modifies this`error, this`authState, this`hasStoredCredentials, this`storedCredentials
      ensures Valid() && authState == old(authState)
      ensures cleared <==> deleteFailure.None?
      ensures cleared ==> storedCredentials == None && !hasStoredCredentials && error == old(error)
      ensures !cleared ==> storedCredentials == old(storedCredentials) && hasStoredCredentials == old(hasStoredCredentials)
      ensures !cleared ==> error == Some(ErrorText(deleteFailure.value, "Error al eliminar credenciales"))
    {
      if deleteFailure.Some? {
        HandleError(deleteFailure.value, "Error al eliminar credenciales", false);
        return false;
      }
      storedCredentials := None;
      hasStoredCredentials := false;
      return true;
    }

    /** `saveSession`: persist and adopt the session, entering the authenticated state; a failure is an error state. */
    method SaveSession(sessionData: Option<Session>, storeFailure: Option<Failure>) returns (saved: bool)
      requires Valid()
      modifies this`error, this`authState, this`session, this`storedSession
      ensures Valid()
      ensures saved <==> sessionData.Some? && storeFailure.None?
      ensures saved ==> session == sessionData && storedSession == sessionData
      ensures saved ==> authState == Authenticated && error == old(error)
      ensures !saved ==> session == old(session) && storedSession == old(storedSession) && authState == Error
      ensures !saved ==> error == Some(
        if sessionData.None? then InvalidSessionText
        else ErrorText(storeFailure.value, SessionNotSavedText))
    {
      if sessionData.None? {
        HandleError(Exception(Some(InvalidSessionText)), SessionNotSavedText, true);
        return false;
      }
      if storeFailure.Some? {
        HandleError(storeFailure.value, SessionNotSavedText, true);
        return false;
      }
      storedSession := sessionData;
      session := sessionData;
      authState := Authenticated;
      return true;
    }

    /**
     * `getSession`: the stored session unless it has expired at `now`, in which case it is
     * deleted. `readFailure` is what `getItemAsync` or `JSON.parse` threw, if anything.
     */
    method GetSession(now: int, readFailure: Option<Failure>, deleteFailure: Option<Failure>) returns (result: Option<Session>)
      requires Valid()
      modifies this`error, this`authState, this`storedSession
      ensures Valid() && authState == old(authState)
      ensures result.Some? <==> readFailure.None? && old(storedSession).Some? && !Expired(old(storedSession).value, now)
      ensures result.Some? ==> result == storedSession == old(storedSession) && error == old(error)
      ensures readFailure.Some? ==>
        storedSession == old(storedSession) && error == Some(ErrorText(readFailure.value, SessionNotReadText))
      ensures readFailure.None? && old(storedSession).Some? && Expired(old(storedSession).value, now) && deleteFailure.None? ==>
        storedSession == None && error == old(error)
      ensures readFailure.None? && old(storedSession).Some? && Expired(old(storedSession).value, now) && deleteFailure.Some? ==>
        storedSession == old(storedSession)
        && error == Some(ErrorText(deleteFailure.value, SessionNotReadText))
      ensures readFailure.None? && old(storedSession).None? ==> storedSession == None && error == old(error)
    {
      if readFailure.Some? {
        HandleError(readFailure.value, SessionNotReadText, false);
        return None;
      }
      if storedSession.None? {
        return None;
      }
      if Expired(storedSession.value, now) {
        if deleteFailure.Some? {
          HandleError(deleteFailure.value, SessionNotReadText, false);
          return None;
        }
        storedSession := None;
        return None;
      }
      return storedSession;
    }

    /** `rememberLoginMethod`: persist and adopt the method, or record why that failed. */
    method RememberLoginMethod(method_: LoginMethod, storeFailure: Option<Failure>)
      requires Valid()
      modifies this`error, this`authState, this`loginMethod, this`storedLoginMethod
      ensures Valid() && authState == old(authState)
      ensures storeFailure.None? ==>
        loginMethod == method_ && storedLoginMethod == Some(method_) && error == old(error)
      ensures storeFailure.Some? ==>
        loginMethod == old(loginMethod) && storedLoginMethod == old(storedLoginMethod)
        && error == Some(ErrorText(storeFailure.value, MethodNotSavedText))
    {
      if storeFailure.Some? {
        HandleError(storeFailure.value, MethodNotSavedText, false);
        return;
      }
      storedLoginMethod := Some(method_);
      loginMethod := method_;
    }

    /**
     * Everything but `authState` and `error` is as it was: no session, stored entry, login
     * method, credentials flag or biometric type has changed.
     */
    twostate predicate OnlyStatusChanged()
      reads this
    {
      session == old(session) && storedSession == old(storedSession)
      && storedCredentials == old(storedCredentials) && hasStoredCredentials == old(hasStoredCredentials)
      && loginMethod == old(loginMethod) && storedLoginMethod == old(storedLoginMethod)
      && storedBiometricAuth == old(storedBiometricAuth) && biometricType == old(biometricType)
    }

    /**
     * The state an accepted reply leaves: authenticated with the reply's session, which is
     * also stored; the credentials and the 'email' method are stored unless their own store
     * step failed, in which case that slot, and the flag or method beside it, keep their value.
     */
    twostate predicate Accepted(email: string, password: string, response: SignInResponse,
                                credentialStore: Option<Failure>, methodStore: Option<Failure>)
      reads this
    {
      authState == Authenticated && session == response.session && storedSession == response.session
      && (if credentialStore.None?
          then storedCredentials == Some(Credentials(email, password)) && hasStoredCredentials
          else storedCredentials == old(storedCredentials) && hasStoredCredentials == old(hasStoredCredentials))
      && (if methodStore.None?
          then loginMethod == Email && storedLoginMethod == Some(Email)
          else loginMethod == old(loginMethod) && storedLoginMethod == old(storedLoginMethod))
      && storedBiometricAuth == old(storedBiometricAuth) && biometricType == old(biometricType)
    }

    /**
     * The part of `emailLogin` after the reply arrives: check it, then save the session, the
     * credentials as typed and the login method. The result is what the catch block receives.
     * A failed credential or method store only records its error, and the later one wins.
     */
    method CompleteSignIn(email: string, password: string, response: SignInResponse,
                          sessionStore: Option<Failure>, credentialStore: Option<Failure>, methodStore: Option<Failure>)
      returns (failure: Option<Failure>)
      requires Valid() && email != "" && password != ""
      modifies this
      ensures Valid()
      ensures SignInFailure(response).Some? ==> failure == SignInFailure(response) && unchanged(this)
      ensures SignInFailure(response).None? && sessionStore.Some? ==>
        failure == Some(Exception(Some(SessionNotSavedText)))
        && OnlyStatusChanged() && authState == Error
        && error == Some(ErrorText(sessionStore.value, SessionNotSavedText))
      ensures SignInFailure(response).None? && sessionStore.None? ==>
        failure == None && Accepted(email, password, response, credentialStore, methodStore)
        && error == SaveStepsError(credentialStore, methodStore, old(error))
    {
      failure := SignInFailure(response);
      if failure.Some? {
        return;
      }
      var saved := SaveSession(response.session, sessionStore);
      if !saved {
        return Some(Exception(Some(SessionNotSavedText)));
      }
      var _ := SaveCredentials(email, password, credentialStore);
      RememberLoginMethod(Email, methodStore);
    }

    /**
     * `emailLogin` past its guard: enter `authenticating`, sign in with the trimmed,
     * lower-cased email and complete the sign-in. A failure is recorded and rethrown only
     * when `exception` is set; otherwise it is returned and the state keeps what the steps
     * before it left.
     */
    method SignIn(email: string, password: string, exception: bool, response: SignInResponse,
                  sessionStore: Option<Failure>, credentialStore: Option<Failure>, methodStore: Option<Failure>)
      returns (result: LoginResult, request: SignInRequest)
      requires Valid() && email != "" && password != ""
      modifies this
      ensures Valid()
      ensures request == SignInRequest(NormalizedEmail(email), password)
      ensures result == Returned(None) <==> SignInFailure(response).None? && sessionStore.None?
      ensures result.Threw? ==>
        authState == Error && error == Some(ErrorText(result.exception, LoginText(MessageOf(result.exception))))
      // The reply is refused before anything is saved.
      ensures SignInFailure(response).Some? ==>
        OnlyStatusChanged()
        && var f := SignInFailure(response).value;
        if exception then
          result == Threw(f) && authState == Error && error == Some(ErrorText(f, LoginText(MessageOf(f))))
        else
          result == Returned(Some(f)) && authState == Authenticating && error == None
      // The reply is accepted but the session cannot be stored.
      ensures SignInFailure(response).None? && sessionStore.Some? ==>
        OnlyStatusChanged() && authState == Error
        && result == (if exception then Threw(Exception(Some(SessionNotSavedText)))
                      else Returned(Some(Exception(Some(SessionNotSavedText)))))
        && error == Some(if exception then SessionNotSavedText else ErrorText(sessionStore.value, SessionNotSavedText))
      // Success.
      ensures SignInFailure(response).None? && sessionStore.None? ==>
        result == Returned(None) && Accepted(email, password, response, credentialStore, methodStore)
        && error == SaveStepsError(credentialStore, methodStore, None)
    {
      authState := Authenticating;
      error := None;
      request := SignInRequest(NormalizedEmail(email), password);
      var failure := CompleteSignIn(email, password, response, sessionStore, credentialStore, methodStore);
      result := ReportFailure(failure, exception, response.error);
    }

    /**
     * The catch block of `emailLogin`: with `exception` set the failure is recorded with the
     * mapped login text as fallback and rethrown; otherwise it is returned, preferring the
     * reply's own error, and nothing changes.
     */
    method ReportFailure(failure: Option<Failure>, exception: bool, replyError: Option<Failure>)
      returns (result: LoginResult)
      requires Valid()
      modifies this`error, this`authState
      ensures Valid()
      ensures failure.None? ==> result == Returned(None) && unchanged(this)
      ensures failure.Some? && exception ==>
        result == Threw(failure.value) && authState == Error
        && error == Some(ErrorText(failure.value, LoginText(MessageOf(failure.value))))
      ensures failure.Some? && !exception ==>
        result == Returned(Some(replyError.GetOr(failure.value))) && unchanged(this)
    {
      if failure.None? {
        return Returned(None);
      }
      var err := failure.value;
      if exception {
        HandleError(err, LoginText(MessageOf(err)), true);
        return Threw(err);
      }
      return Returned(Some(replyError.GetOr(err)));
    }

    /**
     * `emailLogin`: empty fields are refused (returned, or thrown when `exception` is set)
     * before anything is sent or changed; otherwise the sign-in proceeds as in `SignIn`.
     */
    method EmailLogin(email: string, password: string, exception: bool, response: SignInResponse,
                      sessionStore: Option<Failure>, credentialStore: Option<Failure>, methodStore: Option<Failure>)
      returns (result: LoginResult, request: Option<SignInRequest>)
      requires Valid()
      modifies this
      ensures Valid()
      ensures email == "" || password == "" ==>
        request == None && unchanged(this)
        && result == if exception then Threw(Exception(Some(MissingFieldsText))) else Returned(Some(Text(MissingFieldsText)))
      ensures email != "" && password != "" ==>
        request == Some(SignInRequest(NormalizedEmail(email), password))
        && (result == Returned(None) <==> SignInFailure(response).None? && sessionStore.None?)
        && (result.Threw? ==> authState == Error && error == Some(ErrorText(result.exception, LoginText(MessageOf(result.exception)))))
      // The reply is refused before anything is saved.
      ensures email != "" && password != "" && SignInFailure(response).Some? ==>
        OnlyStatusChanged()
        && var f := SignInFailure(response).value;
        if exception then
          result == Threw(f) && authState == Error && error == Some(ErrorText(f, LoginText(MessageOf(f))))
        else
          result == Returned(Some(f)) && authState == Authenticating && error == None
      // The reply is accepted but the session cannot be stored.
      ensures email != "" && password != "" && SignInFailure(response).None? && sessionStore.Some? ==>
        OnlyStatusChanged() && authState == Error
        && result == (if exception then Threw(Exception(Some(SessionNotSavedText)))
                      else Returned(Some(Exception(Some(SessionNotSavedText)))))
        && error == Some(if exception then SessionNotSavedText else ErrorText(sessionStore.value, SessionNotSavedText))
      // Success.
      ensures email != "" && password != "" && SignInFailure(response).None? && sessionStore.None? ==>
        result == Returned(None) && Accepted(email, password, response, credentialStore, methodStore)
        && error == SaveStepsError(credentialStore, methodStore, None)
    {
      if email == "" || password == "" {
        request := None;
        if exception {
          result := Threw(Exception(Some(MissingFieldsText)));
        } else {
          result := Returned(Some(Text(MissingFieldsText)));
        }
        return;
      }
      var sent;
      result, sent := SignIn(email, password, exception, response, sessionStore, credentialStore, methodStore);
      request := Some(sent);
    }

    /**
     * `logout`: whatever sign-out reported, the hook ends idle, without session, method or
     * error. The four deletions are settled independently: a failed SecureStore deletion
     * leaves its slot as it was and is swallowed; a failed credential deletion goes through
     * `clearCredentials` and leaves its error message behind. Either way logout reports success.
     */
    method Logout(sessionDelete: Option<Failure>, methodDelete: Option<Failure>,
                  biometricDelete: Option<Failure>, credentialDelete: Option<Failure>) returns (done: bool)
      requires Valid()
      modifies this
      ensures Valid()
      ensures done
      ensures authState == Idle && session == None && loginMethod == NoMethod
      ensures storedSession == if sessionDelete.None? then None else old(storedSession)
      ensures storedLoginMethod == if methodDelete.None? then None else old(storedLoginMethod)
      ensures storedBiometricAuth == if biometricDelete.None? then None else old(storedBiometricAuth)
      ensures credentialDelete.None? ==> error == None && storedCredentials == None && !hasStoredCredentials
      ensures credentialDelete.Some? ==>
        error == Some(ErrorText(credentialDelete.value, "Error al eliminar credenciales"))
        && storedCredentials == old(storedCredentials) && hasStoredCredentials == old(hasStoredCredentials)
      ensures biometricType == old(biometricType)
      ensures !IsAuthenticated() && !IsLoading()
      ensures IsBiometricAvailable() == old(IsBiometricAvailable())
    {
      authState := Idle;
      session := None;
      loginMethod := NoMethod;
      error := None;
      if sessionDelete.None? {
        storedSession := None;
      }
      if methodDelete.None? {
        storedLoginMethod := None;
      }
      if biometricDelete.None? {
        storedBiometricAuth := None;
      }
      var _ := ClearCredentials(credentialDelete);
      return true;
    }
  }
}
