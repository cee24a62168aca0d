# Soluciones Ya — a verified model of the client-side logic

Soluciones Ya is a React Native marketplace app. Users publish services by category and other users hire them. Both sides then talk through notifications and chats, and an administrator verifies identity documents (DNI). Almost every screen reads and writes rows of a Supabase backend. This project models the logic that sits between those calls, in Dafny, and proves what it guarantees:

- the authentication hook's state machine;
- the input validators;
- the list operations on screen state;
- the category grid;
- the small classifiers and selection state machines.

Every backend, SDK or device call is a parameter of the model: a success flag, an error, or the rows it returned. The model never performs the call itself.

Modules follow the app's files, one module per file:

| module | models |
|---|---|
| `AuthSession` | `lib/hooks/useAuthSession.js` |
| `Home` | `screens/Home.js` |
| `Register` | `screens/Register.js` |
| `Configuracion` | `screens/Configuracion.js` |
| `CrearPerfil` | `screens/CrearPerfil.js` |
| `Notificaciones` | `screens/NotificacionesScreen.js` |
| `ChatIndividual` | `screens/ChatIndividual.js` |
| `ChatBot` | `components/ChatBotModal.js` |
| `ReporteModal` | `components/servicios/ReporteModal.jsx` |
| `Login` | `screens/Login.js` |
| `MisServicios` | `screens/MisServicios.js` |
| `PasarelaPago` | `screens/PasarelaPago.js` |
| `ChatIA` | `screens/ChatIA.js` |
| `PerfilesPendientes` | `screens/PerfilesPendientes.js` |
| `OfrecerServicio` | `screens/OfrecerServicio.js` |
| `EditarServicio` | `screens/EditarServicio.js` |
| `ServiciosPorCategoria` | `screens/ServiciosPorCategoria.js` |

Three shared modules support them:

- `Wrappers`: `Option`.
- `Seqs`: generic filter, map, order-preserving subsequence, de-duplication.
- `JsText`: JavaScript's `trim()` and `\s` class, `includes`, ASCII lower-casing, `parseInt` on decimal strings, and the truthiness of a nullable string.

React state in a screen becomes the fields of a class, and each handler becomes a method that reassigns them.

Some handlers read state captured when the component last rendered, not the value they just set. The model states those stale reads explicitly:

- the chat screen's first message load runs with a null user id;
- the away-mode alert reads the old flag;
- hiring uses the selection captured before the modal closed.

Pure helpers (validators, filters, message construction) are functions, with lemmas about them.

## Model

| member | source | states |
|---|---|---|
| AuthSession.NoExpiryNeverExpires | lib/hooks/useAuthSession.js:324 | a session without `expires_at` (null or 0) is never treated as expired, whatever the clock |
| AuthSession.FirstMatch | lib/hooks/useAuthSession.js:405-410 | the `includes` cascade of a catch block picks the first rule whose fragment the message contains: no earlier rule matches, and the picked one does (or none does) |
| AuthSession.LoginTextPriority | lib/hooks/useAuthSession.js:403-413 | the login error text is chosen in the order 'Invalid login credentials' > 'Email not confirmed' > 'Too many requests' > the raw message > the default text |
| AuthSession.BiometricTextPriority | lib/hooks/useAuthSession.js:517-526 | the biometric error text is chosen in the order 'cancelada' > 'credenciales guardadas' > the raw message > the default text |
| AuthSession.FriendlyTextIsOnlyFallback | lib/hooks/useAuthSession.js:412-418 | when the thrown error has a non-empty message, `handleError` stores that message, so the mapped friendly text never reaches `error` |
| AuthSession.RefreshDelay | lib/hooks/useAuthSession.js:689-698 | a refresh is scheduled iff the session has an expiry more than 300000 ms away; the delay is `max(timeUntilExpiry - 300000, 1000)`, never below 1000 |
| AuthSession.RefreshTiming | lib/hooks/useAuthSession.js:689-698 | a scheduled refresh fires no earlier than the threshold before expiry (exactly then when at least threshold + 1000 ms remain, later only under the 1000 ms floor), and always before expiry |
| AuthSession.AuthHook.constructor | lib/hooks/useAuthSession.js:104-124 | the hook starts idle, with no session, no error, no login method and no stored credentials flag, so it is neither authenticated, loading nor biometric-capable; the secure-store slots hold what the device had |
| AuthSession.AuthHook.IsAuthenticated | lib/hooks/useAuthSession.js:750 | `isAuthenticated` holds iff `authState` is 'authenticated', and then a session is present |
| AuthSession.AuthHook.IsBiometricAvailable | lib/hooks/useAuthSession.js:751 | `isBiometricAvailable` holds iff a biometric type is known; the constructor makes it false and `Logout` keeps it as it was, since logout never resets the detected biometric type |
| AuthSession.AuthHook.IsLoading | lib/hooks/useAuthSession.js:752 | `isLoading` holds iff `authState` is 'authenticating', and it then excludes `isAuthenticated` |
| AuthSession.AuthHook.ClearError | lib/hooks/useAuthSession.js:126-131 | `error` becomes null; 'error' moves to 'idle' and every other auth state is kept |
| AuthSession.AuthHook.HandleError | lib/hooks/useAuthSession.js:139-157 | the stored error is the string itself, else a non-empty `message`, else the fallback; the state becomes 'error' only when asked to |
| AuthSession.AuthHook.SaveCredentials | lib/hooks/useAuthSession.js:165-179 | credentials are stored iff email and password are non-empty and the store succeeds; otherwise the slot and flag are unchanged and an error is recorded |
| AuthSession.AuthHook.GetCredentials | lib/hooks/useAuthSession.js:185-205 | stored credentials are returned iff the read succeeds and both fields are non-empty; `hasStoredCredentials` follows that answer; a failed read or parse records 'Error al obtener credenciales' (or its own message) and a non-usable pair records 'Credenciales inválidas' |
| AuthSession.AuthHook.ClearCredentials | lib/hooks/useAuthSession.js:211-220 | a successful delete empties the slot and clears the flag; a failed one keeps them and records the error |
| AuthSession.AuthHook.SaveSession | lib/hooks/useAuthSession.js:284-308 | a present session that is stored makes the hook 'authenticated' with that session; a missing session or a failed store sets 'error' and keeps the old session |
| AuthSession.AuthHook.GetSession | lib/hooks/useAuthSession.js:314-334 | the stored session is returned iff the read succeeds, a session is stored and it has not expired at `now`; an expired one is deleted (or the delete error recorded) and null returned; a failed read or parse records its error and keeps the slot |
| AuthSession.AuthHook.RememberLoginMethod | lib/hooks/useAuthSession.js:340-347 | a successful store sets both the login method and its slot; a failed one records the error and keeps them |
| AuthSession.AuthHook.CompleteSignIn | lib/hooks/useAuthSession.js:380-400 | an SDK error, missing session/user or unconfirmed email fails with no change; a failed session store fails with 'error' and changes nothing else (sessions, credentials, flag, method, biometric entry); otherwise the hook is 'authenticated' with the reply's session stored, the credentials and the 'email' method are stored unless their own store failed (then that slot keeps its value), and the error is the later store failure's text, else unchanged |
| AuthSession.AuthHook.SignIn | lib/hooks/useAuthSession.js:369-428 | the request carries the trimmed, lower-cased email; the result is success iff sign-in and session save succeed; a refused reply or a failed session store changes only `authState` and `error` (to the values the source gives, with or without `exception`); on success the credential and method slots follow their store steps and the error is null unless one of those steps failed |
| AuthSession.AuthHook.ReportFailure | lib/hooks/useAuthSession.js:402-428 | with `exception` the failure is handled and rethrown; without it the error is only returned and the hook's state is left as it was |
| AuthSession.AuthHook.EmailLogin | lib/hooks/useAuthSession.js:357-431 | an empty email or password returns (or throws) the required-fields error without touching the state; otherwise the request and every outcome are those of `SignIn`: a refused reply or a failed session store changes only `authState` and `error` and returns or throws the source's result, and success ends 'authenticated' with the credential and method slots following their store steps and the error null unless one of those steps failed |
| AuthSession.AuthHook.Logout | lib/hooks/useAuthSession.js:545-577 | logout always reports success and ends 'idle' (neither authenticated nor loading) with no session, login method or error; each of the session, method and biometric slots is emptied unless its own delete fails (then it keeps its value, silently); credentials are cleared unless their delete fails, which records its error; biometric availability is kept |
| Register.ValidarPassword | screens/Register.js:19-25 | an empty password ticks none of the five requirements |
| Register.RequirementsKeptByTyping | screens/Register.js:19-25 | appending characters never un-ticks a requirement that was met |
| Register.SecureIff | screens/Register.js:19-33 | `esSegura` holds iff the password has at least 8 characters, an A–Z, an a–z, a 0–9 and one of the listed symbols |
| Register.SecureExample | screens/Register.js:19-25 | 'Abcdef1!' is secure and 'abcdef1!' is not |
| Register.ValidateEmail | screens/Register.js:27-30 | an accepted email has at least five characters and contains an '@' and a '.' |
| Register.EmailUnanchored | screens/Register.js:27-30 | the email test is unanchored: any text around a valid email is still accepted |
| Register.EmailNeedsAtAndDot | screens/Register.js:27-30 | an accepted email has an '@' followed later by a '.' |
| Register.EmailExamples | screens/Register.js:27-30 | 'ana@mail.com' is accepted and 'ana@mail' is not |
| Register.HandleRegister | screens/Register.js:35-69 | sign-up is attempted iff the email is valid, the password secure and both passwords equal, checked in that order; 'already registered' maps to 'Correo en uso'; the user row is inserted only when sign-up returned a user |
| Configuracion.ValidarContrasena | screens/Configuracion.js:21-33 | the four settings rules (length, upper case, digit, symbol) give the same answers as the registration rules of the same name |
| Configuracion.RegistrationRuleIsStricter | screens/Configuracion.js:21-33 | every password registration accepts also passes the change-password rule, and 'ABCDEFG1!' shows the converse fails (no lower-case letter is required) |
| Configuracion.SettingsForm.constructor | screens/Configuracion.js:18-19 | both passwords start empty and both `passwordValid` and `passwordMatch` start true |
| Configuracion.SettingsForm.HandlePasswordChange | screens/Configuracion.js:39-44 | the new password is stored, `passwordValid` is recomputed from it and `passwordMatch` compares it with the stored confirmation |
| Configuracion.SettingsForm.HandleConfirmPasswordChange | screens/Configuracion.js:46-49 | the confirmation is stored and `passwordMatch` compares it with the stored password; `passwordValid` is untouched |
| Configuracion.SettingsForm.CambiarContrasena | screens/Configuracion.js:51-67 | the update is sent iff `passwordValid` and `passwordMatch`, rejecting invalid first and mismatched second; the sent password then equals its confirmation |
| Configuracion.SettingsForm.ToggleModoAusente | screens/Configuracion.js:69-72 | away mode is negated and the alert, which reads the old flag, describes the new mode |
| Configuracion.FreshScreenSendsEmptyPassword | screens/Configuracion.js:18-19 | on a freshly opened screen both flags are true, so pressing the button sends an empty password |
| CrearPerfil.NombreValido | screens/CrearPerfil.js:211 | an accepted name is non-empty and holds no digit |
| CrearPerfil.EdadValida | screens/CrearPerfil.js:243 | an accepted age has at least two digits (no single digit exceeds 18) |
| CrearPerfil.DniValido | screens/CrearPerfil.js:261 | an accepted DNI is all digits and `parseInt` reads it as its decimal value |
| CrearPerfil.NameExamples | screens/CrearPerfil.js:211 | names with accented letters are rejected, ASCII names with spaces are accepted, and so is a name of spaces only |
| CrearPerfil.AgeBoundary | screens/CrearPerfil.js:241-244 | '18' is rejected and '19' accepted: the age must exceed 18 |
| CrearPerfil.DniValue | screens/CrearPerfil.js:261 | a valid DNI (exactly 8 digits) parses to an integer in [0, 10^8) |
| CrearPerfil.EdadValue | screens/CrearPerfil.js:160-161 | `parseInt` of a valid age is its decimal value, above 18 |
| CrearPerfil.Validaciones.WithPhoto | screens/CrearPerfil.js:98-102 | setting one photo's flag makes it true, and all eleven flags hold iff the other ten did |
| CrearPerfil.ProfileForm.constructor | screens/CrearPerfil.js:22-47 | every field starts empty, no photo, terms unaccepted and all eleven validation flags false |
| CrearPerfil.ProfileForm.ButtonEnabled | screens/CrearPerfil.js:365-369 | the submit button is enabled iff all eleven flags are true and no upload is running |
| CrearPerfil.ProfileForm.SetNombre | screens/CrearPerfil.js:209-212 | the name is stored and only the `nombre` flag changes, to the name predicate's verdict |
| CrearPerfil.ProfileForm.SetApellido | screens/CrearPerfil.js:224-227 | the surname is stored and only the `apellido` flag changes |
| CrearPerfil.ProfileForm.SetEdad | screens/CrearPerfil.js:239-246 | the age is stored and only the `edad` flag changes |
| CrearPerfil.ProfileForm.SetDni | screens/CrearPerfil.js:259-262 | the DNI is stored and only the `dni` flag changes |
| CrearPerfil.ProfileForm.SetCiudad | screens/CrearPerfil.js:297-300 | the city is stored and only the `ciudad` flag changes (non-empty) |
| CrearPerfil.ProfileForm.SetDomicilio | screens/CrearPerfil.js:321-324 | the address is stored and only the `domicilio` flag changes (non-blank after trim) |
| CrearPerfil.ProfileForm.SetCalle | screens/CrearPerfil.js:336-339 | the street is stored and only the `calle` flag changes (non-blank after trim) |
| CrearPerfil.ProfileForm.SetAceptaTerminos | screens/CrearPerfil.js:353-356 | the checkbox value is stored and only the `terminos` flag changes, to that value |
| CrearPerfil.ProfileForm.StoreFotoPerfil | screens/CrearPerfil.js:98-102 | the profile photo URI is stored and only its flag changes, to true |
| CrearPerfil.ProfileForm.StoreFotoFrente | screens/CrearPerfil.js:98-102 | the DNI-front URI is stored and only its flag changes, to true |
| CrearPerfil.ProfileForm.StoreFotoDorso | screens/CrearPerfil.js:98-102 | the DNI-back URI is stored and only its flag changes, to true |
| CrearPerfil.ProfileForm.SeleccionarImagen | screens/CrearPerfil.js:66-107 | a denied permission only alerts; a granted, non-cancelled pick with an asset stores the first URI and sets that flag; otherwise nothing changes; other photos never change and no flag is reset |
| CrearPerfil.ProfileForm.EnabledButtonPassesChecks | screens/CrearPerfil.js:138-146 | when the button is enabled (and the photo URIs non-empty), the submit handler's presence checks and terms check all pass |
| CrearPerfil.ProfileForm.EnviarFormulario | screens/CrearPerfil.js:137-185 | a missing value or unaccepted terms aborts with its alert and no upload; otherwise the profile update (parsed age and DNI, uploaded URLs) is sent iff a user and all uploads are present, and the upload flag ends false |
| Notificaciones.SenderIds | screens/NotificacionesScreen.js:48 | the sender id list has no duplicates, contains every notification's `emisor_id` and nothing else |
| Notificaciones.FindUser | screens/NotificacionesScreen.js:61 | `find` returns the first user whose id equals the sender id, and nothing iff no user matches |
| Notificaciones.PhotoOf | screens/NotificacionesScreen.js:61-64 | the joined photo is never the empty string (`foto_perfil || null`) |
| Notificaciones.WithPhotos | screens/NotificacionesScreen.js:60-66 | photo enrichment keeps length and order, changes only `foto_perfil`, and sets it to the matching user's photo or null |
| Notificaciones.PhotoOfUnknownSender | screens/NotificacionesScreen.js:61-64 | a sender with no matching user gets no photo |
| Notificaciones.PhotoOfMatchingUser | screens/NotificacionesScreen.js:61-64 | the first matching user's non-empty photo is the one joined |
| Notificaciones.MarkedRead | screens/NotificacionesScreen.js:80 | items with that id become read, only `leido` changes, and every other item is unchanged, with length and order kept |
| Notificaciones.MarkedReadIdempotent | screens/NotificacionesScreen.js:80 | marking the same id twice is marking it once |
| Notificaciones.MarkedReadMonotone | screens/NotificacionesScreen.js:80 | marking never makes a read item unread |
| Notificaciones.Without | screens/NotificacionesScreen.js:88 | every item with that id is removed and every other item is kept |
| Notificaciones.WithoutKeepsOrder | screens/NotificacionesScreen.js:88 | removal keeps the remaining items in their order |
| Notificaciones.WithoutAbsentId | screens/NotificacionesScreen.js:88 | removing an id no item has leaves the list as it was |
| Notificaciones.WithoutIdempotent | screens/NotificacionesScreen.js:88 | removing the same id twice is removing it once |
| Notificaciones.EstadoLabel | screens/NotificacionesScreen.js:309 | the shown state is the row's non-empty `estado`, else 'pendiente' |
| Notificaciones.NewChat | screens/NotificacionesScreen.js:188-195 | the chat created on acceptance has the receiver as `usuario_1` and `contratado_id`, and the sender as `usuario_2` and `contratante_id` |
| Notificaciones.AcceptFlow | screens/NotificacionesScreen.js:115-245 | acceptance always writes 'aceptado' and marks read, then confirms; an existing chat gets one notice and is opened; a missing chat is created, given both notices and opened; a failed lookup or creation shows its error and stays; every write concerns only this notification, user and sender |
| Notificaciones.NotificationsScreen.constructor | screens/NotificacionesScreen.js:16-17 | the list starts empty and loading |
| Notificaciones.NotificationsScreen.CargarNotificaciones | screens/NotificacionesScreen.js:26-69 | the notifications query is sent iff there is a user, for that `receptor_id`, newest `created_at` first; the users query is sent iff it also answered, for exactly `SenderIds` of the rows; with both answered the list becomes the rows joined with their senders' photos, otherwise it is unchanged; loading ends false |
| Notificaciones.NotificationsScreen.MarcarComoLeida | screens/NotificacionesScreen.js:72-83 | a successful update marks that id read in the list; a failed one leaves the list unchanged |
| Notificaciones.NotificationsScreen.EliminarNotificacion | screens/NotificacionesScreen.js:85-90 | a successful delete removes that id from the list; a failed one leaves it unchanged |
| Notificaciones.NotificationsScreen.EliminarTodasNotificaciones | screens/NotificacionesScreen.js:92-102 | a successful delete empties the list; a failed one leaves it unchanged |
| Notificaciones.NotificationsScreen.AceptarNotificacion | screens/NotificacionesScreen.js:104-246 | no user, or a notification without sender or id, aborts with its alert and no write; otherwise the outcome is the acceptance flow and the list is marked read when that update succeeds |
| Notificaciones.NotificationsScreen.RechazarNotificacion | screens/NotificacionesScreen.js:248-260 | the item is removed only when both the 'rechazado' update and the delete succeed; the alert reports whether the update succeeded |
| ChatIndividual.Unread | screens/ChatIndividual.js:74-76 | the unread set is exactly the messages not sent by the current user and not yet read by the receiver |
| ChatIndividual.UnreadKeepsOrder | screens/ChatIndividual.js:74-76 | the unread set keeps the messages' order |
| ChatIndividual.StaleUserSelectsOwnMessages | screens/ChatIndividual.js:58-76 | with the null user id the first load sees, any unread message with a sender is selected, the user's own included |
| ChatIndividual.OwnMessagesNeverMarked | screens/ChatIndividual.js:74-84 | with a known user id, no message of that user is in the set marked read |
| ChatIndividual.ChatScreen.constructor | screens/ChatIndividual.js:19-27 | the screen starts with no messages, an empty input, no user, 0 stars and the rating modal hidden |
| ChatIndividual.ChatScreen.ObtenerUsuario | screens/ChatIndividual.js:41-56 | a returned user id is stored; without one the field is unchanged |
| ChatIndividual.ChatScreen.CargarMensajes | screens/ChatIndividual.js:58-91 | fetched messages replace the list; the mark-read update is issued iff the unread set is non-empty, with exactly those ids in order |
| ChatIndividual.ChatScreen.SetNuevoMensaje | screens/ChatIndividual.js:208 | the input text is stored |
| ChatIndividual.ChatScreen.EnviarMensaje | screens/ChatIndividual.js:96-116 | text blank after trim is never sent; otherwise the message carries the trimmed text, the sender and `leido_por_emisor` true; the input is cleared only after a successful insert |
| ChatIndividual.ChatScreen.SetEstrellas | screens/ChatIndividual.js:164 | tapping star i sets the rating to i |
| ChatIndividual.ChatScreen.RenderEstrellas | screens/ChatIndividual.js:160-175 | exactly five stars, keyed 1..5, star i filled iff i ≤ rating |
| ChatIndividual.SentContentIsTrimmed | screens/ChatIndividual.js:97-105 | sent content is non-empty and already trimmed |
| ChatIndividual.FilledStarsArePrefix | screens/ChatIndividual.js:160-175 | the filled stars form a prefix; all five are filled iff the rating is at least 5, none iff below 1 |
| ChatBot.FaqIdsDistinct | components/ChatBotModal.js:13-26 | there are twelve questions with pairwise distinct ids |
| ChatBot.Filtradas | components/ChatBotModal.js:44-46 | a question is kept iff its lower-cased text contains the lower-cased filter |
| ChatBot.FiltradasKeepOrder | components/ChatBotModal.js:44-46 | the filter keeps the questions' original order |
| ChatBot.EmptyFilterShowsAll | components/ChatBotModal.js:44-46 | an empty filter keeps every question |
| ChatBot.EmptyFilterShowsTwelve | components/ChatBotModal.js:13-26 | with an empty filter all twelve questions are shown |
| ChatBot.FilterIgnoresCase | components/ChatBotModal.js:44-46 | lower-casing the filter first changes nothing |
| ChatBot.ChatBotModal.constructor | components/ChatBotModal.js:29-30 | the conversation and filter start empty |
| ChatBot.ChatBotModal.SetFiltro | components/ChatBotModal.js:111 | the filter text is stored |
| ChatBot.ChatBotModal.EnviarPregunta | components/ChatBotModal.js:33-42 | exactly two entries are appended, user then bot, with the question and answer texts and ids 'u-'/'b-' plus the question id; the old conversation is a prefix and alternation is kept |
| ReporteModal.ReasonsWellFormed | components/servicios/ReporteModal.jsx:8-16 | the first reason is the '' placeholder and reason values are distinct |
| ReporteModal.FormError | components/servicios/ReporteModal.jsx:30-37 | the form is accepted iff a reason is chosen and, for 'other', the details are not blank; an empty reason is reported first |
| ReporteModal.DetailsOnlyForOther | components/servicios/ReporteModal.jsx:34-37 | any chosen reason other than 'other' is accepted, whatever the details |
| ReporteModal.StoredDetails | components/servicios/ReporteModal.jsx:54 | stored details are the trimmed text, or null iff that is empty |
| ReporteModal.StoredDetailsAreTrimmed | components/servicios/ReporteModal.jsx:54 | normalising stored details again changes nothing |
| ReporteModal.ReportForm.constructor | components/servicios/ReporteModal.jsx:25-27 | reason and details start empty and nothing is loading |
| ReporteModal.ReportForm.SetSelectedReason | components/servicios/ReporteModal.jsx:104 | the picked reason is stored |
| ReporteModal.ReportForm.SetDetails | components/servicios/ReporteModal.jsx:123 | the details text is stored |
| ReporteModal.ReportForm.ResetFields | components/servicios/ReporteModal.jsx:74-77 | reason and details are cleared |
| ReporteModal.ReportForm.HandleCancelar | components/servicios/ReporteModal.jsx:79-82 | cancelling clears reason and details and closes the modal |
| ReporteModal.ReportForm.HandleReportSubmit | components/servicios/ReporteModal.jsx:29-72 | a form error or missing service/user rejects before loading starts; otherwise the report (with normalised details) is inserted; success thanks, resets and closes; failure keeps the fields open; loading ends false |
| Login.WithEmail | screens/Login.js:66-72 | an absent email is prepended; a present one leaves the list untouched |
| Login.WithEmailNoDuplicates | screens/Login.js:69 | a duplicate-free list stays duplicate-free |
| Login.WithEmailIdempotent | screens/Login.js:66-72 | saving the same email twice is saving it once |
| Login.Split | screens/Login.js:117 | `split('.')` yields at least one piece, and no piece contains the separator |
| Login.JoinSplit | screens/Login.js:117 | joining the pieces with the separator gives back the token |
| Login.SplitWithoutSep | screens/Login.js:117 | text without the separator splits into itself |
| Login.SplitFirst | screens/Login.js:117 | the first piece ends at the first separator |
| Login.PayloadSegment | screens/Login.js:117 | the payload, when present, is a single segment with no '.' |
| Login.PayloadOfCompactToken | screens/Login.js:117 | for a header.payload.signature token (the compact serialization of section 7.1 of RFC 7515) the payload segment is the middle part |
| Login.ReplaceAll | screens/Login.js:118 | a global replace changes every occurrence of one character and nothing else, keeping the length |
| Login.Base64FromUrl | screens/Login.js:118 | '-' becomes '+' and '_' becomes '/', every other character and the length are kept |
| Login.Base64ToUrl | screens/Login.js:118 | the reverse mapping, '+' to '-' and '/' to '_' |
| Login.FromUrlAlphabet | screens/Login.js:118 | a base64url string (section 5 of RFC 4648) maps into the base64 alphabet (section 4) |
| Login.FromUrlRoundTrip | screens/Login.js:118 | mapping a base64url string to base64 and back gives it back |
| Login.ToUrlRoundTrip | screens/Login.js:118 | mapping a base64 string to base64url and back gives it back |
| Login.DecoderInput | screens/Login.js:117-119 | `atob` receives input iff the token has a payload segment, and that input has the segment's length |
| Login.LoginScreen.constructor | screens/Login.js:54-59 | the saved list is loaded and shown as the suggestions; the form starts empty |
| Login.LoginScreen.GuardarCorreo | screens/Login.js:66-74 | the saved list and the suggestions become the list with the email prepended if absent |
| Login.LoginScreen.HandleLogin | screens/Login.js:76-104 | an unregistered email gets its error with no sign-in attempt; a failed sign-in gets the password error; an unconfirmed user goes to VerificacionPendiente without saving the email; only a confirmed login goes Home, putting a new email first in both the saved list and the suggestions and leaving both alone for a known one |
| Login.LoginScreen.AutenticarConGoogle | screens/Login.js:113-138 | the decoder receives the mapped payload segment; the user goes Home iff a payload exists and the Google email is registered, and then that email is logged in and put first in the saved list and the suggestions when new, with the error message kept; otherwise the saved list, suggestions and logged-in email are unchanged |
| MisServicios.ToggledEstado | screens/MisServicios.js:53 | 'pausado' maps to 'activo' and every other estado, null included, to 'pausado' |
| MisServicios.ToggleTwice | screens/MisServicios.js:53 | toggling twice restores 'activo' or 'pausado' |
| MisServicios.ToggleFromOther | screens/MisServicios.js:53 | any other estado toggles to 'pausado' and then to 'activo' |
| MisServicios.BotonPausa | screens/MisServicios.js:95-97 | the label is 'Reanudar' iff estado is 'pausado', else 'Pausar' |
| MisServicios.ButtonFollowsToggle | screens/MisServicios.js:95-97 | after a toggle the label always changes |
| MisServicios.VecesContratado | screens/MisServicios.js:87 | a missing hire count shows 0, and a present one shows itself; `RenderItem` puts it on the card |
| MisServicios.Calificacion | screens/MisServicios.js:88-90 | a missing rating counts as 0 |
| MisServicios.RenderEstrellas | screens/MisServicios.js:62-75 | exactly five icons, icon i filled iff i ≤ rating |
| MisServicios.FilledCountIsFloor | screens/MisServicios.js:62-75 | the number of filled stars is the rating's floor, clamped to 0..5 |
| MisServicios.NoRatingNoStars | screens/MisServicios.js:88-90 | a missing rating renders no filled star |
| MisServicios.RenderItem | screens/MisServicios.js:76-103 | the card shows the title, description and status, the hire count (0 when missing), five stars keyed 1..5 whose filled count is the floor of the rating clamped to 0..5 (none without a rating), and the pause/resume label of the status |
| MisServicios.MisServiciosScreen.constructor | screens/MisServicios.js:15 | the list starts empty |
| MisServicios.MisServiciosScreen.ObtenerServicios | screens/MisServicios.js:22-43 | without a user an alert is shown; the list is replaced only by a successful query |
| MisServicios.MisServiciosScreen.PausarServicio | screens/MisServicios.js:50-56 | the update sets the toggled estado for that id, then the list follows the reload |
| MisServicios.MisServiciosScreen.EliminarServicio | screens/MisServicios.js:45-48 | the delete is for that id, then the list follows the reload |
| PasarelaPago.CategoriaValida | screens/PasarelaPago.js:80 | a whitelisted category is never the empty string |
| PasarelaPago.HerreroRefused | screens/PasarelaPago.js:8-40 | 'Herrero' is not in the payment whitelist |
| PasarelaPago.WhitelistIsCaseSensitive | screens/PasarelaPago.js:8-40 | membership is exact and case-sensitive: 'DJ' is accepted, 'dj' is not |
| PasarelaPago.GridCategoryOutsideWhitelist | screens/Home.js:218 | a category the home grid offers ('Herrero') is refused by the payment screen |
| PasarelaPago.ClassifyDeepLink | screens/PasarelaPago.js:53-68 | links are tested in the order 'pago-exitoso', 'pago-fallido', 'pago-pendiente'; a link with none is ignored |
| PasarelaPago.SuccessMarkerWins | screens/PasarelaPago.js:53-68 | a link containing both markers counts as a success |
| PasarelaPago.HandleDeepLink | screens/PasarelaPago.js:53-68 | success navigates to ServiciosPorCategoria with the same category; failure or pending goes back; an alert is shown iff there is a navigation, iff the link was not ignored |
| PasarelaPago.PaymentScreen.constructor | screens/PasarelaPago.js:48-49 | no payment URL and not loading |
| PasarelaPago.PaymentScreen.IniciarPago | screens/PasarelaPago.js:78-104 | a request is made iff the category is whitelisted; the URL is set only for an ok response with `init_point`, otherwise an error is shown; loading ends false |
| ChatIA.OtroUsuario | screens/ChatIA.js:49 | the other participant is `usuario_2` when the user is `usuario_1`, else `usuario_1` |
| ChatIA.OtroIsNotMe | screens/ChatIA.js:49 | in a chat between two distinct users that includes the current one, the other participant is the other user |
| ChatIA.UltimoMensaje | screens/ChatIA.js:61 | the preview is the last message's non-empty content, else 'Entra para comenzar a chatear' |
| ChatIA.Resumir | screens/ChatIA.js:63-69 | a summary keeps the chat id and `servicio_id`, and defaults the name to 'Usuario desconocido' and the avatar to the placeholder |
| ChatIA.Resumenes | screens/ChatIA.js:47-70 | there is one summary per chat, in the fetched order, each for that chat's other participant |
| ChatIA.SummariesNeverBlank | screens/ChatIA.js:61-69 | no summary has an empty name, avatar or preview |
| ChatIA.ChatsQueryFor | screens/ChatIA.js:26-39 | the chats query is sent only with a user, filters on that user as either participant and orders by `id` descending |
| ChatIA.QueriedChatNamesOther | screens/ChatIA.js:38-49 | every chat the query returns for the user, between two distinct users, names the other participant, never the user |
| ChatIA.ObtenerChats | screens/ChatIA.js:16-75 | summaries are produced iff there is a user and the chat query succeeded, and they are the summaries of the returned chats for that user |
| PerfilesPendientes.PendingQuery | screens/PerfilesPendientes.js:31-35 | the query returns exactly the rows with `perfil_completo` true and `dni_verificado` false |
| PerfilesPendientes.WithoutUser | screens/PerfilesPendientes.js:48 | every profile with that id is removed and every other is kept |
| PerfilesPendientes.WithoutUserKeepsOrder | screens/PerfilesPendientes.js:48 | removal keeps the other profiles in order |
| PerfilesPendientes.ActionEndsPending | screens/PerfilesPendientes.js:44 | verify (`dni_verificado` true) and reject (`perfil_completo` false) both end the pending state and keep id, name and photo |
| PerfilesPendientes.UpdateTable | screens/PerfilesPendientes.js:43-46 | the update changes only the row with that id |
| PerfilesPendientes.LocalRemovalMatchesRequery | screens/PerfilesPendientes.js:41-76 | removing the user from the loaded list gives exactly what re-running the pending query after the update would return |
| PerfilesPendientes.Avatar | screens/PerfilesPendientes.js:82 | the avatar is the photo, else the generated URL with the name, else with 'U' |
| PerfilesPendientes.AvatarNeverEmpty | screens/PerfilesPendientes.js:82 | the avatar is never empty, and without a photo it is the generated URL |
| PerfilesPendientes.PendingProfilesScreen.constructor | screens/PerfilesPendientes.js:20-21 | the list starts empty and loading |
| PerfilesPendientes.PendingProfilesScreen.ObtenerPerfilesPendientes | screens/PerfilesPendientes.js:29-39 | the list becomes exactly the pending query's answer over the table (so every listed user is pending), or empty when the query returned no data; loading ends false |
| PerfilesPendientes.PendingProfilesScreen.VerificarPerfil | screens/PerfilesPendientes.js:41-51 | a successful verify removes exactly that user and confirms; a failed one leaves the list unchanged |
| PerfilesPendientes.PendingProfilesScreen.RechazarPerfil | screens/PerfilesPendientes.js:53-76 | nothing is sent unless the dialog is confirmed; a successful reject removes exactly that user; a failed one leaves the list unchanged |
| OfrecerServicio.InsertFailedAlert | screens/OfrecerServicio.js:64-74 | a failed insert reports 'No se pudo crear el servicio: ' with the backend message, or the unknown-error text |
| OfrecerServicio.ServiceOfferForm.constructor | screens/OfrecerServicio.js:7-12 | all five fields start empty and no user is known |
| OfrecerServicio.ServiceOfferForm.CargarUsuario | screens/OfrecerServicio.js:26-35 | a returned user id is stored; otherwise an alert and the field unchanged |
| OfrecerServicio.ServiceOfferForm.SetTitulo | screens/OfrecerServicio.js:87 | the title is stored |
| OfrecerServicio.ServiceOfferForm.SetCategoria | screens/OfrecerServicio.js:94 | the picked category is stored |
| OfrecerServicio.ServiceOfferForm.SetHorario | screens/OfrecerServicio.js:109 | the schedule is stored |
| OfrecerServicio.ServiceOfferForm.SetPrecio | screens/OfrecerServicio.js:118 | the price is stored |
| OfrecerServicio.ServiceOfferForm.SetDescripcion | screens/OfrecerServicio.js:127-129 | the description is replaced only by text of at most 300 characters, and otherwise unchanged |
| OfrecerServicio.ServiceOfferForm.HandleSubmit | screens/OfrecerServicio.js:39-75 | an empty field is reported first, a missing user second; otherwise the record is the user id plus the five fields verbatim; success alerts and goes Home, failure shows the backend message |
| EditarServicio.InitialForm | screens/EditarServicio.js:37-41 | the form starts equal to the service's fields |
| EditarServicio.Payload | screens/EditarServicio.js:49-58 | the update has exactly the five form fields, keyed by the unchanged service id |
| EditarServicio.UntouchedFormRewritesService | screens/EditarServicio.js:37-58 | saving an untouched form writes back the service's own values |
| EditarServicio.HandleActualizar | screens/EditarServicio.js:43-65 | an update is attempted iff all five fields are non-empty; success alerts and goes back, failure shows the error |
| EditarServicio.SelectCategoria | screens/EditarServicio.js:120 | selecting a chip sets the category and nothing else |
| EditarServicio.ExactlyOneHighlighted | screens/EditarServicio.js:113-126 | after selecting a chip from a duplicate-free list, exactly that chip is highlighted |
| ServiciosPorCategoria.RequestMessage | screens/ServiciosPorCategoria.js:76 | the request message is 'Un usuario ha solicitado tu servicio: ' followed by the title |
| ServiciosPorCategoria.Hire | screens/ServiciosPorCategoria.js:76-115 | the hire links the service, the buyer as contratante and the owner as contratado; the notification goes from buyer to owner with the message; a push is built iff the owner has a token |
| ServiciosPorCategoria.AcceptedChatMatchesHire | screens/ServiciosPorCategoria.js:78-93 | the chat the owner creates on accepting has the same contratante and contratado as the hire record |
| ServiciosPorCategoria.CategoryScreen.constructor | screens/ServiciosPorCategoria.js:25-30 | no services, no selection and every modal hidden |
| ServiciosPorCategoria.CategoryQuery | screens/ServiciosPorCategoria.js:34-37 | the query returns exactly the table rows of that category, in table order |
| ServiciosPorCategoria.CategoryScreen.FetchServicios | screens/ServiciosPorCategoria.js:33-45 | on success the list becomes the screen's category queried over the table, so every listed service is of that category; a failure alerts and leaves the list unchanged |
| ServiciosPorCategoria.CategoryScreen.AbrirModal | screens/ServiciosPorCategoria.js:50-53 | the service is selected and the detail modal shown |
| ServiciosPorCategoria.CategoryScreen.CerrarModal | screens/ServiciosPorCategoria.js:55-58 | the modal is hidden and the selection cleared |
| ServiciosPorCategoria.CategoryScreen.TocarServicio | screens/ServiciosPorCategoria.js:155-164 | a paused service only alerts; any other estado opens its detail |
| ServiciosPorCategoria.CategoryScreen.HandleReport | screens/ServiciosPorCategoria.js:123-127 | the detail closes, the service is selected and the report modal opens |
| ServiciosPorCategoria.CategoryScreen.ContratarServicio | screens/ServiciosPorCategoria.js:60-120 | the detail closes and the confirmation shows before any request; the hire for the previously selected service is sent iff a user is returned and a service was selected |
| ServiciosPorCategoria.CategoryScreen.Volver | screens/ServiciosPorCategoria.js:231-234 | the confirmation hides and the app goes Home |
| Home.CleanEstado | screens/Home.js:375 | the cleaned status contains no quote and has no white space at either end |
| Home.CountActiveByCategory | screens/Home.js:371-384 | a category is in the map iff some qualifying service has it, and its count is the number of those services |
| Home.EmptyCategoryNeverCounted | screens/Home.js:377 | services with an empty category are never counted |
| Home.InactiveRowIgnored | screens/Home.js:375-377 | a service whose cleaned estado is not 'activo' changes no count |
| Home.QuotedActivoIsActive | screens/Home.js:375 | 'activo' wrapped in any quotes and white space is cleaned to 'activo' |
| Home.QuotesRemovedAround | screens/Home.js:375 | quote removal works piecewise around 'activo' |
| Home.QuotesAndSpacesLeaveSpaces | screens/Home.js:375 | removing quotes from quotes and white space leaves only white space |
| Home.Visible | screens/Home.js:510-512 | with an empty search and the availability filter off every category is visible; with the filter on, a visible category has a count |
| Home.Filtradas | screens/Home.js:509-513 | a category is shown iff its lower-cased name contains the lower-cased search and (the filter is off or its count > 0), in grid order |
| Home.SectionShownIff | screens/Home.js:516 | a section is rendered iff at least one of its categories is shown |
| Home.EmptySearchShowsAll | screens/Home.js:509-513 | an empty search with the filter off shows every category |
| Home.GatesFollowProfile | screens/Home.js:526-533 | hiring and offering go ahead exactly when `perfil_completo` and `dni_verificado` are true, blocking on the same profiles; the DNI banner needs a complete profile |
| Home.ShowsReviewShortcut | screens/Home.js:602 | the pending-profiles shortcut is shown only for a present, non-empty role; after `CargarDatos` it is shown iff the loaded role is 'admin' or 'verificador' |
| Home.Select | screens/Home.js:341-343 | a selected row keeps exactly the chosen columns, with their values |
| Home.UnreadCount | screens/Home.js:346 | the badge count is at most the number of rows |
| Home.BadgeRows | screens/Home.js:341-343 | the badge query returns one row per table row, each keeping only the `mensaje` and `leido` columns it had |
| Home.BadgeAlwaysZero | screens/Home.js:340-347 | with only `mensaje` and `leido` selected, no row has `leido_por_receptor`, so the badge is always 0 |
| Home.HomeScreen.constructor | screens/Home.js:257-270 | the screen starts with no profile flags, a 0 badge, no counts and an empty search |
| Home.HomeScreen.CargarDatos | screens/Home.js:323-358 | without a user nothing changes; a loaded profile sets `perfilCompleto` (exactly true), the DNI banner, the photo and the role, so the profile button follows `perfil_completo` and the review shortcut follows the role; the badge is the unread count of the badge query's rows over the table, which is always 0 |
| Home.HomeScreen.ActualizarConteos | screens/Home.js:360-391 | a successful query replaces the counts with the per-category count of active services; an error leaves them |
| Home.HomeScreen.ToggleSoloConServicios | screens/Home.js:461 | the availability filter is negated |
| Home.HomeScreen.ProfileButtonEnabled | screens/Home.js:435-436 | the profile button is enabled iff the stored flag is set; after `CargarDatos` with a loaded profile, iff that profile's `perfil_completo` is exactly true |
| JsText.BlankIffAllSpace | screens/ChatIndividual.js:97 | text trims to nothing iff every character is white space |
| JsText.TrimIdempotent | components/servicios/ReporteModal.jsx:54 | trimming trimmed text changes nothing |
| JsText.ToLowerIdempotent | components/ChatBotModal.js:44-46 | lower-casing twice is lower-casing once |
| JsText.ParseIntDigits | screens/CrearPerfil.js:160-161 | `parseInt` of a non-empty digit string is its decimal value |

## Left out

- Every Supabase call is a parameter: queries, inserts, updates, deletes, storage uploads, realtime channels and auth SDK calls. The model takes the success/error answer or the returned rows; the database itself is external.
- The device SDKs are parameters or out of scope: SecureStore entries are store slots, and the read, write and delete failures of the modelled transitions are parameters; LocalAuthentication appears only through `checkBiometrics` and `biometricLogin` (below); ImagePicker and FileSystem are a pick result and an uploads parameter.
- The auth hook's caller-supplied callbacks `onError` (lib/hooks/useAuthSession.js:150-156), `onAuthSuccess` (295-300), `onAuthError` (419-424, 529-534) and `onBiometricSuccess` (507-512) are calls into code outside the hook; each is wrapped so that its own exception is only logged, so it leaves the hook's state as the model states it.
- AuthSession.AuthHook.GetCredentials and AuthSession.AuthHook.GetSession: the stored value is a typed slot, so a read error and a `JSON.parse` error are one `readFailure` parameter; malformed JSON text itself is not modelled.
- ChatBot.ChatBotModal.EnviarPregunta: the two `Date.now()` reads for the ids are one `now`, so ids that differ because the clock ticked between the reads are not modelled.
- Notificaciones.Notificacion and PerfilesPendientes.Usuario carry the columns the logic reads; `receptor_id`, `created_at` and the other selected columns are not fields, so the order and receptor filter of the notifications query are stated on the query value only.
- `checkBiometrics`, `biometricLogin`, `initializeAuth` and `onAuthStateChange` in the auth hook: device and event plumbing around the modelled transitions. Only their error-text mapping (`AuthSession.BiometricTextPriority`) is modelled.
- Timers and polling are async scheduling: the refresh `setTimeout` callback, the 3 s chat polling and the verification polling. Only the refresh-delay arithmetic is modelled.
- `Date.now()` and `new Date().toISOString()` are passed in as parameters (`now`, `createdAt`).
- External endpoints: the Expo push HTTP call, the payment backend fetch, the MercadoPago proxy, the Hugging Face chat and the Maps WebView. The push is modelled only as the record that would be sent.
- `JSON.parse` and `atob`: Login models only the payload segment and the base64url-to-base64 mapping that feed `atob`.
- Login.LoginScreen.HandleLogin: the sign-in answer is reduced to "error" or "signed in with this `email_confirmed_at`"; the registration lookup is a boolean parameter.
- JsText.ToLower: `toLowerCase` is modelled as ASCII lower-casing; other Unicode case mappings are not.
- JsText: lengths count code points; JavaScript's UTF-16 `length` differs for characters outside the Basic Multilingual Plane (relevant to the 300-character description cap).
- JsText.ParseInt: only the decimal case with unbounded integers; the floating-point precision loss of very long digit strings is not modelled (ages and DNIs are short).
- MisServicios.Calificacion: the rating is a `real`, not an IEEE double.
- Static UI data are not part of this model: the category picker lists of OfrecerServicio and EditarServicio and styling. The home grid sections and the payment whitelist are modelled as constants because properties depend on them.
- Screens with no logic are not part of this model: App, SplashScreen, DniPendiente, ConfirmacionServicio, CategoriaElectricista, Perfil, HabilitarHuella, ModalFooter, NavInferior, useUserData, obtenerUsuarioActual and uploadImage.
- Alerts and toasts are values returned by the methods; navigation is a returned target or flag.
- Concurrency between overlapping async handlers is not modelled: each handler runs to completion on the state it reads, with stale reads made explicit where the source has them.
