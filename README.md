# Spotify playback mediator: refresh-and-retry core

This project models the core of a small mediator between a local caller and
the Spotify Web API player: six playback commands (play a playlist or resume,
pause, next, previous, shuffle, volume) sent to a device-scoped remote player,
and the recovery from an expired access token. After the expired-token answer
the controller refreshes the token once. If the refresh succeeds, it re-issues
the same command once. It then reduces the final answer to a boolean.

Three source files make up the core, each modelled in its own module:

- `controller/SpotifyController.js` → module `Controller` (controller.dfy).
  It holds the handler's decision as the pure function `Handle` over the
  first answer, the refresh's boolean and the retry's answer. The calls are
  also modelled as state transitions over a `World`: the two request logs,
  the token and the shuffle setting (`ResultHandlerSpec`, `InvokeSpec`,
  `PlayPlaylistSpec`). The class `SpotifyController` runs the protocol
  step by step against the live collaborators and is proved equal to those
  transitions.
- `spotify/SpotifyPlayer.js` → module `Player` (player.dfy). It holds the
  command→(method, URL) table, the play body, the bearer header, the
  mapping of a settled axios request to a response or `null`, and the class
  `SpotifyPlayer`, which logs every request it sends.
- `spotify/SpotifyAuthorization.js` → module `Authorization`
  (authorization.dfy). It holds the refresh-token grant (section 6 of
  RFC 6749), the Basic client credentials (section 2 of RFC 7617), and the
  class `SpotifyAuthorization`, whose `RefreshToken` writes the store only
  when a token was granted.

Supporting modules: `Http` (response and axios value shapes), `Text`
(`${n}` and `${b}` rendering, with parsers that invert it), `Config` (the
token store that ConfigReaderWriter persists), and `Scenarios`. `Scenarios`
holds clients that replay the situations of tests/SpotifyController.test.js
with a scripted network.

Modelling choices:

- The network is an input. Each collaborator has a total function `nat -> reply`
  that answers its n-th request (an infinite scripted sequence). Each
  collaborator also records the requests it sends (`sent`, `posts`), so
  "how many refreshes and retries" is a statement about those logs.
- JavaScript `null` and `undefined` are both `None`. A link is falsy when it is
  absent or empty. A missing response body and a body without `error` are
  both `error == None`, because the handler treats them alike.
- The handler can fail by throwing a TypeError, which rejects the async
  handler's promise. This is the outcome `Crash`. It happens for a 401
  without `data.error` (controller/SpotifyController.js:99) and for a
  successful refresh followed by a retry that got no answer (:105).
- One `TokenStore` object stands for the three ConfigReaderWriter instances.
  The core never writes the settings. The player re-reads the token on every
  request, so sharing one store gives the same values the source reads.

## Code versus its comments

- controller/SpotifyController.js:26 says the follow-up shuffle runs only
  when the call succeeded. At :24, `success` is the handler's promise, which
  is not awaited. A promise is always truthy, so the follow-up runs for every
  truthy `playlistURI`, including after a failure or a throw. The model
  follows the code. `FollowUpIgnoresOutcome` shows that the awaited guard and
  the guard as written differ on every unsuccessful outcome.
- The guard tests the raw `playlistURI`, not the parsed link. A link that
  `formatURI` rejects becomes `null`. The play request then has no body and
  resumes current playback, and the shuffle still follows
  (`PlayPlaylistFollowUp`).
- The doc comments of the command wrappers promise a boolean
  (controller/SpotifyController.js:18, :35, :45, :55, :66, :77). In the two
  `Crash` cases above the wrapper's promise rejects with a TypeError instead.

## Model

| member | source | states |
|---|---|---|
| Controller.Handle | controller/SpotifyController.js:92-112 | `null` gives false with no refresh and no retry. The token is refreshed iff the answer is a 401 whose error message is exactly 'The access token expired'. The command is re-issued iff that refresh succeeded. The handler throws iff a 401 lacks `data.error` or the retry got no answer. Otherwise the last answer gives true iff its status is below 300. A failed refresh gives false. An expired token again after the retry gives false. A failure logs the message chosen by FailureMessage |
| Controller.FailureMessage | controller/SpotifyController.js:109 | the logged text is the error's message when the body has an error, else the status text |
| Controller.URIParser | controller/SpotifyController.js:119-130 | a falsy link is returned unchanged; a link the library rejects gives `null`; otherwise the library's canonical form; never throws |
| Controller.FollowUpIgnoresOutcome | controller/SpotifyController.js:24-29 | with the un-awaited promise the guard reduces to "a link was given". The awaited boolean would also require success. The two rules disagree on every failed or thrown call |
| Controller.ResultHandlerEffects | controller/SpotifyController.js:92-112 | per handler call: at most one token POST and at most one re-sent request. `null` changes nothing. A POST is sent iff the answer is the expired-token 401. The retry is the same command with the token just granted. The token changes only when a token was granted |
| Controller.InvokeEffects | controller/SpotifyController.js:37-83 | per command: one or two player requests, the first with the current token; at most one token POST |
| Controller.PlayPlaylistFollowUp | controller/SpotifyController.js:20-31 | playPlaylist returns the play call's outcome. A shuffle request with the persisted setting follows iff the raw link is truthy, whatever the outcome. Without a link nothing follows. A link the parser rejects is sent as a bodiless resume and is still followed by the shuffle |
| Controller.SpotifyController.ResultHandler | controller/SpotifyController.js:92-112 | the step-by-step handler over the live player and refresher has exactly the outcome and effects of ResultHandlerSpec |
| Controller.SpotifyController.Invoke | controller/SpotifyController.js:37-83 | pauseSong, nextSong, previousSong, shufflePlaylist and setVolume (and the play call): one player call, then the handler; equal to InvokeSpec |
| Controller.SpotifyController.PlayPlaylist | controller/SpotifyController.js:20-31 | parse, play, then the guarded follow-up shuffle with the stored setting; equal to PlayPlaylistSpec |
| Controller.SpotifyController.constructor | controller/SpotifyController.js:8-12 | the player, the refresher and the controller share one store; no request has been sent yet |
| Player.Endpoint | spotify/SpotifyPlayer.js:20-89 | next and previous are POST, the other four PUT. Every URL is exactly the player base URL, the command's path and `device_id=<device>`, with nothing between them. Shuffle adds `state=<true/false>`; volume adds `volume_percent=<n>` |
| Player.EndpointDeterminesCommand | spotify/SpotifyPlayer.js:20-89 | the table is one-to-one: equal URLs mean the same command with the same state and volume. Plays are the exception, since their link travels in the body |
| Player.GetBody | spotify/SpotifyPlayer.js:117-125 | no body (`null`, resume) iff the link is falsy. Otherwise `context_uri` is the link, without an offset iff the shuffle setting is on, and with offset position 0 when it is off |
| Player.BearerHeader | spotify/SpotifyPlayer.js:105-110 | the Authorization header is the bearer scheme of section 2.1 of RFC 6750 and carries exactly the given token |
| Player.BuildRequest | spotify/SpotifyPlayer.js:20-89 | a request goes to the command's endpoint and carries the store's current token. Only a play with a link has a body, and that body is GetBody's |
| Player.ErrorHandler | spotify/SpotifyPlayer.js:97-103 | an error with a response yields that response unchanged; an error without one yields `null` |
| Player.PlayerResult | spotify/SpotifyPlayer.js:20-89 | whatever the server answered, success or error status, is returned unchanged; `null` only when there was no answer; nothing is thrown |
| Player.SpotifyPlayer.Send | spotify/SpotifyPlayer.js:20-89 | equal to Dispatch: exactly one request is logged, built from the store's current settings and token; the result is that request's reply as PlayerResult maps it |
| Player.SpotifyPlayer.constructor | spotify/SpotifyPlayer.js:7-12 | the client starts with no requests sent |
| Text.NatText | spotify/SpotifyPlayer.js:85 | `${n}` of a non-negative integer is a non-empty string of digits without a leading zero |
| Text.IntText | spotify/SpotifyPlayer.js:85 | `${n}` of any integer is a well-formed decimal |
| Text.NatTextRoundTrip | spotify/SpotifyPlayer.js:85 | the printed digits read back as the number |
| Text.IntTextRoundTrip | spotify/SpotifyPlayer.js:85 | every volume, in range or not, is printed so that it reads back as itself (no clamping) |
| Config.TokenStore.WriteAccessToken | spotify/SpotifyAuthorization.js:28 | the new token replaces the stored one; the settings are unchanged |
| Authorization.GetData | spotify/SpotifyAuthorization.js:38-43 | the form fields are `grant_type=refresh_token` and the configured refresh credential (section 6 of RFC 6749) |
| Authorization.GetHeaders | spotify/SpotifyAuthorization.js:45-52 | the Authorization header is `Basic ` followed by the encoding of `clientId:clientSecret` (section 2 of RFC 7617). The content type is `application/x-www-form-urlencoded` |
| Authorization.CredentialsRoundTrip | spotify/SpotifyAuthorization.js:48 | splitting the credentials at their first colon recovers the client id and the secret when the id has no colon |
| Authorization.RefreshReportsGrant | spotify/SpotifyAuthorization.js:20-36 | about RefreshStep, the transition a refresh performs: exactly one POST is logged. The result is true iff a token was granted, and then the stored token is the granted one. An error status or an unreachable endpoint gives false and leaves the stored token unchanged |
| Authorization.SpotifyAuthorization.RefreshToken | spotify/SpotifyAuthorization.js:20-36 | equal to RefreshStep: one POST, never retried. A granted token is written to the store and gives true. An error status or a transport failure gives false and writes nothing. Never throws |
| Authorization.SpotifyAuthorization.constructor | spotify/SpotifyAuthorization.js:9-14 | the refresher starts with no POST sent |

## Left out

- Logging: the logger calls and their text are not modelled. This covers the operation name from `callback.name`, the `'shufflePlaylist'` label in the volume error path (spotify/SpotifyPlayer.js:87) and the refresher's error summary (spotify/SpotifyAuthorization.js:31). The message the handler would log is modelled (`Verdict.report`).
- The HTTP transport (axios) is replaced by scripted replies. Which statuses axios rejects is not modelled. It does not matter here: both a fulfilled request and a rejected one that carries a response give the same result.
- Form encoding of the token request body (qs.stringify) is not modelled. The body is kept as its record of fields.
- Base64 encoding (Buffer) and link normalisation (spotify-uri formatURI) are foreign library calls. They are parameters: `base64` and `formatURI`, where `None` means formatURI threw.
- ConfigReaderWriter and dotenv (file persistence, environment loading) are not part of this model. Their values are constructor parameters and a shared `TokenStore`. The environment is taken to be loaded: when `dotenv.config().parsed` is undefined (spotify/SpotifyAuthorization.js:12), `#getHeaders` and `#getData` throw outside the `try` (:21-22) and `refreshToken` rejects, so its "never throws" holds only under that assumption.
- A failing `writeAccessToken` (spotify/SpotifyAuthorization.js:28) is not modelled: the write is taken to succeed.
- A 2xx token answer without `access_token`, which would store `undefined`, is not modelled.
- A throw inside the refresher's catch block is not modelled. It would happen if the error response had no `data` (:31).
- Timing of the un-awaited follow-up shuffle is not modelled. The model runs it after the play call's handler has finished, as one more command. In the source, when the play gets the expired-token 401, the follow-up starts while `refreshToken` still awaits its POST (spotify/SpotifyAuthorization.js:26). The shuffle request is built at once (controller/SpotifyController.js:28, spotify/SpotifyPlayer.js:72 via `#getConfig`), so it carries the token from before the refresh and will usually start a second refresh of its own. In the model it carries the token the play's refresh granted (`PlayPlaylistFollowUp` states this of the model only). A rejection of the follow-up is an unhandled promise rejection in the source; the model drops its outcome.
- JavaScript values outside the modelled types are not modelled. This covers a volume that is not an integer, a missing shuffle state or volume (printed as `undefined`), integers of 1e21 and beyond (printed in exponent form), and a response without a status.
- The order in which the player evaluates its arguments is not modelled: `#getBody` reads the settings of the previous ConfigReaderWriter instance before `#getConfig` replaces it. The core never writes the settings, so both read the same values.
