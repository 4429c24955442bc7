/**
 * The playback controller (controller/SpotifyController.js): issues a
 * command through the player client, refreshes the access token once when
 * the answer says it expired, re-issues the same command once after a
 * successful refresh, and reduces the final answer to a boolean.
 */
module Controller {
  import opened Http
  import opened Player
  import opened Authorization
  import opened Config

  const ExpiredTokenMessage := "The access token expired"

  /**
   * How a handler call settles: with a boolean, or by rejecting with the
   * TypeError that reading a property of a missing object raises.
   */
  datatype Outcome = Done(ok: bool) | Crash

  /** A 401 whose error message is exactly the expired-token text: the only answer that triggers a refresh. */
  predicate IsExpiredTokenError(r: Response)
  {
    r.Resp? && r.response.status == 401 && r.response.error.Some?
    && r.response.error.value.message == Some(ExpiredTokenMessage)
  }

  /** A 401 without `data.error`: reading its `message` throws. */
  predicate LacksErrorOn401(r: Response)
  {
    r.Resp? && r.response.status == 401 && r.response.error.None?
  }

  /** The text logged for a failed call: the error's message when the body has an error, else the status text. */
  function FailureMessage(r: HttpResponse): (m: string)
    ensures r.error.Some? && r.error.value.message.Some? ==> m == r.error.value.message.value
    ensures r.error.None? && r.statusText.Some? ==> m == r.statusText.value
  {
    match r.error
    case Some(e) => JsText(e.message)
    case None => JsText(r.statusText)
  }

  /** `${x}` for a value that may be `undefined`. */
  function JsText(s: Option<string>): string
  {
    match s
    case Some(t) => t
    case None => "undefined"
  }

  /**
   * The decision the handler makes: its outcome, whether it refreshed the
   * token, whether it re-issued the command, and the message it logs when it
   * returns `false` for an answered call.
   */
  datatype Verdict = Verdict(outcome: Outcome, refreshed: bool, retried: bool, report: Option<string>)

  /** Evaluation of the final response (the success test and the failure log). */
  function Evaluate(r: Response, refreshed: bool, retried: bool): Verdict
  {
    if r.NoResponse? then Verdict(Crash, refreshed, retried, None)
    else if r.response.status < 300 then Verdict(Done(true), refreshed, retried, None)
    else Verdict(Done(false), refreshed, retried, Some(FailureMessage(r.response)))
  }

  /**
   * The handler's decision for the player's first answer `result`, given what
   * a refresh would report (`refreshOk`) and what the re-issued command would
   * be answered (`retry`). Neither is consulted unless the protocol calls for it.
   */
  function Handle(result: Response, refreshOk: bool, retry: Response): (v: Verdict)
    // no answer: false at once, no refresh, no retry
    ensures result.NoResponse? ==> v == Verdict(Done(false), false, false, None)
    // a refresh happens exactly for the expired-token 401, a retry exactly after a successful refresh
    ensures v.refreshed <==> IsExpiredTokenError(result)
    ensures v.retried <==> IsExpiredTokenError(result) && refreshOk
    // the two ways the handler throws
    ensures v.outcome == Crash <==> LacksErrorOn401(result) || (v.retried && retry.NoResponse?)
    // otherwise the last answer decides: true exactly when its status is below 300
    ensures var last := if v.retried then retry else result;
      last.Resp? && !LacksErrorOn401(result) ==> v.outcome == Done(last.response.status < 300)
    ensures var last := if v.retried then retry else result;
      v.report.Some? <==> last.Resp? && !LacksErrorOn401(result) && last.response.status >= 300
    ensures var last := if v.retried then retry else result;
      v.report.Some? ==> v.report.value == FailureMessage(last.response)
    // a failed refresh leaves the original 401 to be evaluated: false
    ensures IsExpiredTokenError(result) && !refreshOk ==> v.outcome == Done(false)
    // an expired token again after the retry: false, and the refresh is not repeated
    ensures v.retried && IsExpiredTokenError(retry) ==> v.outcome == Done(false)
  {
    if result.NoResponse? then Verdict(Done(false), false, false, None)
    else if LacksErrorOn401(result) then Verdict(Crash, false, false, None)
    else if IsExpiredTokenError(result) && refreshOk then Evaluate(retry, true, true)
    else Evaluate(result, IsExpiredTokenError(result), false)
  }

  /**
   * URIParser: an absent or empty link is returned as it is; otherwise the
   * link is normalised by `formatURI` (the spotify-uri library, not part of
   * this model; `None` stands for the exception it throws), and a link it
   * rejects becomes `null`. Nothing is thrown.
   */
  function URIParser(uri: Option<string>, formatURI: string -> Option<string>): (r: Option<string>)
    ensures !Truthy(uri) ==> r == uri
    ensures Truthy(uri) && formatURI(uri.value).None? ==> r.None?
    ensures Truthy(uri) && formatURI(uri.value).Some? ==> r == formatURI(uri.value)
  {
    if !Truthy(uri) then uri
    else match formatURI(uri.value)
      case Some(canonical) => Some(canonical)
      case None => None
  }

  /** The JavaScript values the follow-up guard can see. */
  datatype JsValue = JsBool(b: bool) | JsPromise(settlesTo: Outcome)

  /** JavaScript truthiness: a promise is an object, and every object is truthy. */
  predicate JsTruthy(v: JsValue)
  {
    match v
    case JsBool(b) => b
    case JsPromise(_) => true
  }

  /** The condition `playlistURI && success` guarding the follow-up shuffle of playPlaylist. */
  predicate FollowUpGuard(playlistURI: Option<string>, success: JsValue)
  {
    Truthy(playlistURI) && JsTruthy(success)
  }

  /**
   * In playPlaylist `success` is the un-awaited promise of the handler, so the
   * follow-up fires for every given link, whatever the call's outcome. The
   * accompanying comment means the awaited boolean: that rule fires only
   * after success, and the two disagree on every failed or crashed call.
   */
  lemma FollowUpIgnoresOutcome(playlistURI: Option<string>, o: Outcome)
    ensures FollowUpGuard(playlistURI, JsPromise(o)) <==> Truthy(playlistURI)
    ensures FollowUpGuard(playlistURI, JsBool(o == Done(true))) <==> Truthy(playlistURI) && o == Done(true)
    ensures Truthy(playlistURI) && o != Done(true) ==>
      FollowUpGuard(playlistURI, JsPromise(o)) && !FollowUpGuard(playlistURI, JsBool(o == Done(true)))
  {
  }

  /** Everything fixed while the controller runs: the device, the scripted network, the token request. */
  datatype Env = Env(deviceId: string, playerReplies: nat -> AxiosResult, tokenPost: TokenPost, tokenReplies: nat -> TokenReply)

  /** Everything the controller's calls change or read: the two request logs, the token and the shuffle setting. */
  datatype World = World(sent: seq<PlayerRequest>, posts: seq<TokenPost>, accessToken: string, shuffleSetting: bool)

  /** #resultHandler as a state transition: the refresh and the retry happen only when Handle says so. */
  function ResultHandlerSpec(e: Env, w: World, result: Response, cmd: Command): (Outcome, World)
  {
    var refresh := RefreshStep(e.tokenPost, e.tokenReplies, w.posts, w.accessToken);
    var retry := Dispatch(e.deviceId, e.playerReplies, w.sent, w.shuffleSetting, refresh.accessToken, cmd);
    var v := Handle(result, refresh.ok, retry.result);
    var w1 := if v.refreshed then w.(posts := refresh.posts, accessToken := refresh.accessToken) else w;
    (v.outcome, if v.retried then w1.(sent := retry.sent) else w1)
  }

  /** One command wrapper (pauseSong, nextSong, previousSong, shufflePlaylist, setVolume, and the play call itself). */
  function InvokeSpec(e: Env, w: World, cmd: Command): (Outcome, World)
  {
    var first := Dispatch(e.deviceId, e.playerReplies, w.sent, w.shuffleSetting, w.accessToken, cmd);
    ResultHandlerSpec(e, w.(sent := first.sent), first.result, cmd)
  }

  /** playPlaylist: the play call, then the follow-up shuffle with the persisted setting when the guard holds. */
  function PlayPlaylistSpec(e: Env, w: World, playlistURI: Option<string>, formatURI: string -> Option<string>): (Outcome, World)
  {
    var (o, w1) := InvokeSpec(e, w, Play(URIParser(playlistURI, formatURI)));
    if FollowUpGuard(playlistURI, JsPromise(o)) then (o, InvokeSpec(e, w1, Shuffle(w.shuffleSetting)).1) else (o, w1)
  }

  /**
   * Per handler call: at most one refresh and at most one retry; no effect at
   * all for a `null` answer; a refresh only for the expired-token 401; the
   * retry re-sends the same command with the token just granted; a failed
   * refresh leaves the token as it was.
   */
  lemma ResultHandlerEffects(e: Env, w: World, result: Response, cmd: Command)
    ensures var (o, w') := ResultHandlerSpec(e, w, result, cmd);
      && w'.shuffleSetting == w.shuffleSetting
      && (result.NoResponse? ==> o == Done(false) && w' == w)
      && (w'.posts == w.posts || w'.posts == w.posts + [e.tokenPost])
      && (w'.posts != w.posts <==> IsExpiredTokenError(result))
      && (w'.sent == w.sent || w'.sent == w.sent + [BuildRequest(cmd, e.deviceId, w.shuffleSetting, w'.accessToken)])
      && (w'.sent != w.sent ==> w'.posts != w.posts && e.tokenReplies(|w.posts|) == TokenGranted(w'.accessToken))
      && (w'.accessToken != w.accessToken ==> e.tokenReplies(|w.posts|).TokenGranted?)
  {
  }

  /** Per command: one or two player requests and at most one token request. */
  lemma InvokeEffects(e: Env, w: World, cmd: Command)
    ensures var (o, w') := InvokeSpec(e, w, cmd);
      && |w.sent| + 1 <= |w'.sent| <= |w.sent| + 2
      && |w.posts| <= |w'.posts| <= |w.posts| + 1
      && w'.sent[|w.sent|] == BuildRequest(cmd, e.deviceId, w.shuffleSetting, w.accessToken)
  {
  }

  /**
   * The play call's result does not depend on the follow-up; the follow-up
   * shuffle request, carrying the persisted setting, is sent exactly when a
   * link was given, even when the play failed; a link the parser rejects
   * resumes current playback (no body) and is still followed by the shuffle.
   */
  lemma PlayPlaylistFollowUp(e: Env, w: World, playlistURI: Option<string>, formatURI: string -> Option<string>)
    ensures var uri := URIParser(playlistURI, formatURI);
      var (o1, w1) := InvokeSpec(e, w, Play(uri));
      var (o, w') := PlayPlaylistSpec(e, w, playlistURI, formatURI);
      && o == o1
      && (Truthy(playlistURI) <==> |w'.sent| > |w1.sent|)
      && (Truthy(playlistURI) ==>
            w'.sent[|w1.sent|] == BuildRequest(Shuffle(w.shuffleSetting), e.deviceId, w.shuffleSetting, w1.accessToken))
      && (!Truthy(playlistURI) ==> w' == w1)
      && (Truthy(playlistURI) && formatURI(playlistURI.value).None? ==> w'.sent[|w.sent|].body.None?)
  {
  }

  /**
   * The controller. It shares one token store with the player client and the
   * refresher.
   */
  class SpotifyController {
    const player: SpotifyPlayer
    const auth: SpotifyAuthorization
    const store: TokenStore

    ghost predicate Valid()
    {
      player.store == store && auth.store == store
    }

    constructor (deviceId: string, clientId: string, clientSecret: string, refreshToken: string,
                 base64: string -> string, playerReplies: nat -> AxiosResult, tokenReplies: nat -> TokenReply,
                 accessToken: string, shufflePlaylist: bool)
      ensures Valid()
      ensures Setup().deviceId == deviceId && Setup().playerReplies == playerReplies && Setup().tokenReplies == tokenReplies
      ensures Setup().tokenPost == TokenPost(TokenUrl, GetData(refreshToken), GetHeaders(clientId, clientSecret, base64))
      ensures State() == World([], [], accessToken, shufflePlaylist)
      ensures fresh(player) && fresh(auth) && fresh(store)
    {
      var s := new TokenStore(accessToken, shufflePlaylist);
      store := s;
      player := new SpotifyPlayer(deviceId, s, playerReplies);
      auth := new SpotifyAuthorization(clientId, clientSecret, refreshToken, base64, s, tokenReplies);
    }

    function Setup(): Env
    {
      Env(player.deviceId, player.replies, auth.Post(), auth.replies)
    }

    function State(): World
      reads player, auth, store
    {
      World(player.sent, auth.posts, store.accessToken, store.shufflePlaylist)
    }

    /** #resultHandler: the refresh-and-retry protocol over the live collaborators. */
    method ResultHandler(result: Response, cmd: Command) returns (o: Outcome)
      requires Valid()
      modifies player, auth, store
      ensures (o, State()) == ResultHandlerSpec(Setup(), old(State()), result, cmd)
    {
      if result.NoResponse? {
        return Done(false);
      }
      var response := result;
      if response.response.status == 401 {
        if response.response.error.None? {
          // `response.data.error.message` on a missing error object
          return Crash;
        }
        if response.response.error.value.message == Some(ExpiredTokenMessage) {
          var refreshed := auth.RefreshToken();
          if refreshed {
            response := player.Send(cmd);
          }
        }
      }
      if response.NoResponse? {
        // `response.status` on the `null` a failed retry returns
        return Crash;
      }
      return Done(response.response.status < 300);
    }

    /** The command wrappers: call the player once, then let the handler decide. */
    method Invoke(cmd: Command) returns (o: Outcome)
      requires Valid()
      modifies player, auth, store
      ensures (o, State()) == InvokeSpec(Setup(), old(State()), cmd)
    {
      var result := player.Send(cmd);
      o := ResultHandler(result, cmd);
    }

    /**
     * playPlaylist: parse the link, play it (or resume when there is none),
     * then shuffle with the persisted setting whenever a link was given. The
     * follow-up's own result is dropped.
     */
    method PlayPlaylist(playlistURI: Option<string>, formatURI: string -> Option<string>) returns (o: Outcome)
      requires Valid()
      modifies player, auth, store
      ensures (o, State()) == PlayPlaylistSpec(Setup(), old(State()), playlistURI, formatURI)
    {
      var uri := URIParser(playlistURI, formatURI);
      o := Invoke(Play(uri));
      if FollowUpGuard(playlistURI, JsPromise(o)) {
        var _ := Invoke(Shuffle(store.shufflePlaylist));
      }
    }
  }
}
