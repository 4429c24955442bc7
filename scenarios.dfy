/**
 * Clients of the controller, with a scripted network. They replay the
 * situations of tests/SpotifyController.test.js (an answered play, a 403,
 * no answer, a refused refresh, a refresh after which the token is still
 * expired) and add the path where a granted refresh is followed by a
 * successful retry, plus the two answers that make the handler throw. Each is
 * proved from the controller's contracts alone.
 */
module Scenarios {
  import opened Http
  import opened Player
  import opened Authorization
  import opened Controller

  const Expired401 := HttpResponse(401, Some(ApiError(Some(ExpiredTokenMessage))), None)
  const Ok200 := HttpResponse(200, None, None)

  function Encode(s: string): string
  {
    s
  }

  function NoLink(s: string): Option<string>
  {
    None
  }

  /** Play with a link, answered 200: true, and the follow-up shuffle goes out with the persisted setting. */
  method PlayThenShuffle()
  {
    var c := new SpotifyController("dev", "id", "secret", "refresh", Encode,
      (n: nat) => Fulfilled(Ok200), (n: nat) => TokenUnreachable, "old", true);
    var o := c.PlayPlaylist(Some("URI"), NoLink);
    assert o == Done(true);
    assert |c.player.sent| == 2;
    assert c.player.sent[0].body.None?;  // the link did not parse: playback resumes
    assert c.player.sent[1] == BuildRequest(Shuffle(true), "dev", true, "old");
  }

  /** Pause answered 403 "not found": false, no refresh, logged with the status text. */
  method PauseForbidden()
  {
    var answer := HttpResponse(403, None, Some("not found"));
    var c := new SpotifyController("dev", "id", "secret", "refresh", Encode,
      (n: nat) => Rejected(AxiosError(Some(answer))), (n: nat) => TokenGranted("new"), "old", false);
    var o := c.Invoke(Pause);
    assert o == Done(false);
    assert c.auth.posts == [] && |c.player.sent| == 1;
    assert Handle(Resp(answer), true, NoResponse).report == Some("not found");
  }

  /** Next answered with the expired-token 401, refresh granted, retry answered 200: true, and the retry carries the new token. */
  method NextAfterRefresh()
  {
    var c := new SpotifyController("dev", "id", "secret", "refresh", Encode,
      (n: nat) => if n == 0 then Rejected(AxiosError(Some(Expired401))) else Fulfilled(Ok200),
      (n: nat) => TokenGranted("new"), "old", false);
    var o := c.Invoke(Next);
    assert o == Done(true);
    assert |c.auth.posts| == 1 && |c.player.sent| == 2;
    assert c.player.sent[0].authorization == "Bearer old";
    assert c.player.sent[1].authorization == "Bearer new";
    assert c.store.accessToken == "new";
  }

  /** Previous with no answer at all: false at once, no refresh, no retry. */
  method PreviousUnreachable()
  {
    var c := new SpotifyController("dev", "id", "secret", "refresh", Encode,
      (n: nat) => Rejected(AxiosError(None)), (n: nat) => TokenGranted("new"), "old", false);
    var o := c.Invoke(Previous);
    assert o == Done(false);
    assert c.auth.posts == [] && |c.player.sent| == 1;
  }

  /** The token stays expired after a successful refresh: false, and the refresh is not repeated. */
  method StillExpiredAfterRefresh()
  {
    var c := new SpotifyController("dev", "id", "secret", "refresh", Encode,
      (n: nat) => Rejected(AxiosError(Some(Expired401))), (n: nat) => TokenGranted("new"), "old", false);
    var o := c.Invoke(SetVolume(150));
    assert o == Done(false);
    assert |c.auth.posts| == 1 && |c.player.sent| == 2;
  }

  /** The refresh fails: the original 401 decides, false, and the token is untouched. */
  method RefreshRefused()
  {
    var c := new SpotifyController("dev", "id", "secret", "refresh", Encode,
      (n: nat) => Rejected(AxiosError(Some(Expired401))), (n: nat) => TokenRefused(400), "old", false);
    var o := c.Invoke(Shuffle(false));
    assert o == Done(false);
    assert |c.auth.posts| == 1 && |c.player.sent| == 1;
    assert c.store.accessToken == "old";
  }

  /** A 401 without an error object, and a retry left without an answer, both make the handler throw. */
  method HandlerThrows()
  {
    var c := new SpotifyController("dev", "id", "secret", "refresh", Encode,
      (n: nat) => Rejected(AxiosError(Some(HttpResponse(401, None, Some("Unauthorized"))))),
      (n: nat) => TokenGranted("new"), "old", false);
    var o := c.Invoke(Pause);
    assert o == Crash;
    assert c.auth.posts == [];
    var d := new SpotifyController("dev", "id", "secret", "refresh", Encode,
      (n: nat) => if n == 0 then Rejected(AxiosError(Some(Expired401))) else Rejected(AxiosError(None)),
      (n: nat) => TokenGranted("new"), "old", false);
    var p := d.Invoke(Pause);
    assert p == Crash;
  }
}
