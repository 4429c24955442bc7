/**
 * The remote player client (spotify/SpotifyPlayer.js): one HTTP request per
 * playback command against a fixed endpoint, the bearer token read from the
 * store at call time, HTTP error responses passed through as values and
 * transport failures turned into `null`.
 */
module Player {
  import opened Http
  import opened Text
  import opened Config

  /** The closed set of playback commands, each with the parameter its call takes. */
  datatype Command =
    | Play(uri: Option<string>)
    | Pause
    | Next
    | Previous
    | Shuffle(state: bool)
    | SetVolume(volume: int)

  datatype HttpMethod = PUT | POST

  datatype Target = Target(verb: HttpMethod, url: string)

  datatype Offset = Offset(position: int)

  /** `{ context_uri, offset? }`, the body of a play request. */
  datatype PlayBody = PlayBody(contextUri: string, offset: Option<Offset>)

  /** One request as it goes to axios: target, body (`None` is `null`) and the Authorization header. */
  datatype PlayerRequest = PlayerRequest(target: Target, body: Option<PlayBody>, authorization: string)

  const PlayerBase := "https://api.spotify.com/v1/me/player/"
  const BearerPrefix := "Bearer "

  /** Path and query of each command below the player base URL, up to its closing `device_id` parameter. */
  function Path(cmd: Command): (p: string)
    ensures |p| >= 2 && p[..2] == Tag(cmd)
  {
    match cmd
    case Play(_) => "play/?"
    case Pause => "pause/?"
    case Next => "next/?"
    case Previous => "previous/?"
    case Shuffle(state) => "shuffle?state=" + BoolText(state) + "&"
    case SetVolume(volume) =>
      var p := "volume?volume_percent=" + IntText(volume) + "&";
      assert p[..2] == "volume?volume_percent="[..2];
      p
  }

  /** The first two characters of each command's path, which already tell the commands apart. */
  function Tag(cmd: Command): string
  {
    match cmd
    case Play(_) => "pl"
    case Pause => "pa"
    case Next => "ne"
    case Previous => "pr"
    case Shuffle(_) => "sh"
    case SetVolume(_) => "vo"
  }

  /** The HTTP method and URL each command is sent to; every URL ends with the configured device. */
  function Endpoint(cmd: Command, deviceId: string): (t: Target)
    ensures t.verb == POST <==> cmd.Next? || cmd.Previous?
    ensures PlayerBase + Path(cmd) <= t.url
    ensures EndsWith(t.url, "device_id=" + deviceId)
    ensures |t.url| == |PlayerBase + Path(cmd)| + |"device_id=" + deviceId|
  {
    var verb := if cmd.Next? || cmd.Previous? then POST else PUT;
    var url := PlayerBase + Path(cmd) + ("device_id=" + deviceId);
    PrefixOfConcat(PlayerBase + Path(cmd), "device_id=" + deviceId);
    EndsWithSelf(PlayerBase + Path(cmd), "device_id=" + deviceId);
    Target(verb, url)
  }

  /** Two commands are sent to the same endpoint only when they are the same command (the URI of a play travels in its body). */
  predicate SameCall(c1: Command, c2: Command)
  {
    c1 == c2 || (c1.Play? && c2.Play?)
  }

  /** The endpoint table is one-to-one: the URL alone tells which command, shuffle state and volume were asked for. */
  lemma EndpointDeterminesCommand(c1: Command, c2: Command, deviceId: string)
    requires Endpoint(c1, deviceId) == Endpoint(c2, deviceId)
    ensures SameCall(c1, c2)
  {
    var p1, p2 := Path(c1), Path(c2);
    CancelAround(PlayerBase, p1, p2, "device_id=" + deviceId);
    assert Tag(c1) == Tag(c2);
    match c1
    case SetVolume(v1) =>
      var v2 := c2.volume;
      CancelAround("volume?volume_percent=", IntText(v1), IntText(v2), "&");
      IntTextInjective(v1, v2);
    case Shuffle(s1) =>
      assert p1[14] == (if s1 then 't' else 'f');
      assert p2[14] == (if c2.state then 't' else 'f');
    case _ =>
  }

  /**
   * The body of a play request: `null` (resume what is playing) when no
   * playlist is given; otherwise the playlist, started at its first track
   * unless the shuffle-on-play setting is on.
   */
  function GetBody(uri: Option<string>, shuffleSetting: bool): (b: Option<PlayBody>)
    ensures b.None? <==> !Truthy(uri)
    ensures b.Some? ==> b.value.contextUri == uri.value
    ensures b.Some? ==> (b.value.offset.None? <==> shuffleSetting)
    ensures b.Some? && b.value.offset.Some? ==> b.value.offset.value.position == 0
  {
    if !Truthy(uri) then None
    else if shuffleSetting then Some(PlayBody(uri.value, None))
    else Some(PlayBody(uri.value, Some(Offset(0))))
  }

  /** The Authorization header of every player request (section 2.1 of RFC 6750). */
  function BearerHeader(accessToken: string): (h: string)
    ensures BearerToken(h) == Some(accessToken)
  {
    BearerPrefix + accessToken
  }

  /** The credential a bearer Authorization header carries, if it is one. */
  function BearerToken(h: string): Option<string>
  {
    if BearerPrefix <= h then Some(h[|BearerPrefix|..]) else None
  }

  /** The request a command produces, given the device, the settings and the token in the store at call time. */
  function BuildRequest(cmd: Command, deviceId: string, shuffleSetting: bool, accessToken: string): (r: PlayerRequest)
    ensures r.target == Endpoint(cmd, deviceId)
    ensures BearerToken(r.authorization) == Some(accessToken)
    ensures r.body.Some? <==> cmd.Play? && Truthy(cmd.uri)
    ensures cmd.Play? ==> r.body == GetBody(cmd.uri, shuffleSetting)
  {
    var body := if cmd.Play? then GetBody(cmd.uri, shuffleSetting) else None;
    PlayerRequest(Endpoint(cmd, deviceId), body, BearerHeader(accessToken))
  }

  /** The catch handler: an answered request yields its response, a failed one yields `null`. */
  function ErrorHandler(e: AxiosError): (r: Response)
    ensures r.NoResponse? <==> e.response.None?
    ensures e.response.Some? ==> r == Resp(e.response.value)
  {
    match e.response
    case Some(resp) => Resp(resp)
    case None => NoResponse
  }

  /**
   * What a command method returns for a settled request: every answer the
   * server gave, success or error status, unchanged; `null` only when no
   * answer came. Nothing is thrown to the caller.
   */
  function PlayerResult(a: AxiosResult): (r: Response)
    ensures a.Fulfilled? ==> r == Resp(a.response)
    ensures r.NoResponse? <==> a == Rejected(AxiosError(None))
    ensures r.Resp? ==> a.Fulfilled? || a.error.response == Some(r.response)
  {
    match a
    case Fulfilled(resp) => Resp(resp)
    case Rejected(e) => ErrorHandler(e)
  }

  datatype Dispatched = Dispatched(result: Response, sent: seq<PlayerRequest>)

  /** One command sent: the request joins the log and the reply to it is the `|sent|`-th scripted reply. */
  function Dispatch(deviceId: string, replies: nat -> AxiosResult, sent: seq<PlayerRequest>,
                    shuffleSetting: bool, accessToken: string, cmd: Command): Dispatched
  {
    Dispatched(PlayerResult(replies(|sent|)), sent + [BuildRequest(cmd, deviceId, shuffleSetting, accessToken)])
  }

  /**
   * The player client. `replies` scripts how the network answers the n-th
   * request; `sent` records every request issued, in order.
   */
  class SpotifyPlayer {
    const deviceId: string
    const store: TokenStore
    const replies: nat -> AxiosResult
    var sent: seq<PlayerRequest>

    constructor (deviceId: string, store: TokenStore, replies: nat -> AxiosResult)
      ensures this.deviceId == deviceId && this.store == store && this.replies == replies
      ensures sent == []
    {
      this.deviceId := deviceId;
      this.store := store;
      this.replies := replies;
      sent := [];
    }

    /**
     * playPlaylist, pauseSong, nextSong, previousSong, shufflePlaylist and
     * setVolume: build the body from the settings, read the token from the
     * store, send exactly one request and hand back its outcome.
     */
    method Send(cmd: Command) returns (r: Response)
      modifies this
      ensures Dispatched(r, sent) == Dispatch(deviceId, replies, old(sent), store.shufflePlaylist, store.accessToken, cmd)
    {
      var reply := replies(|sent|);
      sent := sent + [BuildRequest(cmd, deviceId, store.shufflePlaylist, store.accessToken)];
      match reply
      case Fulfilled(resp) =>
        r := Resp(resp);
      case Rejected(e) =>
        r := ErrorHandler(e);
    }
  }
}
