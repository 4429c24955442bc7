/**
 * The token refresher (spotify/SpotifyAuthorization.js): exchanges the
 * long-lived refresh credential for a new access token with the
 * refresh-token grant of section 6 of RFC 6749, authenticating the client
 * with HTTP Basic credentials (section 2 of RFC 7617), and reports the
 * outcome as a boolean.
 */
module Authorization {
  import opened Config

  const TokenUrl := "https://accounts.spotify.com/api/token"
  const RefreshGrant := "refresh_token"
  const FormContentType := "application/x-www-form-urlencoded"
  const BasicPrefix := "Basic "

  /** `{ grant_type, refresh_token }`, the form fields of the token request. */
  datatype TokenData = TokenData(grantType: string, refreshToken: string)

  datatype TokenHeaders = TokenHeaders(authorization: string, contentType: string)

  /** One POST to the token endpoint. */
  datatype TokenPost = TokenPost(url: string, data: TokenData, headers: TokenHeaders)

  /**
   * How the token endpoint answers: a 2xx carrying `access_token`, an error
   * status (axios throws with a response), or no answer at all.
   */
  datatype TokenReply = TokenGranted(accessToken: string) | TokenRefused(status: int) | TokenUnreachable

  /** The form fields of a refresh-token grant for the configured refresh credential. */
  function GetData(refreshToken: string): (d: TokenData)
    ensures d.grantType == RefreshGrant
    ensures d.refreshToken == refreshToken
  {
    TokenData(RefreshGrant, refreshToken)
  }

  /** `clientId:clientSecret`, the user-pass of the Basic scheme. */
  function Credentials(clientId: string, clientSecret: string): string
  {
    clientId + ":" + clientSecret
  }

  /** Index of the first ':' in `s`, or `|s|` when there is none. */
  function FirstColon(s: string): (i: nat)
    ensures i <= |s|
    ensures i < |s| ==> s[i] == ':'
    ensures forall k :: 0 <= k < i ==> s[k] != ':'
    decreases |s|
  {
    if s == [] then 0 else if s[0] == ':' then 0 else 1 + FirstColon(s[1..])
  }

  /** How a server reads a user-pass back: user-id before the first colon, password after it. */
  function SplitCredentials(s: string): (string, string)
  {
    var i := FirstColon(s);
    if i < |s| then (s[..i], s[i + 1..]) else (s, "")
  }

  /**
   * A client id without a colon (which RFC 7617 forbids in a user-id) and any
   * secret are recovered from the credentials string.
   */
  lemma CredentialsRoundTrip(clientId: string, clientSecret: string)
    requires ':' !in clientId
    ensures SplitCredentials(Credentials(clientId, clientSecret)) == (clientId, clientSecret)
  {
    var s := Credentials(clientId, clientSecret);
    ColonAfterPrefix(clientId, ":" + clientSecret);
    assert s == clientId + (":" + clientSecret);
    assert s[..|clientId|] == clientId;
    assert s[|clientId| + 1..] == clientSecret;
  }

  lemma {:induction false} ColonAfterPrefix(a: string, b: string)
    requires ':' !in a
    ensures FirstColon(a + b) == |a| + FirstColon(b)
    decreases |a|
  {
    if a != [] {
      assert (a + b)[0] == a[0];
      assert (a + b)[1..] == a[1..] + b;
      ColonAfterPrefix(a[1..], b);
    } else {
      assert a + b == b;
    }
  }

  /**
   * The headers of the token request: Basic client credentials, encoded by
   * `base64` (the Buffer library, not part of this model), and a form body.
   */
  function GetHeaders(clientId: string, clientSecret: string, base64: string -> string): (h: TokenHeaders)
    ensures BasicPrefix <= h.authorization
    ensures h.authorization[|BasicPrefix|..] == base64(Credentials(clientId, clientSecret))
    ensures h.contentType == FormContentType
  {
    TokenHeaders(BasicPrefix + base64(Credentials(clientId, clientSecret)), FormContentType)
  }

  /** The outcome of one refresh: the boolean, the POST log and the stored token afterwards. */
  datatype Refresh = Refresh(ok: bool, posts: seq<TokenPost>, accessToken: string)

  /** One refresh: the POST joins the log; only a granted token replaces the stored one. */
  function RefreshStep(post: TokenPost, replies: nat -> TokenReply, posts: seq<TokenPost>, accessToken: string): Refresh
  {
    match replies(|posts|)
    case TokenGranted(t) => Refresh(true, posts + [post], t)
    case _ => Refresh(false, posts + [post], accessToken)
  }

  /**
   * One refresh, both ways: exactly one POST is logged; it reports success
   * exactly when the endpoint granted a token, and then the stored token is
   * the granted one; an error status or an unreachable endpoint reports
   * failure and leaves the stored token unchanged.
   */
  lemma RefreshReportsGrant(post: TokenPost, replies: nat -> TokenReply, posts: seq<TokenPost>, accessToken: string)
    ensures var r := RefreshStep(post, replies, posts, accessToken);
      && r.posts == posts + [post]
      && (r.ok <==> replies(|posts|).TokenGranted?)
      && (r.ok ==> r.accessToken == replies(|posts|).accessToken)
      && (replies(|posts|).TokenRefused? || replies(|posts|).TokenUnreachable? ==> !r.ok)
      && (!r.ok ==> r.accessToken == accessToken)
  {
  }

  /**
   * The refresher. `replies` scripts how the token endpoint answers the n-th
   * POST; `posts` records every POST sent.
   */
  class SpotifyAuthorization {
    const clientId: string
    const clientSecret: string
    const refreshToken: string
    const base64: string -> string
    const store: TokenStore
    const replies: nat -> TokenReply
    var posts: seq<TokenPost>

    constructor (clientId: string, clientSecret: string, refreshToken: string, base64: string -> string,
                 store: TokenStore, replies: nat -> TokenReply)
      ensures this.clientId == clientId && this.clientSecret == clientSecret && this.refreshToken == refreshToken
      ensures this.base64 == base64 && this.store == store && this.replies == replies
      ensures posts == []
    {
      this.clientId := clientId;
      this.clientSecret := clientSecret;
      this.refreshToken := refreshToken;
      this.base64 := base64;
      this.store := store;
      this.replies := replies;
      posts := [];
    }

    /** The request every refresh sends. */
    function Post(): TokenPost
    {
      TokenPost(TokenUrl, GetData(refreshToken), GetHeaders(clientId, clientSecret, base64))
    }

    /**
     * refreshToken: one POST to the token endpoint, never retried; a granted
     * token is written to the store and `true` returned; an error status or a
     * transport failure gives `false` and nothing is written. Never throws.
     */
    method RefreshToken() returns (ok: bool)
      modifies this, store
      ensures Refresh(ok, posts, store.accessToken) == RefreshStep(Post(), replies, old(posts), old(store.accessToken))
      ensures store.shufflePlaylist == old(store.shufflePlaylist)
    {
      var headers := GetHeaders(clientId, clientSecret, base64);
      var data := GetData(refreshToken);
      var reply := replies(|posts|);
      posts := posts + [TokenPost(TokenUrl, data, headers)];
      match reply
      case TokenGranted(token) =>
        store.WriteAccessToken(token);
        ok := true;
      case _ =>
        ok := false;
    }
  }
}
