/**
 * The persisted configuration the core reads and writes through
 * ConfigReaderWriter: the bearer access token and the shuffle-on-play
 * setting. Its file persistence is not part of this model; every component
 * shares one store, so a token written by the refresher is the token the
 * player reads on its next request.
 */
module Config {

  class TokenStore {
    var accessToken: string
    var shufflePlaylist: bool

    constructor (accessToken: string, shufflePlaylist: bool)
      ensures this.accessToken == accessToken && this.shufflePlaylist == shufflePlaylist
    {
      this.accessToken := accessToken;
      this.shufflePlaylist := shufflePlaylist;
    }

    /** Persists a new access token; the settings stay as they were. */
    method WriteAccessToken(token: string)
      modifies this
      ensures accessToken == token
      ensures shufflePlaylist == old(shufflePlaylist)
    {
      accessToken := token;
    }
  }
}
