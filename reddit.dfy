/**
 * The Reddit sentinel of `modules/perception/reddit.rs`: the listing parser
 * that turns a hot-posts response into one bullet line per post, the OAuth
 * token cache with its 60-second safety margin, and the fallback from the
 * OAuth endpoint to the public one.  HTTP exchanges reach the model as their
 * outcomes; the clock as a number of seconds.
 */
module Reddit {
  import opened Base
  import opened Text
  import opened Json

  const NoRedditData: string := "No Reddit data found."

  /** `json["data"]["children"]` when it is an array. */
  function Children(json: Value): Option<seq<Value>> {
    AsArray(Get(Get(json, "data"), "children"))
  }

  /** The bullet line of one post: its title, or "" when it has none. */
  function PostLine(item: Value): string {
    "• " + AsStr(Get(Get(item, "data"), "title")).GetOr("") + "\n"
  }

  /** The bullet lines of a list of posts, in order. */
  function PostLines(items: seq<Value>): string {
    if |items| == 0 then "" else PostLines(items[..|items| - 1]) + PostLine(items[|items| - 1])
  }

  /** The listing text of a response: the bullet lines, or the no-data message when there are none. */
  function Listing(json: Value): string {
    var lines := if Children(json).Some? then PostLines(Children(json).value) else "";
    if lines == "" then NoRedditData else lines
  }

  /** Each post adds exactly one line, so the lines are empty exactly when there are no posts. */
  lemma {:induction false} PostLinesEmptyIff(items: seq<Value>)
    ensures PostLines(items) == "" <==> |items| == 0
    ensures |items| > 0 ==> PostLines(items)[0] == '•'
  {
    if |items| > 0 {
      var init := items[..|items| - 1];
      PostLinesEmptyIff(init);
      var line := PostLine(items[|items| - 1]);
      assert line[0] == '•';
      if |init| == 0 {
        assert PostLines(items) == "" + line;
      } else {
        assert PostLines(items)[0] == PostLines(init)[0];
      }
    }
  }

  /** The no-data message appears exactly when the response has no array of posts, or an empty one. */
  lemma ListingNoDataIff(json: Value)
    ensures Listing(json) == NoRedditData <==> Children(json).None? || |Children(json).value| == 0
    ensures Children(json).Some? && |Children(json).value| > 0 ==> Listing(json) == PostLines(Children(json).value)
  {
    if Children(json).Some? {
      PostLinesEmptyIff(Children(json).value);
      if |Children(json).value| > 0 {
        assert NoRedditData[0] == 'N';
      }
    }
  }

  /** `parse_json_response`: the `for item in children` loop. */
  method ParseJsonResponse(json: Value) returns (r: string)
    ensures r == Listing(json)
  {
    var rawContent := "";
    match Children(json) {
      case Some(children) =>
        for i := 0 to |children|
          invariant rawContent == PostLines(children[..i])
        {
          assert children[..i + 1][..i] == children[..i];
          var data := Get(children[i], "data");
          var title := AsStr(Get(data, "title")).GetOr("");
          rawContent := rawContent + ("• " + title + "\n");
        }
        assert children[..|children|] == children;
      case None =>
    }
    if rawContent == "" {
      r := NoRedditData;
    } else {
      r := rawContent;
    }
  }

  /** The outcome of one HTTP exchange: no response, or a status with the body decoded as JSON if it decodes. */
  datatype Reply = SendFailed | Replied(status: nat, json: Option<Value>)

  /** `StatusCode::is_success`: a 2xx status. */
  predicate IsSuccess(status: nat) {
    200 <= status <= 299
  }

  /** A cached token is used while it is nonempty and valid for more than 60 seconds. */
  const SafetyMarginSecs: nat := 60
  /** The lifetime assumed when the token response does not state one. */
  const DefaultExpiresIn: nat := 3600

  predicate Fresh(token: string, expiresAt: nat, now: nat) {
    token != "" && expiresAt > now + SafetyMarginSecs
  }

  /** The token and lifetime a token response carries, or why it carries none. */
  function TokenGrant(reply: Reply): (r: Result<(string, nat), string>)
    ensures r.Ok? <==>
      (reply.Replied? && IsSuccess(reply.status) && reply.json.Some?
       && AsStr(Get(reply.json.value, "access_token")).Some?)
  {
    match reply
    case SendFailed => Err("send failed")
    case Replied(status, json) =>
      if !IsSuccess(status) then Err("Status: " + NatToString(status))
      else if json.None? then Err("invalid JSON")
      else match AsStr(Get(json.value, "access_token"))
        case None => Err("No access_token")
        case Some(token) =>
          var expiresIn := AsU64(Get(json.value, "expires_in")).GetOr(DefaultExpiresIn);
          Ok((token, expiresIn))
  }

  /** The outcome of the public fallback fetch: any decoded body is parsed, whatever the status. */
  function PublicOutcome(reply: Reply): (r: Result<string, string>)
    ensures r.Ok? <==> reply.Replied? && reply.json.Some?
  {
    match reply
    case SendFailed => Err("send failed")
    case Replied(_, json) => if json.Some? then Ok(Listing(json.value)) else Err("invalid JSON")
  }

  /** The listing the OAuth fetch yields, if any: only a 2xx reply with a decoded body. */
  function OAuthListing(reply: Reply): (r: Option<string>)
    ensures r.Some? <==> reply.Replied? && IsSuccess(reply.status) && reply.json.Some?
  {
    if reply.Replied? && IsSuccess(reply.status) && reply.json.Some? then Some(Listing(reply.json.value)) else None
  }

  /** A token granted with a lifetime beyond the margin is reused for the rest of its lifetime less 60 seconds. */
  lemma GrantedTokenReused(token: string, now: nat, expiresIn: nat, later: nat)
    requires token != "" && now <= later && later + SafetyMarginSecs < now + expiresIn
    ensures Fresh(token, now + expiresIn, later)
    ensures !Fresh(token, now + expiresIn, now + expiresIn - SafetyMarginSecs)
  {
  }

  class RedditSentinel {
    const clientId: string
    const clientSecret: string
    /** The cached token and the second it expires. */
    var token: string
    var expiresAt: nat

    constructor(clientId: string, clientSecret: string)
      ensures this.clientId == clientId && this.clientSecret == clientSecret
      ensures token == "" && expiresAt == 0
    {
      this.clientId := clientId;
      this.clientSecret := clientSecret;
      token := "";
      expiresAt := 0;
    }

    /**
     * `get_access_token`: the cached token while it is fresh, without a
     * request; otherwise the token response's, which replaces the cache
     * only when it grants one.
     */
    method GetAccessToken(now: nat, reply: Reply) returns (r: Result<string, string>, requested: bool)
      modifies this
      ensures requested <==> !Fresh(old(token), old(expiresAt), now)
      ensures !requested ==> r == Ok(old(token)) && token == old(token) && expiresAt == old(expiresAt)
      ensures requested && TokenGrant(reply).Err? ==>
        r.Err? && token == old(token) && expiresAt == old(expiresAt)
      ensures requested && TokenGrant(reply).Ok? ==>
        var (granted, expiresIn) := TokenGrant(reply).value;
        r == Ok(granted) && token == granted && expiresAt == now + expiresIn
    {
      if token != "" && expiresAt > now + SafetyMarginSecs {
        return Ok(token), false;
      }
      requested := true;
      match TokenGrant(reply) {
        case Err(e) =>
          r := Err(e);
        case Ok((granted, expiresIn)) =>
          token, expiresAt := granted, now + expiresIn;
          r := Ok(granted);
      }
    }

    /**
     * `analyze_sentiment`: with a client id, the OAuth listing when a token
     * is obtained and the OAuth fetch succeeds; in every other case the
     * public listing.
     */
    method AnalyzeSentiment(now: nat, tokenReply: Reply, oauthReply: Reply, publicReply: Reply)
      returns (r: Result<string, string>)
      modifies this
      ensures clientId == "" ==> r == PublicOutcome(publicReply) && token == old(token) && expiresAt == old(expiresAt)
      ensures clientId != "" ==>
        var tokenOk := Fresh(old(token), old(expiresAt), now) || TokenGrant(tokenReply).Ok?;
        && (tokenOk && OAuthListing(oauthReply).Some? ==> r == Ok(OAuthListing(oauthReply).value))
        && (!(tokenOk && OAuthListing(oauthReply).Some?) ==> r == PublicOutcome(publicReply))
      ensures clientId != "" && Fresh(old(token), old(expiresAt), now) ==>
        token == old(token) && expiresAt == old(expiresAt)
      ensures clientId != "" && !Fresh(old(token), old(expiresAt), now) && TokenGrant(tokenReply).Ok? ==>
        token == TokenGrant(tokenReply).value.0 && expiresAt == now + TokenGrant(tokenReply).value.1
      ensures clientId != "" && !Fresh(old(token), old(expiresAt), now) && TokenGrant(tokenReply).Err? ==>
        token == old(token) && expiresAt == old(expiresAt)
    {
      if clientId != "" {
        var tok, _ := GetAccessToken(now, tokenReply);
        if tok.Ok? {
          var listing := OAuthListing(oauthReply);
          if listing.Some? {
            return Ok(listing.value);
          }
        }
      }
      r := PublicOutcome(publicReply);
    }
  }
}
