/** The middleware that guards the agent-only routes: it takes the token
    from the `Authorization` header, verifies it, loads the agent the token
    names and attaches it to the request, or answers 401. */
module Auth {
  import opened Wrappers
  import opened Text
  import opened Records
  import opened Db

  const NoTokenMessage := "Access denied. No token provided."
  const UnknownAgentMessage := "Agent not found. Unauthorized."
  const InvalidTokenMessage := "Invalid token."

  /** `authorization?.split(" ")[1]`, kept only when it is a non-empty string:
      an absent header, a header without a space and an empty second word
      all leave no token. The first word is never looked at. */
  function TokenFromHeader(header: Option<string>): (t: Option<string>)
    ensures t.Some? ==> header.Some? && t.value != "" && ' ' !in t.value
    ensures t.Some? ==> |Split(header.value, ' ')| >= 2 && Split(header.value, ' ')[1] == t.value
  {
    if header.None? then None
    else
      var second := Piece(header.value, ' ', 1);
      if second.Some? && second.value != "" then second else None
  }

  /** Any first word followed by one space and a token yields that token:
      the scheme `Bearer` is not checked. */
  lemma {:induction false} TokenAfterAnyScheme(scheme: string, token: string)
    requires ' ' !in scheme && ' ' !in token && token != ""
    ensures TokenFromHeader(Some(scheme + " " + token)) == Some(token)
  {
    SplitAfterWord(scheme, ' ', token);
    SplitWithoutSeparator(token, ' ');
  }

  /** Words after the token are ignored. */
  lemma {:induction false} TokenIgnoresTrailingWords(scheme: string, token: string, more: string)
    requires ' ' !in scheme && ' ' !in token && token != ""
    ensures TokenFromHeader(Some(scheme + " " + token + " " + more)) == Some(token)
  {
    assert scheme + " " + token + " " + more == scheme + [' '] + (token + [' '] + more);
    SplitAfterWord(scheme, ' ', token + [' '] + more);
    SplitAfterWord(token, ' ', more);
  }

  /** A header that is a single word (for instance a bare token without a
      scheme) carries no token. */
  lemma {:induction false} SingleWordHasNoToken(header: string)
    requires ' ' !in header
    ensures TokenFromHeader(Some(header)) == None
  {
    SplitWithoutSeparator(header, ' ');
  }

  /** Two spaces after the scheme make the second word empty: no token. */
  lemma {:induction false} DoubleSpaceHasNoToken(scheme: string, token: string)
    requires ' ' !in scheme
    ensures TokenFromHeader(Some(scheme + "  " + token)) == None
  {
    assert scheme + "  " + token == scheme + [' '] + ([' '] + token);
    SplitAfterWord(scheme, ' ', [' '] + token);
    SplitAfterWord("", ' ', token);
    assert "" + [' '] + token == [' '] + token;
  }

  datatype AuthFailure = NoToken | InvalidToken | UnknownAgent

  /** Every rejection is a 401 with its own `error` text. */
  function Rejection(f: AuthFailure): (resp: Response)
    ensures resp.status == 401 && resp.body.Error?
    ensures f == NoToken <==> resp.body.text == NoTokenMessage
    ensures f == InvalidToken <==> resp.body.text == InvalidTokenMessage
    ensures f == UnknownAgent <==> resp.body.text == UnknownAgentMessage
  {
    match f
    case NoToken => Response(401, Error(NoTokenMessage))
    case InvalidToken => Response(401, Error(InvalidTokenMessage))
    case UnknownAgent => Response(401, Error(UnknownAgentMessage))
  }

  /** What the middleware decides: no token, then a token `verify` refuses,
      then a token whose `id` (possibly absent) names no agent; otherwise
      the agent `findByPk` loads. */
  function AuthDecision(header: Option<string>, agents: seq<Agent>, verify: string -> Option<Claims>): (r: Result<Agent, AuthFailure>)
    ensures TokenFromHeader(header).None? <==> r == Err(NoToken)
    ensures r == Err(InvalidToken) <==>
      TokenFromHeader(header).Some? && verify(TokenFromHeader(header).value).None?
    ensures r.Ok? ==>
      && r.value in agents
      && TokenFromHeader(header).Some?
      && verify(TokenFromHeader(header).value) == Some(Claims(Some(r.value.id)))
  {
    match TokenFromHeader(header)
    case None => Err(NoToken)
    case Some(token) =>
      match verify(token)
      case None => Err(InvalidToken)
      case Some(claims) =>
        if claims.id.None? then Err(UnknownAgent)
        else
          match FindAgentById(agents, claims.id.value)
          case None => Err(UnknownAgent)
          case Some(a) => Ok(a)
  }

  /** A verified token whose claims carry no id, or an id no agent has, is
      refused as an unknown agent. */
  lemma UnknownIdIsRejected(header: Option<string>, agents: seq<Agent>, verify: string -> Option<Claims>)
    requires TokenFromHeader(header).Some?
    requires verify(TokenFromHeader(header).value).Some?
    requires var id := verify(TokenFromHeader(header).value).value.id;
      id.None? || forall i :: 0 <= i < |agents| ==> agents[i].id != id.value
    ensures AuthDecision(header, agents, verify) == Err(UnknownAgent)
  {
  }

  /** In a valid agent table a token naming an agent's id loads exactly that
      agent: ids are unique, so the first match is the agent itself. */
  lemma {:induction false} TokenLoadsItsAgent(header: Option<string>, agents: seq<Agent>, nextAgentId: int,
                                              verify: string -> Option<Claims>, k: nat)
    requires AgentsValid(agents, nextAgentId)
    requires k < |agents|
    requires TokenFromHeader(header).Some?
    requires verify(TokenFromHeader(header).value) == Some(Claims(Some(agents[k].id)))
    ensures AuthDecision(header, agents, verify) == Ok(agents[k])
  {
    var found := FindAgentById(agents, agents[k].id);
    assert found.Some?;
    var i :| 0 <= i < |agents| && agents[i] == found.value;
    assert agents[i].id == agents[k].id;
  }

  /** The incoming request: the header it carries and the agent the
      middleware attaches to it. */
  class Request {
    const authorization: Option<string>
    var agent: Option<Agent>

    constructor (authorization: Option<string>)
      ensures this.authorization == authorization && agent.None?
    {
      this.authorization := authorization;
      agent := None;
    }
  }

  /** `authenticateAgent`: answers with a rejection, or attaches the agent
      to the request and passes it on (`None`: `next()` is called). */
  method Authenticate(req: Request, db: Store, env: Collaborators) returns (rejection: Option<Response>)
    modifies req
    ensures AuthDecision(req.authorization, db.agents, env.verify).Ok? ==>
      rejection.None? && req.agent == Some(AuthDecision(req.authorization, db.agents, env.verify).value)
    ensures AuthDecision(req.authorization, db.agents, env.verify).Err? ==>
      && rejection == Some(Rejection(AuthDecision(req.authorization, db.agents, env.verify).error))
      && req.agent == old(req.agent)
  {
    var token := TokenFromHeader(req.authorization);
    if token.None? {
      return Some(Rejection(NoToken));
    }
    var decoded := env.verify(token.value);
    if decoded.None? {
      return Some(Rejection(InvalidToken));
    }
    if decoded.value.id.None? {
      return Some(Rejection(UnknownAgent));
    }
    var agent := FindAgentById(db.agents, decoded.value.id.value);
    if agent.None? {
      return Some(Rejection(UnknownAgent));
    }
    req.agent := agent;
    rejection := None;
  }
}
