/** The identity provider as the program sees it: the JSON shapes it returns, the
    requests the program sends, and a scripted server that answers them. */
module Http {
  import opened Wrappers

  /** An entry of the user listing; a key absent from the JSON object is None. */
  datatype UserRecord = UserRecord(id: Option<string>, username: Option<string>)

  /** An entry of a user's session listing; `clients` maps client ids to client names. */
  datatype SessionRecord = SessionRecord(id: Option<string>, clients: Option<map<string, string>>)

  /** The answer to the client-credentials exchange.
      Refused: a RequestException: transport failure, 4xx/5xx status, or a body that
      is not JSON.
      Malformed: a 2xx body without `access_token` (None), or with `access_token`
      but without `expires_in` (Some of the token read before the KeyError). */
  datatype Grant =
    | Granted(accessToken: string, expiresIn: int)
    | Refused
    | Malformed(storedToken: Option<string>)

  /** The answer to a GET: the decoded body, or a transport/HTTP-status failure. */
  datatype Fetch<T> = Fetched(body: T) | Failed

  /** Every HTTP request the program can issue, with the bearer token it carries. */
  datatype Request =
    | TokenRequest
    | UsersRequest(token: string)
    | SessionsRequest(userId: string, token: string)
    | DeleteRequest(sessionId: string, token: string)

  /** The server and the clock. `clock(k)` is what the k-th reading of the clock returns;
      every other answer is a function of the log of requests sent so far, the request
      being answered last. The program is deterministic, so every run of it is the run
      against some script. */
  datatype Script = Script(
    clock: nat -> int,
    grant: seq<Request> -> Grant,
    users: seq<Request> -> Fetch<seq<UserRecord>>,
    sessions: seq<Request> -> Fetch<seq<SessionRecord>>,
    delete: seq<Request> -> bool)

  /** The network and the clock, with a log of everything sent. */
  class Network {
    const script: Script
    var sent: seq<Request>
    var ticks: nat

    constructor (script: Script)
      ensures this.script == script && sent == [] && ticks == 0
    {
      this.script := script;
      sent := [];
      ticks := 0;
    }

    /** Reads the wall clock. */
    method Now() returns (t: int)
      modifies this`ticks
      ensures ticks == old(ticks) + 1
      ensures t == script.clock(old(ticks))
    {
      t := script.clock(ticks);
      ticks := ticks + 1;
    }

    /** POSTs the client-credentials grant to the token endpoint. */
    method PostToken() returns (g: Grant)
      modifies this`sent
      ensures sent == old(sent) + [TokenRequest]
      ensures g == script.grant(sent)
    {
      sent := sent + [TokenRequest];
      g := script.grant(sent);
    }

    /** GETs the enabled users, at most 2000 of them. */
    method GetUsers(token: string) returns (f: Fetch<seq<UserRecord>>)
      modifies this`sent
      ensures sent == old(sent) + [UsersRequest(token)]
      ensures f == script.users(sent)
    {
      sent := sent + [UsersRequest(token)];
      f := script.users(sent);
    }

    /** GETs the sessions of one user. */
    method GetSessions(userId: string, token: string) returns (f: Fetch<seq<SessionRecord>>)
      modifies this`sent
      ensures sent == old(sent) + [SessionsRequest(userId, token)]
      ensures f == script.sessions(sent)
    {
      sent := sent + [SessionsRequest(userId, token)];
      f := script.sessions(sent);
    }

    /** DELETEs one session; `ok` is false on a transport or HTTP-status failure. */
    method Delete(sessionId: string, token: string) returns (ok: bool)
      modifies this`sent
      ensures sent == old(sent) + [DeleteRequest(sessionId, token)]
      ensures ok == script.delete(sent)
    {
      sent := sent + [DeleteRequest(sessionId, token)];
      ok := script.delete(sent);
    }
  }
}
