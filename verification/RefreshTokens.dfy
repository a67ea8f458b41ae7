/** Rotating refresh tokens: the token statements of api/internal/auth/store.go,
    the calls of api/internal/auth/service.go that use them, and the browser's
    side of the exchange (web/src/stores/auth.js). Tokens are looked up by hash;
    the hash is taken to be injective, so rows are keyed by the token. */
module RefreshTokens {
  import opened Runs
  import opened Text

  type Token = nat

  /** The empty string, and any text nobody was ever given. */
  const NO_TOKEN: Token := 0

  datatype Row = Row(tenant: nat, expires: int, revoked: bool)

  type Table = map<Token, Row>

  predicate Exchangeable(table: Table, token: Token, now: int) {
    token in table && !table[token].revoked && table[token].expires > now
  }

  function Revoke(table: Table, token: Token): Table {
    if token in table then table[token := table[token].(revoked := true)] else table
  }

  // ---- the store ----

  datatype Purpose = VerifyEmail | ResetPassword

  datatype AuthRow = AuthRow(tenant: nat, purpose: Purpose, expires: int, used: bool)

  class Store {
    var refresh: Table
    var auth: map<Token, AuthRow>
    var passwords: map<nat, string>

    constructor (passwords: map<nat, string>)
      ensures refresh == map[] && auth == map[] && this.passwords == passwords
    {
      refresh, auth := map[], map[];
      this.passwords := passwords;
    }

    /** The hash column is UNIQUE. */
    method SaveRefresh(tenant: nat, token: Token, expires: int) returns (ok: bool)
      modifies this`refresh
      ensures ok == (token !in old(refresh))
      ensures refresh == if ok then old(refresh)[token := Row(tenant, expires, false)] else old(refresh)
    {
      ok := token !in refresh;
      if ok {
        refresh := refresh[token := Row(tenant, expires, false)];
      }
    }

    method RotateRefresh(token: Token, now: int) returns (owner: Option<nat>)
      modifies this`refresh
      ensures owner.Some? == Exchangeable(old(refresh), token, now)
      ensures owner.Some? ==
              (token in old(refresh) && !old(refresh)[token].revoked && old(refresh)[token].expires > now)
      ensures owner.Some? ==>
                && owner.value == old(refresh)[token].tenant && refresh == Revoke(old(refresh), token)
                && refresh == old(refresh)[token := old(refresh)[token].(revoked := true)]
      ensures owner.None? ==> refresh == old(refresh)
      ensures owner.Some? ==> forall later :: !Exchangeable(refresh, token, later)
    {
      if token !in refresh || refresh[token].revoked || refresh[token].expires <= now {
        return None;
      }
      owner := Some(refresh[token].tenant);
      refresh := refresh[token := refresh[token].(revoked := true)];
    }

    method RevokeRefresh(token: Token)
      modifies this`refresh
      ensures refresh == Revoke(old(refresh), token)
      ensures forall now :: !Exchangeable(refresh, token, now)
    {
      if token in refresh && !refresh[token].revoked {
        refresh := refresh[token := refresh[token].(revoked := true)];
      }
    }

    /** A token is good once, for the purpose it was sent for. */
    method ConsumeAuthToken(purpose: Purpose, token: Token, now: int) returns (owner: Option<nat>)
      modifies this`auth
      ensures owner.Some? ==
              (token in old(auth) && !old(auth)[token].used && old(auth)[token].purpose == purpose
               && old(auth)[token].expires > now)
      ensures auth.Keys == old(auth).Keys
      ensures owner.Some? ==> owner.value == old(auth)[token].tenant && auth[token].used
      ensures owner.None? ==> auth == old(auth)
      ensures forall other :: other in auth && other != token ==> auth[other] == old(auth)[other]
    {
      if token !in auth || auth[token].used || auth[token].purpose != purpose || auth[token].expires <= now {
        return None;
      }
      owner := Some(auth[token].tenant);
      auth := auth[token := auth[token].(used := true)];
    }

    /** Service.Refresh without interruption. `issued` is the fresh token. */
    method Refresh(token: Token, now: int, issued: Token, expires: int) returns (answer: Option<Token>)
      modifies this`refresh
      ensures answer.Some? ==
              (Exchangeable(old(refresh), token, now) && old(refresh)[token].tenant in passwords
               && issued !in old(refresh))
      ensures answer.Some? ==>
                answer.value == issued
                && refresh == Revoke(old(refresh), token)[issued := Row(old(refresh)[token].tenant, expires, false)]
      ensures answer.None? ==>
                refresh == if Exchangeable(old(refresh), token, now) then Revoke(old(refresh), token) else old(refresh)
    {
      var owner := RotateRefresh(token, now);
      if owner.None? || owner.value !in passwords {
        return None;
      }
      var saved := SaveRefresh(owner.value, issued, expires);
      answer := if saved then Some(issued) else None;
    }

    /** Service.ResetPassword; `hash` is None when hashing fails. The token is
        spent before the password is set. */
    method Reset(token: Token, password: string, hash: Option<string>, now: int) returns (ok: bool)
      modifies this`auth, this`passwords
      ensures auth.Keys == old(auth).Keys
      ensures ok ==> |password| >= 8 && hash.Some? && token in old(auth) && !old(auth)[token].used && auth[token].used
      ensures ok ==>
                passwords == if old(auth)[token].tenant in old(passwords)
                             then old(passwords)[old(auth)[token].tenant := hash.value] else old(passwords)
      ensures !ok ==> passwords == old(passwords)
      ensures ok ==> old(auth)[token].purpose == ResetPassword && old(auth)[token].expires > now
      ensures |password| < 8 ==> !ok && auth == old(auth)
    {
      if |password| < 8 {
        return false;
      }
      var owner := ConsumeAuthToken(ResetPassword, token, now);
      if owner.None? || hash.None? {
        return false;
      }
      if owner.value in passwords {
        passwords := passwords[owner.value := hash.value];
      }
      ok := true;
    }
  }

  // ---- the server in every interleaving ----

  /** A call between two statements. A rotation remembers the login its token
      descends from. */
  datatype Stage =
    | LoggingIn(tenant: nat)
    | Rotating(token: Token)
    | Rotated(tenant: nat, login: nat)
    | Revoking(token: Token)
    | Done(answer: Option<Token>)

  predicate IsRequest(stage: Stage) {
    stage.LoggingIn? || stage.Rotating? || stage.Revoking?
  }

  predicate Presents(stage: Stage, token: Token) {
    (stage.Rotating? || stage.Revoking?) && stage.token == token
  }

  /** A statement can fail, or take effect and then lose its answer. */
  datatype Outcome = Works | Fails | AnswerLost

  /** Where the right to a session's next token lies. */
  datatype Claim = AtToken(token: Token) | AtCall(call: nat)

  datatype Session = Session(tenant: nat, claim: Claim)

  /** The table and the calls under way; the rest is history and is stored
      nowhere: `login` maps each token to the login call its session began with,
      `sessions` holds each session's claim, and `exchanged` lists the tokens
      given up for a new one, in order. */
  datatype Server = Server(
    table: Table, calls: map<nat, Stage>,
    login: map<Token, nat>, sessions: map<nat, Session>, exchanged: seq<Token>)

  const START := Server(map[], map[], map[], map[], [])

  datatype Event =
    | Call(call: nat, request: Stage)
    | Serve(call: nat, token: Token, now: int, expires: int, outcome: Outcome)

  function Answer(s: Server, call: nat, answer: Option<Token>): Server {
    s.(calls := s.calls[call := Done(answer)])
  }

  /** issuePair: the new row, and the answer that carries its token. */
  function Issue(s: Server, e: Event, tenant: nat, login: nat): Server
    requires e.Serve?
  {
    if e.outcome.Fails? || e.token in s.table || e.token == NO_TOKEN then Answer(s, e.call, None)
    else
      var t := s.(table := s.table[e.token := Row(tenant, e.expires, false)],
                  login := s.login[e.token := login],
                  sessions := s.sessions[login := Session(tenant, AtToken(e.token))]);
      Answer(t, e.call, if e.outcome.Works? then Some(e.token) else None)
  }

  /** The call that revoked a token takes over its session. */
  function Take(s: Server, call: nat, token: Token): Server
    requires token in s.table && token in s.login
  {
    s.(calls := s.calls[call := Rotated(s.table[token].tenant, s.login[token])],
       sessions := s.sessions[s.login[token] := Session(s.table[token].tenant, AtCall(call))])
  }

  function Rotate(s: Server, e: Event, token: Token): Server
    requires e.Serve?
  {
    if e.outcome.Fails? || !Exchangeable(s.table, token, e.now) || token !in s.login then Answer(s, e.call, None)
    else
      var t := s.(table := Revoke(s.table, token), exchanged := s.exchanged + [token]);
      if e.outcome.Works?
      then Take(t, e.call, token)
      else Answer(t, e.call, None)
  }

  function Apply(s: Server, e: Event): Server {
    if e.Call? then
      if e.call in s.calls || !IsRequest(e.request) then s else s.(calls := s.calls[e.call := e.request])
    else if e.call !in s.calls then s
    else
      match s.calls[e.call]
      case LoggingIn(tenant) => Issue(s, e, tenant, e.call)
      case Rotating(token) => Rotate(s, e, token)
      case Rotated(tenant, login) => Issue(s, e, tenant, login)
      case Revoking(token) =>
        Answer(if e.outcome.Fails? then s else s.(table := Revoke(s.table, token)), e.call, None)
      case Done(_) => s
  }

  function Run(es: seq<Event>): Server {
    RunFrom(Apply, START, es)
  }

  // ---- what every run keeps ----

  ghost predicate Rows(s: Server) {
    && s.table.Keys == s.login.Keys && NO_TOKEN !in s.table
    && (forall t :: t in s.table ==> s.login[t] in s.sessions && s.sessions[s.login[t]].tenant == s.table[t].tenant)
    && (forall l :: l in s.sessions ==> l in s.calls && !s.calls[l].LoggingIn?)
  }

  ghost predicate Spent(s: Server) {
    (forall i :: 0 <= i < |s.exchanged| ==> s.exchanged[i] in s.table && s.table[s.exchanged[i]].revoked)
    && (forall i, j :: 0 <= i < j < |s.exchanged| ==> s.exchanged[i] != s.exchanged[j])
  }

  predicate Unrevoked(s: Server, t: Token) {
    t in s.table && !s.table[t].revoked
  }

  predicate InFlight(s: Server, c: nat) {
    c in s.calls && s.calls[c].Rotated?
  }

  predicate Claims(s: Server, login: nat, claim: Claim) {
    login in s.sessions && s.sessions[login].claim == claim
  }

  ghost predicate TokensClaim(s: Server) {
    forall t :: Unrevoked(s, t) ==> t in s.login && Claims(s, s.login[t], AtToken(t))
  }

  ghost predicate CallsClaim(s: Server) {
    forall c :: InFlight(s, c) ==> CallClaims(s, c)
  }

  predicate CallClaims(s: Server, c: nat)
    requires InFlight(s, c)
  {
    Claims(s, s.calls[c].login, AtCall(c)) && s.sessions[s.calls[c].login].tenant == s.calls[c].tenant
  }

  ghost predicate Inv(s: Server) {
    Rows(s) && Spent(s) && TokensClaim(s) && CallsClaim(s)
  }

  lemma AnswerKeeps(s: Server, call: nat, answer: Option<Token>)
    requires Inv(s)
    ensures Inv(Answer(s, call, answer))
  {
    var t := Answer(s, call, answer);
    forall u | Unrevoked(t, u)
      ensures u in t.login && Claims(t, t.login[u], AtToken(u))
    {
      assert Unrevoked(s, u);
    }
    forall c | InFlight(t, c)
      ensures CallClaims(t, c)
    {
      assert InFlight(s, c) && CallClaims(s, c);
    }
  }

  lemma RevokeKeeps(s: Server, token: Token)
    requires Inv(s)
    ensures Inv(s.(table := Revoke(s.table, token)))
  {
    var t := s.(table := Revoke(s.table, token));
    forall u | Unrevoked(t, u)
      ensures u in t.login && Claims(t, t.login[u], AtToken(u))
    {
      assert Unrevoked(s, u);
    }
    forall c | InFlight(t, c)
      ensures CallClaims(t, c)
    {
      assert InFlight(s, c) && CallClaims(s, c);
    }
  }

  lemma LoginKeeps(s: Server, e: Event, tenant: nat)
    requires Inv(s) && e.Serve? && e.call in s.calls && s.calls[e.call] == LoggingIn(tenant)
    ensures Inv(Issue(s, e, tenant, e.call))
  {
    if e.outcome.Fails? || e.token in s.table || e.token == NO_TOKEN {
      AnswerKeeps(s, e.call, None);
    } else {
      IssueKeeps(s, e, tenant, e.call);
    }
  }

  lemma ReissueKeeps(s: Server, e: Event, tenant: nat, login: nat)
    requires Inv(s) && e.Serve? && e.call in s.calls && s.calls[e.call] == Rotated(tenant, login)
    ensures Inv(Issue(s, e, tenant, login))
  {
    if e.outcome.Fails? || e.token in s.table || e.token == NO_TOKEN {
      AnswerKeeps(s, e.call, None);
    } else {
      assert InFlight(s, e.call) && CallClaims(s, e.call);
      IssueKeeps(s, e, tenant, login);
    }
  }

  lemma IssueRows(s: Server, e: Event, tenant: nat, login: nat)
    requires Rows(s) && Spent(s) && e.Serve? && e.token !in s.table && e.token != NO_TOKEN && e.call in s.calls
    requires if s.calls[e.call] == LoggingIn(tenant) then login == e.call
             else login in s.sessions && s.sessions[login] == Session(tenant, AtCall(e.call))
    ensures Rows(Issue(s, e, tenant, login)) && Spent(Issue(s, e, tenant, login))
  {
  }

  lemma IssueKeeps(s: Server, e: Event, tenant: nat, login: nat)
    requires Inv(s) && e.Serve? && !e.outcome.Fails? && e.token !in s.table && e.token != NO_TOKEN
    requires e.call in s.calls
    requires if s.calls[e.call] == LoggingIn(tenant) then login == e.call
             else login in s.sessions && s.sessions[login] == Session(tenant, AtCall(e.call))
    ensures Inv(Issue(s, e, tenant, login))
  {
    var t := Issue(s, e, tenant, login);
    IssueRows(s, e, tenant, login);
    hide Rows, Spent;
    forall u | Unrevoked(t, u)
      ensures u in t.login && Claims(t, t.login[u], AtToken(u))
    {
      hide Spent, CallsClaim;
      assert u != e.token ==> Unrevoked(s, u);
    }
    forall c | InFlight(t, c)
      ensures CallClaims(t, c)
    {
      hide Spent, TokensClaim;
      assert InFlight(s, c) && CallClaims(s, c);
    }
  }

  lemma RotateKeeps(s: Server, e: Event, token: Token)
    requires Inv(s) && e.Serve? && e.call in s.calls && s.calls[e.call] == Rotating(token)
    ensures Inv(Rotate(s, e, token))
  {
    if e.outcome.Fails? || !Exchangeable(s.table, token, e.now) || token !in s.login {
      AnswerKeeps(s, e.call, None);
    } else {
      assert Unrevoked(s, token);
      ExchangeKeeps(s, token);
      var t := s.(table := Revoke(s.table, token), exchanged := s.exchanged + [token]);
      if e.outcome.Works? {
        forall c | InFlight(t, c) && c != e.call
          ensures t.calls[c].login != t.login[token]
        {
          assert InFlight(s, c) && CallClaims(s, c);
        }
        TakeKeeps(t, e.call, token);
      } else {
        AnswerKeeps(t, e.call, None);
      }
    }
  }

  lemma ExchangeKeeps(s: Server, token: Token)
    requires Inv(s) && Unrevoked(s, token)
    ensures var t := s.(table := Revoke(s.table, token), exchanged := s.exchanged + [token]);
            Inv(t) && forall u :: Unrevoked(t, u) ==> u in s.login && token in s.login && s.login[u] != s.login[token]
  {
    RevokeKeeps(s, token);
    var t := s.(table := Revoke(s.table, token));
    var u := s.(table := Revoke(s.table, token), exchanged := s.exchanged + [token]);
    assert Rows(u) && Spent(u) by {
      hide TokensClaim, CallsClaim;
    }
    forall v | Unrevoked(u, v)
      ensures v in u.login && Claims(u, u.login[v], AtToken(v)) && u.login[v] != u.login[token]
    {
      assert Unrevoked(t, v) && Unrevoked(s, v);
    }
    forall c | InFlight(u, c)
      ensures CallClaims(u, c)
    {
      assert InFlight(t, c) && CallClaims(t, c);
    }
  }

  lemma TakeKeeps(s: Server, call: nat, token: Token)
    requires Inv(s) && token in s.table && token in s.login && call in s.calls && !s.calls[call].LoggingIn?
    requires forall u :: Unrevoked(s, u) ==> u in s.login && s.login[u] != s.login[token]
    requires forall c :: InFlight(s, c) && c != call ==> s.calls[c].login != s.login[token]
    ensures Inv(Take(s, call, token))
  {
    var t := Take(s, call, token);
    assert Rows(t) && Spent(t) by {
      hide TokensClaim, CallsClaim;
    }
    forall u | Unrevoked(t, u)
      ensures u in t.login && Claims(t, t.login[u], AtToken(u))
    {
      hide Spent, CallsClaim;
      assert Unrevoked(s, u);
    }
    forall c | InFlight(t, c)
      ensures CallClaims(t, c)
    {
      hide Spent, TokensClaim;
      assert c != call ==> InFlight(s, c) && CallClaims(s, c);
    }
  }

  lemma ApplyKeeps(s: Server, e: Event)
    requires Inv(s)
    ensures Inv(Apply(s, e))
  {
    if e.Call? {
      CallKeeps(s, e.call, e.request);
    } else if e.call in s.calls {
      ServeKeeps(s, e);
    }
  }

  lemma CallKeeps(s: Server, call: nat, request: Stage)
    requires Inv(s)
    ensures Inv(Apply(s, Call(call, request)))
  {
    var t := Apply(s, Call(call, request));
    forall u | Unrevoked(t, u)
      ensures u in t.login && Claims(t, t.login[u], AtToken(u))
    {
      assert Unrevoked(s, u);
    }
    forall c | InFlight(t, c)
      ensures CallClaims(t, c)
    {
      assert InFlight(s, c) && CallClaims(s, c);
    }
  }

  lemma ServeKeeps(s: Server, e: Event)
    requires Inv(s) && e.Serve? && e.call in s.calls
    ensures Inv(Apply(s, e))
  {
    hide Inv, Issue, Rotate, Answer, Revoke;
    match s.calls[e.call] {
      case LoggingIn(tenant) => LoginKeeps(s, e, tenant);
      case Rotating(token) => RotateKeeps(s, e, token);
      case Rotated(tenant, login) => ReissueKeeps(s, e, tenant, login);
      case Revoking(token) =>
        RevokeKeeps(s, token);
        AnswerKeeps(s, e.call, None);
        AnswerKeeps(s.(table := Revoke(s.table, token)), e.call, None);
      case Done(_) =>
    }
  }

  lemma RunInv(es: seq<Event>)
    ensures Inv(Run(es))
  {
    StartHolds();
    hide Apply, Inv;
    forall t, e | Inv(t)
      ensures Inv(Apply(t, e))
    {
      ApplyKeeps(t, e);
    }
    RunKeeps(Apply, t => Inv(t), START, es);
  }

  lemma StartHolds()
    ensures Inv(START)
  {
  }

  // ---- main results about the server ----

  /** Whoever calls, in whichever order, and whatever fails: no token is
      exchanged twice. */
  lemma ExchangedOnce(es: seq<Event>, i: nat, j: nat)
    requires i < j < |Run(es).exchanged|
    ensures Run(es).exchanged[i] != Run(es).exchanged[j]
  {
    RunInv(es);
  }

  predicate SameSession(s: Server, t: Token, u: Token) {
    t in s.table && u in s.table && t in s.login && u in s.login && s.login[t] == s.login[u]
  }

  /** A login session has at most one unrevoked token, and none while a rotation
      of it is under way; all its tokens belong to one tenant. */
  lemma OneTokenPerLogin(es: seq<Event>, t: Token, u: Token)
    requires SameSession(Run(es), t, u)
    ensures Run(es).table[t].tenant == Run(es).table[u].tenant
    ensures !Run(es).table[t].revoked && !Run(es).table[u].revoked ==> t == u
    ensures !Run(es).table[t].revoked ==>
              forall c :: InFlight(Run(es), c) ==> Run(es).calls[c].login != Run(es).login[t]
  {
    RunInv(es);
    OneClaim(Run(es), t, u);
  }

  lemma OneClaim(s: Server, t: Token, u: Token)
    requires Inv(s) && SameSession(s, t, u)
    ensures s.table[t].tenant == s.table[u].tenant
    ensures !s.table[t].revoked && !s.table[u].revoked ==> t == u
    ensures !s.table[t].revoked ==> forall c :: InFlight(s, c) ==> s.calls[c].login != s.login[t]
  {
    assert Unrevoked(s, t) == !s.table[t].revoked && Unrevoked(s, u) == !s.table[u].revoked;
    if !s.table[t].revoked {
      forall c | InFlight(s, c)
        ensures s.calls[c].login != s.login[t]
      {
        assert CallClaims(s, c);
      }
    }
  }

  /** Rows are never removed, never change hands and never become usable again. */
  lemma {:induction false} RevokedForGood(s: Server, es: seq<Event>, t: Token)
    requires t in s.table
    ensures t in RunFrom(Apply, s, es).table
    ensures RunFrom(Apply, s, es).table[t].tenant == s.table[t].tenant
    ensures s.table[t].revoked ==> RunFrom(Apply, s, es).table[t].revoked
    decreases |es|
  {
    if es != [] {
      StepKeepsRow(s, es[0], t);
      RevokedForGood(Apply(s, es[0]), es[1..], t);
    }
  }

  lemma StepKeepsRow(s: Server, e: Event, t: Token)
    requires t in s.table
    ensures t in Apply(s, e).table
    ensures Apply(s, e).table[t].tenant == s.table[t].tenant
    ensures s.table[t].revoked ==> Apply(s, e).table[t].revoked
  {
  }

  /** One exchange that nothing interrupts leaves the table that Store.Refresh
      leaves. */
  lemma WholeRefresh(s: Server, call: nat, token: Token, now: int, issued: Token, expires: int)
    requires Inv(s) && call !in s.calls && issued != NO_TOKEN && issued !in s.table
    ensures var after := RunFrom(Apply, s, [Call(call, Rotating(token)),
                                     Serve(call, issued, now, expires, Works),
                                     Serve(call, issued, now, expires, Works)]);
            && call in after.calls
            && (if Exchangeable(s.table, token, now)
                then after.table == Revoke(s.table, token)[issued := Row(s.table[token].tenant, expires, false)]
                     && after.calls[call] == Done(Some(issued))
                else after.table == s.table && after.calls[call] == Done(None))
  {
    var e0, e := Call(call, Rotating(token)), Serve(call, issued, now, expires, Works);
    ThreeSteps(Apply, s, e0, e, e);
    hide RunFrom, Spent, TokensClaim, CallsClaim;
    assert Apply(s, e0).calls[call] == Rotating(token);
  }

  /** A login without interruption adds the fresh token's row and answers with it;
      a logout revokes the token it carries and nothing else. */
  lemma WholeLogin(s: Server, call: nat, tenant: nat, issued: Token, now: int, expires: int)
    requires call !in s.calls
    ensures var t := RunFrom(Apply, s, [Call(call, LoggingIn(tenant)), Serve(call, issued, now, expires, Works)]);
            var good := issued !in s.table && issued != NO_TOKEN;
            && t.table == (if good then s.table[issued := Row(tenant, expires, false)] else s.table)
            && t.calls == s.calls[call := Done(if good then Some(issued) else None)]
  {
    var e0, e1 := Call(call, LoggingIn(tenant)), Serve(call, issued, now, expires, Works);
    assert [e0, e1] == [e0] + [e1];
    FirstStep(Apply, s, e0, [e1]);
    OneStep(Apply, Apply(s, e0), e1);
    hide RunFrom;
    assert s.calls[call := LoggingIn(tenant)][call := Done(Some(issued))] == s.calls[call := Done(Some(issued))];
    assert s.calls[call := LoggingIn(tenant)][call := Done(None)] == s.calls[call := Done(None)];
  }

  lemma WholeLogout(s: Server, call: nat, token: Token, issued: Token, now: int, expires: int)
    requires call !in s.calls
    ensures var t := RunFrom(Apply, s, [Call(call, Revoking(token)), Serve(call, issued, now, expires, Works)]);
            && t.calls == s.calls[call := Done(None)]
            && t.table == if token in s.table then s.table[token := s.table[token].(revoked := true)] else s.table
  {
    var e0, e1 := Call(call, Revoking(token)), Serve(call, issued, now, expires, Works);
    assert [e0, e1] == [e0] + [e1];
    FirstStep(Apply, s, e0, [e1]);
    OneStep(Apply, Apply(s, e0), e1);
    hide RunFrom;
    assert s.calls[call := Revoking(token)][call := Done(None)] == s.calls[call := Done(None)];
  }

  // ---- the browser ----

  datatype Intent = ForLogin | ForRefresh | ForLogout

  datatype Phase = Idle | Waiting(call: nat, intent: Intent)

  /** One browser, which sends one request at a time, among any other callers.
      The page may be reloaded at any moment; it then goes on with the token in
      local storage. The rest is history: `mine` are its calls, `abandoned` those
      it was waiting for when the page was reloaded, `secret` the tokens issued to
      its calls, `presented` the tokens they carried, and `effective` the calls
      whose statement revoked the token they carried. */
  datatype World = World(
    server: Server, held: Token, phase: Phase,
    mine: set<nat>, abandoned: set<nat>, secret: set<Token>, presented: map<nat, Token>, effective: set<nat>)

  const QUIET := World(START, NO_TOKEN, Idle, {}, {}, {}, map[], {})

  datatype Action =
    | Login(call: nat, tenant: nat)
    | Refresh(call: nat)
    | Logout(call: nat)
    | Receive
    | NetworkFails
    | Reload
    | Others(call: nat, request: Stage)
    | ServerStep(step: Event)

  function Send(w: World, call: nat, request: Stage, intent: Intent): World {
    if !w.phase.Idle? || call in w.server.calls then w
    else
      var sent := Apply(w.server, Call(call, request));
      var v := w.(server := sent, phase := Waiting(call, intent), mine := w.mine + {call});
      if request.Rotating? || request.Revoking? then v.(presented := w.presented[call := request.token]) else v
  }

  /** The call's next statement revokes the token it carries. */
  predicate TakesEffect(s: Server, t: Server, call: nat) {
    && call in s.calls && (s.calls[call].Rotating? || s.calls[call].Revoking?)
    && var token := s.calls[call].token;
       token in s.table && token in t.table && !s.table[token].revoked && t.table[token].revoked
  }

  /** What the browser holds after an answer; None is an error status or a
      failed fetch. A failed login changes nothing; after a failed refresh the
      interceptor logs out locally. */
  function HeldAfter(held: Token, intent: Intent, answer: Option<Token>): Token {
    match intent
    case ForLogin => if answer.Some? then answer.value else held
    case ForRefresh => if answer.Some? then answer.value else NO_TOKEN
    case ForLogout => NO_TOKEN
  }

  function Act(w: World, a: Action): World {
    match a
    case Login(call, tenant) => Send(w, call, LoggingIn(tenant), ForLogin)
    case Refresh(call) => if w.held == NO_TOKEN then w else Send(w, call, Rotating(w.held), ForRefresh)
    case Logout(call) => Send(w, call, Revoking(w.held), ForLogout)
    case Receive =>
      if w.phase.Waiting? && w.phase.call in w.server.calls && w.server.calls[w.phase.call].Done?
      then w.(held := HeldAfter(w.held, w.phase.intent, w.server.calls[w.phase.call].answer), phase := Idle)
      else w
    case NetworkFails =>
      if w.phase.Waiting? then w.(held := HeldAfter(w.held, w.phase.intent, None), phase := Idle) else w
    case Reload =>
      if w.phase.Waiting? then w.(phase := Idle, abandoned := w.abandoned + {w.phase.call}) else w
    case Others(call, request) => w.(server := Apply(w.server, Call(call, request)))
    case ServerStep(e) =>
      if !e.Serve? then w
      else
        var after := Apply(w.server, e);
        w.(server := after,
           effective := if TakesEffect(w.server, after, e.call) then w.effective + {e.call} else w.effective,
           secret := if e.call in w.mine && e.token in after.table && e.token !in w.server.table
                     then w.secret + {e.token} else w.secret)
  }

  function Live(w: World, actions: seq<Action>): World {
    RunFrom(Act, w, actions)
  }

  /** Other callers present tokens they were given, or none that exists. */
  predicate Discreet(w: World, a: Action) {
    a.Others? && (a.request.Rotating? || a.request.Revoking?) ==>
      a.request.token == NO_TOKEN || (a.request.token in w.server.table && a.request.token !in w.secret)
  }

  predicate AllDiscreet(w: World, actions: seq<Action>)
    decreases |actions|
  {
    actions == [] || (Discreet(w, actions[0]) && AllDiscreet(Act(w, actions[0]), actions[1..]))
  }

  /** A request that the browser abandoned has revoked the token. */
  predicate Took(w: World, token: Token) {
    exists c :: c in w.abandoned && c in w.effective && c in w.presented && w.presented[c] == token
  }

  /** Issued to the browser, and known to no call but `except` and abandoned ones. */
  ghost predicate Private(w: World, token: Token, except: Option<nat>) {
    && token in w.server.table && token in w.secret && token != NO_TOKEN
    && (forall c :: c in w.server.calls && Some(c) != except && Presents(w.server.calls[c], token) ==> c in w.abandoned)
  }

  /** The token is good, unless an abandoned request of the browser revoked it. */
  ghost predicate Safe(w: World, token: Token) {
    Private(w, token, None) && (w.server.table[token].revoked <==> Took(w, token))
  }

  /** The same while a request that carries the token is under way. */
  ghost predicate Carried(w: World, token: Token, call: nat) {
    && Private(w, token, Some(call)) && call in w.presented && w.presented[call] == token
    && (w.server.table[token].revoked <==> Took(w, token) || call in w.effective)
  }

  ghost predicate Tidy(w: World) {
    && NO_TOKEN !in w.server.table
    && (forall t :: t in w.secret ==> t in w.server.table)
    && (forall c, t :: c in w.server.calls && Presents(w.server.calls[c], t) ==> t == NO_TOKEN || t in w.server.table)
    && (forall c :: c in w.mine ==> c in w.server.calls)
    && (forall c :: c in w.abandoned ==> c in w.mine)
    && (forall c :: c in w.effective ==> c in w.server.calls)
    && (forall c :: c in w.presented ==>
                      c in w.mine && (w.presented[c] == NO_TOKEN || w.presented[c] in w.server.table))
    && (forall c, t :: c in w.mine && Presents(w.server.calls[c], t) ==>
                         c in w.presented && w.presented[c] == t && c !in w.effective)
  }

  ghost predicate HoldsIdle(w: World) {
    w.held == NO_TOKEN || Safe(w, w.held)
  }

  /** The answer that waits for the browser carries a good token. */
  ghost predicate HoldsAnswer(w: World, call: nat)
    requires call in w.server.calls
  {
    w.server.calls[call].Done? && w.server.calls[call].answer.Some? ==> Safe(w, w.server.calls[call].answer.value)
  }

  ghost predicate HoldsWaiting(w: World, call: nat, intent: Intent)
    requires call in w.server.calls
  {
    match intent
    case ForLogin =>
      && HoldsIdle(w) && call !in w.presented && HoldsAnswer(w, call)
      && (w.server.calls[call].LoggingIn? || w.server.calls[call].Done?)
    case ForRefresh =>
      && w.held != NO_TOKEN && Carried(w, w.held, call) && HoldsAnswer(w, call)
      && (w.server.calls[call].Rotating? || w.server.calls[call].Rotated? || w.server.calls[call].Done?)
    case ForLogout =>
      && (w.held != NO_TOKEN ==> Carried(w, w.held, call))
      && (w.server.calls[call].Revoking? || w.server.calls[call].Done?)
  }

  ghost predicate Holds(w: World) {
    if w.phase.Idle? then HoldsIdle(w)
    else
      && w.phase.call in w.server.calls && w.phase.call in w.mine && w.phase.call !in w.abandoned
      && HoldsWaiting(w, w.phase.call, w.phase.intent)
  }

  ghost predicate Good(w: World) {
    Tidy(w) && Holds(w)
  }

  // ---- one action at a time ----

  /** A step adds one row at most, and no call begins to present a token. */
  lemma StepTable(s: Server, e: Event)
    requires e.Serve?
    ensures var t := Apply(s, e);
            && (forall u :: u in s.table ==> u in t.table)
            && (forall u :: u in t.table ==> u in s.table || (u == e.token && u != NO_TOKEN))
            && t.calls.Keys == s.calls.Keys
            && (forall c :: c in s.calls ==>
                              t.calls[c] == s.calls[c] || t.calls[c].Done? || t.calls[c].Rotated?)
  {
    if e.call in s.calls {
      hide Issue;
      match s.calls[e.call] {
        case LoggingIn(tenant) => IssueTable(s, e, tenant, e.call);
        case Rotating(token) =>
        case Rotated(tenant, login) => IssueTable(s, e, tenant, login);
        case Revoking(token) =>
        case Done(_) =>
      }
    }
  }

  lemma IssueTable(s: Server, e: Event, tenant: nat, login: nat)
    requires e.Serve? && e.call in s.calls
    ensures var t := Issue(s, e, tenant, login);
            && (forall u :: u in s.table ==> u in t.table)
            && (forall u :: u in t.table ==> u in s.table || (u == e.token && u != NO_TOKEN))
            && t.calls.Keys == s.calls.Keys
            && (forall c :: c in s.calls ==> t.calls[c] == s.calls[c] || t.calls[c].Done?)
  {
  }

  /** Which tokens a step revokes: the one its call carries, if any. */
  lemma StepRevokes(w: World, e: Event, token: Token)
    requires e.Serve? && e.call in w.server.calls && token in w.server.table
    ensures var t := Apply(w.server, e);
            token in t.table
            && (t.table[token].revoked <==>
                  w.server.table[token].revoked
                  || (Presents(w.server.calls[e.call], token) && TakesEffect(w.server, t, e.call)))
  {
  }

  /** How a step changes what abandoned requests have revoked. */
  lemma StepTook(w: World, e: Event, token: Token)
    requires Tidy(w) && e.Serve? && e.call in w.server.calls
    ensures var v := Act(w, ServerStep(e));
            && v.effective == w.effective + (if TakesEffect(w.server, v.server, e.call) then {e.call} else {})
            && (Took(v, token) <==>
                  Took(w, token)
                  || (e.call in w.abandoned && TakesEffect(w.server, v.server, e.call)
                      && Presents(w.server.calls[e.call], token)))
  {
    var v := Act(w, ServerStep(e));
    hide Apply;
    if Took(w, token) {
      var c :| c in w.abandoned && c in w.effective && c in w.presented && w.presented[c] == token;
      assert c in v.effective;
    }
    if TakesEffect(w.server, v.server, e.call) && e.call in w.abandoned {
      var own := w.server.calls[e.call].token;
      assert Presents(w.server.calls[e.call], own);
      assert e.call in v.effective && w.presented[e.call] == own;
    }
  }

  lemma StepPrivate(w: World, e: Event, token: Token, except: Option<nat>)
    requires Private(w, token, except) && e.Serve?
    ensures Private(Act(w, ServerStep(e)), token, except)
  {
    StepTable(w.server, e);
    hide Apply, TakesEffect;
  }

  /** Serving any call that the browser does not wait for leaves a safe token safe. */
  lemma StepSafe(w: World, e: Event, token: Token)
    requires Tidy(w) && Safe(w, token) && e.Serve? && e.call in w.server.calls
    ensures Safe(Act(w, ServerStep(e)), token)
  {
    StepPrivate(w, e, token, None);
    StepRevokes(w, e, token);
    StepTook(w, e, token);
    hide Apply, TakesEffect, Took, Tidy;
  }

  lemma StepCarried(w: World, e: Event, token: Token, call: nat)
    requires Tidy(w) && Carried(w, token, call) && e.Serve? && e.call in w.server.calls && call in w.mine
    ensures Carried(Act(w, ServerStep(e)), token, call)
  {
    var v := Act(w, ServerStep(e));
    StepPrivate(w, e, token, Some(call));
    StepRevokes(w, e, token);
    StepTook(w, e, token);
    assert TakesEffect(w.server, v.server, e.call) ==>
        Presents(w.server.calls[e.call], w.server.calls[e.call].token);
    hide Apply, Took;
  }

  lemma StepSecret(w: World, e: Event)
    requires e.Serve?
    ensures var v := Act(w, ServerStep(e));
            forall t :: t in v.secret ==> t in w.secret || t in v.server.table
  {
    hide Apply, TakesEffect;
  }

  lemma StepTidy(w: World, e: Event)
    requires Tidy(w) && e.Serve? && e.call in w.server.calls
    ensures Tidy(Act(w, ServerStep(e)))
  {
    var v := Act(w, ServerStep(e));
    StepTable(w.server, e);
    StepTook(w, e, NO_TOKEN);
    TakesAndEnds(w.server, e);
    StepMoves(w, e);
    StepSecret(w, e);
    hide Apply, Took, TakesEffect, Act;
  }

  /** A call whose statement has run presents nothing any more. */
  lemma TakesAndEnds(s: Server, e: Event)
    requires e.Serve? && e.call in s.calls
    ensures forall t :: !Presents(Apply(s, e).calls[e.call], t)
  {
  }

  /** A token issued to one of the browser's own calls is safe. */
  lemma IssuedSafe(w: World, e: Event)
    requires Tidy(w) && e.Serve? && e.call in w.server.calls && e.call in w.mine
    requires w.server.calls[e.call].LoggingIn? || w.server.calls[e.call].Rotated?
    ensures var v := Act(w, ServerStep(e));
            e.call in v.server.calls && v.server.calls[e.call].Done?
            && (v.server.calls[e.call].answer.Some? ==> Safe(v, v.server.calls[e.call].answer.value))
  {
    var v := Act(w, ServerStep(e));
    StepTook(w, e, e.token);
  }

  lemma StepHolds(w: World, e: Event)
    requires Good(w) && e.Serve? && e.call in w.server.calls
    ensures Holds(Act(w, ServerStep(e)))
  {
    var v := Act(w, ServerStep(e));
    hide Safe, Carried, Tidy, Act, Apply;
    StepMoves(w, e);
    if w.held != NO_TOKEN && (w.phase.Idle? || w.phase.intent.ForLogin?) {
      StepSafe(w, e, w.held);
    }
    if w.phase.Waiting? {
      var call := w.phase.call;
      if w.held != NO_TOKEN && !w.phase.intent.ForLogin? {
        StepCarried(w, e, w.held, call);
      }
      if !w.phase.intent.ForLogout? {
        StepAnswer(w, e, call);
      }
    }
  }

  lemma StepAnswer(w: World, e: Event, call: nat)
    requires Tidy(w) && e.Serve? && e.call in w.server.calls && call in w.server.calls && call in w.mine
    requires HoldsAnswer(w, call)
    ensures call in Act(w, ServerStep(e)).server.calls && HoldsAnswer(Act(w, ServerStep(e)), call)
  {
    var v := Act(w, ServerStep(e));
    hide Safe, Tidy, Act, Apply;
    StepMoves(w, e);
    if w.server.calls[call].Done? {
      if w.server.calls[call].answer.Some? { StepSafe(w, e, w.server.calls[call].answer.value); }
    } else if call == e.call {
      if w.server.calls[call].LoggingIn? || w.server.calls[call].Rotated? { IssuedSafe(w, e); }
    }
  }

  /** What a server step leaves alone. */
  lemma StepMoves(w: World, e: Event)
    requires e.Serve? && e.call in w.server.calls
    ensures var v := Act(w, ServerStep(e));
            && v.held == w.held && v.phase == w.phase && v.mine == w.mine && v.abandoned == w.abandoned
            && v.presented == w.presented
            && v.server.calls.Keys == w.server.calls.Keys
            && (forall c :: c in w.server.calls && c != e.call ==> v.server.calls[c] == w.server.calls[c])
            && (w.server.calls[e.call].Done? ==> v.server.calls[e.call] == w.server.calls[e.call])
            && (w.server.calls[e.call].Rotating? ==>
                  v.server.calls[e.call].Rotated? || v.server.calls[e.call] == Done(None))
            && (w.server.calls[e.call].Revoking? ==> v.server.calls[e.call] == Done(None))
            && (w.server.calls[e.call].LoggingIn? || w.server.calls[e.call].Rotated? ==> v.server.calls[e.call].Done?)
  {
    hide TakesEffect;
  }

  lemma SendTidy(w: World, call: nat, request: Stage, intent: Intent)
    requires Tidy(w) && IsRequest(request) && w.phase.Idle?
    requires request.Rotating? || request.Revoking? ==> request.token == NO_TOKEN || request.token in w.server.table
    ensures Tidy(Send(w, call, request, intent))
  {
  }

  lemma SendSafe(w: World, call: nat, request: Stage, intent: Intent, token: Token)
    requires Tidy(w) && Safe(w, token) && IsRequest(request) && w.phase.Idle? && call !in w.server.calls
    ensures var v := Send(w, call, request, intent);
            if Presents(request, token) then Carried(v, token, call) else Safe(v, token)
  {
    var v := Send(w, call, request, intent);
    assert call !in w.abandoned && call !in w.presented;
    assert Took(v, token) <==> Took(w, token) by {
      if Took(w, token) {
        var c :| c in w.abandoned && c in w.effective && c in w.presented && w.presented[c] == token;
        assert c in v.presented && v.presented[c] == token;
      }
    }
    hide Took;
  }

  lemma SendHolds(w: World, call: nat, request: Stage, intent: Intent)
    requires Good(w) && w.phase.Idle?
    requires match intent
             case ForLogin => request.LoggingIn?
             case ForRefresh => request == Rotating(w.held) && w.held != NO_TOKEN
             case ForLogout => request == Revoking(w.held)
    ensures Good(Send(w, call, request, intent))
  {
    if call !in w.server.calls {
      SendTidy(w, call, request, intent);
      if w.held != NO_TOKEN { SendSafe(w, call, request, intent, w.held); }
      hide Tidy, Safe, Carried;
    }
  }

  lemma ReceiveHolds(w: World)
    requires Good(w)
    ensures Good(Act(w, Receive)) && Good(Act(w, NetworkFails))
  {
    var v, u := Act(w, Receive), Act(w, NetworkFails);
    assert forall t :: Took(v, t) <==> Took(w, t);
    assert forall t :: Took(u, t) <==> Took(w, t);
    hide Took;
  }

  /** After a reload the browser holds what it held before the request. */
  lemma ReloadHolds(w: World)
    requires Good(w)
    ensures Good(Act(w, Reload))
  {
    if w.phase.Waiting? {
      var v, call := Act(w, Reload), w.phase.call;
      ReloadTook(w, w.held);
      assert Tidy(v);
      hide Took, Tidy;
      if w.held != NO_TOKEN && w.phase.intent.ForLogin? { assert Safe(v, w.held); }
    }
  }

  lemma ReloadTook(w: World, token: Token)
    requires w.phase.Waiting? && Good(w)
    ensures var call := w.phase.call;
            Took(Act(w, Reload), token) <==>
              Took(w, token) || (call in w.effective && call in w.presented && w.presented[call] == token)
  {
    hide Tidy, Holds;
    var v := Act(w, Reload);
    if Took(w, token) {
      var c :| c in w.abandoned && c in w.effective && c in w.presented && w.presented[c] == token;
      assert c in v.abandoned;
    }
    if w.phase.call in w.effective && w.phase.call in w.presented && w.presented[w.phase.call] == token {
      assert w.phase.call in v.abandoned;
    }
  }

  lemma OthersHold(w: World, call: nat, request: Stage)
    requires Good(w) && Discreet(w, Others(call, request))
    ensures Good(Act(w, Others(call, request)))
  {
    var v := Act(w, Others(call, request));
    if call !in w.server.calls && IsRequest(request) {
      assert forall t :: Took(v, t) <==> Took(w, t);
      forall token, except | Private(w, token, except)
        ensures Private(v, token, except)
      {
      }
      assert Tidy(v);
      hide Private, Tidy, Took;
    }
  }

  lemma ActKeeps(w: World, a: Action)
    requires Good(w) && Discreet(w, a)
    ensures Good(Act(w, a))
  {
    match a {
      case Login(call, tenant) => if w.phase.Idle? { SendHolds(w, call, LoggingIn(tenant), ForLogin); }
      case Refresh(call) => if w.phase.Idle? && w.held != NO_TOKEN { SendHolds(w, call, Rotating(w.held), ForRefresh); }
      case Logout(call) => if w.phase.Idle? { SendHolds(w, call, Revoking(w.held), ForLogout); }
      case Receive => ReceiveHolds(w);
      case NetworkFails => ReceiveHolds(w);
      case Reload => ReloadHolds(w);
      case Others(call, request) => OthersHold(w, call, request);
      case ServerStep(e) =>
        if e.Serve? && e.call in w.server.calls {
          StepTidy(w, e);
          StepHolds(w, e);
        }
    }
  }

  lemma ActServes(w: World, a: Action)
    requires Inv(w.server)
    ensures Inv(Act(w, a).server)
  {
    hide Inv, Apply;
    match a {
      case Login(call, tenant) => ApplyKeeps(w.server, Call(call, LoggingIn(tenant)));
      case Refresh(call) => ApplyKeeps(w.server, Call(call, Rotating(w.held)));
      case Logout(call) => ApplyKeeps(w.server, Call(call, Revoking(w.held)));
      case Receive =>
      case NetworkFails =>
      case Reload =>
      case Others(call, request) => ApplyKeeps(w.server, Call(call, request));
      case ServerStep(e) => ApplyKeeps(w.server, e);
    }
  }

  lemma {:induction false} LiveKeeps(w: World, actions: seq<Action>)
    requires Good(w) && Inv(w.server) && AllDiscreet(w, actions)
    ensures Good(Live(w, actions)) && Inv(Live(w, actions).server)
    decreases |actions|
  {
    hide Inv, Good, Act, Discreet;
    if actions != [] {
      ActKeeps(w, actions[0]);
      ActServes(w, actions[0]);
      LiveKeeps(Act(w, actions[0]), actions[1..]);
    }
  }

  /** Main result about the browser, which may be reloaded at any moment. Between
      requests it is logged out, or it holds a token of its own that is revoked if
      and only if a request it abandoned has revoked it. */
  lemma HeldRevokedIff(actions: seq<Action>)
    requires AllDiscreet(QUIET, actions)
    ensures var w := Live(QUIET, actions);
            w.phase.Idle? && w.held != NO_TOKEN ==>
              w.held in w.server.table && (w.server.table[w.held].revoked <==> Took(w, w.held))
  {
    StartHolds();
    LiveKeeps(QUIET, actions);
    hide Live, Took, Tidy;
  }

  /** As long as it is not revoked, the token is the only such token of its
      session, and no rotation under way can replace it; answers may be lost at any
      moment. */
  lemma BrowserHoldsTheToken(actions: seq<Action>, other: Token)
    requires AllDiscreet(QUIET, actions)
    ensures var w := Live(QUIET, actions);
            w.phase.Idle? && w.held != NO_TOKEN && !Took(w, w.held) ==>
              && w.held in w.server.table && !w.server.table[w.held].revoked && w.held in w.server.login
              && (SameSession(w.server, other, w.held) && !w.server.table[other].revoked ==> other == w.held)
              && (forall c :: InFlight(w.server, c) ==> w.server.calls[c].login != w.server.login[w.held])
  {
    HeldRevokedIff(actions);
    StartHolds();
    LiveKeeps(QUIET, actions);
    var w := Live(QUIET, actions);
    if w.phase.Idle? && w.held != NO_TOKEN && !Took(w, w.held) {
      hide Live, Took;
      assert Unrevoked(w.server, w.held);
      if SameSession(w.server, other, w.held) {
        OneClaim(w.server, w.held, other);
      }
      OneClaim(w.server, w.held, w.held);
    }
  }

  /** The failing run, from every such state: a rotation that takes effect and is
      abandoned by a reload leaves the browser with a revoked token. */
  lemma AbandonedRotation(w: World, call: nat, e: Event)
    requires Good(w) && w.phase.Idle? && w.held != NO_TOKEN && call !in w.server.calls
    requires e.Serve? && e.call == call && !e.outcome.Fails? && Exchangeable(w.server.table, w.held, e.now)
    requires w.held in w.server.login
    ensures var v := Act(Act(Act(w, Refresh(call)), ServerStep(e)), Reload);
            v.phase.Idle? && v.held == w.held && v.server.table[v.held].revoked && Took(v, v.held)
  {
    var s1 := Act(w, Refresh(call));
    var s2 := Act(s1, ServerStep(e));
    assert s1.server.calls[call] == Rotating(w.held) && call in s1.presented;
    StepRevokes(s1, e, w.held);
    assert TakesEffect(s1.server, s2.server, call);
    assert call in s2.effective;
  }

  predicate NeverReloaded(actions: seq<Action>) {
    forall i :: 0 <= i < |actions| ==> !actions[i].Reload?
  }

  /** Without reloads nothing is abandoned, so the token is never revoked. */
  lemma {:induction false} NothingAbandoned(w: World, actions: seq<Action>)
    requires NeverReloaded(actions)
    ensures Live(w, actions).abandoned == w.abandoned
    decreases |actions|
  {
    if actions != [] {
      assert !actions[0].Reload?;
      NothingAbandoned(Act(w, actions[0]), actions[1..]);
    }
  }

  lemma NeverRevokedWithoutReload(actions: seq<Action>)
    requires AllDiscreet(QUIET, actions) && NeverReloaded(actions)
    ensures var w := Live(QUIET, actions);
            w.phase.Idle? && w.held != NO_TOKEN ==> w.held in w.server.table && !w.server.table[w.held].revoked
  {
    HeldRevokedIff(actions);
    NothingAbandoned(QUIET, actions);
    hide Live;
  }
}
