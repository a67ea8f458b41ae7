/** The browser's API client: the auth store of web/src/stores/auth.js and the
    refresh-and-retry-once interceptor of web/src/api.js. */
module WebClient {
  import opened Text

  datatype Tokens = Tokens(access: string, refresh: string, tenant: string)

  const LOGGED_OUT := Tokens("", "", "")

  datatype Sent =
    | Resource(bearer: string)
    | Refresh(token: string)
    | Login(username: string, password: string)
    | Logout(token: string)

  /** `body` is the token pair when the body of an answer parses as one. */
  datatype Reply = Unreachable | Answered(status: nat, body: Option<Tokens>)

  predicate Ok(r: Reply) {
    r.Answered? && 200 <= r.status <= 299
  }

  datatype Exchange = Exchange(sent: Sent, reply: Reply)

  /** fetch: anything may come back. */
  class Network {
    var log: seq<Exchange>

    constructor ()
      ensures log == []
    {
      log := [];
    }

    method Fetch(sent: Sent) returns (reply: Reply)
      modifies this
      ensures log == old(log) + [Exchange(sent, reply)]
    {
      reply := *;
      log := log + [Exchange(sent, reply)];
    }
  }

  class AuthStore {
    var tokens: Tokens
    var stored: Tokens

    ghost predicate Synced()
      reads this
    {
      stored == tokens
    }

    constructor (localStorage: Tokens)
      ensures Synced() && tokens == localStorage
    {
      tokens, stored := localStorage, localStorage;
    }

    method Persist()
      modifies this`stored
      ensures Synced()
    {
      stored := tokens;
    }

    method LogoutLocal()
      modifies this
      ensures Synced() && tokens == LOGGED_OUT
    {
      tokens := LOGGED_OUT;
      stored := LOGGED_OUT;
    }

    /** A failed login changes nothing. */
    method Login(net: Network, username: string, password: string) returns (ok: bool)
      requires Synced()
      modifies this, net
      ensures Synced()
      ensures |net.log| == |old(net.log)| + 1 && old(net.log) <= net.log
      ensures var last := net.log[|old(net.log)|];
              && last.sent == Sent.Login(username, password)
              && ok == (last.reply.Answered? && 200 <= last.reply.status <= 299 && last.reply.body.Some?)
              && tokens == if ok then last.reply.body.value else old(tokens)
    {
      var reply := net.Fetch(Sent.Login(username, password));
      if !Ok(reply) || reply.body.None? {
        return false;
      }
      tokens := reply.body.value;
      Persist();
      ok := true;
    }

    method RefreshTokens(net: Network) returns (ok: bool)
      requires Synced()
      modifies this, net
      ensures Synced()
      ensures |net.log| == |old(net.log)| + 1 && old(net.log) <= net.log
      ensures var last := net.log[|old(net.log)|];
              && last.sent == Sent.Refresh(old(tokens).refresh)
              && ok == (last.reply.Answered? && 200 <= last.reply.status <= 299 && last.reply.body.Some?)
              && tokens == if ok then last.reply.body.value else old(tokens)
    {
      var reply := net.Fetch(Sent.Refresh(tokens.refresh));
      if !Ok(reply) || reply.body.None? {
        return false;
      }
      tokens := reply.body.value;
      Persist();
      ok := true;
    }

    method LogoutEverywhere(net: Network)
      modifies this, net
      ensures Synced() && tokens == LOGGED_OUT
      ensures |net.log| == |old(net.log)| + 1 && old(net.log) <= net.log
      ensures net.log[|old(net.log)|].sent == Sent.Logout(old(tokens).refresh)
    {
      var _ := net.Fetch(Sent.Logout(tokens.refresh));
      LogoutLocal();
    }
  }

  datatype Result = Returned | Threw(status: nat) | NetworkError

  function ResultOf(r: Reply): Result {
    if r.Unreachable? then NetworkError else if Ok(r) then Returned else Threw(r.status)
  }

  predicate Denied(e: Exchange) {
    e.reply.Answered? && e.reply.status == 401
  }

  predicate Renewed(e: Exchange) {
    Ok(e.reply) && e.reply.body.Some?
  }

  /** Everything one request can say to the server: the resource once; or, after
      a 401, the resource and a refresh that fails and ends the session; or the
      resource, a refresh, and the resource again with the new access token. */
  predicate Conversation(before: Tokens, said: seq<Exchange>, after: Tokens, result: Result, retry: bool) {
    && |said| > 0 && said[0].sent == Resource(before.access)
    && if !Denied(said[0]) || !retry || before.refresh == "" then
         |said| == 1 && after == before && result == ResultOf(said[0].reply)
       else
         && |said| > 1 && said[1].sent == Refresh(before.refresh)
         && if !Renewed(said[1]) then
              |said| == 2 && after == LOGGED_OUT && result == Threw(401)
            else
              && |said| == 3 && after == said[1].reply.body.value
              && said[2].sent == Resource(after.access) && result == ResultOf(said[2].reply)
  }

  /** The caller gets what the last answer about the resource says: data for a
      status in the two hundreds, an error with its status for any other, and a
      network error without an answer. It is asked about once more exactly after
      a 401 with a token at hand and a refresh that worked. */
  lemma ConversationSays(before: Tokens, said: seq<Exchange>, after: Tokens, result: Result)
    requires Conversation(before, said, after, result, true)
    ensures |said| >= 1 && said[0].sent == Resource(before.access)
    ensures |said| > 1 <==> said[0].reply.Answered? && said[0].reply.status == 401 && before.refresh != ""
    ensures |said| > 1 ==> said[1].sent == Refresh(before.refresh)
    ensures |said| == 3 <==> |said| > 1 && said[1].reply.Answered? && 200 <= said[1].reply.status <= 299
                             && said[1].reply.body.Some?
    ensures |said| == 3 ==> said[2].sent == Resource(after.access) && after == said[1].reply.body.value
    ensures |said| == 2 ==> after == Tokens("", "", "")
    ensures |said| == 1 ==> after == before
    ensures var r := if |said| == 3 then said[2].reply else said[0].reply;
            result == if r.Unreachable? then NetworkError
                      else if 200 <= r.status <= 299 then Returned else Threw(r.status)
  {
  }

  method Request(auth: AuthStore, net: Network, retry: bool) returns (result: Result, ghost said: seq<Exchange>)
    requires auth.Synced()
    modifies auth, net
    decreases retry
    ensures auth.Synced() && net.log == old(net.log) + said
    ensures Conversation(old(auth.tokens), said, auth.tokens, result, retry)
  {
    var first := net.Fetch(Resource(auth.tokens.access));
    said := [Exchange(Resource(auth.tokens.access), first)];
    if first.Unreachable? {
      return NetworkError, said;
    }
    if first.status == 401 && retry && auth.tokens.refresh != "" {
      var ok := auth.RefreshTokens(net);
      said := said + [net.log[|net.log| - 1]];
      if ok {
        ghost var more;
        result, more := Request(auth, net, false);
        said := said + more;
        return;
      }
      auth.LogoutLocal();
    }
    result := ResultOf(first);
  }

  // ---- any number of requests, one after the other ----

  datatype Turn = Turn(said: seq<Exchange>, after: Tokens, result: Result)

  predicate Session(start: Tokens, turns: seq<Turn>)
    decreases |turns|
  {
    turns == [] ||
    (Conversation(start, turns[0].said, turns[0].after, turns[0].result, true) && Session(turns[0].after, turns[1..]))
  }

  function Log(turns: seq<Turn>): seq<Exchange>
    decreases |turns|
  {
    if turns == [] then [] else turns[0].said + Log(turns[1..])
  }

  /** The refresh tokens presented, and those received, in order. */
  function Presented(log: seq<Exchange>): seq<string>
    decreases |log|
  {
    if log == [] then []
    else (if log[0].sent.Refresh? then [log[0].sent.token] else []) + Presented(log[1..])
  }

  function Received(log: seq<Exchange>): seq<string>
    decreases |log|
  {
    if log == [] then []
    else (if log[0].sent.Refresh? && Renewed(log[0]) then [log[0].reply.body.value.refresh] else [])
         + Received(log[1..])
  }

  function Fetches(log: seq<Exchange>): nat
    decreases |log|
  {
    if log == [] then 0 else (if log[0].sent.Resource? then 1 else 0) + Fetches(log[1..])
  }

  ghost predicate Distinct(s: seq<string>) {
    forall i, j :: 0 <= i < j < |s| ==> s[i] != s[j]
  }

  lemma LogsJoin(a: seq<Exchange>, b: seq<Exchange>)
    ensures Presented(a + b) == Presented(a) + Presented(b)
    ensures Received(a + b) == Received(a) + Received(b)
    ensures Fetches(a + b) == Fetches(a) + Fetches(b)
  {
    PresentedJoin(a, b);
    ReceivedJoin(a, b);
    FetchesJoin(a, b);
  }

  lemma {:induction false} PresentedJoin(a: seq<Exchange>, b: seq<Exchange>)
    ensures Presented(a + b) == Presented(a) + Presented(b)
    decreases |a|
  {
    if a == [] {
      assert a + b == b;
    } else {
      PresentedJoin(a[1..], b);
      Unroll(a);
      Unroll(a + b);
      hide Presented, Received, Fetches, Renewed;
      assert (a + b)[0] == a[0] && (a + b)[1..] == a[1..] + b;
      TextsAssoc(if a[0].sent.Refresh? then [a[0].sent.token] else [], Presented(a[1..]), Presented(b));
    }
  }

  lemma {:induction false} ReceivedJoin(a: seq<Exchange>, b: seq<Exchange>)
    ensures Received(a + b) == Received(a) + Received(b)
    decreases |a|
  {
    if a == [] {
      assert a + b == b;
    } else {
      ReceivedJoin(a[1..], b);
      Unroll(a);
      Unroll(a + b);
      hide Presented, Received, Fetches, Renewed;
      assert (a + b)[0] == a[0] && (a + b)[1..] == a[1..] + b;
      TextsAssoc(if a[0].sent.Refresh? && Renewed(a[0]) then [a[0].reply.body.value.refresh] else [],
                 Received(a[1..]), Received(b));
    }
  }

  lemma {:induction false} FetchesJoin(a: seq<Exchange>, b: seq<Exchange>)
    ensures Fetches(a + b) == Fetches(a) + Fetches(b)
    decreases |a|
  {
    if a == [] {
      assert a + b == b;
    } else {
      FetchesJoin(a[1..], b);
      assert (a + b)[0] == a[0] && (a + b)[1..] == a[1..] + b;
    }
  }

  lemma TextsAssoc(a: seq<string>, b: seq<string>, c: seq<string>)
    ensures (a + b) + c == a + (b + c)
  {
  }

  /** One request, in numbers. */
  lemma OneRequest(before: Tokens, t: Turn)
    requires Conversation(before, t.said, t.after, t.result, true)
    ensures 1 <= Fetches(t.said) <= 2 && |Presented(t.said)| <= 1
    ensures Fetches(t.said) == 2 ==> |Presented(t.said)| == 1
    ensures Presented(t.said) == [] ==> Received(t.said) == [] && t.after == before
    ensures Presented(t.said) != [] ==>
              && before.refresh != "" && Presented(t.said) == [before.refresh]
              && (if Received(t.said) == [] then t.after == LOGGED_OUT else Received(t.said) == [t.after.refresh])
  {
    var said := t.said;
    Unroll(said);
    if |said| > 1 {
      assert said[1..][1..] == said[2..];
      Unroll(said[1..]);
      if |said| > 2 {
        assert said[2..][1..] == [];
        Unroll(said[2..]);
      }
    }
  }

  lemma Unroll(said: seq<Exchange>)
    requires said != []
    ensures var rest := said[1..];
            && Presented(said) == (if said[0].sent.Refresh? then [said[0].sent.token] else []) + Presented(rest)
            && Received(said) ==
               (if said[0].sent.Refresh? && Renewed(said[0]) then [said[0].reply.body.value.refresh] else [])
               + Received(rest)
            && Fetches(said) == (if said[0].sent.Resource? then 1 else 0) + Fetches(rest)
  {
  }

  /** Main result: over any number of requests, if the server never hands out a
      refresh token twice, the browser never presents one twice; n requests fetch
      the resource at most 2n times and refresh at most n times. */
  lemma {:induction false} NeverPresentedTwice(start: Tokens, turns: seq<Turn>)
    requires Session(start, turns) && Distinct([start.refresh] + Received(Log(turns)))
    ensures Distinct(Presented(Log(turns)))
    ensures forall p :: p in Presented(Log(turns)) ==> p != "" && (p == start.refresh || p in Received(Log(turns)))
    ensures |turns| <= Fetches(Log(turns)) <= |turns| + |Presented(Log(turns))| && |Presented(Log(turns))| <= |turns|
    decreases |turns|
  {
    if turns != [] {
      var t, rest := turns[0], turns[1..];
      LogsJoin(t.said, Log(rest));
      OneRequest(start, t);
      hide Conversation, Presented, Received, Fetches;
      var received := Received(Log(rest));
      var all := [start.refresh] + Received(Log(turns));
      if Presented(t.said) == [] {
        assert all == [start.refresh] + received;
        NeverPresentedTwice(start, rest);
      } else if Received(t.said) == [] {
        SilentOnceOut(t.after, rest);
        assert [t.after.refresh] + received == [""];
        NeverPresentedTwice(t.after, rest);
      } else {
        assert all == [start.refresh] + ([t.after.refresh] + received);
        DistinctTail(start.refresh, [t.after.refresh] + received);
        NeverPresentedTwice(t.after, rest);
        assert start.refresh !in Presented(Log(rest));
      }
    }
  }

  lemma DistinctTail(x: string, s: seq<string>)
    requires Distinct([x] + s)
    ensures Distinct(s) && x !in s
  {
    forall i | 0 <= i < |s|
      ensures s[i] != x && forall j :: i < j < |s| ==> s[i] != s[j]
    {
      assert ([x] + s)[0] == x && ([x] + s)[i + 1] == s[i];
      assert forall j :: i < j < |s| ==> ([x] + s)[j + 1] == s[j];
    }
  }

  /** Logged out, the client has no token to present. */
  lemma {:induction false} SilentOnceOut(start: Tokens, turns: seq<Turn>)
    requires Session(start, turns) && start.refresh == ""
    ensures Presented(Log(turns)) == [] && Received(Log(turns)) == []
    decreases |turns|
  {
    if turns != [] {
      LogsJoin(turns[0].said, Log(turns[1..]));
      OneRequest(start, turns[0]);
      SilentOnceOut(turns[0].after, turns[1..]);
    }
  }
}
