/**
 * Authentication: the headers `RobustaClient._get_auth_headers` attaches
 * to every request, and the rate-limited `sign_in` step of SupabaseDal as
 * a function on the login state, with what it guarantees over any
 * sequence of calls.
 */
module Auth {
  import opened Wrappers

  /** The identity client's current session; only its access token matters here. */
  datatype Session = Session(accessToken: string)

  /**
   * `_get_auth_headers`: the `apiKey` header is always the project key;
   * the bearer token is the session's access token when there is a session
   * with a non-empty token, and the project key otherwise.
   */
  function AuthHeaders(supabaseKey: string, session: Option<Session>): (h: map<string, string>)
    ensures h.Keys == {"apiKey", "Authorization"}
    ensures h["apiKey"] == supabaseKey
    ensures session.Some? && session.value.accessToken != "" ==>
      h["Authorization"] == "Bearer " + session.value.accessToken
    ensures session.None? || session.value.accessToken == "" ==>
      h["Authorization"] == "Bearer " + supabaseKey
  {
    var token := if session.Some? && session.value.accessToken != "" then session.value.accessToken else supabaseKey;
    map["apiKey" := supabaseKey, "Authorization" := "Bearer " + token]
  }

  /**
   * What `sign_in` reads and writes: the time of the last attempt
   * (`sign_in_time`), the number of logins attempted so far, and the
   * identity client's current session.
   */
  datatype Login = Login(signInTime: real, attempts: nat, session: Option<Session>)

  /** One `sign_in` call: the new state, whether a login was attempted, whether it raised. */
  datatype SignInOutcome = SignInOutcome(state: Login, attempted: bool, raised: bool)

  /**
   * `sign_in` at clock reading `now` with cooldown `limit`, where `reply` is
   * what the identity service answers if asked (None: the login raises).
   * A login is attempted exactly when `now` is past the cooldown; the
   * attempt time is recorded before the login, so a failed login still
   * starts a new cooldown; otherwise nothing changes.  A failed login is
   * taken to leave the client's session as it was.
   */
  function SignIn(s: Login, now: real, limit: real, reply: Option<Session>): (o: SignInOutcome)
    ensures o.attempted <==> now > s.signInTime + limit
    ensures o.attempted ==> o.state.signInTime == now && o.state.attempts == s.attempts + 1
    ensures o.attempted ==> (o.raised <==> reply.None?)
    ensures o.attempted ==> o.state.session == (if reply.Some? then reply else s.session)
    ensures !o.attempted ==> o.state == s && !o.raised
  {
    if now > s.signInTime + limit then
      var s' := s.(signInTime := now, attempts := s.attempts + 1);
      match reply
      case Some(session) => SignInOutcome(s'.(session := Some(session)), true, false)
      case None => SignInOutcome(s', true, true)
    else
      SignInOutcome(s, false, false)
  }

  /** After a successful login with a non-empty token, every request carries that token. */
  lemma SignInRefreshesHeaders(s: Login, now: real, limit: real, reply: Option<Session>, supabaseKey: string)
    requires now > s.signInTime + limit && reply.Some? && reply.value.accessToken != ""
    ensures AuthHeaders(supabaseKey, SignIn(s, now, limit, reply).state.session)["Authorization"]
         == "Bearer " + reply.value.accessToken
  {
  }

  /** A sign-in call: the clock reading and the identity service's reply if asked. */
  datatype Call = Call(now: real, reply: Option<Session>)

  /** The clock readings of the calls that attempted a login, in order, over a sequence of `sign_in` calls. */
  function Attempts(s: Login, calls: seq<Call>, limit: real): seq<real>
    decreases |calls|
  {
    if calls == [] then []
    else
      var o := SignIn(s, calls[0].now, limit, calls[0].reply);
      (if o.attempted then [calls[0].now] else []) + Attempts(o.state, calls[1..], limit)
  }

  /** The state after a sequence of `sign_in` calls. */
  function After(s: Login, calls: seq<Call>, limit: real): Login
    decreases |calls|
  {
    if calls == [] then s
    else After(SignIn(s, calls[0].now, limit, calls[0].reply).state, calls[1..], limit)
  }

  /**
   * The rate limit over any sequence of calls, whatever the clock does:
   * each attempt comes more than `limit` after the previous one (the first
   * more than `limit` after the initial `sign_in_time`), every attempt is
   * one of the calls, the attempt counter grows by the number of attempts,
   * and `sign_in_time` ends at the last attempt.
   */
  lemma {:induction false} AttemptsSpaced(s: Login, calls: seq<Call>, limit: real)
    ensures var a := Attempts(s, calls, limit);
      && (a != [] ==> a[0] > s.signInTime + limit)
      && (forall i :: 0 < i < |a| ==> a[i] > a[i - 1] + limit)
      && (forall i :: 0 <= i < |a| ==> exists j :: 0 <= j < |calls| && calls[j].now == a[i])
      && After(s, calls, limit).attempts == s.attempts + |a|
      && After(s, calls, limit).signInTime == (if a == [] then s.signInTime else a[|a| - 1])
    decreases |calls|
  {
    if calls != [] {
      var o := SignIn(s, calls[0].now, limit, calls[0].reply);
      var rest := Attempts(o.state, calls[1..], limit);
      AttemptsSpaced(o.state, calls[1..], limit);
      var a := Attempts(s, calls, limit);
      forall i | 0 <= i < |a| ensures exists j :: 0 <= j < |calls| && calls[j].now == a[i] {
        if o.attempted && i == 0 {
          assert calls[0].now == a[i];
        } else {
          var k := if o.attempted then i - 1 else i;
          assert a[i] == rest[k];
          var j :| 0 <= j < |calls[1..]| && calls[1..][j].now == rest[k];
          assert calls[j + 1].now == a[i];
        }
      }
    }
  }

  /** Calls that all fall within the cooldown of the last attempt attempt nothing and change nothing. */
  lemma {:induction false} NoAttemptWithinCooldown(s: Login, calls: seq<Call>, limit: real)
    requires forall j :: 0 <= j < |calls| ==> calls[j].now <= s.signInTime + limit
    ensures Attempts(s, calls, limit) == [] && After(s, calls, limit) == s
    decreases |calls|
  {
    if calls != [] {
      NoAttemptWithinCooldown(s, calls[1..], limit);
    }
  }

  /**
   * No login storm: when every call falls within one cooldown of every
   * other, at most one of them attempts a login.
   */
  lemma {:induction false} AtMostOneAttemptPerWindow(s: Login, calls: seq<Call>, limit: real)
    requires forall i, j :: 0 <= i < |calls| && 0 <= j < |calls| ==> calls[j].now <= calls[i].now + limit
    ensures |Attempts(s, calls, limit)| <= 1
    decreases |calls|
  {
    if calls != [] {
      var o := SignIn(s, calls[0].now, limit, calls[0].reply);
      if o.attempted {
        NoAttemptWithinCooldown(o.state, calls[1..], limit);
      } else {
        AtMostOneAttemptPerWindow(s, calls[1..], limit);
      }
    }
  }

  /**
   * Two calls within the cooldown make one login attempt, a third past the
   * cooldown of the first makes the second, even when the first login fails.
   */
  lemma CooldownScenario(s: Login, limit: real, t1: real, t2: real, t3: real, r1: Option<Session>, r2: Option<Session>, r3: Option<Session>)
    requires t1 > s.signInTime + limit && t2 <= t1 + limit && t3 > t1 + limit
    ensures Attempts(s, [Call(t1, r1), Call(t2, r2), Call(t3, r3)], limit) == [t1, t3]
    ensures After(s, [Call(t1, r1), Call(t2, r2), Call(t3, r3)], limit).attempts == s.attempts + 2
  {
    var calls := [Call(t1, r1), Call(t2, r2), Call(t3, r3)];
    var s1 := SignIn(s, t1, limit, r1).state;
    var s2 := SignIn(s1, t2, limit, r2).state;
    assert calls[1..] == [Call(t2, r2), Call(t3, r3)];
    assert calls[1..][1..] == [Call(t3, r3)];
    assert Attempts(s2, [Call(t3, r3)], limit) == [t3];
    AttemptsSpaced(s, calls, limit);
  }
}
