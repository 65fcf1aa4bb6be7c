/** OIDC login: starts and callbacks of any number of browsers, interleaved at every store operation.
    Each stored login reaches at most one code exchange, from a callback bound like it. */
module OidcLogin {
  import opened Text
  import opened Calendar

  /** `binding` is the stored digest of the browser secret, empty for unbound logins. */
  datatype Login = Login(state: string, binding: string, verifier: string, expiresAt: Time)

  type Callback = nat

  /** A callback that has taken a login goes on to its checks and, if they pass, to the exchange. */
  datatype Place = Rejected | Took(login: Login, code: string, secret: string, bound: bool) | Exchanged

  datatype Exchange = Exchange(who: Callback, state: string, verifier: string, code: string, secret: string, bound: bool, at: Time)

  datatype State = State(stored: map<string, Login>, begun: seq<Login>, callbacks: map<Callback, Place>, exchanges: seq<Exchange>)

  const START := State(map[], [], map[], [])

  datatype Action =
    | Begin(login: Login)
    | Take(who: Callback, code: string, stateValue: string, secret: string, bound: bool)
    | Proceed(who: Callback, now: Time)

  /** `oidcBindingHash`, over any digest. */
  function BindingHash(digest: string -> string, secret: string): string {
    if secret == "" then "" else digest(secret)
  }

  predicate Takeable(digest: string -> string, stored: map<string, Login>, stateValue: string, secret: string) {
    stateValue in stored && stored[stateValue].binding == BindingHash(digest, secret)
  }

  predicate MayExchange(p: Place, now: Time)
    requires p.Took?
  {
    && (p.bound ==> p.secret != "" && p.login.binding != "")
    && (p.login.expiresAt == ZERO_TIME || now < p.login.expiresAt)
  }

  function Next(digest: string -> string, s: State, a: Action): State {
    match a
    case Begin(login) => s.(stored := s.stored[login.state := login], begun := s.begun + [login])
    case Take(who, rawCode, rawState, secret, bound) =>
      var code, state := TrimSpace(rawCode), TrimSpace(rawState);
      if who in s.callbacks then s
      else if code == "" || state == "" || !Takeable(digest, s.stored, state, secret) then
        s.(callbacks := s.callbacks[who := Rejected])
      else
        s.(stored := s.stored - {state}, callbacks := s.callbacks[who := Took(s.stored[state], code, secret, bound)])
    case Proceed(who, now) =>
      if who !in s.callbacks || !s.callbacks[who].Took? then s
      else
        var p := s.callbacks[who];
        if !MayExchange(p, now) then s.(callbacks := s.callbacks[who := Rejected])
        else s.(callbacks := s.callbacks[who := Exchanged],
                exchanges := s.exchanges + [Exchange(who, p.login.state, p.login.verifier, p.code, p.secret, p.bound, now)])
  }

  function Run(digest: string -> string, actions: seq<Action>): State {
    if actions == [] then START else Next(digest, Run(digest, actions[..|actions| - 1]), actions[|actions| - 1])
  }

  /** State values are random: no two starts share one. */
  ghost predicate Fresh(actions: seq<Action>) {
    forall i, j :: 0 <= i < j < |actions| && actions[i].Begin? && actions[j].Begin? ==> actions[i].login.state != actions[j].login.state
  }

  // ----- invariant: a begun login is in one place only -----

  ghost predicate Began(s: State, login: Login) {
    login in s.begun
  }

  ghost predicate Holds(s: State, c: Callback) {
    c in s.callbacks && s.callbacks[c].Took?
  }

  /** An exchange is justified by a login begun earlier. */
  ghost predicate Justified(digest: string -> string, begun: seq<Login>, e: Exchange, login: Login) {
    && login in begun && login.state == e.state && login.verifier == e.verifier
    && login.binding == BindingHash(digest, e.secret)
    && (e.bound ==> e.secret != "" && login.binding != "")
    && (login.expiresAt == ZERO_TIME || e.at < login.expiresAt)
  }

  ghost predicate Explained(digest: string -> string, begun: seq<Login>, e: Exchange) {
    exists login :: Justified(digest, begun, e, login)
  }

  lemma ExplainedMore(digest: string -> string, a: seq<Login>, b: seq<Login>, e: Exchange)
    requires Explained(digest, a, e) && forall l :: l in a ==> l in b
    ensures Explained(digest, b, e)
  {
    var l :| Justified(digest, a, e, l);
    assert Justified(digest, b, e, l);
  }

  lemma ExplainedState(digest: string -> string, begun: seq<Login>, e: Exchange, state: string)
    requires Explained(digest, begun, e) && forall l :: l in begun ==> l.state != state
    ensures e.state != state
  {
    var l :| Justified(digest, begun, e, l);
  }

  ghost predicate StoredOk(s: State) {
    forall k :: k in s.stored ==> s.stored[k].state == k && Began(s, s.stored[k])
  }

  ghost predicate HeldOk(digest: string -> string, s: State) {
    && (forall c :: Holds(s, c) ==>
          && Began(s, s.callbacks[c].login) && s.callbacks[c].login.state !in s.stored
          && s.callbacks[c].login.binding == BindingHash(digest, s.callbacks[c].secret))
    && (forall c, d :: Holds(s, c) && Holds(s, d) && c != d ==> s.callbacks[c].login.state != s.callbacks[d].login.state)
  }

  ghost predicate ExchangesOk(digest: string -> string, s: State) {
    && (forall i :: 0 <= i < |s.exchanges| ==>
          && s.exchanges[i].state !in s.stored
          && Explained(digest, s.begun, s.exchanges[i])
          && (forall c :: Holds(s, c) ==> s.callbacks[c].login.state != s.exchanges[i].state))
    && (forall i, j :: 0 <= i < j < |s.exchanges| ==> s.exchanges[i].state != s.exchanges[j].state)
  }

  ghost predicate Inv(digest: string -> string, s: State) {
    StoredOk(s) && HeldOk(digest, s) && ExchangesOk(digest, s)
  }

  lemma BeginKeeps(digest: string -> string, s: State, login: Login)
    requires Inv(digest, s) && forall l :: l in s.begun ==> l.state != login.state
    ensures Inv(digest, Next(digest, s, Begin(login)))
  {
    hide Explained;
    var t := Next(digest, s, Begin(login));
    forall i | 0 <= i < |t.exchanges| ensures Explained(digest, t.begun, t.exchanges[i]) {
      ExplainedMore(digest, s.begun, t.begun, s.exchanges[i]);
    }
    forall i | 0 <= i < |s.exchanges| ensures s.exchanges[i].state != login.state {
      ExplainedState(digest, s.begun, s.exchanges[i], login.state);
    }
    assert forall c :: Holds(t, c) ==> Holds(s, c) && Began(s, s.callbacks[c].login) && s.callbacks[c].login.state != login.state;
  }

  lemma TakeKeeps(digest: string -> string, s: State, a: Action)
    requires Inv(digest, s) && a.Take?
    ensures Inv(digest, Next(digest, s, a))
  {
    hide TrimSpace, BindingHash, Explained;
    var t := Next(digest, s, a);
    assert forall c :: Holds(t, c) && c != a.who ==> Holds(s, c) && s.callbacks[c] == t.callbacks[c];
  }

  lemma ProceedKeeps(digest: string -> string, s: State, a: Action)
    requires Inv(digest, s) && a.Proceed?
    ensures Inv(digest, Next(digest, s, a))
  {
    hide BindingHash, Explained;
    var t := Next(digest, s, a);
    assert forall c :: Holds(t, c) ==> Holds(s, c) && s.callbacks[c] == t.callbacks[c];
    if |t.exchanges| > |s.exchanges| {
      assert Holds(s, a.who);
      ExchangeExplained(digest, s, a.who, a.now);
    }
  }

  lemma ExchangeExplained(digest: string -> string, s: State, who: Callback, now: Time)
    requires HeldOk(digest, s) && Holds(s, who) && MayExchange(s.callbacks[who], now)
    ensures var p := s.callbacks[who];
      Explained(digest, s.begun, Exchange(who, p.login.state, p.login.verifier, p.code, p.secret, p.bound, now))
  {
    var p := s.callbacks[who];
    assert Justified(digest, s.begun, Exchange(who, p.login.state, p.login.verifier, p.code, p.secret, p.bound, now), p.login);
  }

  lemma {:induction false} BegunBy(digest: string -> string, actions: seq<Action>)
    ensures forall l :: l in Run(digest, actions).begun <==> exists i :: 0 <= i < |actions| && actions[i] == Begin(l)
  {
    if actions != [] {
      var n := |actions| - 1;
      BegunBy(digest, actions[..n]);
      forall l ensures l in Run(digest, actions).begun <==> exists i :: 0 <= i < |actions| && actions[i] == Begin(l) {
        if i :| 0 <= i < |actions| && actions[i] == Begin(l) {
          if i < n { assert actions[..n][i] == Begin(l); }
        }
        if l in Run(digest, actions[..n]).begun {
          var i :| 0 <= i < |actions[..n]| && actions[..n][i] == Begin(l);
          assert actions[i] == Begin(l);
        }
      }
    }
  }

  lemma {:induction false} ReachableInv(digest: string -> string, actions: seq<Action>)
    requires Fresh(actions)
    ensures Inv(digest, Run(digest, actions))
  {
    hide Inv, Next;
    if actions == [] {
      assert Inv(digest, START) by { NothingBegun(digest); }
    } else {
      var n := |actions| - 1;
      ReachableInv(digest, actions[..n]);
      var s, a := Run(digest, actions[..n]), actions[n];
      match a
      case Begin(login) =>
        BegunBy(digest, actions[..n]);
        forall l | l in s.begun ensures l.state != login.state {
          var i :| 0 <= i < |actions[..n]| && actions[..n][i] == Begin(l);
          assert actions[i] == Begin(l);
        }
        BeginKeeps(digest, s, login);
      case Take(_, _, _, _, _) => TakeKeeps(digest, s, a);
      case Proceed(_, _) => ProceedKeeps(digest, s, a);
    }
  }

  lemma NothingBegun(digest: string -> string)
    ensures Inv(digest, START)
  {
  }

  // ----- theorems -----

  /** Single use: under every interleaving, two exchanges never come from one login. */
  lemma OneExchangePerLogin(digest: string -> string, actions: seq<Action>, i: nat, j: nat)
    requires Fresh(actions) && i < j < |Run(digest, actions).exchanges|
    ensures Run(digest, actions).exchanges[i].state != Run(digest, actions).exchanges[j].state
  {
    ReachableInv(digest, actions);
  }

  /** Browser binding: every exchange uses the verifier of a login some browser began, and comes from a
      callback whose secret has that login's digest; a browser callback has a secret; none is late. */
  lemma ExchangeIsBound(digest: string -> string, actions: seq<Action>, i: nat)
    requires Fresh(actions) && i < |Run(digest, actions).exchanges|
    ensures var s := Run(digest, actions);
      exists k :: 0 <= k < |actions| && actions[k].Begin? && Justified(digest, s.begun, s.exchanges[i], actions[k].login)
  {
    ReachableInv(digest, actions);
    BegunBy(digest, actions);
    var s := Run(digest, actions);
    var login :| Justified(digest, s.begun, s.exchanges[i], login);
    assert login in s.begun by { JustifiedBegan(digest, s, s.exchanges[i], login); }
    var k :| 0 <= k < |actions| && actions[k] == Begin(login);
    assert actions[k].login == login;
  }

  lemma JustifiedBegan(digest: string -> string, s: State, e: Exchange, login: Login)
    requires Justified(digest, s.begun, e, login)
    ensures login in s.begun
  {
  }

  /** A callback from another browser cannot burn a login: it stays, and the right callback still gets it. */
  lemma WrongBindingLeavesLogin(digest: string -> string, s: State, wrong: Action, right: Action)
    requires wrong.Take? && right.Take? && wrong.who != right.who && right.who !in s.callbacks
    requires TrimSpace(right.stateValue) != "" && TrimSpace(right.code) != ""
    requires Takeable(digest, s.stored, TrimSpace(right.stateValue), right.secret)
    requires TrimSpace(wrong.stateValue) == TrimSpace(right.stateValue)
    requires BindingHash(digest, wrong.secret) != BindingHash(digest, right.secret)
    ensures var t := Next(digest, Next(digest, s, wrong), right);
      && Next(digest, s, wrong).stored == s.stored
      && t.callbacks[right.who] == Took(s.stored[TrimSpace(right.stateValue)], TrimSpace(right.code), right.secret, right.bound)
  {
    hide TrimSpace, BindingHash;
  }

  /** Exactly when an undisturbed callback leads to an exchange, and with what. */
  lemma ExchangeExactly(digest: string -> string, s: State, who: Callback, rawCode: string, rawState: string, secret: string, bound: bool, now: Time)
    requires who !in s.callbacks
    ensures var t := Next(digest, Next(digest, s, Take(who, rawCode, rawState, secret, bound)), Proceed(who, now));
      var code, state := TrimSpace(rawCode), TrimSpace(rawState);
      var taken := code != "" && state in s.stored && state != "" && s.stored[state].binding == (if secret == "" then "" else digest(secret));
      if taken && (bound ==> secret != "" && s.stored[state].binding != "") && (s.stored[state].expiresAt == ZERO_TIME || now < s.stored[state].expiresAt)
      then t.exchanges == s.exchanges + [Exchange(who, s.stored[state].state, s.stored[state].verifier, code, secret, bound, now)]
           && t.stored == s.stored - {state}
      else t.exchanges == s.exchanges && t.stored == if taken then s.stored - {state} else s.stored
  {
    hide TrimSpace;
  }

  // ----- the store -----

  class LoginStore {
    var logins: map<string, Login>

    constructor ()
      ensures logins == map[]
    {
      logins := map[];
    }

    method Put(login: Login)
      modifies this
      ensures logins == old(logins)[login.state := login]
    {
      logins := logins[login.state := login];
    }

    /** `TakeBoundOIDCLoginState`: the binding is compared before the login is consumed. */
    method TakeBound(stateValue: string, bindingHash: string) returns (r: Option<Login>)
      modifies this
      ensures r.Some? <==> stateValue in old(logins) && old(logins)[stateValue].binding == bindingHash
      ensures r.Some? ==> r.value == old(logins)[stateValue] && logins == old(logins) - {stateValue}
      ensures r.None? ==> logins == old(logins)
    {
      if stateValue !in logins || logins[stateValue].binding != bindingHash { return None; }
      r := Some(logins[stateValue]);
      logins := logins - {stateValue};
    }

    /** A callback on its own: take, check, exchange. */
    method CompleteCallback(digest: string -> string, who: Callback, rawCode: string, rawState: string, secret: string, bound: bool, now: Time,
                            ghost s: State) returns (exchange: Option<Exchange>, ghost t: State)
      requires logins == s.stored && who !in s.callbacks
      modifies this
      ensures t == Next(digest, Next(digest, s, Take(who, rawCode, rawState, secret, bound)), Proceed(who, now))
      ensures logins == t.stored
      ensures t.exchanges == if exchange.Some? then s.exchanges + [exchange.value] else s.exchanges
    {
      hide TrimSpace;
      t := Next(digest, Next(digest, s, Take(who, rawCode, rawState, secret, bound)), Proceed(who, now));
      var code, stateValue := TrimSpace(rawCode), TrimSpace(rawState);
      if code == "" || stateValue == "" { return None, t; }
      var taken := TakeBound(stateValue, BindingHash(digest, secret));
      if taken.None? { return None, t; }
      var login := taken.value;
      if (bound && (secret == "" || login.binding == "")) || login.binding != BindingHash(digest, secret) { return None, t; }
      if login.expiresAt != ZERO_TIME && now >= login.expiresAt { return None, t; }
      exchange := Some(Exchange(who, login.state, login.verifier, code, secret, bound, now));
    }
  }
}
