/** Refresh-token sessions: the in-memory store, and concurrent logins, refreshes, logouts and evictions over it. */
module Sessions {
  import opened Common

  type Token = nat
  type UserId = nat
  type OpId = nat

  datatype Entry = Entry(user: UserId, expiresAt: int)

  type Live = map<Token, Entry>

  predicate Expired(e: Entry, now: int) {
    now > e.expiresAt
  }

  // --------------------------------------------------------------- the store

  function Evicted(m: Live, now: int): Live {
    map t | t in m && !Expired(m[t], now) :: m[t]
  }

  /** The store after a rotation, and whether the caller got its new token. */
  function Rotated(m: Live, oldKey: Token, newKey: Token, user: UserId, now: int, expiry: int): (Live, bool) {
    if oldKey !in m then (m, false)
    else if Expired(m[oldKey], now) then (m - {oldKey}, false)
    else (m[newKey := Entry(user, now + expiry)] - {oldKey}, true)
  }

  class SessionStore {
    var sessions: Live

    constructor ()
      ensures sessions == map[]
    {
      sessions := map[];
    }

    method Set(key: Token, user: UserId, now: int, expiry: int)
      modifies this
      ensures sessions == old(sessions)[key := Entry(user, now + expiry)]
    {
      sessions := sessions[key := Entry(user, now + expiry)];
    }

    /** The read half of Get; an expired entry is reported as missing, and deleted by a call of its own. */
    method Lookup(key: Token, now: int) returns (found: Option<UserId>, purge: bool)
      ensures found.Some? <==> key in sessions && !Expired(sessions[key], now)
      ensures found.Some? ==> found.value == sessions[key].user
      ensures purge <==> key in sessions && Expired(sessions[key], now)
    {
      if key !in sessions {
        return None, false;
      }
      if Expired(sessions[key], now) {
        return None, true;
      }
      return Some(sessions[key].user), false;
    }

    method Delete(key: Token)
      modifies this
      ensures sessions == old(sessions) - {key}
    {
      sessions := sessions - {key};
    }

    method Rotate(oldKey: Token, newKey: Token, user: UserId, now: int, expiry: int) returns (ok: bool)
      modifies this
      ensures (sessions, ok) == Rotated(old(sessions), oldKey, newKey, user, now, expiry)
    {
      if oldKey !in sessions {
        return false;
      }
      if Expired(sessions[oldKey], now) {
        sessions := sessions - {oldKey};
        return false;
      }
      sessions := sessions[newKey := Entry(user, now + expiry)];
      sessions := sessions - {oldKey};
      return true;
    }

    method EvictExpired(now: int)
      modifies this
      ensures sessions == Evicted(old(sessions), now)
    {
      var keys := sessions.Keys;
      while keys != {}
        invariant keys <= sessions.Keys <= old(sessions).Keys
        invariant forall t :: t in sessions ==>
          sessions[t] == old(sessions)[t] && (t in keys || !Expired(sessions[t], now))
        invariant forall t :: t in old(sessions) && t !in sessions ==> Expired(old(sessions)[t], now)
        decreases |keys|
      {
        var key :| key in keys;
        keys := keys - {key};
        if Expired(sessions[key], now) {
          sessions := sessions - {key};
        }
      }
    }
  }

  // ------------------------------------------------------------ the protocol

  /** A refresh in flight: it found its token, or is about to delete an expired one. */
  datatype Pc = Found(token: Token) | Purging(token: Token)

  /**
   * issued holds every token string ever generated; login names the login a token descends from, by
   * that login's first token; spent counts the successful refreshes of each token. They are history.
   */
  datatype State = State(live: Live, ops: map<OpId, Pc>, issued: set<Token>,
    login: map<Token, Token>, spent: multiset<Token>)

  const EMPTY := State(map[], map[], {}, map[], multiset{})

  datatype Action =
    | Login(token: Token, user: UserId, now: int, expiry: int)
    | RefreshLookup(id: OpId, token: Token, now: int)
    | RefreshGivesUp(id: OpId)
    | RefreshRotate(id: OpId, newToken: Token, user: UserId, now: int, expiry: int)
    | Purge(id: OpId)
    | Logout(token: Token)
    | Evict(now: int)

  /** A generated token is a string never generated before. Only signed tokens reach the store. */
  predicate Enabled(s: State, a: Action) {
    match a
    case Login(t, _, _, _) => t !in s.issued
    case RefreshLookup(id, t, _) => id !in s.ops && t in s.issued
    case RefreshGivesUp(id) => id in s.ops && s.ops[id].Found?
    case RefreshRotate(id, t, _, _, _) => id in s.ops && s.ops[id].Found? && t !in s.issued
    case Purge(id) => id in s.ops && s.ops[id].Purging?
    case _ => true
  }

  function Step(s: State, a: Action): State
    requires Enabled(s, a)
  {
    match a
    case Login(t, u, now, expiry) =>
      s.(live := s.live[t := Entry(u, now + expiry)], issued := s.issued + {t}, login := s.login[t := t])
    case RefreshLookup(id, t, now) =>
      if t !in s.live then s
      else s.(ops := s.ops[id := if Expired(s.live[t], now) then Purging(t) else Found(t)])
    case RefreshGivesUp(id) => s.(ops := s.ops - {id})
    case RefreshRotate(id, t, u, now, expiry) =>
      var presented := s.ops[id].token;
      var (live, ok) := Rotated(s.live, presented, t, u, now, expiry);
      var s' := s.(live := live, ops := s.ops - {id}, issued := s.issued + {t});
      if ok && presented in s.login
      then s'.(login := s.login[t := s.login[presented]], spent := s.spent + multiset{presented}) else s'
    case Purge(id) => s.(live := s.live - {s.ops[id].token}, ops := s.ops - {id})
    case Logout(t) => s.(live := s.live - {t})
    case Evict(now) => s.(live := Evicted(s.live, now))
  }

  ghost predicate Run(states: seq<State>, actions: seq<Action>) {
    |states| == |actions| + 1 && states[0] == EMPTY
    && forall i :: 0 <= i < |actions| ==> Enabled(states[i], actions[i]) && states[i + 1] == Step(states[i], actions[i])
  }

  ghost predicate Inv(s: State) {
    && (forall t :: t in s.live ==> t in s.issued && t in s.login && t !in s.spent)
    && (forall t :: t in s.login ==> t in s.issued && s.login[t] in s.issued)
    && (forall t, u :: t in s.live && u in s.live && t != u ==> s.login[t] != s.login[u])
    && (forall t :: s.spent[t] <= 1 && (t in s.spent ==> t in s.issued))
  }

  lemma RotateKeeps(s: State, a: Action)
    requires Inv(s) && Enabled(s, a) && a.RefreshRotate?
    ensures Inv(Step(s, a))
  {
    var s' := Step(s, a);
    var presented := s.ops[a.id].token;
    if presented in s.live && !Expired(s.live[presented], a.now) {
      assert s'.live == s.live[a.newToken := Entry(a.user, a.now + a.expiry)] - {presented};
      forall t, u | t in s'.live && u in s'.live && t != u
        ensures s'.login[t] != s'.login[u]
      {
        assert t != a.newToken ==> t in s.live && t != presented;
        assert u != a.newToken ==> u in s.live && u != presented;
      }
    }
  }

  lemma StepKeeps(s: State, a: Action)
    requires Inv(s) && Enabled(s, a)
    ensures Inv(Step(s, a))
  {
    if a.RefreshRotate? {
      RotateKeeps(s, a);
    }
  }

  lemma {:induction false} RunKeeps(states: seq<State>, actions: seq<Action>, i: nat)
    requires Run(states, actions) && i < |states|
    ensures Inv(states[i])
  {
    if i > 0 {
      RunKeeps(states, actions, i - 1);
      StepKeeps(states[i - 1], actions[i - 1]);
    }
  }

  /** In every interleaving a refresh token buys at most one refresh, and a login has at most one live token. */
  lemma OneRefreshPerToken(states: seq<State>, actions: seq<Action>, i: nat, t: Token, u: Token)
    requires Run(states, actions) && i < |states|
    ensures states[i].spent[t] <= 1
    ensures t in states[i].spent ==> t !in states[i].live
    ensures t in states[i].live ==> t in states[i].login
    ensures (t in states[i].live && u in states[i].live && t in states[i].login && u in states[i].login
             && states[i].login[t] == states[i].login[u]) ==> t == u
  {
    RunKeeps(states, actions, i);
  }

  /** A token that has been issued and is not live, because it was rotated, revoked or expired. */
  predicate Dead(s: State, t: Token) {
    t in s.issued && t !in s.live
  }

  /** A login none of whose tokens is live. */
  ghost predicate Ended(s: State, first: Token) {
    first in s.issued && forall t :: t in s.live && t in s.login ==> s.login[t] != first
  }

  lemma StepBuries(s: State, a: Action, t: Token, first: Token)
    requires Inv(s) && Enabled(s, a)
    ensures Dead(s, t) ==> Dead(Step(s, a), t)
    ensures Ended(s, first) ==> Ended(Step(s, a), first)
  {
  }

  /** A dead token never comes back; neither does a login whose last live token is gone, whatever is still in flight. */
  lemma {:induction false} TheDeadStayDead(states: seq<State>, actions: seq<Action>,
        i: nat, j: nat, t: Token, first: Token)
    requires Run(states, actions) && i <= j < |states|
    ensures Dead(states[i], t) ==> Dead(states[j], t)
    ensures Ended(states[i], first) ==> Ended(states[j], first)
  {
    if i < j {
      TheDeadStayDead(states, actions, i, j - 1, t, first);
      RunKeeps(states, actions, j - 1);
      StepBuries(states[j - 1], actions[j - 1], t, first);
    }
  }

  /** Logging the live token out ends its login at once. */
  lemma LogoutEnds(states: seq<State>, actions: seq<Action>, i: nat, t: Token)
    requires Run(states, actions) && i < |actions| && actions[i] == Logout(t) && t in states[i].live
    ensures t in states[i].login && Ended(states[i + 1], states[i].login[t]) && Dead(states[i + 1], t)
  {
    RunKeeps(states, actions, i);
  }

  /** The store's answer to a lookup at this time, as the handler goes on with it. */
  predicate Finds(s: State, id: OpId, t: Token, now: int)
    requires Enabled(s, RefreshLookup(id, t, now))
  {
    var s' := Step(s, RefreshLookup(id, t, now));
    id in s'.ops && s'.ops[id] == Found(t)
  }

  /** A login is good for its time, to the second, and for that user. */
  lemma LoginLasts(s: State, t: Token, user: UserId, now: int, expiry: int, id: OpId, later: int)
    requires Enabled(s, Login(t, user, now, expiry)) && id !in s.ops
    ensures var s1 := Step(s, Login(t, user, now, expiry));
      t in s1.live && s1.live[t].user == user && (Finds(s1, id, t, later) <==> later <= now + expiry)
  {
  }

  /**
   * A token that is live when a refresh looks it up and when it rotates buys a new one for its user and a full
   * period from then on, and is gone; every other session stays as it was. If its time runs out first, or
   * another refresh or a logout came first, nothing is bought.
   */
  lemma LiveTokenIsRefreshed(states: seq<State>, actions: seq<Action>, i: nat, id: OpId, t: Token, newToken: Token,
                             user: UserId, now: int, expiry: int, reader: OpId, later: int)
    requires Run(states, actions) && i < |actions|
    requires actions[i] == RefreshRotate(id, newToken, user, now, expiry) && states[i].ops[id] == Found(t)
    requires reader !in states[i].ops
    ensures var s, s' := states[i], states[i + 1];
      var bought := t in s.live && now <= s.live[t].expiresAt;
      && t !in s'.live && id !in s'.ops
      && (forall u :: u != t && u != newToken ==> (u in s.live <==> u in s'.live))
      && (forall u :: u in s.live && u in s'.live ==> s'.live[u] == s.live[u])
      && s'.spent[t] == s.spent[t] + (if bought then 1 else 0)
      && (newToken in s'.live <==> bought)
      && (bought ==> s'.live[newToken].user == user && newToken in s'.login && t in s.login
                     && s'.login[newToken] == s.login[t]
                     && (Finds(s', reader, newToken, later) <==> later <= now + expiry))
  {
    RunKeeps(states, actions, i);
  }

  /** A lookup goes on exactly with a live token whose time is not up; one whose time is up is deleted next. */
  lemma LookupFindsTheLive(s: State, id: OpId, t: Token, now: int)
    requires Enabled(s, RefreshLookup(id, t, now))
    ensures var s' := Step(s, RefreshLookup(id, t, now));
      && (Finds(s, id, t, now) <==> t in s.live && now <= s.live[t].expiresAt)
      && (t in s.live && now > s.live[t].expiresAt ==>
            Enabled(s', Purge(id)) && Step(s', Purge(id)).live == s.live - {t})
      && s'.live == s.live
  {
  }
}
