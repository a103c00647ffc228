/** Refresh-token rotation (internal/service/auth_service.go).

    A signed token's text is a function of its claims, and different claims give different texts; so a token is its
    claims. Times are nanoseconds; `exp` is in Unix seconds (section 4.1.4 of RFC 7519). A password is compared by
    equality, standing for the hash comparison. */
module Auth {
  import opened Errors
  import opened AsyncService

  const HOUR := 3600
  const WEEK := 24 * 7 * HOUR

  datatype Token =
    | Access(userId: nat, email: string, role: string, exp: int)
    | Refresh(userId: nat, exp: int)

  datatype TokenPair = TokenPair(accessToken: Token, refreshToken: Token)

  /** A user row; its primary key is its place in the table. */
  datatype User = User(email: string, password: string, role: string, lastLogin: int, refreshToken: Option<Token>)

  function Unix(now: nat): nat {
    now / SECOND
  }

  /** The parser accepts a token until its expiry second begins. */
  predicate Valid(t: Token, now: nat) {
    now < t.exp * SECOND
  }

  function FindEmail(users: seq<User>, email: string): (i: nat)
    ensures i <= |users|
    ensures i < |users| ==> users[i].email == email
    ensures forall j: nat | j < i :: users[j].email != email
  {
    if |users| == 0 then 0 else if users[0].email == email then 0 else 1 + FindEmail(users[1..], email)
  }

  function IssuedAt(id: nat, user: User, now: nat): TokenPair {
    TokenPair(Access(id, user.email, user.role, Unix(now) + HOUR), Refresh(id, Unix(now) + WEEK))
  }

  /** The table after a save of one row. */
  function SaveUser(users: seq<User>, id: nat, user: User, w: Write): seq<User>
    requires id < |users|
  {
    if w.NotCommitted? then users else users[id := user]
  }

  /** GenerateTokenPair: the new refresh token replaces the stored one. */
  function Generate(users: seq<User>, id: nat, user: User, now: nat, w: Write): (seq<User>, Option<TokenPair>)
    requires id < |users|
  {
    var pair := IssuedAt(id, user, now);
    (SaveUser(users, id, user.(refreshToken := Some(pair.refreshToken)), w), if w.Committed? then Some(pair) else None)
  }

  function LogIn(users: seq<User>, email: string, password: string, now: nat, touch: Write, w: Write)
    : (seq<User>, Option<TokenPair>)
  {
    var id := FindEmail(users, email);
    if id == |users| || users[id].password != password then (users, None)
    else
      var user := users[id].(lastLogin := now);
      Generate(SaveUser(users, id, user, touch), id, user, now, w)
  }

  function Redeem(users: seq<User>, t: Token, now: nat, w: Write): (seq<User>, Option<TokenPair>) {
    if !Valid(t, now) || t.userId >= |users| || users[t.userId].refreshToken != Some(t) then (users, None)
    else Generate(users, t.userId, users[t.userId], now, w)
  }

  ghost predicate UniqueEmails(users: seq<User>) {
    forall i: nat, j: nat | i < j < |users| :: users[i].email != users[j].email
  }

  ghost predicate EmailTaken(users: seq<User>, email: string) {
    exists i: nat :: i < |users| && users[i].email == email
  }

  /** Every row but that of user id is as it was, and that one is still the same user's. */
  ghost predicate OnlyUser(before: seq<User>, after: seq<User>, id: nat) {
    && |after| == |before|
    && (forall j: nat | j < |before| && j != id :: after[j] == before[j])
    && (id < |before| ==> && after[id].email == before[id].email && after[id].password == before[id].password
                          && after[id].role == before[id].role)
  }

  class Service {
    var users: seq<User>

    constructor ()
      ensures users == []
    {
      users := [];
    }

    method RegisterUser(user: User, w: Write) returns (ok: bool)
      modifies this
      ensures (users, ok) == Register(old(users), user, w)
      ensures ok <==> !EmailTaken(old(users), user.email) && w.Committed?
      ensures users == if EmailTaken(old(users), user.email) || w.NotCommitted? then old(users) else old(users) + [user]
      ensures UniqueEmails(old(users)) ==> UniqueEmails(users)
    {
      ok := FindEmail(users, user.email) == |users| && w.Committed?;
      if FindEmail(users, user.email) == |users| && !w.NotCommitted? {
        users := users + [user];
      }
    }

    method Login(email: string, password: string, now: nat, touch: Write, w: Write) returns (pair: Option<TokenPair>)
      modifies this
      ensures (users, pair) == LogIn(old(users), email, password, now, touch, w)
      ensures !EmailTaken(old(users), email) ==> pair == None && users == old(users)
      ensures var id := FindEmail(old(users), email);
              && OnlyUser(old(users), users, id)
              && (id < |users| && old(users)[id].password != password ==> pair == None && users == old(users))
              && (pair.Some? <==> id < |users| && old(users)[id].password == password && w.Committed?)
              && (id < |users| && old(users)[id].password == password && !touch.NotCommitted? ==>
                    users[id].lastLogin == now)
              && (pair.Some? ==>
                    && users[id] == old(users)[id].(lastLogin := now, refreshToken := Some(pair.value.refreshToken))
                    && pair.value.refreshToken == Refresh(id, now / 1_000_000_000 + 604_800)
                    && pair.value.accessToken == Access(id, email, users[id].role, now / 1_000_000_000 + 3_600))
      ensures UniqueEmails(old(users)) ==> UniqueEmails(users)
    {
      var id := FindEmail(users, email);
      if id == |users| {
        return None;
      }
      var user := users[id];
      if user.password != password {
        return None;
      }
      user := user.(lastLogin := now);
      users := SaveUser(users, id, user, touch);
      pair := GenerateTokenPair(id, user, now, w);
    }

    method GenerateTokenPair(id: nat, user: User, now: nat, w: Write) returns (pair: Option<TokenPair>)
      requires id < |users|
      modifies this
      ensures (users, pair) == Generate(old(users), id, user, now, w)
      ensures |users| == |old(users)| && forall j: nat | j < |users| && j != id :: users[j] == old(users)[j]
      ensures var refresh := Refresh(id, now / 1_000_000_000 + 604_800);
              && users[id] == (if w.NotCommitted? then old(users)[id] else user.(refreshToken := Some(refresh)))
              && pair == if w.Committed? then
                           Some(TokenPair(Access(id, user.email, user.role, now / 1_000_000_000 + 3_600), refresh))
                         else None
    {
      var access := Access(id, user.email, user.role, Unix(now) + HOUR);
      var refresh := Refresh(id, Unix(now) + WEEK);
      users := SaveUser(users, id, user.(refreshToken := Some(refresh)), w);
      if !w.Committed? {
        return None;
      }
      pair := Some(TokenPair(access, refresh));
    }

    method RefreshToken(t: Token, now: nat, w: Write) returns (pair: Option<TokenPair>)
      modifies this
      ensures (users, pair) == Redeem(old(users), t, now, w)
      ensures OnlyUser(old(users), users, t.userId)
      ensures var accepted := now < t.exp * 1_000_000_000 && t.userId < |users|
                              && old(users)[t.userId].refreshToken == Some(t);
              && (pair.Some? <==> accepted && w.Committed?)
              && (!accepted || w.NotCommitted? ==> users == old(users))
      ensures pair.Some? ==>
                var user := old(users)[t.userId];
                && users[t.userId] == user.(refreshToken := Some(pair.value.refreshToken))
                && pair.value.refreshToken == Refresh(t.userId, now / 1_000_000_000 + 604_800)
                && pair.value.accessToken == Access(t.userId, user.email, user.role, now / 1_000_000_000 + 3_600)
    {
      if !Valid(t, now) {
        return None;
      }
      if t.userId >= |users| {
        return None;
      }
      var user := users[t.userId];
      if user.refreshToken != Some(t) {
        return None;
      }
      pair := GenerateTokenPair(t.userId, user, now, w);
    }
  }

  /** How long the tokens of a pair live, in nanoseconds: the refresh token is redeemed for seven days short of the
      second it was issued in and not when seven days have passed; the access token is accepted for an hour,
      likewise. */
  lemma TokenLife(users: seq<User>, id: nat, user: User, now: nat, later: nat, w: Write)
    requires id < |users| && now <= later
    ensures var (after, pair) := Generate(users, id, user, now, Committed);
            && pair.Some? && |after| == |users|
            && (later <= now + 604_799_000_000_000 ==>
                  (Redeem(after, pair.value.refreshToken, later, w).1.Some? <==> w.Committed?))
            && (later >= now + 604_800_000_000_000 ==>
                  Redeem(after, pair.value.refreshToken, later, w) == (after, None))
            && (later <= now + 3_599_000_000_000 ==> Valid(pair.value.accessToken, later))
            && (later >= now + 3_600_000_000_000 ==> !Valid(pair.value.accessToken, later))
  {
    assert now / SECOND * SECOND <= now < (now / SECOND + 1) * SECOND;
  }

  /** An insert, refused by the unique index on the email. */
  function Register(users: seq<User>, user: User, w: Write): (seq<User>, bool) {
    if FindEmail(users, user.email) < |users| then (users, false)
    else (if w.NotCommitted? then users else users + [user], w.Committed?)
  }

  // ---------------------------------------------------------------------------------------
  // Runs of operations, one after another
  // ---------------------------------------------------------------------------------------

  datatype Event =
    | Registration(user: User, save: Write)
    | LoggingIn(email: string, password: string, now: nat, touch: Write, save: Write)
    | Refreshing(token: Token, now: nat, save: Write)

  /** A refresh token written into a user's row. */
  datatype Saved = Saved(user: nat, token: Token)

  /** The table, with the history of the refresh tokens that were saved. */
  datatype State = State(users: seq<User>, saved: seq<Saved>)

  /** The token an event saves, if it does: one it issues, or one that a registered user came with. */
  function NewlySaved(s: State, e: Event): Option<Saved> {
    match e
    case Registration(user, w) =>
      if FindEmail(s.users, user.email) < |s.users| || w.NotCommitted? || user.refreshToken.None? then None
      else Some(Saved(|s.users|, user.refreshToken.value))
    case LoggingIn(email, password, now, _, w) =>
      var id := FindEmail(s.users, email);
      if id == |s.users| || s.users[id].password != password || w.NotCommitted? then None
      else Some(Saved(id, Refresh(id, Unix(now) + WEEK)))
    case Refreshing(t, now, w) =>
      if !Valid(t, now) || t.userId >= |s.users| || s.users[t.userId].refreshToken != Some(t) || w.NotCommitted?
      then None
      else Some(Saved(t.userId, Refresh(t.userId, Unix(now) + WEEK)))
  }

  function Next(s: State, e: Event): State {
    var saved := if NewlySaved(s, e).None? then s.saved else s.saved + [NewlySaved(s, e).value];
    match e
    case Registration(user, w) => State(Register(s.users, user, w).0, saved)
    case LoggingIn(email, password, now, touch, w) => State(LogIn(s.users, email, password, now, touch, w).0, saved)
    case Refreshing(t, now, w) => State(Redeem(s.users, t, now, w).0, saved)
  }

  /** The token saved last for a user. */
  function LastSaved(saved: seq<Saved>, u: nat): Option<Token> {
    if |saved| == 0 then None
    else if saved[|saved| - 1].user == u then Some(saved[|saved| - 1].token)
    else LastSaved(saved[..|saved| - 1], u)
  }

  ghost predicate StoredIsLast(s: State) {
    && (forall u: nat | u < |s.users| :: s.users[u].refreshToken == LastSaved(s.saved, u))
    && (forall i: nat | i < |s.saved| :: s.saved[i].user < |s.users|)
  }

  lemma {:induction false} NeverSaved(saved: seq<Saved>, u: nat)
    requires forall i: nat | i < |saved| :: saved[i].user < u
    ensures LastSaved(saved, u) == None
  {
    if |saved| > 0 {
      NeverSaved(saved[..|saved| - 1], u);
    }
  }

  lemma StoredIsLastKept(s: State, e: Event)
    requires StoredIsLast(s)
    ensures StoredIsLast(Next(s, e))
  {
    var t := Next(s, e);
    if NewlySaved(s, e).Some? {
      assert t.saved[..|s.saved|] == s.saved;
    }
    NeverSaved(s.saved, |s.users|);
  }

  function Final(s: State, events: seq<Event>): State
    decreases events
  {
    if |events| == 0 then s else Final(Next(s, events[0]), events[1..])
  }

  /** After any operations, each failing in any way, every user's row holds the token saved last for that user. */
  lemma {:induction false} StoredIsLastAlways(s: State, events: seq<Event>)
    requires StoredIsLast(s)
    ensures StoredIsLast(Final(s, events))
    decreases events
  {
    if |events| > 0 {
      StoredIsLastKept(s, events[0]);
      StoredIsLastAlways(Next(s, events[0]), events[1..]);
    }
  }

  /** A token is redeemable now exactly when it is the refresh token saved last for its user and its expiry second,
      seven days after the second it was issued in, has not begun. */
  lemma RedeemableIff(s: State, t: Token, now: nat)
    requires StoredIsLast(s)
    ensures Redeem(s.users, t, now, Committed).1.Some?
       <==> t.userId < |s.users| && LastSaved(s.saved, t.userId) == Some(t) && now < t.exp * SECOND
    ensures Redeem(s.users, t, now, Committed).1.Some? ==> Saved(t.userId, t) in s.saved
  {
    LastSavedIsSaved(s.saved, t.userId);
  }

  lemma {:induction false} LastSavedIsSaved(saved: seq<Saved>, u: nat)
    ensures LastSaved(saved, u).Some? ==> Saved(u, LastSaved(saved, u).value) in saved
  {
    if |saved| > 0 {
      LastSavedIsSaved(saved[..|saved| - 1], u);
    }
  }

  ghost predicate OnlyRefresh(saved: seq<Saved>) {
    forall x: Saved | x in saved :: x.token.Refresh?
  }

  ghost predicate BringNone(events: seq<Event>) {
    forall i: nat | i < |events| && events[i].Registration? :: events[i].user.refreshToken.None?
  }

  lemma {:induction false} OnlyRefreshSaved(s: State, events: seq<Event>)
    requires OnlyRefresh(s.saved) && BringNone(events)
    ensures OnlyRefresh(Final(s, events).saved)
    decreases events
  {
    if |events| > 0 {
      forall i: nat | i < |events[1..]| && events[1..][i].Registration? ensures events[1..][i].user.refreshToken.None? {
        assert events[i + 1].user.refreshToken.None?;
      }
      OnlyRefreshSaved(Next(s, events[0]), events[1..]);
    }
  }

  /** In a run in which no user is registered with a token an access token is never redeemable. */
  lemma AccessTokensAreNotRedeemable(events: seq<Event>, t: Token, now: nat)
    requires BringNone(events) && t.Access?
    ensures Redeem(Final(State([], []), events).users, t, now, Committed).1.None?
  {
    StoredIsLastAlways(State([], []), events);
    OnlyRefreshSaved(State([], []), events);
    RedeemableIff(Final(State([], []), events), t, now);
  }

  /** Redeeming a token revokes it, unless it is the very token that is issued: one of the same second has the same
      text. So a refresh token is revoked exactly when it is redeemed in a later second than it was issued in. */
  lemma RedeemRevokesIff(s: State, t: Token, now: nat, later: nat)
    requires StoredIsLast(s) && now <= later < t.exp * SECOND
    requires Redeem(s.users, t, now, Committed).1.Some?
    ensures var revoked := Redeem(Next(s, Refreshing(t, now, Committed)).users, t, later, Committed).1.None?;
            && (revoked <==> t != Refresh(t.userId, Unix(now) + WEEK))
            && (t.Refresh? && t.exp - WEEK <= Unix(now) ==> (revoked <==> t.exp - WEEK < Unix(now)))
  {
    StoredIsLastKept(s, Refreshing(t, now, Committed));
    RedeemableIff(s, t, now);
  }

  // ---------------------------------------------------------------------------------------
  // At most once
  // ---------------------------------------------------------------------------------------

  /** The event saves no token, or one that expires in a later second than the user's last. */
  predicate Later(s: State, e: Event) {
    NewlySaved(s, e).Some? ==>
      match LastSaved(s.saved, NewlySaved(s, e).value.user)
      case None => true
      case Some(t) => NewlySaved(s, e).value.token.exp > t.exp
  }

  ghost predicate Spaced(s: State, events: seq<Event>)
    decreases events
  {
    |events| > 0 ==> Later(s, events[0]) && Spaced(Next(s, events[0]), events[1..])
  }

  /** The event redeems t and returns a pair for it. */
  predicate Redeems(s: State, e: Event, t: Token) {
    e.Refreshing? && e.token == t && Redeem(s.users, t, e.now, e.save).1.Some?
  }

  ghost function CountRedeemed(s: State, events: seq<Event>, t: Token): nat
    decreases events
  {
    if |events| == 0 then 0
    else (if Redeems(s, events[0], t) then 1 else 0) + CountRedeemed(Next(s, events[0]), events[1..], t)
  }

  /** A later token has been saved for t's user. */
  predicate Superseded(s: State, t: Token) {
    match LastSaved(s.saved, t.userId)
    case None => false
    case Some(last) => last.exp > t.exp
  }

  lemma SupersededStays(s: State, e: Event, t: Token)
    requires Later(s, e)
    ensures Superseded(s, t) ==> Superseded(Next(s, e), t)
  {
    if NewlySaved(s, e).Some? {
      assert Next(s, e).saved[..|s.saved|] == s.saved;
    }
  }

  lemma RedeemSupersedes(s: State, e: Event, t: Token)
    requires StoredIsLast(s) && Later(s, e)
    ensures Redeems(s, e, t) ==> !Superseded(s, t) && Superseded(Next(s, e), t)
  {
    if Redeems(s, e, t) {
      assert Next(s, e).saved[..|s.saved|] == s.saved;
    }
  }

  /** Over every run in which a user's tokens are issued in different seconds, each token is successfully redeemed at
      most once, and not at all once a later one has been saved. */
  lemma {:induction false} RedeemedAtMostOnce(s: State, events: seq<Event>, t: Token)
    requires StoredIsLast(s) && Spaced(s, events)
    ensures CountRedeemed(s, events, t) <= if Superseded(s, t) then 0 else 1
    decreases events
  {
    if |events| > 0 {
      StoredIsLastKept(s, events[0]);
      SupersededStays(s, events[0], t);
      RedeemSupersedes(s, events[0], t);
      RedeemedAtMostOnce(Next(s, events[0]), events[1..], t);
    }
  }

  /** The spacing is needed: redeemed twice within the second it was issued in, a token gives a pair both times. */
  lemma SameSecondRedeemsTwice(user: User) returns (s: State, t: Token)
    ensures s == Next(Next(State([], []), Registration(user, Committed)),
                      LoggingIn(user.email, user.password, 0, Committed, Committed))
    ensures t == Refresh(0, WEEK)
    ensures CountRedeemed(s, [Refreshing(t, 1, Committed), Refreshing(t, 2, Committed)], t) == 2
  {
    var s0 := Next(State([], []), Registration(user, Committed));
    s := Next(s0, LoggingIn(user.email, user.password, 0, Committed, Committed));
    t := Refresh(0, WEEK);
    var events := [Refreshing(t, 1, Committed), Refreshing(t, 2, Committed)];
    var s1 := Next(s, events[0]);
    assert events[1..] == [Refreshing(t, 2, Committed)];
    assert events[1..][1..] == [];
    assert CountRedeemed(s1, events[1..], t) == 1;
  }
}
