/** Refresh-session families: the token rotation protocol of the auth service.

    A refresh is two database interactions. The first is an unlocked read that
    authenticates the presented credential and decides what to do; the second is a
    transaction under the advisory lock of the credential family. Everything another
    request does may happen in between, so the decision of the first interaction is
    kept as a `Flight` and committed by a later, separate step. */
module Sessions {
  import opened Common

  datatype Reason = Rotated | ReuseDetected | LoggedOut

  datatype Session = Session(
    family: nat,
    secret: nat,
    expiresAt: int,
    absoluteExpiresAt: int,
    revokedAt: Option<int>,
    reason: Option<Reason>,
    replacedBy: Option<nat>)

  /** What an unlocked read left to be committed under the family lock. */
  datatype Flight =
    | Rotate(parent: nat, parentSecret: nat, child: nat, bundle: Session)
    | Revoke(family: nat, why: Reason)

  datatype Auth = Auth(sessions: map<nat, Session>, flights: seq<Flight>)

  datatype Settings = Settings(refreshTtl: int, absoluteTtl: int)

  datatype Step =
    | Login(id: nat, newFamily: nat, secret: nat, now: int)
    | Present(id: nat, secret: nat, userActive: bool, now: int, child: nat, childSecret: nat)
    | LogoutRefresh(id: nat, secret: nat, now: int)
    | LogoutAccess(id: nat)
    | Commit(flight: nat, at: int)
    | Idle

  // ---------------------------------------------------------------- transitions

  function Min(a: int, b: int): int { if a <= b then a else b }

  /** The session row a login or rotation would insert; None when it would be born expired. */
  function Bundle(cfg: Settings, now: int, family: nat, secret: nat, inherited: Option<int>): Option<Session> {
    var absolute := if inherited.Some? then inherited.value else now + cfg.absoluteTtl;
    var expires := Min(now + cfg.refreshTtl, absolute);
    if expires <= now then None
    else Some(Session(family, secret, expires, absolute, None, None, None))
  }

  predicate Active(ss: map<nat, Session>, id: nat) {
    id in ss && ss[id].revokedAt.None?
  }

  /** The family-wide update: every unrevoked member gets the same reason and time. */
  function RevokeAll(ss: map<nat, Session>, family: nat, why: Reason, at: int): map<nat, Session> {
    map id | id in ss :: Revoked(ss[id], family, why, at)
  }

  function Revoked(s: Session, family: nat, why: Reason, at: int): Session {
    if s.family == family && s.revokedAt.None? then s.(revokedAt := Some(at), reason := Some(why)) else s
  }

  /** Authentication of a presented refresh credential by the unlocked read. */
  predicate Authenticates(ss: map<nat, Session>, id: nat, secret: nat, userActive: bool, now: int) {
    id in ss && userActive && ss[id].expiresAt > now && ss[id].secret == secret
  }

  /** The decision of the unlocked read of a refresh, None when it only rejects. */
  function Decide(cfg: Settings, ss: map<nat, Session>, st: Step): Option<Flight>
    requires st.Present?
  {
    if !Authenticates(ss, st.id, st.secret, st.userActive, st.now) then None
    else
      var s := ss[st.id];
      if s.revokedAt.Some? then
        if s.reason == Some(Rotated) then Some(Revoke(s.family, ReuseDetected)) else None
      else
        match Bundle(cfg, st.now, s.family, st.childSecret, Some(s.absoluteExpiresAt))
        case None => None
        case Some(b) => Some(Rotate(st.id, s.secret, st.child, b))
  }

  /** The decision of a logout: by refresh credential it must be usable, by access token it need only exist. */
  function DecideLogout(ss: map<nat, Session>, st: Step): Option<Flight> {
    match st
    case LogoutRefresh(id, secret, now) =>
      if id in ss && ss[id].revokedAt.None? && ss[id].expiresAt > now && ss[id].secret == secret
      then Some(Revoke(ss[id].family, LoggedOut)) else None
    case LogoutAccess(id) => if id in ss then Some(Revoke(ss[id].family, LoggedOut)) else None
    case _ => None
  }

  /** The step a logout amounts to, by its refresh credential or else by its access token. */
  function LogoutStep(ss: map<nat, Session>, refresh: Option<(nat, nat)>, access: Option<nat>, now: int): Step {
    if refresh.Some? && DecideLogout(ss, LogoutRefresh(refresh.value.0, refresh.value.1, now)).Some?
    then LogoutRefresh(refresh.value.0, refresh.value.1, now)
    else if access.Some? then LogoutAccess(access.value)
    else if refresh.Some? then LogoutRefresh(refresh.value.0, refresh.value.1, now)
    else Idle
  }

  /** The rows left by the locked transaction of one flight, and whether it rotated. */
  function CommitRows(ss: map<nat, Session>, f: Flight, at: int): (map<nat, Session>, bool) {
    match f
    case Revoke(family, why) => (RevokeAll(ss, family, why, at), false)
    case Rotate(parent, secret, child, bundle) =>
      if parent !in ss then (ss, false)
      else if ss[parent].revokedAt.Some? then
        (if ss[parent].reason == Some(Rotated) then RevokeAll(ss, bundle.family, ReuseDetected, at) else ss, false)
      else
        (ss[child := bundle]
          [parent := ss[parent].(revokedAt := Some(at), reason := Some(Rotated), replacedBy := Some(child))], true)
  }

  function WithFlight(a: Auth, f: Option<Flight>): Auth {
    if f.None? then a else a.(flights := a.flights + [f.value])
  }

  function Next(cfg: Settings, a: Auth, st: Step): Auth {
    match st
    case Login(id, family, secret, now) =>
      (match Bundle(cfg, now, family, secret, None)
       case None => a
       case Some(b) => a.(sessions := a.sessions[id := b]))
    case Present(_, _, _, _, _, _) => WithFlight(a, Decide(cfg, a.sessions, st))
    case LogoutRefresh(_, _, _) => WithFlight(a, DecideLogout(a.sessions, st))
    case LogoutAccess(_) => WithFlight(a, DecideLogout(a.sessions, st))
    case Commit(k, at) =>
      if k < |a.flights| then Auth(CommitRows(a.sessions, a.flights[k], at).0, a.flights[..k] + a.flights[k + 1..])
      else a
    case Idle => a
  }

  // ---------------------------------------------------------------- environment

  ghost predicate UnusedId(a: Auth, id: nat) {
    && id !in a.sessions
    && (forall k :: 0 <= k < |a.flights| && a.flights[k].Rotate? ==> a.flights[k].child != id)
  }

  /** Random identifiers never repeat: the one assumption made about the generator. */
  ghost predicate FreshIds(a: Auth, st: Step) {
    match st
    case Login(id, family, _, _) => UnusedId(a, id) && forall i :: i in a.sessions ==> a.sessions[i].family != family
    case Present(_, _, _, _, child, _) => UnusedId(a, child)
    case _ => true
  }

  ghost predicate Admissible(cfg: Settings, a: Auth, steps: seq<Step>)
    decreases |steps|
  {
    steps == [] || (FreshIds(a, steps[0]) && Admissible(cfg, Next(cfg, a, steps[0]), steps[1..]))
  }

  function Exec(cfg: Settings, a: Auth, steps: seq<Step>): Auth
    decreases |steps|
  {
    if steps == [] then a else Exec(cfg, Next(cfg, a, steps[0]), steps[1..])
  }

  const START := Auth(map[], [])

  // ---------------------------------------------------------------- invariant

  /** `c` lists the whole family, each member replaced by the next one. */
  ghost predicate ChainOf(ss: map<nat, Session>, family: nat, c: seq<nat>) {
    && |c| > 0
    && (forall i, j :: 0 <= i < j < |c| ==> c[i] != c[j])
    && (forall i :: 0 <= i < |c| ==> c[i] in ss && ss[c[i]].family == family)
    && (forall i :: 0 <= i < |c| ==> ss[c[i]].absoluteExpiresAt == ss[c[0]].absoluteExpiresAt)
    && (forall id :: id in ss && ss[id].family == family ==> id in c)
    && (forall i :: 0 <= i < |c| - 1 ==> ss[c[i]].reason == Some(Rotated) && ss[c[i]].replacedBy == Some(c[i + 1]))
    && ss[c[|c| - 1]].replacedBy == None
  }

  ghost predicate HasChain(ss: map<nat, Session>, family: nat) {
    exists c :: ChainOf(ss, family, c)
  }

  ghost predicate RowOk(s: Session) {
    && s.expiresAt <= s.absoluteExpiresAt
    && (s.revokedAt.Some? <==> s.reason.Some?)
    && (s.replacedBy.Some? <==> s.reason == Some(Rotated))
  }

  ghost predicate FlightOk(ss: map<nat, Session>, f: Flight) {
    && (f.Revoke? ==> f.why != Rotated)
    && (f.Rotate? ==>
      && f.parent in ss && ss[f.parent].family == f.bundle.family && ss[f.parent].secret == f.parentSecret
      && f.bundle.absoluteExpiresAt == ss[f.parent].absoluteExpiresAt
      && f.bundle.revokedAt.None? && f.bundle.reason.None? && f.bundle.replacedBy.None? && RowOk(f.bundle)
      && f.child !in ss)
  }

  ghost predicate RowsOk(ss: map<nat, Session>) { forall id :: id in ss ==> RowOk(ss[id]) }

  ghost predicate FlightsOk(ss: map<nat, Session>, fs: seq<Flight>)
  {
    forall k :: 0 <= k < |fs| ==> FlightOk(ss, fs[k])
  }

  ghost predicate ChildrenDiffer(fs: seq<Flight>) {
    forall j, k :: 0 <= j < k < |fs| && fs[j].Rotate? && fs[k].Rotate? ==> fs[j].child != fs[k].child
  }

  ghost predicate ChainsOk(ss: map<nat, Session>) { forall id :: id in ss ==> HasChain(ss, ss[id].family) }

  ghost predicate Inv(a: Auth) {
    RowsOk(a.sessions) && FlightsOk(a.sessions, a.flights) && ChildrenDiffer(a.flights) && ChainsOk(a.sessions)
  }

  ghost predicate NoneActive(ss: map<nat, Session>, family: nat) {
    forall id :: id in ss && ss[id].family == family ==> ss[id].revokedAt.Some?
  }

  // ---------------------------------------------------------------- invariant proof

  lemma RevokeKeepsChain(ss: map<nat, Session>, family: nat, why: Reason, at: int, f: nat)
    requires HasChain(ss, f) && RowsOk(ss)
    ensures HasChain(RevokeAll(ss, family, why, at), f)
  {
    var c :| ChainOf(ss, f, c);
    var tt := RevokeAll(ss, family, why, at);
    RevokeKeepsLinks(ss, family, why, at, f, c);
    assert ChainOf(tt, f, c);
  }

  lemma RevokeKeepsLinks(ss: map<nat, Session>, family: nat, why: Reason, at: int, f: nat, c: seq<nat>)
    requires ChainOf(ss, f, c) && RowsOk(ss)
    ensures ChainOf(RevokeAll(ss, family, why, at), f, c)
  {
    var tt := RevokeAll(ss, family, why, at);
    forall i | 0 <= i < |c| - 1 ensures tt[c[i]] == ss[c[i]] { assert RowOk(ss[c[i]]); }
    assert forall id :: id in tt ==>
      id in ss && tt[id].family == ss[id].family && tt[id].replacedBy == ss[id].replacedBy
                                     && tt[id].absoluteExpiresAt == ss[id].absoluteExpiresAt;
    hide RevokeAll, Revoked, RowsOk;
  }

  /** A usable session can only be the last of its chain. */
  lemma ActiveIsLast(ss: map<nat, Session>, f: nat, c: seq<nat>, id: nat)
    requires ChainOf(ss, f, c) && RowsOk(ss)
    requires Active(ss, id) && ss[id].family == f
    ensures id == c[|c| - 1]
  {
    var k :| 0 <= k < |c| && c[k] == id;
    assert RowOk(ss[c[k]]);
  }

  /** Rotating the last member appends the child to the chain. */
  lemma RotateExtends(ss: map<nat, Session>, f: nat, c: seq<nat>, child: nat, bundle: Session, at: int)
    requires ChainOf(ss, f, c) && child !in ss
    requires bundle.family == f && bundle.replacedBy.None?
    requires bundle.absoluteExpiresAt == ss[c[|c| - 1]].absoluteExpiresAt
    ensures var p := c[|c| - 1];
            ChainOf(ss[child := bundle]
              [p := ss[p].(revokedAt := Some(at), reason := Some(Rotated), replacedBy := Some(child))],
                    f, c + [child])
  {
    var p := c[|c| - 1];
    var rotated := ss[p].(revokedAt := Some(at), reason := Some(Rotated), replacedBy := Some(child));
    var ss' := ss[child := bundle][p := rotated];
    var c' := c + [child];
    forall id | id in ss' && ss'[id].family == f
      ensures id in c'
    {
      if id != child { assert id in ss && ss[id].family == f; assert id in c; }
    }
    forall i | 0 <= i < |c'| - 1
      ensures ss'[c'[i]].reason == Some(Rotated) && ss'[c'[i]].replacedBy == Some(c'[i + 1])
    {
      if i < |c| - 1 { assert c[i] != p; }
    }
  }

  /** Rows of other families do not matter to a chain. */
  lemma ChainFrame(ss: map<nat, Session>, tt: map<nat, Session>, f: nat, c: seq<nat>)
    requires ChainOf(ss, f, c)
    requires forall id :: id in ss && ss[id].family == f ==> id in tt && tt[id] == ss[id]
    requires forall id :: id in tt && tt[id].family == f ==> id in ss && tt[id] == ss[id]
    ensures ChainOf(tt, f, c)
  {
    forall id | id in tt && tt[id].family == f ensures id in c { assert ss[id].family == f; }
  }

  lemma RotateKeepsChains(ss: map<nat, Session>, fl: Flight, at: int, f: nat)
    requires fl.Rotate? && FlightOk(ss, fl) && Active(ss, fl.parent)
    requires RowsOk(ss)
    requires HasChain(ss, f)
    ensures HasChain(CommitRows(ss, fl, at).0, f)
  {
    var c :| ChainOf(ss, f, c);
    if fl.bundle.family == f {
      ActiveIsLast(ss, f, c, fl.parent);
      RotateExtends(ss, f, c, fl.child, fl.bundle, at);
      assert ChainOf(CommitRows(ss, fl, at).0, f, c + [fl.child]);
    } else {
      ChainFrame(ss, CommitRows(ss, fl, at).0, f, c);
    }
  }

  lemma FamilyExisted(ss: map<nat, Session>, fl: Flight, at: int, id: nat)
    requires ChainsOk(ss) && FlightOk(ss, fl) && id in CommitRows(ss, fl, at).0
    ensures HasChain(ss, CommitRows(ss, fl, at).0[id].family)
  {
    hide HasChain;
    assert id !in ss ==> fl.Rotate? && fl.parent in ss && HasChain(ss, ss[fl.parent].family);
  }

  lemma CommitKeepsChain(ss: map<nat, Session>, fl: Flight, at: int, f: nat)
    requires RowsOk(ss) && HasChain(ss, f) && FlightOk(ss, fl)
    ensures HasChain(CommitRows(ss, fl, at).0, f)
  {
    hide HasChain, RowsOk, RevokeAll;
    if fl.Rotate? && Active(ss, fl.parent) {
      RotateKeepsChains(ss, fl, at, f);
    } else if fl.Revoke? {
      RevokeKeepsChain(ss, fl.family, fl.why, at, f);
    } else {
      RevokeKeepsChain(ss, fl.bundle.family, ReuseDetected, at, f);
    }
  }

  lemma CommitKeepsChains(ss: map<nat, Session>, fl: Flight, at: int)
    requires RowsOk(ss) && ChainsOk(ss)
    requires FlightOk(ss, fl)
    ensures ChainsOk(CommitRows(ss, fl, at).0)
  {
    hide CommitRows, HasChain, RowsOk, FlightOk;
    var ss' := CommitRows(ss, fl, at).0;
    forall id | id in ss'
      ensures HasChain(ss', ss'[id].family)
    {
      var f := ss'[id].family;
      FamilyExisted(ss, fl, at, id);
      CommitKeepsChain(ss, fl, at, f);
    }
  }

  /** Committing one flight does not disturb the facts the other flights rely on. */
  lemma CommitKeepsFlight(ss: map<nat, Session>, fl: Flight, at: int, other: Flight)
    requires FlightOk(ss, fl) && FlightOk(ss, other)
    requires fl.Rotate? && other.Rotate? ==> fl.child != other.child
    ensures FlightOk(CommitRows(ss, fl, at).0, other)
  {
  }

  lemma CommitKeepsRows(ss: map<nat, Session>, fl: Flight, at: int)
    requires RowsOk(ss)
    requires FlightOk(ss, fl)
    ensures RowsOk(CommitRows(ss, fl, at).0)
  {
  }

  lemma CommitKeepsFlights(ss: map<nat, Session>, fs: seq<Flight>, k: nat, at: int)
    requires FlightsOk(ss, fs) && ChildrenDiffer(fs) && k < |fs|
    ensures var rest := fs[..k] + fs[k + 1..];
            FlightsOk(CommitRows(ss, fs[k], at).0, rest) && ChildrenDiffer(rest)
  {
    hide CommitRows, FlightOk;
    var rest := fs[..k] + fs[k + 1..];
    assert forall j :: 0 <= j < |rest| ==> rest[j] == fs[if j < k then j else j + 1];
    forall j | 0 <= j < |rest|
      ensures FlightOk(CommitRows(ss, fs[k], at).0, rest[j])
    {
      CommitKeepsFlight(ss, fs[k], at, rest[j]);
    }
  }

  lemma CommitKeepsInv(a: Auth, k: nat, at: int)
    requires Inv(a) && k < |a.flights|
    ensures Inv(Auth(CommitRows(a.sessions, a.flights[k], at).0, a.flights[..k] + a.flights[k + 1..]))
  {
    assert FlightOk(a.sessions, a.flights[k]);
    hide RowsOk, ChainsOk, FlightsOk, FlightOk, CommitRows;
    CommitKeepsRows(a.sessions, a.flights[k], at);
    CommitKeepsChains(a.sessions, a.flights[k], at);
    CommitKeepsFlights(a.sessions, a.flights, k, at);
  }

  lemma LoginChain(ss: map<nat, Session>, id: nat, b: Session)
    requires (forall i :: i in ss ==> ss[i].family != b.family) && b.replacedBy.None?
    ensures ChainOf(ss[id := b], b.family, [id])
  {
  }

  lemma LoginKeepsChains(ss: map<nat, Session>, id: nat, b: Session)
    requires ChainsOk(ss) && id !in ss && (forall i :: i in ss ==> ss[i].family != b.family)
    requires b.replacedBy.None?
    ensures ChainsOk(ss[id := b])
  {
    hide ChainOf;
    var ss' := ss[id := b];
    forall i | i in ss'
      ensures HasChain(ss', ss'[i].family)
    {
      if i == id {
        LoginChain(ss, id, b);
      } else {
        var c :| ChainOf(ss, ss[i].family, c);
        ChainFrame(ss, ss', ss[i].family, c);
      }
    }
  }

  lemma LoginKeepsInv(a: Auth, id: nat, b: Session)
    requires Inv(a) && UnusedId(a, id) && (forall i :: i in a.sessions ==> a.sessions[i].family != b.family)
    requires RowOk(b) && b.replacedBy.None?
    ensures Inv(a.(sessions := a.sessions[id := b]))
  {
    hide ChainsOk;
    LoginKeepsChains(a.sessions, id, b);
  }

  lemma FlightAddedKeepsInv(a: Auth, f: Flight)
    requires Inv(a) && FlightOk(a.sessions, f)
    requires f.Rotate? ==> UnusedId(a, f.child)
    ensures Inv(a.(flights := a.flights + [f]))
  {
    hide ChainsOk, FlightOk, RowsOk;
  }

  lemma NextKeepsInv(cfg: Settings, a: Auth, st: Step)
    requires Inv(a) && FreshIds(a, st)
    ensures Inv(Next(cfg, a, st))
  {
    hide ChainsOk, ChildrenDiffer, FlightsOk, CommitRows;
    match st
    case Login(id, family, secret, now) =>
      var b := Bundle(cfg, now, family, secret, None);
      if b.Some? { LoginKeepsInv(a, id, b.value); }
    case Commit(k, at) => if k < |a.flights| { CommitKeepsInv(a, k, at); }
    case Present(_, _, _, _, _, _) =>
      var f := Decide(cfg, a.sessions, st);
      if f.Some? { FlightAddedKeepsInv(a, f.value); }
    case LogoutRefresh(_, _, _) =>
      var f := DecideLogout(a.sessions, st);
      if f.Some? { FlightAddedKeepsInv(a, f.value); }
    case LogoutAccess(_) =>
      var f := DecideLogout(a.sessions, st);
      if f.Some? { FlightAddedKeepsInv(a, f.value); }
    case Idle =>
  }

  /** Every reachable state, whatever the interleaving, satisfies the invariant. */
  lemma {:induction false} RunKeepsInv(cfg: Settings, a: Auth, steps: seq<Step>)
    requires Inv(a) && Admissible(cfg, a, steps)
    ensures Inv(Exec(cfg, a, steps))
    decreases |steps|
  {
    if steps != [] {
      NextKeepsInv(cfg, a, steps[0]);
      RunKeepsInv(cfg, Next(cfg, a, steps[0]), steps[1..]);
    }
  }

  // ---------------------------------------------------------------- theorems

  /** In every reachable state a family is one replacement chain whose only possibly usable member is
      the last one, and every member's expiry is bounded by the absolute expiry of the login session. */
  lemma FamiliesAreSingleChains(cfg: Settings, steps: seq<Step>, id: nat) returns (c: seq<nat>)
    requires Admissible(cfg, START, steps)
    requires id in Exec(cfg, START, steps).sessions
    ensures var ss := Exec(cfg, START, steps).sessions;
            && ChainOf(ss, ss[id].family, c)
            && (forall i :: i in ss && ss[i].family == ss[id].family && ss[i].revokedAt.None? ==> i == c[|c| - 1])
            && (forall i :: 0 <= i < |c| ==> ss[c[i]].expiresAt <= ss[c[0]].absoluteExpiresAt)
  {
    RunKeepsInv(cfg, START, steps);
    var ss := Exec(cfg, START, steps).sessions;
    c :| ChainOf(ss, ss[id].family, c);
    forall i | i in ss && ss[i].family == ss[id].family && ss[i].revokedAt.None?
      ensures i == c[|c| - 1]
    {
      var k :| 0 <= k < |c| && c[k] == i;
      assert RowOk(ss[c[k]]);
    }
  }

  /** What one commit may do to the rows already there: nothing, or revoke a usable one. */
  lemma CommitEffect(ss: map<nat, Session>, fl: Flight, at: int, id: nat)
    requires FlightOk(ss, fl) && id in ss
    ensures var t := CommitRows(ss, fl, at).0;
            && id in t && SameIdentity(ss[id], t[id])
            && (ss[id].revokedAt.Some? ==> t[id] == ss[id])
  {
  }

  /** A new row appears only as the child of a session that was usable a moment ago. */
  lemma CommitAdds(ss: map<nat, Session>, fl: Flight, at: int, id: nat)
    requires FlightOk(ss, fl) && id in CommitRows(ss, fl, at).0 && id !in ss
    ensures fl.Rotate? && Active(ss, fl.parent) && CommitRows(ss, fl, at).0[id].family == ss[fl.parent].family
  {
  }

  lemma DeadStaysDeadStep(cfg: Settings, a: Auth, st: Step, id: nat)
    requires Inv(a) && FreshIds(a, st) && id in a.sessions && NoneActive(a.sessions, a.sessions[id].family)
    ensures var a' := Next(cfg, a, st);
            id in a'.sessions && a'.sessions[id].family == a.sessions[id].family
            && NoneActive(a'.sessions, a.sessions[id].family)
  {
    var a' := Next(cfg, a, st);
    if st.Commit? && st.flight < |a.flights| {
      var fl := a.flights[st.flight];
      CommitEffect(a.sessions, fl, st.at, id);
      forall i | i in a'.sessions && a'.sessions[i].family == a.sessions[id].family
        ensures a'.sessions[i].revokedAt.Some?
      {
        if i in a.sessions { CommitEffect(a.sessions, fl, st.at, i); } else { CommitAdds(a.sessions, fl, st.at, i); }
      }
    }
  }

  /** A family without a usable session never gets one again. */
  lemma {:induction false} DeadStaysDead(cfg: Settings, a: Auth, steps: seq<Step>, id: nat)
    requires Inv(a) && Admissible(cfg, a, steps) && id in a.sessions && NoneActive(a.sessions, a.sessions[id].family)
    ensures id in Exec(cfg, a, steps).sessions
            && NoneActive(Exec(cfg, a, steps).sessions, a.sessions[id].family)
    decreases |steps|
  {
    if steps != [] {
      DeadStaysDeadStep(cfg, a, steps[0], id);
      NextKeepsInv(cfg, a, steps[0]);
      DeadStaysDead(cfg, Next(cfg, a, steps[0]), steps[1..], id);
    }
  }

  /** Identity, family, secret and both expiries of a session never change. */
  ghost predicate SameIdentity(s: Session, t: Session) {
    s.family == t.family && s.secret == t.secret && s.expiresAt == t.expiresAt
      && s.absoluteExpiresAt == t.absoluteExpiresAt
  }

  lemma RowStableStep(cfg: Settings, a: Auth, st: Step, id: nat)
    requires Inv(a) && FreshIds(a, st) && id in a.sessions
    ensures var t := Next(cfg, a, st).sessions;
            && id in t && SameIdentity(a.sessions[id], t[id])
            && (a.sessions[id].revokedAt.Some? ==> t[id] == a.sessions[id])
  {
    hide RowsOk, ChainsOk, CommitRows, Decide;
    if st.Commit? && st.flight < |a.flights| {
      assert FlightOk(a.sessions, a.flights[st.flight]);
      hide FlightOk, SameIdentity;
      CommitEffect(a.sessions, a.flights[st.flight], st.at, id);
    }
  }

  lemma {:induction false} RowsAreStable(cfg: Settings, a: Auth, steps: seq<Step>, id: nat)
    requires Inv(a) && Admissible(cfg, a, steps) && id in a.sessions
    ensures id in Exec(cfg, a, steps).sessions && SameIdentity(a.sessions[id], Exec(cfg, a, steps).sessions[id])
    ensures a.sessions[id].revokedAt.Some? ==> Exec(cfg, a, steps).sessions[id] == a.sessions[id]
    decreases |steps|
  {
    if steps != [] {
      var st := steps[0];
      RowStableStep(cfg, a, st, id);
      NextKeepsInv(cfg, a, st);
      RowsAreStable(cfg, Next(cfg, a, st), steps[1..], id);
    }
  }

  /** Replay of a rotated credential is answered by a family revocation exactly when it authenticates:
      right secret, enabled user and not yet expired. Otherwise nothing at all is scheduled. */
  lemma ReplayIsDetectedIff(cfg: Settings, a: Auth, st: Step)
    requires Inv(a) && st.Present? && st.id in a.sessions && a.sessions[st.id].reason == Some(Rotated)
    ensures Decide(cfg, a.sessions, st) == Some(Revoke(a.sessions[st.id].family, ReuseDetected))
            <==> Authenticates(a.sessions, st.id, st.secret, st.userActive, st.now)
    ensures !Authenticates(a.sessions, st.id, st.secret, st.userActive, st.now) ==> Next(cfg, a, st) == a
  {
    assert RowOk(a.sessions[st.id]);
  }

  lemma RevokedFamilyIsDead(ss: map<nat, Session>, f: nat, why: Reason, at: int)
    ensures NoneActive(RevokeAll(ss, f, why, at), f)
  {
  }

  lemma RevocationKills(cfg: Settings, m: Auth, k: nat, at: int, after: seq<Step>, id: nat, why: Reason)
    requires Inv(m) && id in m.sessions && k < |m.flights|
    requires m.flights[k] == Revoke(m.sessions[id].family, why)
    requires Admissible(cfg, Next(cfg, m, Commit(k, at)), after)
    ensures NoneActive(Exec(cfg, Next(cfg, m, Commit(k, at)), after).sessions, m.sessions[id].family)
  {
    var n := Next(cfg, m, Commit(k, at));
    hide ChainsOk, ChildrenDiffer, RowsOk;
    assert n.sessions == RevokeAll(m.sessions, m.sessions[id].family, why, at);
    assert FreshIds(m, Commit(k, at)) && FlightOk(m.sessions, m.flights[k]);
    hide Inv, Admissible, FreshIds, Exec, RevokeAll, NoneActive;
    NextKeepsInv(cfg, m, Commit(k, at));
    CommitEffect(m.sessions, m.flights[k], at, id);
    RevokedFamilyIsDead(m.sessions, m.sessions[id].family, why, at);
    DeadStaysDead(cfg, n, after, id);
  }

  /** A detected replay kills the family: whatever happens before the revocation commits and
      whatever happens after it, no member is usable. */
  lemma ReplayKillsFamily(cfg: Settings, a: Auth, st: Step, between: seq<Step>, k: nat, at: int, after: seq<Step>)
    requires Inv(a) && st.Present? && st.id in a.sessions && a.sessions[st.id].reason == Some(Rotated)
    requires Authenticates(a.sessions, st.id, st.secret, st.userActive, st.now) && FreshIds(a, st)
    requires var b := Next(cfg, a, st);
             Admissible(cfg, b, between) &&
             var m := Exec(cfg, b, between);
             && k < |m.flights| && m.flights[k] == Revoke(a.sessions[st.id].family, ReuseDetected)
             && Admissible(cfg, Next(cfg, m, Commit(k, at)), after)
    ensures var m := Exec(cfg, Next(cfg, a, st), between);
            NoneActive(Exec(cfg, Next(cfg, m, Commit(k, at)), after).sessions, a.sessions[st.id].family)
  {
    var b := Next(cfg, a, st);
    NextKeepsInv(cfg, a, st);
    RunKeepsInv(cfg, b, between);
    RowsAreStable(cfg, b, between, st.id);
    RevocationKills(cfg, Exec(cfg, b, between), k, at, after, st.id, ReuseDetected);
  }

  // ---------------------------------------------------------------- logout

  /** A stored session, not revoked, not expired, presented with its secret. */
  predicate Usable(ss: map<nat, Session>, id: nat, secret: nat, now: int) {
    id in ss && ss[id].revokedAt.None? && now < ss[id].expiresAt && secret == ss[id].secret
  }

  /** The session a logout is about: that of a usable refresh credential, or else that of the access token. */
  ghost predicate Ends(ss: map<nat, Session>, refresh: Option<(nat, nat)>, access: Option<nat>, now: int, id: nat) {
    if refresh.Some? && Usable(ss, refresh.value.0, refresh.value.1, now) then id == refresh.value.0
    else access == Some(id) && id in ss
  }

  /** A logout schedules the revocation of the family of the session it is about, and nothing when there is none. */
  lemma LogoutSchedules(cfg: Settings, a: Auth, refresh: Option<(nat, nat)>, access: Option<nat>, now: int)
    ensures var b := Next(cfg, a, LogoutStep(a.sessions, refresh, access, now));
            && b.sessions == a.sessions
            && (forall id :: Ends(a.sessions, refresh, access, now, id) ==>
               id in a.sessions && b.flights == a.flights + [Revoke(a.sessions[id].family, LoggedOut)])
            && (b == a <==> forall id :: !Ends(a.sessions, refresh, access, now, id))
  {
    var b := Next(cfg, a, LogoutStep(a.sessions, refresh, access, now));
    if refresh.Some? && Usable(a.sessions, refresh.value.0, refresh.value.1, now) {
      assert Ends(a.sessions, refresh, access, now, refresh.value.0);
      assert b.flights == a.flights + [Revoke(a.sessions[refresh.value.0].family, LoggedOut)];
    } else if access.Some? && access.value in a.sessions {
      assert Ends(a.sessions, refresh, access, now, access.value);
      assert b.flights == a.flights + [Revoke(a.sessions[access.value].family, LoggedOut)];
    }
  }

  /** The commit of a logout revokes every unrevoked session of the family with that reason, and no other row. */
  lemma LogoutCommits(cfg: Settings, m: Auth, k: nat, at: int, family: nat)
    requires k < |m.flights| && m.flights[k] == Revoke(family, LoggedOut)
    ensures var n := Next(cfg, m, Commit(k, at));
            && n.sessions.Keys == m.sessions.Keys && n.flights == m.flights[..k] + m.flights[k + 1..]
            && forall id :: id in m.sessions ==>
               n.sessions[id] == if m.sessions[id].family == family && m.sessions[id].revokedAt.None?
                                 then m.sessions[id].(revokedAt := Some(at), reason := Some(LoggedOut))
                                 else m.sessions[id]
  {
  }

  /** A logout kills the family: whatever happens before its revocation commits and whatever happens after, no
      session of the family is active. */
  lemma LogoutKillsFamily(cfg: Settings, a: Auth, refresh: Option<(nat, nat)>, access: Option<nat>, now: int, id: nat,
        between: seq<Step>, k: nat, at: int, after: seq<Step>)
    requires Inv(a) && Ends(a.sessions, refresh, access, now, id) && id in a.sessions
    requires var b := Next(cfg, a, LogoutStep(a.sessions, refresh, access, now));
             Admissible(cfg, b, between) &&
             var m := Exec(cfg, b, between);
             && k < |m.flights| && m.flights[k] == Revoke(a.sessions[id].family, LoggedOut)
             && Admissible(cfg, Next(cfg, m, Commit(k, at)), after)
    ensures var m := Exec(cfg, Next(cfg, a, LogoutStep(a.sessions, refresh, access, now)), between);
            NoneActive(Exec(cfg, Next(cfg, m, Commit(k, at)), after).sessions, a.sessions[id].family)
  {
    hide *;
    var st := LogoutStep(a.sessions, refresh, access, now);
    var b := Next(cfg, a, st);
    LogoutIsFresh(a, refresh, access, now);
    NextKeepsInv(cfg, a, st);
    LogoutSchedules(cfg, a, refresh, access, now);
    RunKeepsInv(cfg, b, between);
    RowsAreStable(cfg, b, between, id);
    StableFamily(a.sessions[id], Exec(cfg, b, between).sessions[id]);
    RevocationKills(cfg, Exec(cfg, b, between), k, at, after, id, LoggedOut);
  }

  lemma LogoutIsFresh(a: Auth, refresh: Option<(nat, nat)>, access: Option<nat>, now: int)
    ensures FreshIds(a, LogoutStep(a.sessions, refresh, access, now))
  {
  }

  lemma StableFamily(s: Session, t: Session)
    requires SameIdentity(s, t)
    ensures t.family == s.family
  {
  }

  lemma FlightWaits(cfg: Settings, a: Auth, st: Step, f: Flight)
    requires f in a.flights && !(st.Commit? && st.flight < |a.flights| && a.flights[st.flight] == f)
    ensures f in Next(cfg, a, st).flights
  {
    hide Decide, DecideLogout, CommitRows;
    if st.Commit? && st.flight < |a.flights| {
      assert a.flights == a.flights[..st.flight] + [a.flights[st.flight]] + a.flights[st.flight + 1..];
    }
  }

  /** The family is about to be revoked, or none of its sessions is active. */
  ghost predicate Doomed(a: Auth, family: nat, why: Reason) {
    Revoke(family, why) in a.flights || NoneActive(a.sessions, family)
  }

  lemma DoomedStep(cfg: Settings, a: Auth, st: Step, id: nat, why: Reason)
    requires Inv(a) && FreshIds(a, st) && id in a.sessions && Doomed(a, a.sessions[id].family, why)
    ensures Doomed(Next(cfg, a, st), a.sessions[id].family, why)
  {
    var f := Revoke(a.sessions[id].family, why);
    if f in a.flights {
      if st.Commit? && st.flight < |a.flights| && a.flights[st.flight] == f {
        RevokedFamilyIsDead(a.sessions, a.sessions[id].family, why, st.at);
      } else {
        FlightWaits(cfg, a, st, f);
      }
    } else {
      hide RowsOk, ChainsOk, FlightsOk, NoneActive;
      DeadStaysDeadStep(cfg, a, st, id);
    }
  }

  lemma {:induction false} StaysDoomed(cfg: Settings, a: Auth, steps: seq<Step>, id: nat, why: Reason)
    requires Inv(a) && Admissible(cfg, a, steps) && id in a.sessions && Doomed(a, a.sessions[id].family, why)
    ensures Doomed(Exec(cfg, a, steps), a.sessions[id].family, why)
    decreases |steps|
  {
    if steps != [] {
      hide Inv, Doomed, FreshIds, Next;
      DoomedStep(cfg, a, steps[0], id, why);
      NextKeepsInv(cfg, a, steps[0]);
      RowStableStep(cfg, a, steps[0], id);
      StableFamily(a.sessions[id], Next(cfg, a, steps[0]).sessions[id]);
      hide SameIdentity;
      StaysDoomed(cfg, Next(cfg, a, steps[0]), steps[1..], id, why);
    }
  }

  /** In every state after a logout its revocation is still to be committed or the family has no active session. */
  lemma LogoutDooms(cfg: Settings, a: Auth, refresh: Option<(nat, nat)>, access: Option<nat>, now: int, id: nat,
        after: seq<Step>)
    requires Inv(a) && Ends(a.sessions, refresh, access, now, id) && id in a.sessions
    requires Admissible(cfg, Next(cfg, a, LogoutStep(a.sessions, refresh, access, now)), after)
    ensures Doomed(Exec(cfg, Next(cfg, a, LogoutStep(a.sessions, refresh, access, now)), after),
                   a.sessions[id].family, LoggedOut)
  {
    hide *;
    LogoutIsFresh(a, refresh, access, now);
    NextKeepsInv(cfg, a, LogoutStep(a.sessions, refresh, access, now));
    LogoutSchedules(cfg, a, refresh, access, now);
    var b := Next(cfg, a, LogoutStep(a.sessions, refresh, access, now));
    LastIn(a.flights, Revoke(a.sessions[id].family, LoggedOut));
    PendingDooms(b, a.sessions[id].family, LoggedOut);
    StaysDoomed(cfg, b, after, id, LoggedOut);
  }

  lemma LastIn(fs: seq<Flight>, f: Flight)
    ensures f in fs + [f]
  {
  }

  lemma PendingDooms(a: Auth, family: nat, why: Reason)
    requires Revoke(family, why) in a.flights
    ensures Doomed(a, family, why)
  {
  }

  // ---------------------------------------------------------------- refresh

  /** The credential is usable, its user active, and a replacement would not be born expired. */
  predicate HandsOver(cfg: Settings, ss: map<nat, Session>, id: nat, secret: nat, userActive: bool, now: int) {
    Usable(ss, id, secret, now) && userActive && now < ss[id].absoluteExpiresAt && 0 < cfg.refreshTtl
  }

  /** The replacement of a session: its family and absolute expiry, the new secret, the earlier of the two expiries. */
  predicate Replaces(cfg: Settings, p: Session, now: int, childSecret: nat, s: Session) {
    && s.family == p.family && s.secret == childSecret && s.absoluteExpiresAt == p.absoluteExpiresAt
    && (s.expiresAt == now + cfg.refreshTtl || s.expiresAt == p.absoluteExpiresAt)
    && s.expiresAt <= now + cfg.refreshTtl && s.expiresAt <= p.absoluteExpiresAt
    && s.revokedAt.None? && s.reason.None? && s.replacedBy.None?
  }

  /** A refresh schedules a rotation exactly when the credential hands over. */
  lemma RefreshRotatesIff(cfg: Settings, a: Auth, id: nat, secret: nat, userActive: bool, now: int, child: nat,
        childSecret: nat)
    ensures var b := Next(cfg, a, Present(id, secret, userActive, now, child, childSecret));
            && b.sessions == a.sessions
            && (HandsOver(cfg, a.sessions, id, secret, userActive, now) ==>
               exists s :: Replaces(cfg, a.sessions[id], now, childSecret, s)
                           && b.flights == a.flights + [Rotate(id, secret, child, s)])
            && ((exists f: Flight :: f.Rotate? && b.flights == a.flights + [f]) ==>
               HandsOver(cfg, a.sessions, id, secret, userActive, now))
  {
    var b := Next(cfg, a, Present(id, secret, userActive, now, child, childSecret));
    if HandsOver(cfg, a.sessions, id, secret, userActive, now) {
      var p := a.sessions[id];
      var expires := if now + cfg.refreshTtl <= p.absoluteExpiresAt then now + cfg.refreshTtl else p.absoluteExpiresAt;
      var s := Session(p.family, childSecret, expires, p.absoluteExpiresAt, None, None, None);
      assert Replaces(cfg, p, now, childSecret, s) && b.flights == a.flights + [Rotate(id, secret, child, s)];
    } else {
      forall f: Flight | f.Rotate? ensures b.flights != a.flights + [f] { LastFlight(a.flights, b.flights, f); }
    }
  }

  /** The credential authenticates but has been replaced. */
  predicate Reused(ss: map<nat, Session>, id: nat, secret: nat, userActive: bool, now: int) {
    && id in ss && userActive && now < ss[id].expiresAt && secret == ss[id].secret
    && ss[id].revokedAt.Some? && ss[id].reason == Some(Rotated)
  }

  /** A refresh that hands nothing over revokes the family when its credential was replaced, and does nothing when
      it was not. */
  lemma RefreshOtherwise(cfg: Settings, a: Auth, id: nat, secret: nat, userActive: bool, now: int, child: nat,
        childSecret: nat)
    requires !HandsOver(cfg, a.sessions, id, secret, userActive, now)
    ensures var b := Next(cfg, a, Present(id, secret, userActive, now, child, childSecret));
            if Reused(a.sessions, id, secret, userActive, now)
            then b == a.(flights := a.flights + [Revoke(a.sessions[id].family, ReuseDetected)]) else b == a
  {
  }

  lemma LastFlight(fs: seq<Flight>, gs: seq<Flight>, f: Flight)
    ensures gs == fs + [f] ==> |gs| == |fs| + 1 && gs[|fs|] == f
  {
  }

  /** The commit of a hand-over adds the replacement and retires its session, if that is still unrevoked. */
  lemma RefreshCommits(cfg: Settings, m: Auth, k: nat, at: int)
    requires k < |m.flights| && m.flights[k].Rotate? && FlightOk(m.sessions, m.flights[k])
    requires Active(m.sessions, m.flights[k].parent)
    ensures var n, f := Next(cfg, m, Commit(k, at)).sessions, m.flights[k];
            && n.Keys == m.sessions.Keys + {f.child} && n[f.child] == f.bundle
            && n[f.parent] == m.sessions[f.parent].(revokedAt := Some(at), reason := Some(Rotated),
                                                    replacedBy := Some(f.child))
            && forall id :: id in m.sessions && id != f.parent ==> n[id] == m.sessions[id]
  {
  }

  lemma LoserRevokes(ss: map<nat, Session>, fl: Flight, at: int)
    requires FlightOk(ss, fl) && fl.Rotate? && ss[fl.parent].revokedAt.Some? && ss[fl.parent].reason == Some(Rotated)
    ensures var t := CommitRows(ss, fl, at).0;
            fl.parent in t && t[fl.parent].family == fl.bundle.family && NoneActive(t, fl.bundle.family)
    ensures !CommitRows(ss, fl, at).1
  {
  }

  lemma LoserCommits(cfg: Settings, a: Auth, k: nat, at: int)
    requires k < |a.flights| && a.flights[k].Rotate? && FlightOk(a.sessions, a.flights[k])
    requires !Active(a.sessions, a.flights[k].parent)
    requires a.sessions[a.flights[k].parent].reason == Some(Rotated)
    ensures !CommitRows(a.sessions, a.flights[k], at).1
    ensures var t := Next(cfg, a, Commit(k, at)).sessions;
            && a.flights[k].parent in t && t[a.flights[k].parent].family == a.flights[k].bundle.family
            && NoneActive(t, a.flights[k].bundle.family) && FreshIds(a, Commit(k, at))
  {
    LoserRevokes(a.sessions, a.flights[k], at);
    hide CommitRows, FlightOk, NoneActive;
  }

  /** Two refreshes that both read the same live session: at most one of them rotates, and the loser,
      finding the session already rotated, leaves the family without a usable member for good. */
  lemma LosingRefreshKillsFamily(cfg: Settings, a: Auth, k: nat, at: int, after: seq<Step>)
    requires Inv(a) && k < |a.flights| && a.flights[k].Rotate?
    requires !Active(a.sessions, a.flights[k].parent) && a.sessions[a.flights[k].parent].reason == Some(Rotated)
    requires Admissible(cfg, Next(cfg, a, Commit(k, at)), after)
    ensures !CommitRows(a.sessions, a.flights[k], at).1
    ensures NoneActive(Exec(cfg, Next(cfg, a, Commit(k, at)), after).sessions, a.flights[k].bundle.family)
  {
    assert FlightOk(a.sessions, a.flights[k]);
    hide *;
    LoserCommits(cfg, a, k, at);
    NextKeepsInv(cfg, a, Commit(k, at));
    DeadStaysDead(cfg, Next(cfg, a, Commit(k, at)), after, a.flights[k].parent);
  }

  /** Of two refreshes that both read the same live session, one rotates; the other, whenever it commits,
      does not, and the family it belongs to is dead from then on. */
  lemma OneWinnerPerSession(cfg: Settings, a: Auth, j: nat, at: int, between: seq<Step>, k: nat, at': int,
        after: seq<Step>)
    requires Inv(a) && j < |a.flights| && a.flights[j].Rotate? && Active(a.sessions, a.flights[j].parent)
    requires var b := Next(cfg, a, Commit(j, at));
             Admissible(cfg, b, between) &&
             var m := Exec(cfg, b, between);
             && k < |m.flights| && m.flights[k].Rotate? && m.flights[k].parent == a.flights[j].parent
             && Admissible(cfg, Next(cfg, m, Commit(k, at')), after)
    ensures CommitRows(a.sessions, a.flights[j], at).1
    ensures var m := Exec(cfg, Next(cfg, a, Commit(j, at)), between);
            && !CommitRows(m.sessions, m.flights[k], at').1
            && NoneActive(Exec(cfg, Next(cfg, m, Commit(k, at')), after).sessions, m.flights[k].bundle.family)
  {
    var p := a.flights[j].parent;
    NextKeepsInv(cfg, a, Commit(j, at));
    var b := Next(cfg, a, Commit(j, at));
    assert FlightOk(a.sessions, a.flights[j]);
    RowsAreStable(cfg, b, between, p);
    RunKeepsInv(cfg, b, between);
    LosingRefreshKillsFamily(cfg, Exec(cfg, b, between), k, at', after);
  }

  /** A login, a refresh and its commit. */
  const ROTATION := [Login(0, 7, 70, 0), Present(0, 70, true, 5, 1, 71), Commit(0, 5)]

  lemma RotationLeadsTo(a: Auth)
    requires a == Auth(map[0 := Session(7, 70, 10, 100, Some(5), Some(Rotated), Some(1)),
                           1 := Session(7, 71, 15, 100, None, None, None)], [])
    ensures Admissible(Settings(10, 100), START, ROTATION) && Exec(Settings(10, 100), START, ROTATION) == a
  {
    var cfg := Settings(10, 100);
    var live := Session(7, 70, 10, 100, None, None, None);
    var b := Auth(map[0 := live], []);
    assert Next(cfg, START, ROTATION[0]) == b;
    var c := Auth(map[0 := live], [Rotate(0, 70, 1, Session(7, 71, 15, 100, None, None, None))]);
    assert Next(cfg, b, ROTATION[1]) == c;
    assert Next(cfg, c, ROTATION[2]) == a;
    var two, one := ROTATION[1..], ROTATION[1..][1..];
    assert two == [ROTATION[1], ROTATION[2]] && one == [ROTATION[2]] && one[1..] == [];
    assert FreshIds(START, ROTATION[0]) && FreshIds(b, two[0]) && FreshIds(c, one[0]);
    hide Next, FreshIds;
    assert Exec(cfg, a, one[1..]) == a && Admissible(cfg, a, one[1..]);
    assert Exec(cfg, c, one) == a && Admissible(cfg, c, one);
    assert Exec(cfg, b, two) == a && Admissible(cfg, b, two);
  }

  /** The replay promise does not extend to expired credentials: in a reachable state session 0 was rotated into
      1, is presented again after its own expiry, and session 1 stays usable. */
  lemma ExpiredReplayIsIgnored() returns (a: Auth, st: Step)
    ensures Admissible(Settings(10, 100), START, ROTATION) && a == Exec(Settings(10, 100), START, ROTATION)
    ensures st.Present? && st.id in a.sessions && a.sessions[st.id].reason == Some(Rotated)
    ensures a.sessions[st.id].secret == st.secret && st.userActive && a.sessions[st.id].expiresAt <= st.now
    ensures Next(Settings(10, 100), a, st) == a && Active(a.sessions, 1) && a.sessions[1].expiresAt > st.now
  {
    a := Auth(map[0 := Session(7, 70, 10, 100, Some(5), Some(Rotated), Some(1)),
                  1 := Session(7, 71, 15, 100, None, None, None)], []);
    st := Present(0, 70, true, 12, 2, 72);
    RotationLeadsTo(a);
    hide Exec, Admissible;
  }

  // ---------------------------------------------------------------- the service

  class AuthService {
    var sessions: map<nat, Session>
    var flights: seq<Flight>
    const settings: Settings

    ghost function Snapshot(): Auth
      reads this
    {
      Auth(sessions, flights)
    }

    constructor (cfg: Settings)
      ensures Snapshot() == START && settings == cfg
    {
      sessions, flights, settings := map[], [], cfg;
    }

    method Login(id: nat, family: nat, secret: nat, now: int) returns (accepted: bool)
      modifies this
      ensures Snapshot() == Next(settings, old(Snapshot()), Step.Login(id, family, secret, now))
      ensures accepted <==> 0 < settings.refreshTtl && 0 < settings.absoluteTtl
    {
      var absolute := now + settings.absoluteTtl;
      var expires := if now + settings.refreshTtl <= absolute then now + settings.refreshTtl else absolute;
      if expires <= now { return false; }
      sessions := sessions[id := Session(family, secret, expires, absolute, None, None, None)];
      return true;
    }

    /** First half of a refresh: the unlocked read. */
    method ReadRefresh(id: nat, secret: nat, userActive: bool, now: int, child: nat, childSecret: nat)
      modifies this`flights
      ensures Snapshot() == Next(settings, old(Snapshot()), Present(id, secret, userActive, now, child, childSecret))
    {
      if id !in sessions || !userActive || sessions[id].expiresAt <= now { return; }
      var session := sessions[id];
      if session.secret != secret { return; }
      if session.revokedAt.Some? {
        if session.reason == Some(Rotated) { flights := flights + [Revoke(session.family, ReuseDetected)]; }
        return;
      }
      var expires := now + settings.refreshTtl;
      if session.absoluteExpiresAt < expires { expires := session.absoluteExpiresAt; }
      if expires <= now { return; }
      var bundle := Session(session.family, childSecret, expires, session.absoluteExpiresAt, None, None, None);
      flights := flights + [Rotate(id, session.secret, child, bundle)];
    }

    /** A usable refresh credential decides; otherwise the session named by a verified access token does. */
    method ReadLogout(refresh: Option<(nat, nat)>, access: Option<nat>, now: int)
      modifies this`flights
      ensures Snapshot() == Next(settings, old(Snapshot()), LogoutStep(old(sessions), refresh, access, now))
    {
      if refresh.Some? && refresh.value.0 in sessions {
        var session := sessions[refresh.value.0];
        if session.revokedAt.None? && session.expiresAt > now && session.secret == refresh.value.1 {
          flights := flights + [Revoke(session.family, LoggedOut)];
          return;
        }
      }
      if access.Some? && access.value in sessions {
        flights := flights + [Revoke(sessions[access.value].family, LoggedOut)];
      }
    }

    /** The family-wide `updateMany`: one row after the other. */
    method RevokeFamily(family: nat, why: Reason, at: int) returns (count: nat)
      modifies this`sessions
      ensures sessions == RevokeAll(old(sessions), family, why, at)
      ensures count > 0 <==>
              exists id :: id in old(sessions) && old(sessions)[id].family == family
                && old(sessions)[id].revokedAt.None?
    {
      var todo := sessions.Keys;
      count := 0;
      while todo != {}
        invariant todo <= old(sessions).Keys
        invariant sessions.Keys == old(sessions).Keys
        invariant forall id :: id in todo ==> sessions[id] == old(sessions)[id]
        invariant forall id :: id in sessions && id !in todo ==>
                  sessions[id] == Revoked(old(sessions)[id], family, why, at)
        invariant count > 0 <==>
                  exists id :: id in old(sessions) && id !in todo && old(sessions)[id].family == family
                    && old(sessions)[id].revokedAt.None?
        decreases |todo|
      {
        var id :| id in todo;
        var row := sessions[id];
        if row.family == family && row.revokedAt.None? {
          sessions := sessions[id := row.(revokedAt := Some(at), reason := Some(why))];
          count := count + 1;
        }
        todo := todo - {id};
      }
    }

    /** Second half: the transaction under the family lock. Inserting the child before claiming the
        parent is safe because the claim cannot fail once the re-read found the parent live. */
    method CommitFlight(k: nat, at: int) returns (rotated: bool)
      requires Inv(Snapshot()) && k < |flights|
      modifies this
      ensures Snapshot() == Next(settings, old(Snapshot()), Commit(k, at))
      ensures rotated <==> CommitRows(old(sessions), old(flights)[k], at).1
    {
      var fl := flights[k];
      assert FlightOk(sessions, fl);
      flights := flights[..k] + flights[k + 1..];
      rotated := false;
      match fl {
        case Revoke(family, why) =>
          var _ := RevokeFamily(family, why, at);
        case Rotate(parent, secret, child, bundle) =>
          if parent !in sessions { return; }
          var current := sessions[parent];
          if current.revokedAt.Some? {
            if current.reason == Some(Rotated) { var _ := RevokeFamily(bundle.family, ReuseDetected, at); }
            return;
          }
          sessions := sessions[child := bundle];
          var claimed := sessions[parent];
          if claimed.secret == secret && claimed.revokedAt.None? {
            sessions := sessions
              [parent := claimed.(replacedBy := Some(child), reason := Some(Rotated), revokedAt := Some(at))];
            rotated := true;
          } else {
            assert false;  // the claim always succeeds: the secret never changes and the lock is held
          }
      }
    }
  }
}
