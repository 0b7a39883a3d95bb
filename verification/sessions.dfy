/** Refresh sessions, password epochs and reset tokens, with every database
    transaction as one atomic step and any serial order of them. */
module AuthProtocol {
  import opened Common

  /** A session row. Its id is its place in the table, and stands for its refresh
      token too: tokens are fresh random values. A family is named by the session
      that founded it. */
  datatype Session = Session(
    user: nat, family: nat, rotated: bool, rotatedTo: Option<nat>, revoked: bool, expiresAt: int,
    mfaVerifiedAt: Option<int>)

  /** `changedBy` is the session that performed the latest password change, for
      stating where later sessions come from; no decision reads it. */
  datatype User = User(passwordHash: nat, passwordChangedAt: int, active: bool, changedBy: Option<nat>)

  datatype ResetToken = ResetToken(user: nat, used: bool, superseded: bool, expiresAt: int)

  /** The tables, the clock, the supply of fresh password hashes, and four logs
      that only record: the hash each family's login was checked against, the
      sessions that were rotated, the families reported for replay, and the reset
      tokens that changed a password. */
  datatype Db = Db(
    now: int, users: seq<User>, sessions: seq<Session>, resets: seq<ResetToken>, freshHash: nat,
    logins: map<nat, nat>, rotations: seq<nat>, replayed: set<nat>, resetChanges: seq<nat>)

  datatype Transaction =
    | Wait(until: int)
    | SetActive(user: nat, active: bool)
    | Login(user: nat, seenHash: nat, seenChangedAt: int, ttl: nat, mfa: bool)
    | Refresh(session: nat, ttl: nat)
    | MarkStepUp(session: nat, user: nat)
    | RevokeSession(session: nat)
    | RevokeFamily(family: nat)
    | RevokeAllForUser(user: nat)
    | RevokeUsable(user: nat, except: Option<nat>)
    | ForgotPassword(user: nat, ttl: nat)
    | ResetPassword(token: nat, seenHash: nat)
    | ChangePassword(user: nat, session: nat, seenHash: nat)

  datatype Rotation = Rotated(child: nat) | Replay(family: nat) | Invalid

  predicate Usable(s: Session, now: int) {
    !s.revoked && !s.rotated && s.expiresAt > now
  }

  /** A guarded update of many rows: revoke those that `hit` and are not revoked. */
  function RevokeWhere(ss: seq<Session>, hit: (nat, Session) -> bool): (r: seq<Session>)
    ensures |r| == |ss|
    ensures forall i :: 0 <= i < |ss| ==> r[i] == if hit(i, ss[i]) then ss[i].(revoked := true) else ss[i]
  {
    seq(|ss|, i requires 0 <= i < |ss| => if hit(i, ss[i]) then ss[i].(revoked := true) else ss[i])
  }

  function InFamily(f: nat): (nat, Session) -> bool { (i: nat, s: Session) => s.family == f }
  function OfUser(u: nat): (nat, Session) -> bool { (i: nat, s: Session) => s.user == u }
  function OfUserExcept(u: nat, keep: nat): (nat, Session) -> bool { (i: nat, s: Session) => s.user == u && i != keep }
  function UsableOfUser(u: nat, except: Option<nat>, now: int): (nat, Session) -> bool {
    (i: nat, s: Session) => s.user == u && except != Some(i) && Usable(s, now)
  }
  function Only(k: nat): (nat, Session) -> bool { (i: nat, s: Session) => i == k }

  function CreateSession(d: Db, u: nat, ttl: nat, mfa: bool): Db
    requires u < |d.users|
  {
    var id := |d.sessions|;
    var session := Session(u, id, false, None, false, d.now + ttl, if mfa then Some(d.now) else None);
    d.(sessions := d.sessions + [session], logins := d.logins[id := d.users[u].passwordHash])
  }

  /** Rotation of one generation inside its transaction. */
  function RotateSession(d: Db, id: nat, ttl: nat): (Db, Rotation) {
    if id >= |d.sessions| || d.sessions[id].revoked || d.sessions[id].expiresAt <= d.now then (d, Invalid)
    else
      var current := d.sessions[id];
      if current.rotated then
        (d.(sessions := RevokeWhere(d.sessions, InFamily(current.family)), replayed := d.replayed + {current.family}),
         Replay(current.family))
      else
        var child := |d.sessions|;
        var row := Session(current.user, current.family, false, None, false, d.now + ttl, current.mfaVerifiedAt);
        (d.(sessions := d.sessions[id := current.(rotated := true, rotatedTo := Some(child))] + [row],
            rotations := d.rotations + [id]),
         Rotated(child))
  }

  /** What a refresh is to answer and to leave of the session rows, said of the rows:
      rotated if the row is unrevoked, unexpired and not rotated yet, replay if it is
      unrevoked, unexpired and rotated, and otherwise invalid with nothing changed. */
  ghost predicate IsRotation(ss: seq<Session>, tt: seq<Session>, now: int, id: nat, ttl: nat, outcome: Rotation) {
    match outcome
    case Rotated(child) =>
      && id < |ss| && !ss[id].revoked && ss[id].expiresAt > now && !ss[id].rotated
      && child == |ss| && |tt| == |ss| + 1
      && tt[id].rotated && tt[id].rotatedTo == Some(child) && !tt[id].revoked
      && tt[id].(rotated := false, rotatedTo := ss[id].rotatedTo) == ss[id]
      && tt[child].user == ss[id].user && tt[child].family == ss[id].family
      && !tt[child].rotated && tt[child].rotatedTo.None? && !tt[child].revoked
      && tt[child].expiresAt == now + ttl && tt[child].mfaVerifiedAt == ss[id].mfaVerifiedAt
      && forall i :: 0 <= i < |ss| && i != id ==> tt[i] == ss[i]
    case Replay(family) =>
      && id < |ss| && !ss[id].revoked && ss[id].expiresAt > now && ss[id].rotated
      && family == ss[id].family && |tt| == |ss|
      && forall i :: 0 <= i < |ss| ==>
           tt[i] == if ss[i].family == family then ss[i].(revoked := true) else ss[i]
    case Invalid =>
      (id < |ss| && !ss[id].revoked ==> ss[id].expiresAt <= now) && tt == ss
  }

  lemma RotateMeans(d: Db, id: nat, ttl: nat)
    ensures var (e, outcome) := RotateSession(d, id, ttl);
      && IsRotation(d.sessions, e.sessions, d.now, id, ttl, outcome)
      && (outcome.Rotated? <==> id < |d.sessions| && Usable(d.sessions[id], d.now))
      && (outcome.Invalid? ==> e == d)
      && e.users == d.users && e.resets == d.resets && e.now == d.now
  {
  }

  predicate LiveToken(r: ResetToken, now: int) {
    !r.used && !r.superseded && r.expiresAt > now
  }

  /** Supersedes every live token of the user. */
  function Supersede(rs: seq<ResetToken>, u: nat, now: int): (r: seq<ResetToken>)
    ensures |r| == |rs|
    ensures forall i :: 0 <= i < |rs| ==>
      r[i] == if rs[i].user == u && LiveToken(rs[i], now) then rs[i].(superseded := true) else rs[i]
  {
    seq(|rs|, i requires 0 <= i < |rs| =>
      if rs[i].user == u && LiveToken(rs[i], now) then rs[i].(superseded := true) else rs[i])
  }

  /** The guarded password write shared by reset and change: it matches only while
      the hash is still the one the caller read. */
  predicate PasswordUnchanged(d: Db, u: nat, seenHash: nat) {
    u < |d.users| && d.users[u].active && d.users[u].passwordHash == seenHash
  }

  function NewPassword(d: Db, u: nat, changer: Option<nat>): Db
    requires u < |d.users|
  {
    d.(users := d.users[u := User(d.freshHash, d.now, true, changer)], freshHash := d.freshHash + 1)
  }

  /** One committed transaction; where the code would roll back, nothing changes. */
  function Apply(d: Db, tx: Transaction): Db {
    match tx
    case Wait(until) => if until >= d.now then d.(now := until) else d
    case SetActive(u, active) => if u < |d.users| then d.(users := d.users[u := d.users[u].(active := active)]) else d
    case Login(u, seenHash, seenChangedAt, ttl, mfa) =>
      if PasswordUnchanged(d, u, seenHash) && d.users[u].passwordChangedAt == seenChangedAt
      then CreateSession(d, u, ttl, mfa) else d
    case Refresh(id, ttl) => RotateSession(d, id, ttl).0
    case MarkStepUp(id, u) =>
      if id < |d.sessions| && d.sessions[id].user == u && Usable(d.sessions[id], d.now)
      then d.(sessions := d.sessions[id := d.sessions[id].(mfaVerifiedAt := Some(d.now))]) else d
    case RevokeSession(id) => d.(sessions := RevokeWhere(d.sessions, Only(id)))
    case RevokeFamily(f) => d.(sessions := RevokeWhere(d.sessions, InFamily(f)))
    case RevokeAllForUser(u) => d.(sessions := RevokeWhere(d.sessions, OfUser(u)))
    case RevokeUsable(u, except) => d.(sessions := RevokeWhere(d.sessions, UsableOfUser(u, except, d.now)))
    case ForgotPassword(u, ttl) =>
      if u < |d.users| && d.users[u].active
      then d.(resets := Supersede(d.resets, u, d.now) + [ResetToken(u, false, false, d.now + ttl)]) else d
    case ResetPassword(t, seenHash) =>
      if t < |d.resets| && LiveToken(d.resets[t], d.now) && PasswordUnchanged(d, d.resets[t].user, seenHash) then
        var u := d.resets[t].user;
        NewPassword(d, u, None).(
          resets := d.resets[t := d.resets[t].(used := true)],
          sessions := RevokeWhere(d.sessions, OfUser(u)),
          resetChanges := d.resetChanges + [t])
      else d
    case ChangePassword(u, id, seenHash) =>
      if PasswordUnchanged(d, u, seenHash) && id < |d.sessions| && d.sessions[id].user == u
        && Usable(d.sessions[id], d.now) then
        var kept := RevokeWhere(d.sessions, OfUserExcept(u, id));
        NewPassword(d, u, Some(id)).(sessions := kept[id := kept[id].(mfaVerifiedAt := None)])
      else d
  }

  function Run(d: Db, txs: seq<Transaction>): Db
    decreases |txs|
  {
    if txs == [] then d else Run(Apply(d, txs[0]), txs[1..])
  }

  // --------------------------------------------------------- family shape

  /** What each row knows of its neighbours; from this a family is a chain. */
  ghost predicate RowOk(ss: seq<Session>, i: nat)
    requires i < |ss|
  {
    var s := ss[i];
    && s.family <= i && ss[s.family].family == s.family && ss[s.family].user == s.user
    && (s.rotated <==> s.rotatedTo.Some?)
    && (s.rotatedTo.Some? ==> Follows(ss, i, s.rotatedTo.value))
    && (s.rotatedTo.None? ==> LastOfFamily(ss, i))
    && (s.family != i ==> HasParent(ss, i))
  }

  ghost predicate Linked(ss: seq<Session>) {
    forall i :: 0 <= i < |ss| ==> RowOk(ss, i)
  }

  /** `j` is the next member of i's family after i, with none in between. */
  ghost predicate Follows(ss: seq<Session>, i: nat, j: nat)
    requires i < |ss|
  {
    && i < j < |ss| && ss[j].family == ss[i].family
    && forall k :: i < k < j ==> ss[k].family != ss[i].family
  }

  ghost predicate LastOfFamily(ss: seq<Session>, i: nat)
    requires i < |ss|
  {
    forall k :: i < k < |ss| ==> ss[k].family != ss[i].family
  }

  ghost predicate HasParent(ss: seq<Session>, j: nat) {
    exists i :: 0 <= i < |ss| && ss[i].rotatedTo == Some(j)
  }

  /** The generations reachable from one session. */
  ghost function Chain(ss: seq<Session>, i: nat): seq<nat>
    requires Linked(ss) && i < |ss|
    decreases |ss| - i
  {
    assert RowOk(ss, i);
    [i] + if ss[i].rotatedTo.Some? then Chain(ss, ss[i].rotatedTo.value) else []
  }

  lemma NextMember(ss: seq<Session>, i: nat, j: nat)
    requires Linked(ss) && i < |ss|
    ensures ss[i].rotatedTo.None? ==> (i <= j < |ss| && ss[j].family == ss[i].family <==> j == i)
    ensures ss[i].rotatedTo.Some? ==>
      var n := ss[i].rotatedTo.value;
      && i < n < |ss| && ss[n].family == ss[i].family
      && (i <= j < |ss| && ss[j].family == ss[i].family <==> j == i || (n <= j < |ss| && ss[j].family == ss[i].family))
  {
    assert RowOk(ss, i);
  }

  /** Later members of the family are exactly the generations that follow. */
  lemma {:induction false} ChainMembers(ss: seq<Session>, i: nat, j: nat)
    requires Linked(ss) && i < |ss|
    ensures j in Chain(ss, i) <==> i <= j < |ss| && ss[j].family == ss[i].family
    decreases |ss| - i
  {
    hide Linked;
    NextMember(ss, i, j);
    if ss[i].rotatedTo.Some? { ChainMembers(ss, ss[i].rotatedTo.value, j); }
  }

  lemma {:induction false} ChainEnd(ss: seq<Session>, i: nat)
    requires Linked(ss) && i < |ss|
    ensures var c := Chain(ss, i);
      && (forall k :: 0 <= k < |c| ==> c[k] < |ss|)
      && (forall k :: 0 <= k < |c| - 1 ==> ss[c[k]].rotatedTo == Some(c[k + 1]))
      && ss[c[|c| - 1]].rotatedTo.None?
    decreases |ss| - i
  {
    hide Linked;
    NextMember(ss, i, i);
    if ss[i].rotatedTo.Some? { ChainEnd(ss, ss[i].rotatedTo.value); }
  }

  /** Each family is a single chain by rotatedToSessionId, starting at its founder
      and holding every member, and exactly one member is not rotated: its end. */
  lemma FamilyIsOneChain(ss: seq<Session>, f: nat)
    requires Linked(ss) && f < |ss| && ss[f].family == f
    ensures var c := Chain(ss, f);
      && (forall j: nat :: j in c <==> j < |ss| && ss[j].family == f)
      && (forall k :: 0 <= k < |c| ==> c[k] < |ss|)
      && (forall k :: 0 <= k < |c| - 1 ==> ss[c[k]].rotatedTo == Some(c[k + 1]))
      && (forall j :: 0 <= j < |ss| && ss[j].family == f ==> (!ss[j].rotated <==> j == c[|c| - 1]))
  {
    var c := Chain(ss, f);
    ChainEnd(ss, f);
    forall j: nat ensures j in c <==> j < |ss| && ss[j].family == f {
      ChainMembers(ss, f, j);
      assert j < |ss| ==> RowOk(ss, j);
    }
    var tip := c[|c| - 1];
    assert tip in c && RowOk(ss, tip);
    forall j | 0 <= j < |ss| && ss[j].family == f ensures !ss[j].rotated <==> j == tip {
      assert RowOk(ss, j);
      assert j <= tip;
      assert j < tip ==> !LastOfFamily(ss, j);
    }
  }

  // ----------------------------------------------------------- invariants

  ghost predicate NoRepeat(xs: seq<nat>) {
    forall i, j :: 0 <= i < j < |xs| ==> xs[i] != xs[j]
  }

  /** Families: chains, one rotation per token, and reported families stay dead. */
  ghost predicate FamiliesOk(d: Db) {
    Linked(d.sessions) && LogsOk(d.sessions, d.rotations, d.replayed)
  }

  ghost predicate LogsOk(ss: seq<Session>, rotations: seq<nat>, replayed: set<nat>) {
    && NoRepeat(rotations)
    && (forall i :: i in rotations <==> 0 <= i < |ss| && ss[i].rotated)
    && (forall f :: f in replayed ==> f < |ss| && AllRevoked(ss, f))
  }

  ghost predicate AllRevoked(ss: seq<Session>, f: nat) {
    forall i :: 0 <= i < |ss| && ss[i].family == f ==> ss[i].revoked
  }

  /** The same rows, except that revocation may have been added and the assurance
      columns changed. */
  ghost predicate SameLinks(ss: seq<Session>, tt: seq<Session>) {
    && |tt| == |ss|
    && forall i :: 0 <= i < |ss| ==>
         && tt[i].user == ss[i].user && tt[i].family == ss[i].family && tt[i].rotated == ss[i].rotated
         && tt[i].rotatedTo == ss[i].rotatedTo && (ss[i].revoked ==> tt[i].revoked)
  }

  lemma SameLinksLinked(ss: seq<Session>, tt: seq<Session>)
    requires Linked(ss) && SameLinks(ss, tt)
    ensures Linked(tt)
  {
    forall j | 0 <= j < |tt| ensures RowOk(tt, j) {
      assert RowOk(ss, j);
      if tt[j].family != j {
        var i :| 0 <= i < |ss| && ss[i].rotatedTo == Some(j);
        assert tt[i].rotatedTo == Some(j);
      }
    }
  }

  /** Old rows other than the one rotated keep their place when a row is added
      that belongs to a new family or to theirs after its last member. */
  lemma OldRowOk(ss: seq<Session>, tt: seq<Session>, id: nat, j: nat)
    requires j < |ss| && RowOk(ss, j) && |tt| == |ss| + 1
    requires forall i :: 0 <= i < |ss| && i != id ==> tt[i] == ss[i]
    requires id < |ss| ==> tt[id].user == ss[id].user && tt[id].family == ss[id].family && ss[id].rotatedTo.None?
    requires j != id && (tt[|ss|].family == ss[j].family ==> !LastOfFamily(ss, j))
    ensures RowOk(tt, j)
  {
    if tt[j].family != j {
      var i :| 0 <= i < |ss| && ss[i].rotatedTo == Some(j);
      assert tt[i].rotatedTo == Some(j);
    }
  }

  lemma CreateLinked(d: Db, u: nat, ttl: nat, mfa: bool)
    requires Linked(d.sessions) && u < |d.users|
    ensures Linked(CreateSession(d, u, ttl, mfa).sessions)
  {
    var ss, tt := d.sessions, CreateSession(d, u, ttl, mfa).sessions;
    forall j | 0 <= j < |tt| ensures RowOk(tt, j) {
      if j < |ss| {
        assert RowOk(ss, j);
        OldRowOk(ss, tt, |tt|, j);
      }
    }
  }

  lemma RotateLinked(d: Db, id: nat, ttl: nat)
    requires Linked(d.sessions) && RotateSession(d, id, ttl).1.Rotated?
    ensures Linked(RotateSession(d, id, ttl).0.sessions)
  {
    var ss, tt := d.sessions, RotateSession(d, id, ttl).0.sessions;
    assert RowOk(ss, id);
    assert tt[id].rotatedTo == Some(|ss|);
    forall j | 0 <= j < |tt| ensures RowOk(tt, j) {
      if j == |ss| {
        assert HasParent(tt, j);
      } else {
        assert RowOk(ss, j);
        if j == id {
          IdRowOk(ss, tt, id);
        } else {
          if ss[j].family == ss[id].family {
            assert j < id;
            assert !LastOfFamily(ss, j);
          }
          OldRowOk(ss, tt, id, j);
        }
      }
    }
  }

  lemma IdRowOk(ss: seq<Session>, tt: seq<Session>, id: nat)
    requires id < |ss| && RowOk(ss, id) && |tt| == |ss| + 1 && ss[id].rotatedTo.None?
    requires forall i :: 0 <= i < |ss| && i != id ==> tt[i] == ss[i]
    requires tt[id] == ss[id].(rotated := true, rotatedTo := Some(|ss|)) && tt[|ss|].family == ss[id].family
    ensures RowOk(tt, id)
  {
    if tt[id].family != id {
      var i :| 0 <= i < |ss| && ss[i].rotatedTo == Some(id);
      assert tt[i].rotatedTo == Some(id);
    }
  }

  /** Where an unrevoked session may come from: a login under the user's current
      password, or the session that performed the latest change. */
  ghost predicate Stems(ss: seq<Session>, users: seq<User>, logins: map<nat, nat>, j: nat)
    requires j < |ss|
  {
    var s := ss[j];
    && s.user < |users| && s.family in logins
    && (s.revoked
        || logins[s.family] == users[s.user].passwordHash
        || (users[s.user].changedBy.Some? && SameFamilyFrom(ss, users[s.user].changedBy.value, j)))
  }

  ghost predicate AllStem(ss: seq<Session>, users: seq<User>, logins: map<nat, nat>) {
    forall j :: 0 <= j < |ss| ==> Stems(ss, users, logins, j)
  }

  ghost predicate SameFamilyFrom(ss: seq<Session>, c: nat, j: nat) {
    c <= j < |ss| && ss[c].family == ss[j].family
  }

  ghost predicate EpochsOk(d: Db) {
    && AllStem(d.sessions, d.users, d.logins)
    && (forall f :: f in d.logins ==> d.logins[f] < d.freshHash)
    && (forall u :: 0 <= u < |d.users| ==> d.users[u].passwordHash < d.freshHash)
  }

  ghost predicate ResetsOk(d: Db) {
    && (forall i, j :: 0 <= i < j < |d.resets| && d.resets[i].user == d.resets[j].user ==>
          !(LiveToken(d.resets[i], d.now) && LiveToken(d.resets[j], d.now)))
    && NoRepeat(d.resetChanges)
    && (forall t :: t in d.resetChanges ==> t < |d.resets| && d.resets[t].used)
  }

  /** A transaction that only revokes or touches assurance. */
  ghost predicate OnlyRevokes(d: Db, e: Db) {
    e == d.(sessions := e.sessions) && SameLinks(d.sessions, e.sessions)
  }

  lemma RevokesKeep(d: Db, e: Db)
    requires FamiliesOk(d) && EpochsOk(d) && OnlyRevokes(d, e)
    ensures FamiliesOk(e) && EpochsOk(e)
  {
    SameLinksLinked(d.sessions, e.sessions);
    hide Linked, LiveToken;
    forall j | 0 <= j < |e.sessions|
      ensures Stems(e.sessions, e.users, e.logins, j)
    {
      assert Stems(d.sessions, d.users, d.logins, j);
    }
    forall f | f in e.replayed ensures AllRevoked(e.sessions, f) { assert AllRevoked(d.sessions, f); }
  }

  lemma CreateKeeps(d: Db, u: nat, ttl: nat, mfa: bool)
    requires FamiliesOk(d) && EpochsOk(d) && u < |d.users|
    ensures FamiliesOk(CreateSession(d, u, ttl, mfa)) && EpochsOk(CreateSession(d, u, ttl, mfa))
  {
    var e := CreateSession(d, u, ttl, mfa);
    CreateLinked(d, u, ttl, mfa);
    forall j | 0 <= j < |e.sessions| ensures Stems(e.sessions, e.users, e.logins, j) {
      if j < |d.sessions| { assert Stems(d.sessions, d.users, d.logins, j) && RowOk(d.sessions, j); }
    }
    hide Linked;
    forall f | f in e.replayed ensures AllRevoked(e.sessions, f) { assert AllRevoked(d.sessions, f); }
  }

  /** A replay revokes the family; a rotation adds one row to a family that was
      never reported. */
  lemma RotateKeeps(d: Db, id: nat, ttl: nat)
    requires FamiliesOk(d) && EpochsOk(d)
    ensures FamiliesOk(RotateSession(d, id, ttl).0) && EpochsOk(RotateSession(d, id, ttl).0)
  {
    var (e, outcome) := RotateSession(d, id, ttl);
    if outcome.Rotated? {
      RotateLinked(d, id, ttl);
      RotateStems(d, id, ttl);
      hide Linked;
      forall f | f in e.replayed ensures AllRevoked(e.sessions, f) { assert AllRevoked(d.sessions, f); }
    } else if outcome.Replay? {
      RevokesKeep(d, d.(sessions := e.sessions));
      assert RowOk(d.sessions, id);
    }
  }

  lemma RotateStems(d: Db, id: nat, ttl: nat)
    requires Linked(d.sessions) && EpochsOk(d) && RotateSession(d, id, ttl).1.Rotated?
    ensures EpochsOk(RotateSession(d, id, ttl).0)
  {
    hide Linked;
    var e := RotateSession(d, id, ttl).0;
    forall j | 0 <= j < |e.sessions| ensures Stems(e.sessions, e.users, e.logins, j) {
      assert Stems(d.sessions, d.users, d.logins, if j < |d.sessions| then j else id);
    }
  }

  lemma NewPasswordStems(d: Db, u: nat, changer: Option<nat>, tt: seq<Session>)
    requires EpochsOk(d) && SameLinks(d.sessions, tt) && u < |d.users|
    requires forall j :: 0 <= j < |tt| && tt[j].user == u && changer != Some(j) ==> tt[j].revoked
    ensures EpochsOk(NewPassword(d, u, changer).(sessions := tt))
  {
    var e := NewPassword(d, u, changer).(sessions := tt);
    forall j | 0 <= j < |tt|
      ensures Stems(e.sessions, e.users, e.logins, j)
    {
      assert Stems(d.sessions, d.users, d.logins, j);
    }
  }

  lemma NewPasswordKeeps(d: Db, u: nat, changer: Option<nat>, tt: seq<Session>)
    requires FamiliesOk(d) && EpochsOk(d) && SameLinks(d.sessions, tt) && u < |d.users|
    requires forall j :: 0 <= j < |tt| && tt[j].user == u && changer != Some(j) ==> tt[j].revoked
    ensures var e := NewPassword(d, u, changer).(sessions := tt); FamiliesOk(e) && EpochsOk(e)
  {
    RevokesKeep(d, d.(sessions := tt));
    NewPasswordStems(d, u, changer, tt);
  }

  lemma SetActiveKeeps(d: Db, u: nat, active: bool)
    requires EpochsOk(d) && u < |d.users|
    ensures EpochsOk(d.(users := d.users[u := d.users[u].(active := active)]))
  {
    var users := d.users[u := d.users[u].(active := active)];
    forall j | 0 <= j < |d.sessions| ensures Stems(d.sessions, users, d.logins, j) {
      assert Stems(d.sessions, d.users, d.logins, j);
    }
  }

  lemma ApplyKeepsSessions(d: Db, tx: Transaction)
    requires FamiliesOk(d) && EpochsOk(d)
    ensures FamiliesOk(Apply(d, tx)) && EpochsOk(Apply(d, tx))
  {
    hide Linked, RotateSession, CreateSession, LogsOk, AllStem, LiveToken, Supersede;
    match tx
    case Login(u, seenHash, seenChangedAt, ttl, mfa) =>
      if u < |d.users| { CreateKeeps(d, u, ttl, mfa); }
    case Refresh(id, ttl) => RotateKeeps(d, id, ttl);
    case ResetPassword(t, seenHash) =>
      if t < |d.resets| && d.resets[t].user < |d.users| {
        NewPasswordKeeps(d, d.resets[t].user, None, RevokeWhere(d.sessions, OfUser(d.resets[t].user)));
      }
    case ChangePassword(u, id, seenHash) =>
      var e := Apply(d, tx);
      if e != d { NewPasswordKeeps(d, u, Some(id), e.sessions); }
    case SetActive(u, active) => if u < |d.users| { SetActiveKeeps(d, u, active); }
    case Wait(until) =>
    case ForgotPassword(u, ttl) =>
    case _ => RevokesKeep(d, Apply(d, tx));
  }

  lemma ApplyKeepsResets(d: Db, tx: Transaction)
    requires ResetsOk(d)
    ensures ResetsOk(Apply(d, tx))
  {
    hide RotateSession, CreateSession, RevokeWhere, Usable;
    if tx.Refresh? { RotateLeavesResets(d, tx.session, tx.ttl); }
    if tx.Login? && tx.user < |d.users| { CreateLeavesResets(d, tx.user, tx.ttl, tx.mfa); }
  }

  lemma RotateLeavesResets(d: Db, id: nat, ttl: nat)
    ensures var e := RotateSession(d, id, ttl).0;
      e.resets == d.resets && e.resetChanges == d.resetChanges && e.now == d.now
  {
  }

  lemma CreateLeavesResets(d: Db, u: nat, ttl: nat, mfa: bool)
    requires u < |d.users|
    ensures var e := CreateSession(d, u, ttl, mfa);
      e.resets == d.resets && e.resetChanges == d.resetChanges && e.now == d.now
  {
  }

  /** No assurance outlives the password it was given under. */
  ghost predicate AssuranceOk(d: Db) {
    && (forall u :: 0 <= u < |d.users| ==> d.users[u].passwordChangedAt <= d.now)
    && (forall j :: 0 <= j < |d.sessions| ==> Assured(d.sessions[j], d.users, d.now))
  }

  ghost predicate Assured(s: Session, users: seq<User>, now: int) {
    s.user < |users| &&
    (!s.revoked && s.mfaVerifiedAt.Some? ==> users[s.user].passwordChangedAt <= s.mfaVerifiedAt.value <= now)
  }

  lemma ApplyKeepsAssurance(d: Db, tx: Transaction)
    requires AssuranceOk(d)
    ensures AssuranceOk(Apply(d, tx))
  {
    hide LiveToken, Supersede;
    var e := Apply(d, tx);
    forall j | 0 <= j < |e.sessions| ensures Assured(e.sessions[j], e.users, e.now) {
      assert j < |d.sessions| ==> Assured(d.sessions[j], d.users, d.now);
      if tx.Refresh? && j == |d.sessions| { assert Assured(d.sessions[tx.session], d.users, d.now); }
    }
  }

  // --------------------------------------------------------- main results

  /** A database with accounts but no session, token or history yet. */
  ghost predicate Fresh(d: Db) {
    && d.sessions == [] && d.resets == [] && d.logins == map[]
    && d.rotations == [] && d.replayed == {} && d.resetChanges == []
    && forall u :: 0 <= u < |d.users| ==>
         d.users[u].passwordHash < d.freshHash && d.users[u].passwordChangedAt <= d.now && d.users[u].changedBy.None?
  }

  ghost predicate Inv(d: Db) {
    FamiliesOk(d) && EpochsOk(d) && ResetsOk(d) && AssuranceOk(d)
  }

  lemma {:induction false} RunKeepsInv(d: Db, txs: seq<Transaction>)
    requires Inv(d)
    ensures Inv(Run(d, txs))
    decreases |txs|
  {
    hide Apply, FamiliesOk, EpochsOk, ResetsOk, AssuranceOk;
    if txs != [] {
      ApplyKeepsSessions(d, txs[0]);
      ApplyKeepsResets(d, txs[0]);
      ApplyKeepsAssurance(d, txs[0]);
      RunKeepsInv(Apply(d, txs[0]), txs[1..]);
    }
  }

  lemma FreshHasInv(d: Db)
    requires Fresh(d)
    ensures Inv(d)
  {
  }

  /** After any serial run, each family is a single chain with exactly one
      unrotated session, and no refresh token has been rotated twice. */
  lemma FamiliesAreChains(d: Db, txs: seq<Transaction>, f: nat)
    requires Fresh(d)
    ensures var r := Run(d, txs);
      && NoRepeat(r.rotations) && Linked(r.sessions)
      && (f < |r.sessions| && r.sessions[f].family == f ==>
            var c := Chain(r.sessions, f);
            && (forall j: nat :: j in c <==> j < |r.sessions| && r.sessions[j].family == f)
            && (forall k :: 0 <= k < |c| ==> c[k] < |r.sessions|)
            && (forall k :: 0 <= k < |c| - 1 ==> r.sessions[c[k]].rotatedTo == Some(c[k + 1]))
            && (forall j :: 0 <= j < |r.sessions| && r.sessions[j].family == f ==>
                  (!r.sessions[j].rotated <==> j == c[|c| - 1])))
  {
    FreshHasInv(d);
    RunKeepsInv(d, txs);
    hide Run, EpochsOk, ResetsOk, AssuranceOk, Chain, Linked, Fresh;
    var r := Run(d, txs);
    if f < |r.sessions| && r.sessions[f].family == f { FamilyIsOneChain(r.sessions, f); }
  }

  lemma {:induction false} ReplayedGrows(d: Db, txs: seq<Transaction>)
    ensures d.replayed <= Run(d, txs).replayed
    decreases |txs|
  {
    if txs != [] { ReplayedGrows(Apply(d, txs[0]), txs[1..]); }
  }

  /** Once replay is reported for a family, no session of it, old or new, is usable
      after any further transactions. */
  lemma ReplayIsFinal(d: Db, before: seq<Transaction>, id: nat, ttl: nat, later: seq<Transaction>, j: nat)
    requires Fresh(d) && RotateSession(Run(d, before), id, ttl).1.Replay?
    ensures var f := RotateSession(Run(d, before), id, ttl).1.family;
      var r := Run(RotateSession(Run(d, before), id, ttl).0, later);
      j < |r.sessions| && r.sessions[j].family == f ==> r.sessions[j].revoked && !Usable(r.sessions[j], r.now)
  {
    FreshHasInv(d);
    RunKeepsInv(d, before);
    var mid := Run(d, before);
    var (e, outcome) := RotateSession(mid, id, ttl);
    ApplyKeepsSessions(mid, Refresh(id, ttl));
    ApplyKeepsResets(mid, Refresh(id, ttl));
    ApplyKeepsAssurance(mid, Refresh(id, ttl));
    assert e == Apply(mid, Refresh(id, ttl)) && outcome.family in e.replayed;
    RunKeepsInv(e, later);
    ReplayedGrows(e, later);
    hide Run, Linked, AllStem, ResetsOk, AssuranceOk, Fresh, RotateSession;
    assert AllRevoked(Run(e, later).sessions, outcome.family);
  }

  /** Every unrevoked session stems, through any number of rotations, from a login
      checked against the user's current password, or from the session that
      performed the latest change. */
  lemma SessionsFollowThePassword(d: Db, txs: seq<Transaction>, j: nat)
    requires Fresh(d)
    ensures var r := Run(d, txs);
      && Linked(r.sessions)
      && (j < |r.sessions| && !r.sessions[j].revoked ==>
            var f, u := r.sessions[j].family, r.sessions[j].user;
            && u < |r.users| && f < |r.sessions| && f in r.logins
            && ((j in Chain(r.sessions, f) && r.logins[f] == r.users[u].passwordHash)
                || (r.users[u].changedBy.Some? && r.users[u].changedBy.value < |r.sessions|
                    && j in Chain(r.sessions, r.users[u].changedBy.value))))
  {
    FreshHasInv(d);
    RunKeepsInv(d, txs);
    hide Run, ResetsOk, AssuranceOk, Chain, Fresh, LogsOk;
    var r := Run(d, txs);
    if j < |r.sessions| && !r.sessions[j].revoked {
      assert Stems(r.sessions, r.users, r.logins, j) && RowOk(r.sessions, j);
      var f, u := r.sessions[j].family, r.sessions[j].user;
      ChainMembers(r.sessions, f, j);
      if r.users[u].changedBy.Some? && r.users[u].changedBy.value < |r.sessions| {
        ChainMembers(r.sessions, r.users[u].changedBy.value, j);
      }
    }
  }

  /** Each reset token changes the password at most once, and a user never has two
      live tokens. */
  lemma ResetTokensSingleUse(d: Db, txs: seq<Transaction>)
    requires Fresh(d)
    ensures var r := Run(d, txs);
      && NoRepeat(r.resetChanges)
      && (forall t :: t in r.resetChanges ==> t < |r.resets| && !LiveToken(r.resets[t], r.now))
      && (forall s, t :: 0 <= s < t < |r.resets| && r.resets[s].user == r.resets[t].user ==>
            !(LiveToken(r.resets[s], r.now) && LiveToken(r.resets[t], r.now)))
  {
    FreshHasInv(d);
    RunKeepsInv(d, txs);
    hide Run, FamiliesOk, EpochsOk, AssuranceOk, Fresh;
  }

  /** Step-up assurance on an unrevoked session was always given after the last
      password change: refreshing never renews it and a change never leaves any. */
  lemma AssuranceFollowsThePassword(d: Db, txs: seq<Transaction>, j: nat)
    requires Fresh(d)
    ensures var r := Run(d, txs);
      j < |r.sessions| && !r.sessions[j].revoked && r.sessions[j].mfaVerifiedAt.Some? ==>
        && r.sessions[j].user < |r.users|
        && r.users[r.sessions[j].user].passwordChangedAt <= r.sessions[j].mfaVerifiedAt.value <= r.now
  {
    FreshHasInv(d);
    RunKeepsInv(d, txs);
    hide Run, FamiliesOk, EpochsOk, ResetsOk, Fresh;
    var r := Run(d, txs);
    if j < |r.sessions| { assert Assured(r.sessions[j], r.users, r.now); }
  }

  // --------------------------------------------------- the tables in place

  ghost predicate HashStill(users: seq<User>, u: nat, seenHash: nat) {
    u < |users| && users[u].active && users[u].passwordHash == seenHash
  }

  /** A fresh hash and the time of the change for one user, all others as they were. */
  ghost predicate PasswordSet(before: seq<User>, after: seq<User>, u: nat, hash: nat, now: int) {
    && u < |before| && |after| == |before|
    && after[u].passwordHash == hash && after[u].passwordChangedAt == now && after[u].active == before[u].active
    && forall w :: 0 <= w < |before| && w != u ==> after[w] == before[w]
  }

  /** All of the user's sessions are revoked but the one kept; no other row changed. */
  ghost predicate RevokedExactly(ss: seq<Session>, tt: seq<Session>, u: nat, keep: Option<nat>) {
    && |tt| == |ss|
    && forall i: nat :: i < |ss| ==>
         tt[i] == if ss[i].user == u && keep != Some(i) then ss[i].(revoked := true) else ss[i]
  }

  /** The rows each revoke variant names. */
  ghost predicate Revokes(tx: Transaction, now: int, i: nat, s: Session) {
    match tx
    case RevokeSession(id) => i == id
    case RevokeFamily(f) => s.family == f
    case RevokeAllForUser(u) => s.user == u
    case RevokeUsable(u, except) => s.user == u && except != Some(i) && !s.revoked && !s.rotated && s.expiresAt > now
    case _ => false
  }

  /** The tables as the services write them, statement by statement inside one
      transaction; each method is one transaction of the model above. */
  class AuthTables {
    var now: int
    var users: seq<User>
    var sessions: seq<Session>
    var resets: seq<ResetToken>
    var freshHash: nat
    ghost var logins: map<nat, nat>
    ghost var rotations: seq<nat>
    ghost var replayed: set<nat>
    ghost var resetChanges: seq<nat>

    constructor (now: int, users: seq<User>, freshHash: nat)
      ensures View() == Db(now, users, [], [], freshHash, map[], [], {}, [])
    {
      this.now, this.users, this.freshHash := now, users, freshHash;
      sessions, resets := [], [];
      logins, rotations, replayed, resetChanges := map[], [], {}, [];
    }

    ghost function View(): Db
      reads this
    {
      Db(now, users, sessions, resets, freshHash, logins, rotations, replayed, resetChanges)
    }

    method PersistAuthenticatedLogin(u: nat, seenHash: nat, seenChangedAt: int, ttl: nat, mfa: bool)
      returns (session: Option<nat>)
      modifies this
      ensures View() == Apply(old(View()), Login(u, seenHash, seenChangedAt, ttl, mfa))
      ensures session.Some? <==>
        HashStill(users, u, seenHash) && users[u].passwordChangedAt == seenChangedAt
      ensures session.None? ==> View() == old(View())
      ensures session.Some? ==>
        && session.value == |old(sessions)| && |sessions| == |old(sessions)| + 1
        && sessions[..session.value] == old(sessions)
        && var row := sessions[session.value];
          && row.user == u && row.family == session.value && !row.revoked && !row.rotated && row.rotatedTo.None?
          && row.expiresAt == now + ttl && row.mfaVerifiedAt == (if mfa then Some(now) else None)
    {
      if u >= |users| || !users[u].active || users[u].passwordHash != seenHash
        || users[u].passwordChangedAt != seenChangedAt {
        return None;
      }
      var id := |sessions|;
      sessions := sessions + [Session(u, id, false, None, false, now + ttl, if mfa then Some(now) else None)];
      logins := logins[id := users[u].passwordHash];
      return Some(id);
    }

    method Rotate(id: nat, ttl: nat) returns (outcome: Rotation)
      modifies this
      ensures (View(), outcome) == RotateSession(old(View()), id, ttl)
      ensures IsRotation(old(sessions), sessions, now, id, ttl, outcome)
      ensures outcome.Invalid? ==> View() == old(View())
    {
      if id >= |sessions| { return Invalid; }
      var current := sessions[id];
      if current.revoked || current.expiresAt <= now { return Invalid; }
      if current.rotated {
        sessions := RevokeWhere(sessions, InFamily(current.family));
        replayed := replayed + {current.family};
        return Replay(current.family);
      }
      ghost var before := sessions;
      sessions := sessions[id := current.(rotated := true)];
      var child := |sessions|;
      var row := Session(current.user, current.family, false, None, false, now + ttl, current.mfaVerifiedAt);
      sessions := sessions + [row];
      sessions := sessions[id := sessions[id].(rotatedTo := Some(child))];
      assert sessions == before[id := current.(rotated := true, rotatedTo := Some(child))] + [row];
      rotations := rotations + [id];
      return Rotated(child);
    }

    method MarkStepUpVerified(id: nat, u: nat) returns (marked: bool)
      modifies this`sessions
      ensures View() == Apply(old(View()), MarkStepUp(id, u))
      ensures marked <==>
        && id < |old(sessions)| && old(sessions)[id].user == u
        && !old(sessions)[id].revoked && !old(sessions)[id].rotated && old(sessions)[id].expiresAt > now
      ensures sessions ==
        if marked then old(sessions)[id := old(sessions)[id].(mfaVerifiedAt := Some(now))] else old(sessions)
    {
      marked := id < |sessions| && sessions[id].user == u && Usable(sessions[id], now);
      if marked { sessions := sessions[id := sessions[id].(mfaVerifiedAt := Some(now))]; }
    }

    method IssueResetToken(u: nat, ttl: nat) returns (token: Option<nat>)
      modifies this`resets
      ensures View() == Apply(old(View()), ForgotPassword(u, ttl))
      ensures token.Some? <==> u < |users| && users[u].active
      ensures token.None? ==> resets == old(resets)
      ensures token.Some? ==>
        && token.value == |old(resets)| && |resets| == token.value + 1
        && resets[token.value] == ResetToken(u, false, false, now + ttl)
        && forall i :: 0 <= i < token.value ==>
             var was := old(resets)[i];
             resets[i] == if was.user == u && !was.used && !was.superseded && was.expiresAt > now
                          then was.(superseded := true) else was
    {
      if u >= |users| || !users[u].active { return None; }
      resets := Supersede(resets, u, now);
      resets := resets + [ResetToken(u, false, false, now + ttl)];
      return Some(|resets| - 1);
    }

    method Reset(t: nat, seenHash: nat) returns (done: bool)
      modifies this
      ensures View() == Apply(old(View()), ResetPassword(t, seenHash))
      ensures done <==>
        && t < |old(resets)| && !old(resets)[t].used && !old(resets)[t].superseded && old(resets)[t].expiresAt > now
        && HashStill(old(users), old(resets)[t].user, seenHash)
      ensures !done ==> View() == old(View())
      ensures done ==>
        && resets == old(resets)[t := old(resets)[t].(used := true)]
        && PasswordSet(old(users), users, old(resets)[t].user, old(freshHash), now)
        && RevokedExactly(old(sessions), sessions, old(resets)[t].user, None)
    {
      if t >= |resets| || !LiveToken(resets[t], now) { return false; }
      var u := resets[t].user;
      if u >= |users| || !users[u].active || users[u].passwordHash != seenHash { return false; }
      resets := resets[t := resets[t].(used := true)];
      users := users[u := User(freshHash, now, true, None)];
      freshHash := freshHash + 1;
      sessions := RevokeWhere(sessions, OfUser(u));
      resetChanges := resetChanges + [t];
      return true;
    }

    method Change(u: nat, id: nat, seenHash: nat) returns (done: bool)
      modifies this
      ensures View() == Apply(old(View()), ChangePassword(u, id, seenHash))
      ensures done <==>
        && HashStill(old(users), u, seenHash)
        && id < |old(sessions)| && old(sessions)[id].user == u
        && !old(sessions)[id].revoked && !old(sessions)[id].rotated && old(sessions)[id].expiresAt > now
      ensures !done ==> View() == old(View())
      ensures done ==>
        && resets == old(resets) && PasswordSet(old(users), users, u, old(freshHash), now)
        && sessions[id] == old(sessions)[id].(mfaVerifiedAt := None)
        && RevokedExactly(old(sessions), sessions[id := old(sessions)[id]], u, Some(id))
    {
      if u >= |users| || !users[u].active || users[u].passwordHash != seenHash { return false; }
      // The assurance update doubles as a check that the session is still usable;
      // when it misses, the transaction is rolled back.
      if id >= |sessions| || sessions[id].user != u || !Usable(sessions[id], now) { return false; }
      users := users[u := User(freshHash, now, true, Some(id))];
      freshHash := freshHash + 1;
      sessions := RevokeWhere(sessions, OfUserExcept(u, id));
      sessions := sessions[id := sessions[id].(mfaVerifiedAt := None)];
      return true;
    }

    method Revoke(tx: Transaction)
      requires tx.RevokeSession? || tx.RevokeFamily? || tx.RevokeAllForUser? || tx.RevokeUsable?
      modifies this`sessions
      ensures View() == Apply(old(View()), tx)
      ensures |sessions| == |old(sessions)|
      ensures forall i: nat :: i < |sessions| ==>
        sessions[i] == if Revokes(tx, now, i, old(sessions)[i])
                       then old(sessions)[i].(revoked := true) else old(sessions)[i]
    {
      match tx
      case RevokeSession(id) => sessions := RevokeWhere(sessions, Only(id));
      case RevokeFamily(f) => sessions := RevokeWhere(sessions, InFamily(f));
      case RevokeAllForUser(u) => sessions := RevokeWhere(sessions, OfUser(u));
      case RevokeUsable(u, except) => sessions := RevokeWhere(sessions, UsableOfUser(u, except, now));
    }
  }
}
