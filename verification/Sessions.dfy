/** auth/services.py: device sessions, created by logins and rotated by refresh tokens. */
module Sessions {
  import opened Wrappers

  datatype Client = Mobile | Web

  datatype Session = Session(
    user: nat, client: Client, fingerprint: string, secretHash: string, expiresAt: int, revoked: bool)

  /** The session table.  `issued` are the identifiers ever handed out; they are random, and creating one
      again fails.  `origin` is what the audit rows of the rotations add up to: the login a session
      descends from. */
  datatype Desk = Desk(now: int, sessions: map<string, Session>, issued: set<string>, origin: map<string, string>)

  function Lifetime(client: Client): int {
    match client case Mobile => 30 * 24 * 3600 case Web => 8 * 3600
  }

  /** The row _create_session saves. */
  function NewSession(d: Desk, user: nat, client: Client, fingerprint: string, secretHash: string): Session {
    Session(user, client, fingerprint, secretHash, d.now + Lifetime(client), false)
  }

  /** _create_session; None is the database refusing a used identifier. */
  function Create(d: Desk, id: string, origin: string, s: Session): Option<Desk> {
    if id in d.issued then None
    else Some(d.(sessions := d.sessions[id := s], issued := d.issued + {id}, origin := d.origin[id := origin]))
  }

  predicate Live(d: Desk, id: string) {
    id in d.sessions && !d.sessions[id].revoked
  }

  function LiveOf(d: Desk, user: nat): set<string> {
    set id | id in d.sessions && d.sessions[id].user == user && !d.sessions[id].revoked
  }

  function Revoke(d: Desk, id: string): Desk {
    if id in d.sessions then d.(sessions := d.sessions[id := d.sessions[id].(revoked := true)]) else d
  }

  /** _revoke_all_sessions */
  function RevokeAll(d: Desk, user: nat): Desk {
    d.(sessions := map id | id in d.sessions ::
         if d.sessions[id].user == user then d.sessions[id].(revoked := true) else d.sessions[id])
  }

  /** The end of AuthService.verify_otp: every other session of the user goes. */
  function OtpLogin(d: Desk, user: nat, client: Client, fingerprint: string, id: string,
      secretHash: string): Option<Desk> {
    Create(RevokeAll(d, user), id, id, NewSession(d, user, client, fingerprint, secretHash))
  }

  function KnownFingerprints(d: Desk, user: nat): set<string> {
    set id | id in d.sessions && d.sessions[id].user == user && d.sessions[id].fingerprint != "" ::
      d.sessions[id].fingerprint
  }

  /** PinService.verify on a right PIN; an unknown device is sent back to a code. */
  function PinLogin(d: Desk, user: nat, client: Client, fingerprint: string, id: string, secretHash: string,
      pinFits: bool)
    : Option<Desk>
  {
    var known := KnownFingerprints(d, user);
    if known != {} && (fingerprint == "" || fingerprint !in known) then None
    else if !pinFits then None
    else Create(d, id, id, NewSession(d, user, client, fingerprint, secretHash))
  }

  /** TokenService.refresh on a token split into identifier and secret; `check` is check_password. */
  function Refresh(
    check: (string, string) -> bool, d: Desk, id: string, secret: string, client: Client,
    newId: string, newHash: string): Option<Desk>
  {
    if id == "" || secret == "" || !Live(d, id) then None else
    var s := d.sessions[id];
    if d.now > s.expiresAt || s.client != client || !check(secret, s.secretHash) then None else
    var origin := if id in d.origin then d.origin[id] else id;
    Create(Revoke(d, id), newId, origin, NewSession(d, s.user, s.client, s.fingerprint, newHash))
  }

  /** TokenService.revoke_raw_token */
  function RevokeToken(check: (string, string) -> bool, d: Desk, id: string, secret: string): Desk {
    if Live(d, id) && check(secret, d.sessions[id].secretHash) then Revoke(d, id) else d
  }

  /** cleanup_expired_device_sessions */
  function Cleanup(d: Desk): Desk {
    d.(sessions := map id | id in d.sessions && !(d.sessions[id].expiresAt < d.now && d.sessions[id].revoked) ::
         d.sessions[id])
  }

  datatype Call =
    | Wait(seconds: nat)
    | LoginByCode(user: nat, client: Client, fingerprint: string, id: string, secretHash: string)
    | LoginByPin(user: nat, client: Client, fingerprint: string, id: string, secretHash: string, pinFits: bool)
    | Rotate(id: string, secret: string, client: Client, newId: string, newHash: string)
    | Logout(id: string, secret: string)
    | RevokeOne(id: string)
    | SignOutAll(user: nat)
    | CleanUp

  /** What a call leaves, or None if it raised and left everything as it was. */
  function Reply(check: (string, string) -> bool, d: Desk, a: Call): Option<Desk> {
    match a
    case Wait(seconds) => Some(d.(now := d.now + seconds))
    case LoginByCode(user, client, fingerprint, id, hash) => OtpLogin(d, user, client, fingerprint, id, hash)
    case LoginByPin(user, client, fingerprint, id, hash, pinFits) =>
      PinLogin(d, user, client, fingerprint, id, hash, pinFits)
    case Rotate(id, secret, client, newId, hash) => Refresh(check, d, id, secret, client, newId, hash)
    case Logout(id, secret) => Some(RevokeToken(check, d, id, secret))
    case RevokeOne(id) => Some(Revoke(d, id))
    case SignOutAll(user) => Some(RevokeAll(d, user))
    case CleanUp => Some(Cleanup(d))
  }

  function Next(check: (string, string) -> bool, d: Desk, a: Call): Desk {
    var r := Reply(check, d, a);
    if r.Some? then r.value else d
  }

  datatype History = History(states: seq<Desk>, calls: seq<Call>) {
    ghost predicate Valid(check: (string, string) -> bool) {
      && |states| == |calls| + 1
      && states[0].sessions == map[] && states[0].issued == {} && states[0].origin == map[]
      && forall i: nat :: i < |calls| ==> Follows(check, i)
    }

    ghost predicate Follows(check: (string, string) -> bool, i: nat)
      requires i < |calls| && |states| == |calls| + 1
    {
      states[i + 1] == Next(check, states[i], calls[i])
    }
  }

  // ---- What every run keeps ----

  predicate SameDevice(a: Session, b: Session) {
    a.user == b.user && a.client == b.client && a.fingerprint == b.fingerprint
  }

  /** Sessions of one login: same user, client and fingerprint, and at most one of them live. */
  ghost predicate Kin(d: Desk, a: string, b: string)
    requires a in d.sessions && b in d.sessions
  {
    && SameDevice(d.sessions[a], d.sessions[b])
    && (Live(d, a) && Live(d, b) ==> a == b)
  }

  ghost predicate Chained(d: Desk) {
    && d.sessions.Keys <= d.issued && d.origin.Keys == d.issued
    && (forall id :: id in d.origin ==> d.origin[id] in d.issued)
    && (forall a, b :: a in d.sessions && b in d.sessions && d.origin[a] == d.origin[b] ==> Kin(d, a, b))
  }

  /** The same row, perhaps revoked since. */
  predicate Aged(before: Session, after: Session) {
    after == before.(revoked := after.revoked) && (before.revoked ==> after.revoked)
  }

  lemma RevokingKeeps(d: Desk, after: Desk)
    requires Chained(d) && after == d.(sessions := after.sessions, now := after.now)
    requires after.sessions.Keys <= d.sessions.Keys
    requires forall id :: id in after.sessions ==> Aged(d.sessions[id], after.sessions[id])
    ensures Chained(after)
  {
    forall a, b | a in after.sessions && b in after.sessions && after.origin[a] == after.origin[b]
      ensures Kin(after, a, b)
    {
      assert Kin(d, a, b);
    }
  }

  /** No live session shares the origin of a new one, and all that share it are of the same device. */
  ghost predicate Succeeds(d: Desk, origin: string, s: Session)
    requires d.sessions.Keys <= d.origin.Keys
  {
    forall a :: a in d.sessions && d.origin[a] == origin ==> !Live(d, a) && SameDevice(d.sessions[a], s)
  }

  lemma PairKept(d: Desk, id: string, origin: string, s: Session, a: string, b: string)
    requires Chained(d) && id !in d.issued && Succeeds(d, origin, s)
    requires var after := Create(d, id, origin, s).value;
      a in after.sessions && b in after.sessions && after.origin[a] == after.origin[b]
    ensures Kin(Create(d, id, origin, s).value, a, b)
  {
    if a != id && b != id {
      assert Kin(d, a, b);
    }
  }

  /** A new session that starts a chain, or takes the place of a chain's revoked one. */
  lemma CreatingKeeps(d: Desk, id: string, origin: string, s: Session)
    requires Chained(d) && id !in d.issued && Succeeds(d, origin, s)
    requires origin == id || origin in d.issued
    ensures Chained(Create(d, id, origin, s).value)
  {
    hide Kin, Succeeds;
    var after := Create(d, id, origin, s).value;
    forall a, b | a in after.sessions && b in after.sessions && after.origin[a] == after.origin[b]
      ensures Kin(after, a, b)
    {
      PairKept(d, id, origin, s, a, b);
    }
  }

  lemma RotatingKeeps(
    check: (string, string) -> bool, d: Desk, id: string, secret: string, client: Client, newId: string,
      newHash: string)
    requires Chained(d) && Refresh(check, d, id, secret, client, newId, newHash).Some?
    ensures Chained(Refresh(check, d, id, secret, client, newId, newHash).value)
  {
    var s, mid := d.sessions[id], Revoke(d, id);
    RevokingKeeps(d, mid);
    forall a | a in mid.sessions && mid.origin[a] == d.origin[id]
      ensures !Live(mid, a) && SameDevice(mid.sessions[a], s)
    {
      assert Kin(d, a, id);
    }
    CreatingKeeps(mid, newId, d.origin[id], NewSession(d, s.user, s.client, s.fingerprint, newHash));
  }

  lemma ChainedStep(check: (string, string) -> bool, d: Desk, a: Call)
    requires Chained(d)
    ensures Chained(Next(check, d, a))
  {
    hide Chained;
    var r := Reply(check, d, a);
    if r.Some? {
      match a
      case LoginByCode(user, client, fingerprint, id, hash) =>
        RevokingKeeps(d, RevokeAll(d, user));
        NewChain(RevokeAll(d, user), id, NewSession(d, user, client, fingerprint, hash));
      case LoginByPin(user, client, fingerprint, id, hash, _) =>
        NewChain(d, id, NewSession(d, user, client, fingerprint, hash));
      case Rotate(id, secret, client, newId, hash) => RotatingKeeps(check, d, id, secret, client, newId, hash);
      case _ => RevokingKeeps(d, r.value);
    }
  }

  lemma NewChain(d: Desk, id: string, s: Session)
    requires Chained(d) && id !in d.issued
    ensures Chained(Create(d, id, id, s).value)
  {
    CreatingKeeps(d, id, id, s);
  }

  lemma {:induction false} AlwaysChained(check: (string, string) -> bool, h: History, n: nat)
    requires h.Valid(check) && n < |h.states|
    ensures Chained(h.states[n])
  {
    if n > 0 {
      AlwaysChained(check, h, n - 1);
      hide Chained, Next;
      assert h.Follows(check, n - 1);
      ChainedStep(check, h.states[n - 1], h.calls[n - 1]);
    }
  }

  /** However it is rotated, one login has at most one live session, always of the same user, client type
      and device. */
  lemma OneLiveSessionPerLogin(check: (string, string) -> bool, h: History, n: nat, a: string, b: string)
    requires h.Valid(check) && n < |h.states|
    requires var d := h.states[n];
      a in d.sessions && b in d.sessions && a in d.origin && b in d.origin && d.origin[a] == d.origin[b]
    ensures Kin(h.states[n], a, b)
  {
    hide Next;
    AlwaysChained(check, h, n);
  }

  // ---- Revocation is final ----

  /** The identifier was handed out, and its session is revoked or gone. */
  predicate Spent(d: Desk, id: string) {
    id in d.issued && !Live(d, id)
  }

  lemma SpentStep(check: (string, string) -> bool, d: Desk, a: Call, id: string)
    requires Chained(d) && Spent(d, id)
    ensures Spent(Next(check, d, a), id)
  {
  }

  /** A revoked session never becomes live again. */
  lemma {:induction false} RevokedForGood(check: (string, string) -> bool, h: History, i: nat, j: nat, id: string)
    requires h.Valid(check) && i <= j < |h.states| && Spent(h.states[i], id)
    ensures Spent(h.states[j], id)
  {
    if i < j {
      RevokedForGood(check, h, i, j - 1, id);
      AlwaysChained(check, h, j - 1);
      hide Chained, Spent, Next;
      assert h.Follows(check, j - 1);
      SpentStep(check, h.states[j - 1], h.calls[j - 1], id);
    }
  }

  /** Step i accepted a refresh token of session id. */
  ghost predicate AcceptsToken(check: (string, string) -> bool, h: History, i: nat, id: string)
    requires |h.states| == |h.calls| + 1 && i < |h.calls|
  {
    h.calls[i].Rotate? && h.calls[i].id == id && Reply(check, h.states[i], h.calls[i]).Some?
  }

  lemma AcceptingSpends(check: (string, string) -> bool, d: Desk, a: Call)
    requires Chained(d) && a.Rotate? && Reply(check, d, a).Some?
    ensures Live(d, a.id) && Spent(Next(check, d, a), a.id)
  {
  }

  /** Every refresh token is accepted at most once. */
  lemma TokenAcceptedOnce(check: (string, string) -> bool, h: History, i: nat, j: nat, id: string)
    requires h.Valid(check) && i < |h.calls| && j < |h.calls|
    requires AcceptsToken(check, h, i, id) && AcceptsToken(check, h, j, id)
    ensures i == j
  {
    var first, second := if i <= j then i else j, if i <= j then j else i;
    AlwaysChained(check, h, first);
    AlwaysChained(check, h, second);
    assert h.Follows(check, first);
    hide Chained, Next, Reply, Spent;
    AcceptingSpends(check, h.states[first], h.calls[first]);
    AcceptingSpends(check, h.states[second], h.calls[second]);
    if first < second {
      RevokedForGood(check, h, first + 1, second, id);
      SpentIsNotLive(h.states[second], id);
    }
  }

  lemma RevokingAll(d: Desk, user: nat)
    ensures LiveOf(RevokeAll(d, user), user) == {}
    ensures forall other :: other != user ==> LiveOf(RevokeAll(d, user), other) == LiveOf(d, other)
    ensures forall id :: id in d.sessions && d.sessions[id].user == user ==> !Live(RevokeAll(d, user), id)
  {
  }

  lemma LiveIsKnown(check: (string, string) -> bool, h: History, n: nat, id: string)
    requires h.Valid(check) && n < |h.states| && id in h.states[n].sessions
    ensures id in h.states[n].issued
  {
    hide Next;
    AlwaysChained(check, h, n);
  }

  lemma SignsOut(check: (string, string) -> bool, d: Desk, user: nat)
    ensures Next(check, d, SignOutAll(user)) == RevokeAll(d, user)
  {
  }

  /** After signing out everywhere, the user has no live session, others keep theirs, and no token issued
      before is ever accepted. */
  lemma SignOutIsFinal(check: (string, string) -> bool, h: History, i: nat, j: nat, user: nat, id: string)
    requires h.Valid(check) && i < j < |h.calls| && h.calls[i] == SignOutAll(user)
    requires id in h.states[i].sessions && h.states[i].sessions[id].user == user
    ensures LiveOf(h.states[i + 1], user) == {}
    ensures forall other :: other != user ==> LiveOf(h.states[i + 1], other) == LiveOf(h.states[i], other)
    ensures !Live(h.states[j], id) && !AcceptsToken(check, h, j, id)
  {
    hide Chained, Next, Reply, LiveOf, Live;
    assert h.Follows(check, i);
    SignsOut(check, h.states[i], user);
    RevokingAll(h.states[i], user);
    LiveIsKnown(check, h, i, id);
    RevokedForGood(check, h, i + 1, j, id);
    AlwaysChained(check, h, j);
    if AcceptsToken(check, h, j, id) {
      AcceptingSpends(check, h.states[j], h.calls[j]);
    }
  }

  lemma SpentIsNotLive(d: Desk, id: string)
    requires Spent(d, id)
    ensures !Live(d, id)
  {
  }

  /** Right after a login by code the user has one live session, the new one. */
  lemma CodeLoginLeavesOne(d: Desk, user: nat, client: Client, fingerprint: string, id: string, secretHash: string)
    requires OtpLogin(d, user, client, fingerprint, id, secretHash).Some?
    ensures LiveOf(OtpLogin(d, user, client, fingerprint, id, secretHash).value, user) == {id}
    ensures forall other: nat :: other != user && d.sessions.Keys <= d.issued ==>
      LiveOf(OtpLogin(d, user, client, fingerprint, id, secretHash).value, other) == LiveOf(d, other)
  {
  }

  // ---- What it takes ----

  /** In every run a refresh token is accepted exactly if its session is live and not expired, of the same
      client type, the secret checks against its hash, and the new identifier was never used. */
  lemma AcceptsExactly(check: (string, string) -> bool, h: History, n: nat, id: string)
    requires h.Valid(check) && n < |h.calls| && h.calls[n].Rotate?
    ensures var d, a := h.states[n], h.calls[n];
      AcceptsToken(check, h, n, id) <==>
        && a.id == id && id != "" && a.secret != "" && a.newId !in d.issued
        && id in d.sessions && !d.sessions[id].revoked && d.now <= d.sessions[id].expiresAt
        && d.sessions[id].client == a.client && check(a.secret, d.sessions[id].secretHash)
  {
  }

  /** The call hands out this session: by code, by PIN or by rotation. */
  predicate Makes(a: Call, id: string, secretHash: string) {
    || (a.LoginByCode? && a.id == id && a.secretHash == secretHash)
    || (a.LoginByPin? && a.pinFits && a.id == id && a.secretHash == secretHash)
    || (a.Rotate? && a.newId == id && a.newHash == secretHash)
  }

  predicate MadeAt(h: History, i: nat, id: string, s: Session)
    requires |h.states| == |h.calls| + 1 && i < |h.calls|
  {
    && Makes(h.calls[i], id, s.secretHash)
    && s.expiresAt == h.states[i].now + if s.client == Mobile then 2592000 else 28800
  }

  predicate NewOrAged(d: Desk, after: Desk, a: Call, id: string)
    requires id in after.sessions
  {
    var s := after.sessions[id];
    if id in d.sessions then Aged(d.sessions[id], s)
    else Makes(a, id, s.secretHash) && s.expiresAt == d.now + if s.client == Mobile then 2592000 else 28800
  }

  lemma RotationMakes(check: (string, string) -> bool, d: Desk, a: Call, id: string)
    requires a.Rotate? && id in Next(check, d, a).sessions && d.sessions.Keys <= d.issued
    ensures NewOrAged(d, Next(check, d, a), a, id)
  {
  }

  lemma LoginMakes(check: (string, string) -> bool, d: Desk, a: Call, id: string)
    requires (a.LoginByCode? || a.LoginByPin?) && id in Next(check, d, a).sessions && d.sessions.Keys <= d.issued
    ensures NewOrAged(d, Next(check, d, a), a, id)
  {
    hide KnownFingerprints;
  }

  lemma SessionStep(check: (string, string) -> bool, d: Desk, a: Call, id: string)
    requires d.sessions.Keys <= d.issued && id in Next(check, d, a).sessions
    ensures NewOrAged(d, Next(check, d, a), a, id)
  {
    if a.Rotate? {
      RotationMakes(check, d, a, id);
    } else if a.LoginByCode? || a.LoginByPin? {
      LoginMakes(check, d, a, id);
    } else {
      hide Refresh, OtpLogin, PinLogin, Makes;
    }
  }

  lemma KeysIssued(check: (string, string) -> bool, h: History, n: nat)
    requires h.Valid(check) && n < |h.states|
    ensures h.states[n].sessions.Keys <= h.states[n].issued
  {
    hide Next, Kin;
    AlwaysChained(check, h, n);
  }

  lemma {:induction false} WhoMade(check: (string, string) -> bool, h: History, n: nat, id: string) returns (i: nat)
    requires h.Valid(check) && n < |h.states| && id in h.states[n].sessions
    ensures i < n && MadeAt(h, i, id, h.states[n].sessions[id])
  {
    hide Next, Makes, Chained;
    KeysIssued(check, h, n - 1);
    assert h.Follows(check, n - 1);
    SessionStep(check, h.states[n - 1], h.calls[n - 1], id);
    if id in h.states[n - 1].sessions {
      i := WhoMade(check, h, n - 1, id);
    } else {
      i := n - 1;
    }
  }

  /** An accepted token was handed out by a login or a rotation at most thirty days before on a mobile
      device and eight hours on the web, and its secret checks against what was stored then. */
  lemma TokenLifetime(check: (string, string) -> bool, h: History, n: nat, id: string) returns (i: nat)
    requires h.Valid(check) && n < |h.calls| && AcceptsToken(check, h, n, id)
    ensures i < n && id in h.states[n].sessions && Makes(h.calls[i], id, h.states[n].sessions[id].secretHash)
    ensures check(h.calls[n].secret, h.states[n].sessions[id].secretHash)
    ensures h.states[n].now - h.states[i].now <= if h.calls[n].client == Mobile then 2592000 else 28800
  {
    AcceptsExactly(check, h, n, id);
    hide Next, Reply, Makes;
    i := WhoMade(check, h, n, id);
  }

  /** A login by PIN succeeds exactly with the right PIN, under a new identifier, on a device the user has a
      session of, or if no session of the user names its device. */
  lemma PinLoginExactly(d: Desk, user: nat, client: Client, fingerprint: string, id: string, hash: string,
      pinFits: bool)
    ensures PinLogin(d, user, client, fingerprint, id, hash, pinFits).Some? <==>
      && pinFits && id !in d.issued
      && ((forall k :: k in d.sessions && d.sessions[k].user == user ==> d.sessions[k].fingerprint == "")
          || (fingerprint != "" && exists k ::
                k in d.sessions && d.sessions[k].user == user && d.sessions[k].fingerprint == fingerprint))
  {
    var known := KnownFingerprints(d, user);
    if k :| k in d.sessions && d.sessions[k].user == user && d.sessions[k].fingerprint != "" {
      assert d.sessions[k].fingerprint in known;
    }
  }

  /** Logging out ends exactly the session whose token was shown with its right secret. */
  lemma LogoutExactly(check: (string, string) -> bool, d: Desk, id: string, secret: string, other: string)
    ensures Live(RevokeToken(check, d, id, secret), other) <==>
      Live(d, other) && !(other == id && check(secret, d.sessions[id].secretHash))
  {
  }

  /** Cleaning up removes no live session, and nothing that has not expired. */
  lemma CleanupKeeps(d: Desk, id: string)
    ensures Live(Cleanup(d), id) <==> Live(d, id)
    ensures id in d.sessions && d.now <= d.sessions[id].expiresAt ==> id in Cleanup(d).sessions
    ensures id in Cleanup(d).sessions ==> id in d.sessions && Cleanup(d).sessions[id] == d.sessions[id]
  {
  }

  // ---- The table, updated in place ----

  class SessionTable {
    var now: int
    var sessions: map<string, Session>
    var issued: set<string>
    var origin: map<string, string>

    function View(): Desk
      reads this
    {
      Desk(now, sessions, issued, origin)
    }

    /** _create_session, with the audit row that names the login it descends from. */
    method CreateSession(id: string, from: string, user: nat, client: Client, fingerprint: string, secretHash: string)
      returns (saved: bool)
      modifies `sessions, `issued, `origin
      ensures saved <==> id !in old(issued)
      ensures View() == if saved
        then Create(old(View()), id, from, NewSession(old(View()), user, client, fingerprint, secretHash)).value
        else old(View())
    {
      if id in issued {
        return false;
      }
      sessions := sessions[id := Session(user, client, fingerprint, secretHash, now + Lifetime(client), false)];
      issued := issued + {id};
      origin := origin[id := from];
      return true;
    }

    /** _revoke_all_sessions */
    method RevokeAllSessions(user: nat)
      modifies `sessions
      ensures View() == RevokeAll(old(View()), user)
      ensures LiveOf(View(), user) == {} && sessions.Keys == old(sessions.Keys)
    {
      sessions := map id | id in sessions ::
        if sessions[id].user == user then sessions[id].(revoked := true) else sessions[id];
    }

    /** TokenService.refresh: the old session is revoked before the new one is made. */
    method RefreshToken(
      check: (string, string) -> bool, id: string, secret: string, client: Client, newId: string, newHash: string)
      returns (accepted: bool)
      modifies `sessions, `issued, `origin
      ensures var r := Refresh(check, old(View()), id, secret, client, newId, newHash);
        accepted == r.Some? && View() == if accepted then r.value else old(View())
    {
      if id == "" || secret == "" {
        return false;
      }
      if id !in sessions || sessions[id].revoked {
        return false;
      }
      var s := sessions[id];
      if now > s.expiresAt || s.client != client || !check(secret, s.secretHash) {
        return false;
      }
      var savepoint := sessions;
      sessions := sessions[id := s.(revoked := true)];
      var from := if id in origin then origin[id] else id;
      accepted := CreateSession(newId, from, s.user, s.client, s.fingerprint, newHash);
      if !accepted {
        sessions := savepoint;
      }
    }
  }
}
