/** Refresh tokens (app/domain/auth/service.py, app/domain/auth/repository.py): rotation with reuse
    detection (section 4.14.2 of RFC 9700). Raw tokens, hashes and ids are one identifier per session,
    fresh when they are drawn; each transaction runs under its family's lock and is one step. */
module RefreshFamilies {
  import opened Options

  type Id = nat
  type Family = nat

  datatype Reason = Reuse | LoggedOut

  datatype Session = Session(user: nat, family: Family, expiresAt: int, rotatedAt: Option<int>, replacedBy: Option<Id>,
                             revokedAt: Option<int>, revokeReason: Option<Reason>)

  type Table = map<Id, Session>

  const LIFETIME := 7 * 24 * 3600

  // ---- Specification ----

  function Issued(rows: Table, id: Id, user: nat, family: Family, now: int): Table {
    rows[id := Session(user, family, now + LIFETIME, None, None, None, None)]
  }

  /** UPDATE ... WHERE family_id = family AND revoked_at IS NULL */
  function FamilyRevoked(rows: Table, family: Family, now: int, reason: Reason): Table {
    map id | id in rows ::
      if rows[id].family == family && rows[id].revokedAt.None?
      then rows[id].(revokedAt := Some(now), revokeReason := Some(reason))
      else rows[id]
  }

  predicate Spent(s: Session) { s.rotatedAt.Some? || s.revokedAt.Some? }

  predicate Usable(rows: Table, id: Id, now: int) { id in rows && !Spent(rows[id]) && now < rows[id].expiresAt }

  function Rotated(rows: Table, id: Id, replacement: Id, now: int): Table
    requires id in rows
  {
    var s := rows[id];
    rows[replacement := Session(s.user, s.family, s.expiresAt, None, None, None, None)]
        [id := s.(rotatedAt := Some(now), replacedBy := Some(replacement))]
  }

  /** `active`: the user may sign in; otherwise the transaction fails and leaves nothing. */
  function Refreshed(rows: Table, id: Id, replacement: Id, now: int, active: bool): Table {
    if id !in rows then rows
    else if Spent(rows[id]) then FamilyRevoked(rows, rows[id].family, now, Reuse)
    else if now < rows[id].expiresAt && active then Rotated(rows, id, replacement, now)
    else rows
  }

  predicate Succeeds(rows: Table, id: Id, now: int, active: bool) { Usable(rows, id, now) && active }

  function LoggedOff(rows: Table, id: Id, now: int): Table {
    if id in rows then FamilyRevoked(rows, rows[id].family, now, LoggedOut) else rows
  }

  // ---- The code ----

  class AuthService {
    var sessions: Table

    constructor ()
      ensures sessions == map[]
    {
      sessions := map[];
    }

    method Callback(user: nat, refresh: Id, family: Family, now: int)
      modifies this
      ensures sessions == Issued(old(sessions), refresh, user, family, now)
    {
      var expires := now + LIFETIME;
      sessions := sessions[refresh := Session(user, family, expires, None, None, None, None)];
    }

    method Refresh(raw: Id, replacement: Id, now: int, active: bool) returns (result: Option<(Id, int)>)
      requires replacement !in sessions
      modifies this
      ensures sessions == Refreshed(old(sessions), raw, replacement, now, active)
      ensures result == if Succeeds(old(sessions), raw, now, active)
                        then Some((replacement, old(sessions)[raw].expiresAt)) else None
    {
      result := None;
      if raw !in sessions {
        return;
      }
      var current := sessions[raw];
      if current.rotatedAt.Some? || current.revokedAt.Some? {
        RevokeFamily(current.family, now, Reuse);
      } else if current.expiresAt > now {
        if !active {
          return;
        }
        sessions := sessions[replacement := Session(current.user, current.family, current.expiresAt, None, None, None,
                                                    None)];
        sessions := sessions[raw := current.(rotatedAt := Some(now), replacedBy := Some(replacement))];
        result := Some((replacement, current.expiresAt));
      }
    }

    method Logout(raw: Id, now: int)
      modifies this
      ensures sessions == LoggedOff(old(sessions), raw, now)
    {
      if raw in sessions {
        RevokeFamily(sessions[raw].family, now, LoggedOut);
      }
    }

    method RevokeFamily(family: Family, now: int, reason: Reason)
      modifies this
      ensures sessions == FamilyRevoked(old(sessions), family, now, reason)
    {
      var todo := sessions.Keys;
      var was := sessions;
      while todo != {}
        invariant todo <= was.Keys == sessions.Keys
        invariant forall id :: id in was ==>
                    sessions[id] == if id in todo then was[id] else FamilyRevoked(was, family, now, reason)[id]
        decreases |todo|
      {
        var id :| id in todo;
        var s := sessions[id];
        if s.family == family && s.revokedAt.None? {
          sessions := sessions[id := s.(revokedAt := Some(now), revokeReason := Some(reason))];
        }
        todo := todo - {id};
      }
    }
  }

  // ---- Runs ----

  /** Identifiers drawn at random are fresh: a step that repeats one does not happen. */
  datatype Step = Login(user: nat, id: Id, family: Family, now: int)
                | Refresh(token: Id, replacement: Id, now: int, active: bool)
                | Logout(token: Id, now: int)

  predicate FreshFamily(rows: Table, family: Family) { forall id :: id in rows ==> rows[id].family != family }

  function Apply(rows: Table, step: Step): Table {
    match step
    case Login(user, id, family, now) =>
      if id in rows || !FreshFamily(rows, family) then rows else Issued(rows, id, user, family, now)
    case Refresh(token, replacement, now, active) =>
      if replacement in rows then rows else Refreshed(rows, token, replacement, now, active)
    case Logout(token, now) => LoggedOff(rows, token, now)
  }

  /** The table after a run. */
  function After(steps: seq<Step>): Table {
    if steps == [] then map[] else Apply(After(steps[..|steps| - 1]), steps[|steps| - 1])
  }

  predicate Yields(rows: Table, step: Step) {
    step.Refresh? && step.replacement !in rows && Succeeds(rows, step.token, step.now, step.active)
  }

  // ---- A family is one chain ----

  /** All of the family's sessions, each replaced by the next. */
  ghost predicate IsChain(rows: Table, family: Family, chain: seq<Id>) {
    && chain != [] && (forall i, j :: 0 <= i < j < |chain| ==> chain[i] != chain[j])
    && (forall id :: id in chain <==> id in rows && rows[id].family == family)
    && (forall i {:trigger Linked(rows, chain, i)} :: 0 <= i < |chain| ==> Linked(rows, chain, i))
  }

  /** Only the last is unrotated; all look alike. */
  ghost predicate Linked(rows: Table, chain: seq<Id>, i: nat) {
    && i < |chain| && chain[i] in rows && chain[0] in rows && Alike(rows[chain[i]], rows[chain[0]])
    && rows[chain[i]].replacedBy == (if i + 1 < |chain| then Some(chain[i + 1]) else None)
    && (rows[chain[i]].rotatedAt.Some? <==> i + 1 < |chain|)
  }

  /** One user, one expiry, revoked together. */
  ghost predicate Alike(s: Session, t: Session) {
    s.user == t.user && s.expiresAt == t.expiresAt && (s.revokedAt.Some? <==> t.revokedAt.Some?)
    && (s.revokedAt.Some? <==> s.revokeReason.Some?)
  }

  ghost predicate HasChain(rows: Table, family: Family) { exists chain :: IsChain(rows, family, chain) }

  ghost predicate Chained(rows: Table) { forall id :: id in rows ==> HasChain(rows, rows[id].family) }

  ghost function ChainOf(rows: Table, id: Id): (chain: seq<Id>)
    requires Chained(rows) && id in rows
    ensures IsChain(rows, rows[id].family, chain)
  {
    var chain :| IsChain(rows, rows[id].family, chain);
    chain
  }

  lemma OtherFamily(rows: Table, now: Table, family: Family, chain: seq<Id>)
    requires IsChain(rows, family, chain)
    requires forall id :: id in rows && rows[id].family == family ==> id in now && now[id] == rows[id]
    requires forall id :: id in now && now[id].family == family ==> id in rows && rows[id].family == family
    ensures IsChain(now, family, chain)
  {
    forall i | 0 <= i < |chain|
      ensures Linked(now, chain, i)
    {
      assert Linked(rows, chain, i) && chain[i] in chain && chain[0] in chain;
    }
  }

  lemma LoginKeeps(rows: Table, id: Id, user: nat, family: Family, now: int)
    requires Chained(rows) && id !in rows && FreshFamily(rows, family)
    ensures Chained(Issued(rows, id, user, family, now))
  {
    var next := Issued(rows, id, user, family, now);
    forall x | x in next
      ensures HasChain(next, next[x].family)
    {
      if x == id {
        assert Linked(next, [id], 0);
        assert IsChain(next, family, [id]);
      } else {
        OtherFamily(rows, next, rows[x].family, ChainOf(rows, x));
      }
    }
  }

  lemma RevokedChain(rows: Table, family: Family, now: int, reason: Reason, f: Family, chain: seq<Id>)
    requires IsChain(rows, f, chain)
    ensures IsChain(FamilyRevoked(rows, family, now, reason), f, chain)
  {
    var next := FamilyRevoked(rows, family, now, reason);
    forall i | 0 <= i < |chain|
      ensures Linked(next, chain, i)
    {
      assert Linked(rows, chain, i) && chain[i] in chain && chain[0] in chain;
    }
  }

  lemma RevokeKeeps(rows: Table, family: Family, now: int, reason: Reason)
    requires Chained(rows)
    ensures Chained(FamilyRevoked(rows, family, now, reason))
  {
    var next := FamilyRevoked(rows, family, now, reason);
    forall id | id in next
      ensures HasChain(next, next[id].family)
    {
      RevokedChain(rows, family, now, reason, rows[id].family, ChainOf(rows, id));
    }
  }

  /** The unrotated session of a chain is its last. */
  lemma UnrotatedIsLast(rows: Table, family: Family, chain: seq<Id>, id: Id)
    requires IsChain(rows, family, chain) && id in rows && rows[id].family == family && rows[id].rotatedAt.None?
    ensures chain[|chain| - 1] == id
  {
    var i :| 0 <= i < |chain| && chain[i] == id;
    assert Linked(rows, chain, i);
  }

  lemma RotatedChain(rows: Table, id: Id, replacement: Id, now: int, chain: seq<Id>)
    requires id in rows && !Spent(rows[id]) && replacement !in rows && IsChain(rows, rows[id].family, chain)
    ensures IsChain(Rotated(rows, id, replacement, now), rows[id].family, chain + [replacement])
  {
    var next, more := Rotated(rows, id, replacement, now), chain + [replacement];
    UnrotatedIsLast(rows, rows[id].family, chain, id);
    var n := |chain| - 1;
    assert Linked(rows, chain, n);
    forall i | 0 <= i < |more|
      ensures Linked(next, more, i)
    {
      if i <= n {
        assert Linked(rows, chain, i) && chain[i] in chain;
      }
    }
    assert forall i :: 0 <= i < |chain| ==> chain[i] in chain && chain[i] != replacement;
    assert forall x :: x in more <==> x in chain || x == replacement;
  }

  lemma RotateKeeps(rows: Table, id: Id, replacement: Id, now: int)
    requires Chained(rows) && id in rows && !Spent(rows[id]) && replacement !in rows
    ensures Chained(Rotated(rows, id, replacement, now))
  {
    var next := Rotated(rows, id, replacement, now);
    forall x | x in next
      ensures HasChain(next, next[x].family)
    {
      if next[x].family == rows[id].family {
        var chain := ChainOf(rows, id);
        RotatedChain(rows, id, replacement, now, chain);
      } else {
        OtherFamily(rows, next, rows[x].family, ChainOf(rows, x));
      }
    }
  }

  lemma RefreshKeeps(rows: Table, id: Id, replacement: Id, now: int, active: bool)
    requires Chained(rows) && replacement !in rows
    ensures Chained(Refreshed(rows, id, replacement, now, active))
  {
    if id in rows {
      if Spent(rows[id]) {
        RevokeKeeps(rows, rows[id].family, now, Reuse);
      } else if now < rows[id].expiresAt && active {
        RotateKeeps(rows, id, replacement, now);
      }
    }
  }

  lemma ApplyKeeps(rows: Table, step: Step)
    requires Chained(rows)
    ensures Chained(Apply(rows, step))
  {
    match step {
      case Login(user, id, family, now) =>
        if id !in rows && FreshFamily(rows, family) {
          LoginKeeps(rows, id, user, family, now);
        }
      case Refresh(token, replacement, now, active) =>
        if replacement !in rows {
          RefreshKeeps(rows, token, replacement, now, active);
        }
      case Logout(token, now) =>
        if token in rows {
          RevokeKeeps(rows, rows[token].family, now, LoggedOut);
        }
    }
  }

  /** In every reachable state each family is one chain with a single unrotated end. */
  lemma {:induction false} AlwaysChained(steps: seq<Step>)
    ensures Chained(After(steps))
  {
    if steps != [] {
      AlwaysChained(steps[..|steps| - 1]);
      ApplyKeeps(After(steps[..|steps| - 1]), steps[|steps| - 1]);
    }
  }

  /** At any moment a family has at most one token that would be accepted. */
  lemma OneUsablePerFamily(steps: seq<Step>, a: Id, b: Id, now: int)
    requires var rows := After(steps); Usable(rows, a, now) && Usable(rows, b, now) && rows[a].family == rows[b].family
    ensures a == b
  {
    var rows := After(steps);
    AlwaysChained(steps);
    var chain := ChainOf(rows, a);
    UnrotatedIsLast(rows, rows[a].family, chain, a);
    UnrotatedIsLast(rows, rows[a].family, chain, b);
  }

  // ---- What stays ----

  /** A session is never removed, its owner, family and expiry never change, and it is never
      un-rotated, re-linked or un-revoked. */
  ghost predicate Kept(s: Session, t: Session) {
    && t.user == s.user && t.family == s.family && t.expiresAt == s.expiresAt
    && (s.rotatedAt.Some? ==> t.rotatedAt == s.rotatedAt && t.replacedBy == s.replacedBy)
    && (s.revokedAt.Some? ==> t.revokedAt == s.revokedAt && t.revokeReason == s.revokeReason)
  }

  ghost predicate Grows(rows: Table, next: Table) { forall id :: id in rows ==> id in next && Kept(rows[id], next[id]) }

  lemma {:induction false} RunGrows(steps: seq<Step>, k: nat)
    requires k <= |steps|
    ensures Grows(After(steps[..k]), After(steps))
  {
    if k == |steps| {
      assert steps[..k] == steps;
    } else {
      var n := |steps| - 1;
      assert steps[..n][..k] == steps[..k];
      RunGrows(steps[..n], k);
      var rows, next := After(steps[..n]), After(steps);
      assert Grows(rows, next);
      forall id | id in After(steps[..k])
        ensures id in next && Kept(After(steps[..k])[id], next[id])
      {
        assert Kept(After(steps[..k])[id], rows[id]) && Kept(rows[id], next[id]);
      }
    }
  }

  lemma StepAt(steps: seq<Step>, k: nat)
    requires k < |steps|
    ensures After(steps[..k + 1]) == Apply(After(steps[..k]), steps[k])
  {
    assert steps[..k + 1][..k] == steps[..k];
  }

  /** A token is exchanged at most once, whatever happens in between. */
  lemma ExchangedOnce(steps: seq<Step>, i: nat, j: nat)
    requires i < j < |steps| && steps[i].Refresh? && steps[j].Refresh? && steps[i].token == steps[j].token
    requires Yields(After(steps[..i]), steps[i])
    ensures !Yields(After(steps[..j]), steps[j])
  {
    StepAt(steps, i);
    assert steps[..j][..i + 1] == steps[..i + 1];
    RunGrows(steps[..j], i + 1);
    assert Kept(After(steps[..i + 1])[steps[i].token], After(steps[..j])[steps[i].token]);
  }

  ghost predicate Dead(rows: Table, family: Family) {
    forall id :: id in rows && rows[id].family == family ==> rows[id].revokedAt.Some?
  }

  ghost predicate Known(rows: Table, family: Family) { exists id :: id in rows && rows[id].family == family }

  lemma DeadStaysStep(rows: Table, step: Step, family: Family)
    requires Known(rows, family) && Dead(rows, family)
    ensures Known(Apply(rows, step), family) && Dead(Apply(rows, step), family)
  {
    var id :| id in rows && rows[id].family == family;
    assert id in Apply(rows, step) && Apply(rows, step)[id].family == family;
    match step {
      case Refresh(token, replacement, now, active) =>
        assert token in rows && rows[token].family == family ==> Spent(rows[token]);
      case _ =>
    }
  }

  lemma {:induction false} DeadStays(steps: seq<Step>, k: nat, family: Family)
    requires k <= |steps| && Known(After(steps[..k]), family) && Dead(After(steps[..k]), family)
    ensures Known(After(steps), family) && Dead(After(steps), family)
  {
    if k == |steps| {
      assert steps[..k] == steps;
    } else {
      var n := |steps| - 1;
      assert steps[..n][..k] == steps[..k];
      DeadStays(steps[..n], k, family);
      DeadStaysStep(After(steps[..n]), steps[n], family);
    }
  }

  /** A step that presents a token already rotated or revoked, or that logs out. */
  predicate Kills(rows: Table, step: Step) {
    match step
    case Refresh(token, replacement, _, _) => token in rows && replacement !in rows && Spent(rows[token])
    case Logout(token, _) => token in rows
    case Login(_, _, _, _) => false
  }

  /** From then on the whole family is revoked, and no token of it is ever exchanged again. */
  lemma KilledForGood(steps: seq<Step>, k: nat, j: nat)
    requires k < j <= |steps| && Kills(After(steps[..k]), steps[k])
    ensures var family := After(steps[..k])[steps[k].token].family;
            && Dead(After(steps[..j]), family)
            && (j < |steps| && Yields(After(steps[..j]), steps[j]) ==>
                 After(steps[..j])[steps[j].token].family != family)
  {
    var rows, token := After(steps[..k]), steps[k].token;
    StepAt(steps, k);
    var next := After(steps[..k + 1]);
    assert token in next && next[token].family == rows[token].family;
    assert Dead(next, rows[token].family);
    assert steps[..j][..k + 1] == steps[..k + 1];
    DeadStays(steps[..j], k + 1, rows[token].family);
  }

  /** The same token presented twice - by its owner and by a thief, in either order - ends the family. */
  lemma SecondUseEndsTheFamily(steps: seq<Step>, i: nat, j: nat, k: nat)
    requires i < j < k <= |steps| && steps[i].Refresh? && steps[j].Refresh? && steps[i].token == steps[j].token
    requires Yields(After(steps[..i]), steps[i]) && steps[j].replacement !in After(steps[..j])
    ensures steps[j].token in After(steps[..j]) && Dead(After(steps[..k]), After(steps[..j])[steps[j].token].family)
  {
    StepAt(steps, i);
    assert steps[..j][..i + 1] == steps[..i + 1];
    RunGrows(steps[..j], i + 1);
    assert Kept(After(steps[..i + 1])[steps[i].token], After(steps[..j])[steps[i].token]);
    KilledForGood(steps, j, k);
  }

  /** Rotation never prolongs a family: an exchange happens before the expiry set at login. */
  lemma NoExchangeAfterExpiry(steps: seq<Step>, k: nat, j: nat)
    requires k < j < |steps| && steps[k].Login? && steps[k].id !in After(steps[..k])
             && FreshFamily(After(steps[..k]), steps[k].family)
    requires Yields(After(steps[..j]), steps[j]) && After(steps[..j])[steps[j].token].family == steps[k].family
    ensures steps[j].now < steps[k].now + LIFETIME
  {
    StepAt(steps, k);
    assert steps[..j][..k + 1] == steps[..k + 1];
    RunGrows(steps[..j], k + 1);
    AlwaysChained(steps[..j]);
    var rows, login := After(steps[..j]), steps[k].id;
    assert Kept(After(steps[..k + 1])[login], rows[login]);
    OneExpiry(rows, login, steps[j].token);
  }

  lemma OneExpiry(rows: Table, a: Id, b: Id)
    requires Chained(rows) && a in rows && b in rows && rows[a].family == rows[b].family
    ensures rows[a].expiresAt == rows[b].expiresAt && rows[a].user == rows[b].user
  {
    var chain := ChainOf(rows, a);
    var i :| 0 <= i < |chain| && chain[i] == a;
    var j :| 0 <= j < |chain| && chain[j] == b;
    assert Linked(rows, chain, i) && Linked(rows, chain, j);
  }
}
