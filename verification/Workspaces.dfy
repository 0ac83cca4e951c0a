/** Ownership of a workspace (app/domain/workspace/service.py): members, invitations and the transfer of
    ownership. Every operation is one transaction under the workspace's lock; a failed one leaves
    nothing. Users are named by their id, which also stands for their GitHub id. */
module Workspaces {
  import opened Options

  type User = nat
  type InvitationId = nat

  datatype Role = OWNER | ADMIN | MEMBER

  datatype MemberStatus = Active | Left | Removed

  datatype Member = Member(role: Role, status: MemberStatus)

  /** What an invitation can grant. */
  datatype Grant = ToAdmin | ToMember

  datatype InvitationStatus = Pending | Accepted(user: User) | Revoked | Expired

  datatype Invitation = Invitation(target: User, invitedBy: User, grant: Grant, status: InvitationStatus,
                                   expiresAt: int)

  datatype Team = Team(active: bool, members: map<User, Member>, invitations: map<InvitationId, Invitation>)

  datatype Failure = Missing | Denied | Conflict | InactiveUser

  datatype Outcome = Done(team: Team) | Failed(failure: Failure)

  datatype Permission = Read | Manage | Own

  const INVITATION_LIFETIME := 24 * 3600

  // ---- Specification ----

  predicate Allowed(role: Role, p: Permission) {
    match p
    case Read => true
    case Manage => role.OWNER? || role.ADMIN?
    case Own => role.OWNER?
  }

  function RoleOf(g: Grant): Role { if g.ToAdmin? then ADMIN else MEMBER }

  function Needed(g: Grant): Permission { if g.ToAdmin? then Own else Manage }

  predicate IsActive(t: Team, u: User) { u in t.members && t.members[u].status.Active? }

  /** `enabled`: the user may sign in. None is success. */
  function Required(t: Team, u: User, enabled: bool, p: Permission): Option<Failure> {
    if !enabled then Some(InactiveUser)
    else if !t.active || !IsActive(t, u) then Some(Missing)
    else if !Allowed(t.members[u].role, p) then Some(Denied)
    else None
  }

  function Created(u: User): Team { Team(true, map[u := Member(OWNER, Active)], map[]) }

  predicate IsPending(t: Team, i: InvitationId) { i in t.invitations && t.invitations[i].status.Pending? }

  function Swept(t: Team, now: int): Team {
    t.(invitations := map i | i in t.invitations ::
         if t.invitations[i].status.Pending? && t.invitations[i].expiresAt <= now
         then t.invitations[i].(status := Expired)
         else t.invitations[i])
  }

  predicate Invited(t: Team, target: User) {
    exists i :: i in t.invitations && t.invitations[i].status.Pending? && t.invitations[i].target == target
  }

  function Invite(t: Team, u: User, enabled: bool, id: InvitationId, target: User, grant: Grant, now: int): Outcome {
    var refused := Required(t, u, enabled, Needed(grant));
    if refused.Some? then Failed(refused.value)
    else
      var s := Swept(t, now);
      if Invited(s, target) then Failed(Conflict)
      else
        var invitation := Invitation(target, u, grant, Pending, now + INVITATION_LIFETIME);
        Done(s.(invitations := s.invitations[id := invitation]))
  }

  function ListInvitations(t: Team, u: User, enabled: bool, now: int): Outcome {
    var refused := Required(t, u, enabled, Manage);
    if refused.Some? then Failed(refused.value) else Done(Swept(t, now))
  }

  function Revoke(t: Team, u: User, enabled: bool, id: InvitationId): Outcome {
    var refused := Required(t, u, enabled, Manage);
    if refused.Some? then Failed(refused.value)
    else if id !in t.invitations then Failed(Missing)
    else if t.invitations[id].grant.ToAdmin? && !t.members[u].role.OWNER? then Failed(Denied)
    else if !t.invitations[id].status.Pending? then Failed(Conflict)
    else Done(t.(invitations := t.invitations[id := t.invitations[id].(status := Revoked)]))
  }

  function Accept(t: Team, u: User, enabled: bool, id: InvitationId, now: int): Outcome {
    if !enabled then Failed(InactiveUser)
    else if id !in t.invitations || !t.active then Failed(Missing)
    else
      var i := t.invitations[id];
      if i.target != u then Failed(Denied)
      else if !i.status.Pending? || i.expiresAt <= now then Failed(Conflict)
      else if !IsActive(t, i.invitedBy) || !Allowed(t.members[i.invitedBy].role, Needed(i.grant)) then Failed(Conflict)
      else if IsActive(t, u) then Failed(Conflict)
      else Done(t.(members := t.members[u := Member(RoleOf(i.grant), Active)],
                   invitations := t.invitations[id := i.(status := Accepted(u))]))
  }

  function ChangeRole(t: Team, u: User, enabled: bool, target: User, targetEnabled: bool, grant: Grant): Outcome {
    var refused := Required(t, u, enabled, Own);
    if refused.Some? then Failed(refused.value)
    else if !IsActive(t, target) then Failed(Missing)
    else if t.members[target].role.OWNER? then Failed(Conflict)
    else if !targetEnabled then Failed(InactiveUser)
    else Done(t.(members := t.members[target := t.members[target].(role := RoleOf(grant))]))
  }

  function Remove(t: Team, u: User, enabled: bool, target: User): Outcome {
    var refused := Required(t, u, enabled, if u == target then Read else Manage);
    if refused.Some? then Failed(refused.value)
    else if !IsActive(t, target) then Failed(Missing)
    else if t.members[target].role.OWNER? then Failed(Conflict)
    else if u != target && t.members[target].role.ADMIN? && !t.members[u].role.OWNER? then Failed(Denied)
    else Done(t.(members := t.members[target := t.members[target].(status := if u == target then Left else Removed)]))
  }

  /** What is flushed halfway through a transfer. */
  function Demoted(t: Team, u: User): Team
    requires u in t.members
  {
    t.(members := t.members[u := t.members[u].(role := ADMIN)])
  }

  function Transfer(t: Team, u: User, enabled: bool, target: User, targetEnabled: bool): Outcome {
    var refused := Required(t, u, enabled, Own);
    if refused.Some? then Failed(refused.value)
    else if !IsActive(t, target) then Failed(Missing)
    else if u == target then Failed(Conflict)
    else if !targetEnabled then Failed(InactiveUser)
    else
      var d := Demoted(t, u);
      Done(d.(members := d.members[target := d.members[target].(role := OWNER)]))
  }

  // ---- The code ----

  /** What an outcome means: the state left and the failure raised. */
  predicate Commits(before: Team, o: Outcome, after: Team, r: Option<Failure>) {
    match o
    case Done(t) => r == None && after == t
    case Failed(f) => r == Some(f) && after == before
  }

  class Workspace {
    var active: bool
    var members: map<User, Member>
    var invitations: map<InvitationId, Invitation>

    function View(): Team
      reads this
    {
      Team(active, members, invitations)
    }

    constructor (u: User)
      ensures View() == Created(u)
    {
      active, members, invitations := true, map[u := Member(OWNER, Active)], map[];
    }

    method Expire(now: int)
      modifies this`invitations
      ensures View() == Swept(old(View()), now)
    {
      var todo, was := invitations.Keys, invitations;
      while todo != {}
        invariant todo <= was.Keys == invitations.Keys
        invariant forall i :: i in was ==>
                    invitations[i] == if i in todo then was[i] else Swept(old(View()), now).invitations[i]
        decreases |todo|
      {
        var i :| i in todo;
        if invitations[i].status.Pending? && invitations[i].expiresAt <= now {
          invitations := invitations[i := invitations[i].(status := Expired)];
        }
        todo := todo - {i};
      }
    }

    method CreateInvitation(u: User, enabled: bool, id: InvitationId, target: User, grant: Grant, now: int)
      returns (r: Option<Failure>)
      modifies this
      ensures Commits(old(View()), Invite(old(View()), u, enabled, id, target, grant, now), View(), r)
    {
      r := Required(View(), u, enabled, Needed(grant));
      if r.Some? {
        return;
      }
      var before := invitations;
      Expire(now);
      if exists i :: i in invitations && invitations[i].status.Pending? && invitations[i].target == target {
        invitations := before;
        return Some(Conflict);
      }
      invitations := invitations[id := Invitation(target, u, grant, Pending, now + INVITATION_LIFETIME)];
    }

    method RevokeInvitation(u: User, enabled: bool, id: InvitationId) returns (r: Option<Failure>)
      modifies this
      ensures Commits(old(View()), Revoke(old(View()), u, enabled, id), View(), r)
    {
      r := Required(View(), u, enabled, Manage);
      if r.Some? {
        return;
      }
      if id !in invitations {
        return Some(Missing);
      }
      var i := invitations[id];
      if i.grant.ToAdmin? && members[u].role != OWNER {
        return Some(Denied);
      }
      if !i.status.Pending? {
        return Some(Conflict);
      }
      invitations := invitations[id := i.(status := Revoked)];
    }

    method AcceptInvitation(u: User, enabled: bool, id: InvitationId, now: int) returns (r: Option<Failure>)
      modifies this
      ensures Commits(old(View()), Accept(old(View()), u, enabled, id, now), View(), r)
    {
      if !enabled {
        return Some(InactiveUser);
      }
      if id !in invitations || !active {
        return Some(Missing);
      }
      var found := invitations[id];
      if found.target != u {
        return Some(Denied);
      }
      if !found.status.Pending? || found.expiresAt <= now {
        return Some(Conflict);
      }
      var inviter := found.invitedBy;
      if inviter !in members || members[inviter].status != Active
        || !Allowed(members[inviter].role, Needed(found.grant)) {
        return Some(Conflict);
      }
      if u in members && members[u].status == Active {
        return Some(Conflict);
      }
      members := members[u := Member(RoleOf(found.grant), Active)];
      invitations := invitations[id := found.(status := Accepted(u))];
      r := None;
    }

    method SetRole(u: User, enabled: bool, target: User, targetEnabled: bool, grant: Grant) returns (r: Option<Failure>)
      modifies this
      ensures Commits(old(View()), ChangeRole(old(View()), u, enabled, target, targetEnabled, grant), View(), r)
    {
      r := Required(View(), u, enabled, Own);
      if r.Some? {
        return;
      }
      if target !in members || members[target].status != Active {
        return Some(Missing);
      }
      if members[target].role == OWNER {
        return Some(Conflict);
      }
      if !targetEnabled {
        return Some(InactiveUser);
      }
      members := members[target := members[target].(role := RoleOf(grant))];
    }

    method RemoveMember(u: User, enabled: bool, target: User) returns (r: Option<Failure>)
      modifies this
      ensures Commits(old(View()), Remove(old(View()), u, enabled, target), View(), r)
    {
      r := Required(View(), u, enabled, if u == target then Read else Manage);
      if r.Some? {
        return;
      }
      if target !in members || members[target].status != Active {
        return Some(Missing);
      }
      if members[target].role == OWNER {
        return Some(Conflict);
      }
      if u != target && members[target].role == ADMIN && members[u].role != OWNER {
        return Some(Denied);
      }
      members := members[target := members[target].(status := if u == target then Left else Removed)];
    }

    method TransferOwnership(u: User, enabled: bool, target: User, targetEnabled: bool) returns (r: Option<Failure>)
      modifies this
      ensures Commits(old(View()), Transfer(old(View()), u, enabled, target, targetEnabled), View(), r)
    {
      r := Required(View(), u, enabled, Own);
      if r.Some? {
        return;
      }
      if target !in members || members[target].status != Active {
        return Some(Missing);
      }
      if u == target {
        return Some(Conflict);
      }
      if !targetEnabled {
        return Some(InactiveUser);
      }
      members := members[u := members[u].(role := ADMIN)];
      assert View() == Demoted(old(View()), u);
      members := members[target := members[target].(role := OWNER)];
    }
  }

  // ---- Runs ----

  datatype Step = DoInvite(u: User, enabled: bool, id: InvitationId, target: User, grant: Grant, now: int)
                | DoList(u: User, enabled: bool, now: int)
                | DoRevoke(u: User, enabled: bool, id: InvitationId)
                | DoAccept(u: User, enabled: bool, id: InvitationId, now: int)
                | DoChangeRole(u: User, enabled: bool, target: User, targetEnabled: bool, grant: Grant)
                | DoRemove(u: User, enabled: bool, target: User)
                | DoTransfer(u: User, enabled: bool, target: User, targetEnabled: bool)

  function OutcomeOf(t: Team, s: Step): Outcome {
    match s
    case DoInvite(u, enabled, id, target, grant, now) =>
      if id in t.invitations then Failed(Conflict) else Invite(t, u, enabled, id, target, grant, now)
    case DoList(u, enabled, now) => ListInvitations(t, u, enabled, now)
    case DoRevoke(u, enabled, id) => Revoke(t, u, enabled, id)
    case DoAccept(u, enabled, id, now) => Accept(t, u, enabled, id, now)
    case DoChangeRole(u, enabled, target, targetEnabled, grant) =>
      ChangeRole(t, u, enabled, target, targetEnabled, grant)
    case DoRemove(u, enabled, target) => Remove(t, u, enabled, target)
    case DoTransfer(u, enabled, target, targetEnabled) => Transfer(t, u, enabled, target, targetEnabled)
  }

  function Apply(t: Team, s: Step): Team {
    match OutcomeOf(t, s)
    case Done(next) => next
    case Failed(_) => t
  }

  function After(creator: User, steps: seq<Step>): Team {
    if steps == [] then Created(creator) else Apply(After(creator, steps[..|steps| - 1]), steps[|steps| - 1])
  }

  predicate IsOwner(t: Team, u: User) { IsActive(t, u) && t.members[u].role.OWNER? }

  ghost predicate SoleOwner(t: Team, u: User) { IsOwner(t, u) && forall v :: IsOwner(t, v) ==> v == u }

  ghost predicate OnePending(t: Team) {
    forall i, j :: IsPending(t, i) && IsPending(t, j) && t.invitations[i].target == t.invitations[j].target ==> i == j
  }

  ghost predicate Inv(t: Team) { t.active && (exists u :: SoleOwner(t, u)) && OnePending(t) }

  /** Who is owner after a step that found `u` owner. */
  function NextOwner(t: Team, s: Step, u: User): User { if s.DoTransfer? && OutcomeOf(t, s).Done? then s.target else u }

  lemma OwnerMovesOnlyByTransfer(t: Team, s: Step, u: User)
    requires SoleOwner(t, u)
    ensures SoleOwner(Apply(t, s), NextOwner(t, s, u))
  {
    var next, w := Apply(t, s), NextOwner(t, s, u);
    if s.DoTransfer? && OutcomeOf(t, s).Done? {
      NeverTwoOwners(t, s, u);
      assert forall v :: v != w && IsOwner(next, v) ==> IsOwner(Demoted(t, s.u), v);
    } else {
      assert forall v :: IsOwner(next, v) ==> IsOwner(t, v);
    }
    assert IsOwner(next, w);
  }

  lemma PendingStaysSingle(t: Team, s: Step)
    requires OnePending(t)
    ensures OnePending(Apply(t, s))
  {
    var next := Apply(t, s);
    forall i, j | IsPending(next, i) && IsPending(next, j) && next.invitations[i].target == next.invitations[j].target
      ensures i == j
    {
      if s.DoInvite? && OutcomeOf(t, s).Done? {
        var swept := Swept(t, s.now);
        assert forall x :: IsPending(swept, x) ==> IsPending(t, x) && swept.invitations[x].target != s.target;
        assert i != s.id ==> IsPending(swept, i);
        assert j != s.id ==> IsPending(swept, j);
      } else {
        assert IsPending(t, i) && IsPending(t, j);
      }
    }
  }

  /** After every commit an active workspace has exactly one active owner, and each target at most one
      pending invitation. */
  lemma {:induction false} AlwaysOneOwner(creator: User, steps: seq<Step>)
    ensures Inv(After(creator, steps))
  {
    if steps == [] {
      assert SoleOwner(Created(creator), creator);
    } else {
      var t, s := After(creator, steps[..|steps| - 1]), steps[|steps| - 1];
      AlwaysOneOwner(creator, steps[..|steps| - 1]);
      var u :| SoleOwner(t, u);
      OwnerMovesOnlyByTransfer(t, s, u);
      PendingStaysSingle(t, s);
    }
  }

  /** Not even the state flushed halfway through a transfer has two owners: it has none. */
  lemma NeverTwoOwners(t: Team, s: Step, u: User)
    requires SoleOwner(t, u) && s.DoTransfer? && OutcomeOf(t, s).Done?
    ensures s.u == u && forall v :: !IsOwner(Demoted(t, s.u), v)
  {
    assert IsOwner(t, s.u);
    forall v
      ensures !IsOwner(Demoted(t, s.u), v)
    {
      assert v != s.u && IsOwner(Demoted(t, s.u), v) ==> IsOwner(t, v);
    }
  }

  predicate IsAdmin(t: Team, u: User) { IsActive(t, u) && t.members[u].role.ADMIN? }

  /** On whose authority a step acts: an invitation acts for the one who sent it. */
  function Authority(t: Team, s: Step): User {
    if s.DoAccept? && s.id in t.invitations then t.invitations[s.id].invitedBy else s.u
  }

  /** Whoever becomes an administrator does so on the authority of the owner of that moment, and not
      of someone who was owner when the invitation was sent. */
  lemma AdminsComeFromTheOwner(t: Team, s: Step, u: User, admin: User)
    requires SoleOwner(t, u) && IsAdmin(Apply(t, s), admin) && !IsAdmin(t, admin)
    ensures Authority(t, s) == u
  {
    assert IsOwner(t, Authority(t, s));
  }

  /** An invitation that was accepted, revoked or expired stays so. */
  lemma {:induction false} ClosedInvitationsStay(creator: User, steps: seq<Step>, k: nat, i: InvitationId)
    requires k <= |steps| && i in After(creator, steps[..k]).invitations && !IsPending(After(creator, steps[..k]), i)
    ensures i in After(creator, steps).invitations
    ensures After(creator, steps).invitations[i] == After(creator, steps[..k]).invitations[i]
  {
    if k == |steps| {
      assert steps[..k] == steps;
    } else {
      var n := |steps| - 1;
      assert steps[..n][..k] == steps[..k];
      ClosedInvitationsStay(creator, steps[..n], k, i);
    }
  }

  /** So an invitation is accepted at most once, by the user it was sent to. */
  lemma AcceptedOnce(creator: User, steps: seq<Step>, j: nat, k: nat)
    requires j < k < |steps| && steps[j].DoAccept? && steps[k].DoAccept? && steps[j].id == steps[k].id
    requires OutcomeOf(After(creator, steps[..j]), steps[j]).Done?
    ensures OutcomeOf(After(creator, steps[..k]), steps[k]).Failed?
    ensures steps[k].id in After(creator, steps[..k]).invitations
    ensures After(creator, steps[..k]).invitations[steps[k].id].status == Accepted(steps[j].u)
  {
    assert steps[..j + 1][..j] == steps[..j] && steps[..k][..j + 1] == steps[..j + 1];
    ClosedInvitationsStay(creator, steps[..k], j + 1, steps[j].id);
  }
}
