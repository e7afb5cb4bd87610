/** The team procedures (`teamRouter`): teams with one admin, memberships, and single-use
    invites that expire 24 hours after they are issued. A failing database call is chosen by
    the `Fault` parameter; the clock and the random token bytes are parameters. */
module TeamRouter {
  import opened Common
  import opened Encoding
  import opened Trpc
  import opened Store

  const InviteExpiryHours: nat := 24
  const MillisPerHour: nat := 3_600_000
  const InviteTokenBytes: nat := 32

  /** Whether the database fails: on the procedure's first read, on its write, or not at all. */
  datatype Fault = Healthy | ReadFails | WriteFails

  /** What `generateInviteLink` returns. */
  datatype InviteLink = InviteLink(link: string, expiresAt: int)

  /** The error a catch block makes of a failure that is not a `TRPCError`. */
  function Internal(message: string): TrpcError {
    TrpcError(InternalServerError, message)
  }

  /** A lower-case hexadecimal digit. */
  predicate IsHexDigit(c: char) {
    ('0' <= c <= '9') || ('a' <= c <= 'f')
  }

  function HexDigit(n: int): (c: char)
    requires 0 <= n < 16
    ensures IsHexDigit(c)
  {
    if n < 10 then ('0' as int + n) as char else ('a' as int + n - 10) as char
  }

  /** `toString("hex")`: two lower-case hexadecimal digits per byte, high nibble first. */
  function Hex(bs: seq<Byte>): (s: string)
    ensures |s| == 2 * |bs|
    ensures forall i :: 0 <= i < |s| ==> IsHexDigit(s[i])
  {
    if bs == [] then [] else [HexDigit(bs[0] / 16), HexDigit(bs[0] % 16)] + Hex(bs[1..])
  }

  /** Different byte strings give different tokens. */
  lemma {:induction false} HexInjective(a: seq<Byte>, b: seq<Byte>)
    requires Hex(a) == Hex(b)
    ensures a == b
  {
    if a != [] {
      var ha, hb := Hex(a), Hex(b);
      assert ha[0] == hb[0] && ha[1] == hb[1];
      assert a[0] / 16 == b[0] / 16 && a[0] % 16 == b[0] % 16;
      assert ha[2..] == Hex(a[1..]) && hb[2..] == Hex(b[1..]);
      HexInjective(a[1..], b[1..]);
    }
  }

  /** The token of an invite: 32 random bytes in hexadecimal, 64 characters. */
  lemma InviteTokenShape(bytes: seq<Byte>)
    requires |bytes| == InviteTokenBytes
    ensures |Hex(bytes)| == 64
    ensures forall i :: 0 <= i < 64 ==> IsHexDigit(Hex(bytes)[i])
  {
  }

  /** The path an invite is redeemed at. */
  function InviteLinkFor(token: string): (link: string)
    ensures StartsWith(link, "/join-team?token=") && link[17..] == token
  {
    "/join-team?token=" + token
  }

  /** `getMyTeams`: the teams the user administers or belongs to. */
  function GetMyTeams(db: Db, user: UserId, fault: Fault): (r: Result<set<TeamId>>)
    reads db
    ensures fault == ReadFails ==> r == Err(Internal("Failed to fetch teams"))
    ensures fault != ReadFails ==> r.Ok?
    ensures fault != ReadFails ==>
      forall t :: t in r.value <==> t in db.teams && (db.teams[t].adminId == user || (t, user) in db.members)
  {
    if fault == ReadFails then Err(Internal("Failed to fetch teams"))
    else Ok(set t | t in db.teams && (db.teams[t].adminId == user || (t, user) in db.members))
  }

  /** Since an admin is always a member, the teams of a user are exactly those of its memberships. */
  lemma MyTeamsAreMemberships(db: Db, user: UserId)
    requires db.TeamsValid()
    ensures forall t :: t in GetMyTeams(db, user, Healthy).value <==> (t, user) in db.members
  {
    forall t ensures t in GetMyTeams(db, user, Healthy).value <==> (t, user) in db.members {
      if (t, user) in db.members {
        assert (t, user).0 in db.teams;
      }
    }
  }

  /** `create`: a new team administered by the caller, who is its only member. */
  method Create(db: Db, user: UserId, name: string, newId: TeamId, fault: Fault) returns (r: Result<TeamId>)
    requires db.TeamsValid() && newId !in db.teams
    modifies db
    ensures db.TeamsValid()
    ensures name == "" ==> r == Err(Rejected("name", Some("Team name is required")))
    ensures name != "" && fault != Healthy ==> r == Err(Internal("Failed to create team"))
    ensures r.Err? ==> unchanged(db)
    ensures r.Ok? <==> name != "" && fault == Healthy
    ensures r.Ok? ==> && r.value == newId
                      && db.teams == old(db.teams)[newId := Team(name, user)]
                      && db.members == old(db.members) + {(newId, user)}
                      && db.invites == old(db.invites)
    ensures r.Ok? ==> forall u :: (newId, u) in db.members <==> u == user
    ensures db.imports == old(db.imports) && db.orders == old(db.orders) && db.credentials == old(db.credentials)
  {
    if name == "" {
      return Err(Rejected("name", Some("Team name is required")));
    }
    if fault != Healthy {
      return Err(Internal("Failed to create team"));
    }
    db.teams := db.teams[newId := Team(name, user)];
    db.members := db.members + {(newId, user)};
    r := Ok(newId);
  }

  /** `generateInviteLink`: only the team's admin gets an invite; it stores a new unused invite
      expiring 24 hours from now. A token already in use fails the unique write. */
  method GenerateInviteLink(db: Db, user: UserId, teamId: TeamId, randomBytes: seq<Byte>, now: int, fault: Fault)
    returns (r: Result<InviteLink>)
    requires db.TeamsValid() && |randomBytes| == InviteTokenBytes
    modifies db
    ensures db.TeamsValid()
    ensures r.Err? ==> unchanged(db)
    ensures teamId == "" ==> r == Err(Rejected("teamId", Some("Team ID is required")))
    ensures teamId != "" && fault == ReadFails ==> r == Err(Internal("Failed to generate invite link"))
    ensures teamId != "" && fault != ReadFails && (teamId !in old(db.teams) || old(db.teams)[teamId].adminId != user) ==>
      r == Err(TrpcError(NotFound, "Team not found or you don't have permission"))
    ensures r.Ok? <==> && teamId != "" && fault == Healthy && teamId in old(db.teams)
                       && old(db.teams)[teamId].adminId == user && Hex(randomBytes) !in old(db.invites)
    ensures r.Ok? ==>
      && r.value == InviteLink(InviteLinkFor(Hex(randomBytes)), now + InviteExpiryHours * MillisPerHour)
      && db.invites == old(db.invites)[Hex(randomBytes) := Invite(teamId, now + InviteExpiryHours * MillisPerHour, None)]
      && db.teams == old(db.teams) && db.members == old(db.members)
    ensures db.imports == old(db.imports) && db.orders == old(db.orders) && db.credentials == old(db.credentials)
  {
    if teamId == "" {
      return Err(Rejected("teamId", Some("Team ID is required")));
    }
    if fault == ReadFails {
      return Err(Internal("Failed to generate invite link"));
    }
    if teamId !in db.teams || db.teams[teamId].adminId != user {
      return Err(TrpcError(NotFound, "Team not found or you don't have permission"));
    }
    var token := Hex(randomBytes);
    var expiresAt := now + InviteExpiryHours * MillisPerHour;
    if fault == WriteFails || token in db.invites {
      return Err(Internal("Failed to generate invite link"));
    }
    db.invites := db.invites[token := Invite(teamId, expiresAt, None)];
    r := Ok(InviteLink(InviteLinkFor(token), expiresAt));
  }

  /** `join`: the checks run in order (unknown token, used invite, expired invite, existing
      member); on success the membership and the invite's use are written together, so an
      invite admits one join. */
  method Join(db: Db, user: UserId, token: string, now: int, fault: Fault) returns (r: Result<TeamId>)
    requires db.TeamsValid()
    modifies db
    ensures db.TeamsValid()
    ensures r.Err? ==> unchanged(db)
    ensures token == "" ==> r == Err(Rejected("token", Some("Token is required")))
    ensures token != "" && fault == ReadFails ==> r == Err(Internal("Failed to join team"))
    ensures token != "" && fault != ReadFails && token !in old(db.invites) ==>
      r == Err(TrpcError(NotFound, "Invalid invite link"))
    ensures token != "" && fault != ReadFails && token in old(db.invites) && old(db.invites)[token].usedAt.Some? ==>
      r == Err(TrpcError(BadRequest, "This invite link has already been used"))
    ensures token != "" && fault != ReadFails && token in old(db.invites) && old(db.invites)[token].usedAt.None?
            && old(db.invites)[token].expiresAt < now ==>
      r == Err(TrpcError(BadRequest, "This invite link has expired"))
    ensures token != "" && fault != ReadFails && token in old(db.invites) && old(db.invites)[token].usedAt.None?
            && old(db.invites)[token].expiresAt >= now && (old(db.invites)[token].teamId, user) in old(db.members) ==>
      r == Err(TrpcError(BadRequest, "You are already a member of this team"))
    ensures r.Ok? <==> && token != "" && fault == Healthy && token in old(db.invites)
                       && old(db.invites)[token].usedAt.None? && old(db.invites)[token].expiresAt >= now
                       && (old(db.invites)[token].teamId, user) !in old(db.members)
    ensures r.Ok? ==>
      && r.value == old(db.invites)[token].teamId
      && db.members == old(db.members) + {(r.value, user)}
      && db.invites == old(db.invites)[token := old(db.invites)[token].(usedAt := Some(now))]
      && db.teams == old(db.teams)
    ensures r.Ok? ==> db.invites[token].usedAt.Some?
    ensures db.imports == old(db.imports) && db.orders == old(db.orders) && db.credentials == old(db.credentials)
  {
    if token == "" {
      return Err(Rejected("token", Some("Token is required")));
    }
    if fault == ReadFails {
      return Err(Internal("Failed to join team"));
    }
    if token !in db.invites {
      return Err(TrpcError(NotFound, "Invalid invite link"));
    }
    var invite := db.invites[token];
    if invite.usedAt.Some? {
      return Err(TrpcError(BadRequest, "This invite link has already been used"));
    }
    if invite.expiresAt < now {
      return Err(TrpcError(BadRequest, "This invite link has expired"));
    }
    if (invite.teamId, user) in db.members {
      return Err(TrpcError(BadRequest, "You are already a member of this team"));
    }
    if fault == WriteFails {
      return Err(Internal("Failed to join team"));
    }
    db.members := db.members + {(invite.teamId, user)};
    db.invites := db.invites[token := invite.(usedAt := Some(now))];
    r := Ok(invite.teamId);
  }

  /** `removeMember`: the admin removes another user's membership; removing a user who is not
      a member succeeds and changes nothing. */
  method RemoveMember(db: Db, caller: UserId, teamId: TeamId, userId: UserId, fault: Fault) returns (r: Result<()>)
    requires db.TeamsValid()
    modifies db
    ensures db.TeamsValid()
    ensures r.Err? ==> unchanged(db)
    ensures (teamId == "" || userId == "") ==>
      r == Err(InputRejected(IssueIf(teamId == "", "teamId", None) + IssueIf(userId == "", "userId", None)))
    ensures teamId != "" && userId != "" && fault == ReadFails ==> r == Err(Internal("Failed to remove team member"))
    ensures teamId != "" && userId != "" && fault != ReadFails
            && (teamId !in old(db.teams) || old(db.teams)[teamId].adminId != caller) ==>
      r == Err(TrpcError(NotFound, "Team not found or you don't have permission"))
    ensures teamId != "" && userId != "" && fault != ReadFails && teamId in old(db.teams)
            && old(db.teams)[teamId].adminId == caller && userId == caller ==>
      r == Err(TrpcError(BadRequest, "You cannot remove yourself using this endpoint. Use 'exitTeam' instead"))
    ensures r.Ok? <==> && teamId != "" && userId != "" && fault == Healthy && teamId in old(db.teams)
                       && old(db.teams)[teamId].adminId == caller && userId != caller
    ensures r.Ok? ==> db.members == old(db.members) - {(teamId, userId)}
                      && db.teams == old(db.teams) && db.invites == old(db.invites)
    ensures r.Ok? && (teamId, userId) !in old(db.members) ==> unchanged(db)
    ensures db.imports == old(db.imports) && db.orders == old(db.orders) && db.credentials == old(db.credentials)
  {
    if teamId == "" || userId == "" {
      return Err(InputRejected(IssueIf(teamId == "", "teamId", None) + IssueIf(userId == "", "userId", None)));
    }
    if fault == ReadFails {
      return Err(Internal("Failed to remove team member"));
    }
    if teamId !in db.teams || db.teams[teamId].adminId != caller {
      return Err(TrpcError(NotFound, "Team not found or you don't have permission"));
    }
    if userId == caller {
      return Err(TrpcError(BadRequest, "You cannot remove yourself using this endpoint. Use 'exitTeam' instead"));
    }
    if fault == WriteFails {
      return Err(Internal("Failed to remove team member"));
    }
    if (teamId, userId) !in db.members {
      assert db.members - {(teamId, userId)} == db.members;
    }
    db.members := db.members - {(teamId, userId)};
    r := Ok(());
  }

  /** `exitTeam`: a member other than the admin leaves; only that membership goes. */
  method ExitTeam(db: Db, caller: UserId, teamId: TeamId, fault: Fault) returns (r: Result<()>)
    requires db.TeamsValid()
    modifies db
    ensures db.TeamsValid()
    ensures r.Err? ==> unchanged(db)
    ensures teamId == "" ==> r == Err(Rejected("teamId", Some("Team ID is required")))
    ensures teamId != "" && fault == ReadFails ==> r == Err(Internal("Failed to exit team"))
    ensures teamId != "" && fault != ReadFails && (teamId, caller) !in old(db.members) ==>
      r == Err(TrpcError(NotFound, "Team not found or you're not a member"))
    ensures teamId != "" && fault != ReadFails && (teamId, caller) in old(db.members)
            && old(db.teams)[teamId].adminId == caller ==>
      r == Err(TrpcError(BadRequest, "Team admin cannot exit. Use 'deleteTeam' instead"))
    ensures r.Ok? <==> && teamId != "" && fault == Healthy && (teamId, caller) in old(db.members)
                       && old(db.teams)[teamId].adminId != caller
    ensures r.Ok? ==> db.members == old(db.members) - {(teamId, caller)}
                      && db.teams == old(db.teams) && db.invites == old(db.invites)
    ensures db.imports == old(db.imports) && db.orders == old(db.orders) && db.credentials == old(db.credentials)
  {
    if teamId == "" {
      return Err(Rejected("teamId", Some("Team ID is required")));
    }
    if fault == ReadFails {
      return Err(Internal("Failed to exit team"));
    }
    if (teamId, caller) !in db.members {
      return Err(TrpcError(NotFound, "Team not found or you're not a member"));
    }
    assert (teamId, caller).0 in db.teams;
    if db.teams[teamId].adminId == caller {
      return Err(TrpcError(BadRequest, "Team admin cannot exit. Use 'deleteTeam' instead"));
    }
    if fault == WriteFails {
      return Err(Internal("Failed to exit team"));
    }
    db.members := db.members - {(teamId, caller)};
    r := Ok(());
  }

  /** `deleteTeam`: the admin deletes the team; its memberships and invites go with it. */
  method DeleteTeam(db: Db, caller: UserId, teamId: TeamId, fault: Fault) returns (r: Result<()>)
    requires db.TeamsValid()
    modifies db
    ensures db.TeamsValid()
    ensures r.Err? ==> unchanged(db)
    ensures teamId == "" ==> r == Err(Rejected("teamId", Some("Team ID is required")))
    ensures teamId != "" && fault == ReadFails ==> r == Err(Internal("Failed to delete team"))
    ensures teamId != "" && fault != ReadFails && (teamId !in old(db.teams) || old(db.teams)[teamId].adminId != caller) ==>
      r == Err(TrpcError(NotFound, "Team not found or you're not the admin"))
    ensures r.Ok? <==> && teamId != "" && fault == Healthy && teamId in old(db.teams)
                       && old(db.teams)[teamId].adminId == caller
    ensures r.Ok? ==>
      && db.teams == old(db.teams) - {teamId}
      && (forall m :: m in db.members <==> m in old(db.members) && m.0 != teamId)
      && (forall k :: k in db.invites <==> k in old(db.invites) && old(db.invites)[k].teamId != teamId)
      && (forall k :: k in db.invites ==> db.invites[k] == old(db.invites)[k])
    ensures db.imports == old(db.imports) && db.orders == old(db.orders) && db.credentials == old(db.credentials)
  {
    if teamId == "" {
      return Err(Rejected("teamId", Some("Team ID is required")));
    }
    if fault == ReadFails {
      return Err(Internal("Failed to delete team"));
    }
    if teamId !in db.teams || db.teams[teamId].adminId != caller {
      return Err(TrpcError(NotFound, "Team not found or you're not the admin"));
    }
    if fault == WriteFails {
      return Err(Internal("Failed to delete team"));
    }
    db.teams := db.teams - {teamId};
    db.members := set m | m in db.members && m.0 != teamId;
    db.invites := map k | k in db.invites && db.invites[k].teamId != teamId :: db.invites[k];
    r := Ok(());
  }
}
