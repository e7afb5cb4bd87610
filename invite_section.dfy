/** The invite-link box of a team (`InviteSection`): it asks the server for an invite, rewrites
    the server's link onto the page's origin, and copies it. The page origin is a parameter and
    the clipboard a log of what was written to it. */
module InviteSection {
  import opened Common
  import Trpc
  import TeamRouter

  const Separator: string := "join-team"
  const ClientPath: string := "/teams/join"

  /** The first position at or after `from` where `sep` occurs in `s`. */
  function IndexOf(s: string, sep: string, from: nat): (r: Option<nat>)
    requires sep != []
    ensures r.Some? ==> from <= r.value && OccursAt(s, sep, r.value)
    ensures r.Some? ==> forall j :: from <= j < r.value ==> !OccursAt(s, sep, j)
    ensures r.None? ==> forall j :: from <= j ==> !OccursAt(s, sep, j)
    ensures from == 0 ==> (r.None? <==> !Contains(s, sep))
    decreases |s| - from
  {
    if from + |sep| > |s| then None
    else if OccursAt(s, sep, from) then Some(from)
    else IndexOf(s, sep, from + 1)
  }

  /** `s.split(sep)[1]`: the text between the first occurrence of `sep` and the next one, or the
      end; undefined when `sep` does not occur. */
  function SecondPiece(s: string, sep: string): (piece: Option<string>)
    requires sep != []
    ensures piece.None? <==> IndexOf(s, sep, 0).None?
    ensures piece.Some? ==>
      var i := IndexOf(s, sep, 0).value;
      && i + |sep| + |piece.value| <= |s|
      && s[i + |sep|..i + |sep| + |piece.value|] == piece.value
      && (i + |sep| + |piece.value| == |s| || OccursAt(s, sep, i + |sep| + |piece.value|))
      && !Contains(piece.value, sep)
  {
    match IndexOf(s, sep, 0)
    case None => None
    case Some(i) =>
      var start := i + |sep|;
      assert OccursAt(s, sep, i);
      match IndexOf(s, sep, start)
      case None =>
        var piece := s[start..];
        NoLaterOccurrence(s, sep, start, piece);
        Some(piece)
      case Some(j) =>
        var piece := s[start..j];
        NoLaterOccurrence(s, sep, start, piece);
        Some(piece)
  }

  /** A piece of `s` that starts at `start` and in which no occurrence after `start` fits holds
      no occurrence at all. */
  lemma NoLaterOccurrence(s: string, sep: string, start: nat, piece: string)
    requires sep != [] && start + |piece| <= |s| && s[start..start + |piece|] == piece
    requires forall j :: start <= j < start + |piece| - |sep| + 1 ==> !OccursAt(s, sep, j)
    ensures !Contains(piece, sep)
  {
    assert forall m :: 0 <= m < |piece| ==> piece[m] == s[start + m];
    forall k | 0 <= k <= |piece| - |sep| ensures !OccursAt(piece, sep, k) {
      assert !OccursAt(s, sep, start + k);
      assert piece[k..k + |sep|] == s[start + k..start + k + |sep|];
    }
  }

  /** The link the section shows: `${origin}/teams/join${inviteLink.split("join-team")[1]}`,
      where an undefined piece renders as "undefined". */
  function ClientLink(origin: string, serverLink: string): (link: string)
    ensures StartsWith(link, origin + ClientPath)
    ensures link != []
  {
    var piece := SecondPiece(serverLink, Separator);
    var rest := if piece.Some? then piece.value else "undefined";
    assert (origin + ClientPath + rest)[..|origin + ClientPath|] == origin + ClientPath;
    origin + ClientPath + rest
  }

  /** A server link without "join-team" gives a link ending in "undefined". */
  lemma MissingSeparatorRendersUndefined(origin: string, serverLink: string)
    requires !Contains(serverLink, Separator)
    ensures ClientLink(origin, serverLink) == origin + ClientPath + "undefined"
  {
  }

  /** The server's link for a hexadecimal token, "/join-team?token=T", becomes
      `origin + "/teams/join?token=T"`: the token has no 'j', so it holds no second separator. */
  lemma ServerLinkRewritten(origin: string, token: string)
    requires forall i :: 0 <= i < |token| ==> TeamRouter.IsHexDigit(token[i])
    ensures ClientLink(origin, TeamRouter.InviteLinkFor(token)) == origin + ClientPath + "?token=" + token
  {
    var s := TeamRouter.InviteLinkFor(token);
    assert s == "/join-team?token=" + token;
    assert !OccursAt(s, Separator, 0) by { assert s[0] == '/'; }
    assert s[1..10] == Separator;
    assert IndexOf(s, Separator, 0) == Some(1) by {
      assert IndexOf(s, Separator, 0) == IndexOf(s, Separator, 1);
    }
    forall j | 10 <= j ensures !OccursAt(s, Separator, j) {
      if j + |Separator| <= |s| {
        assert s[j] != 'j' by {
          if j < 17 {
            assert s[j] == "?token="[j - 10];
          } else {
            assert s[j] == token[j - 17];
          }
        }
        assert s[j..j + |Separator|][0] == s[j];
      }
    }
    assert IndexOf(s, Separator, 10).None?;
    assert s[10..] == "?token=" + token;
  }

  /** The section's state. */
  class Section {
    const teamId: string
    var inviteLink: string
    var isPending: bool
    /** The teams `generateInviteLink` was asked for, in order. */
    var requested: seq<string>
    /** What was written to the clipboard, in order. */
    var copied: seq<string>

    constructor(teamId: string)
      ensures this.teamId == teamId && inviteLink == "" && !isPending && requested == [] && copied == []
    {
      this.teamId := teamId;
      inviteLink := "";
      isPending := false;
      requested := [];
      copied := [];
    }

    /** Generate is offered while there is no link; afterwards Copy is. */
    predicate OffersGenerate()
      reads this
    {
      inviteLink == ""
    }

    /** `generateInviteLink` */
    method Generate()
      modifies this
      ensures requested == old(requested) + [teamId] && isPending
      ensures inviteLink == old(inviteLink) && copied == old(copied)
    {
      requested := requested + [teamId];
      isPending := true;
    }

    /** The mutation's callbacks: on success the rewritten link is stored, so Copy replaces
        Generate; an error leaves the link as it was. */
    method Settled(outcome: Trpc.Result<TeamRouter.InviteLink>, origin: string)
      modifies this
      ensures !isPending && requested == old(requested) && copied == old(copied)
      ensures outcome.Ok? ==> inviteLink == ClientLink(origin, outcome.value.link) && !OffersGenerate()
      ensures outcome.Err? ==> inviteLink == old(inviteLink)
    {
      if outcome.Ok? {
        inviteLink := ClientLink(origin, outcome.value.link);
      }
      isPending := false;
    }

    /** `copyToClipboard`: writes exactly the stored link. */
    method Copy()
      modifies this
      ensures copied == old(copied) + [inviteLink]
      ensures inviteLink == old(inviteLink) && isPending == old(isPending) && requested == old(requested)
    {
      copied := copied + [inviteLink];
    }
  }
}
