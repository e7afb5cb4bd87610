/** The database the procedures use, as in-memory tables. Rows of the order tables are kept in
    insertion order, so "newest first" is the reverse of a table. Identifiers the database would
    generate are supplied by the caller, fresh. */
module Store {
  import opened Common

  type UserId = string
  type TeamId = string
  type ImportId = string
  type OrderId = string

  /** A team and its administrator. */
  datatype Team = Team(name: string, adminId: UserId)

  /** A single-use invite to a team, valid until `expiresAt` (milliseconds). */
  datatype Invite = Invite(teamId: TeamId, expiresAt: int, usedAt: Option<int>)

  /** One CSV import of a user. */
  datatype OrderImport = OrderImport(id: ImportId, fileName: string, status: string, userId: UserId)

  /** One order row, linked to the import that created it. */
  datatype Order = Order(
    id: OrderId, orderNumber: string, shippingStatus: string, trackingCode: Option<string>, importId: ImportId)

  /** A user's Correios credentials. */
  datatype Credential = Credential(identifier: string, accessCode: string, contract: string)

  /** The tables: teams by id, memberships as (team, user) pairs, invites by token, imports
      and orders in insertion order, credentials by user. */
  class Db {
    var teams: map<TeamId, Team>
    var members: set<(TeamId, UserId)>
    var invites: map<string, Invite>
    var imports: seq<OrderImport>
    var orders: seq<Order>
    var credentials: map<UserId, Credential>

    constructor()
      ensures teams == map[] && members == {} && invites == map[]
      ensures imports == [] && orders == [] && credentials == map[]
    {
      teams, members, invites := map[], {}, map[];
      imports, orders, credentials := [], [], map[];
    }

    /** The team tables hold together: every team's admin is one of its members, and every
        membership and invite belongs to an existing team. */
    predicate TeamsValid()
      reads this
    {
      && (forall t :: t in teams ==> (t, teams[t].adminId) in members)
      && (forall m :: m in members ==> m.0 in teams)
      && (forall k :: k in invites ==> invites[k].teamId in teams)
    }

    /** The import with id `id`, if there is one. */
    function FindImport(id: ImportId): (r: Option<OrderImport>)
      reads this
      ensures r.Some? ==> r.value in imports && r.value.id == id
      ensures r.None? ==> forall i :: 0 <= i < |imports| ==> imports[i].id != id
    {
      FindImportIn(imports, id)
    }

    /** The order `o` belongs to an import of `user`. */
    predicate OwnedBy(o: Order, user: UserId)
      reads this
    {
      OwnedIn(imports, o, user)
    }
  }

  /** The order `o` belongs to an import of `user` among `imports` (the relation
      `orderImport: { userId }` filters on). */
  predicate OwnedIn(imports: seq<OrderImport>, o: Order, user: UserId) {
    var imp := FindImportIn(imports, o.importId);
    imp.Some? && imp.value.userId == user
  }

  /** The first import in `imports` with id `id`. */
  function FindImportIn(imports: seq<OrderImport>, id: ImportId): (r: Option<OrderImport>)
    ensures r.Some? ==> r.value in imports && r.value.id == id
    ensures r.None? ==> forall i :: 0 <= i < |imports| ==> imports[i].id != id
  {
    if imports == [] then None
    else if imports[0].id == id then Some(imports[0])
    else FindImportIn(imports[1..], id)
  }

  /** `s` in reverse: a table "ordered by createdAt descending". */
  function Reverse<T>(s: seq<T>): (r: seq<T>)
    ensures |r| == |s|
    ensures forall i :: 0 <= i < |s| ==> r[i] == s[|s| - 1 - i]
  {
    if s == [] then [] else Reverse(s[1..]) + [s[0]]
  }

  /** Order ids are the table's primary key: no two rows share one. */
  ghost predicate IdsUnique(orders: seq<Order>) {
    forall i, j :: 0 <= i < j < |orders| ==> orders[i].id != orders[j].id
  }

  /** Ids the database hands out for new rows: pairwise distinct and unused in `orders`. */
  ghost predicate FreshIds(ids: seq<OrderId>, orders: seq<Order>) {
    && (forall a, b :: 0 <= a < b < |ids| ==> ids[a] != ids[b])
    && (forall a, k :: 0 <= a < |ids| && 0 <= k < |orders| ==> ids[a] != orders[k].id)
  }

  /** A table whose rows keep their ids position by position keeps them unique. */
  lemma SameIdsKeepIdsUnique(orders: seq<Order>, table: seq<Order>)
    requires |table| == |orders| && forall j :: 0 <= j < |orders| ==> table[j].id == orders[j].id
    ensures IdsUnique(orders) ==> IdsUnique(table)
  {
  }

  /** Appending rows whose ids are fresh keeps the ids unique. */
  lemma AppendFreshKeepsIdsUnique(orders: seq<Order>, rows: seq<Order>, ids: seq<OrderId>)
    requires |rows| == |ids| && forall a :: 0 <= a < |rows| ==> rows[a].id == ids[a]
    requires IdsUnique(orders) && FreshIds(ids, orders)
    ensures IdsUnique(orders + rows)
  {
    var all := orders + rows;
    forall i, j | 0 <= i < j < |all| ensures all[i].id != all[j].id {
      if j < |orders| {
        assert all[i] == orders[i] && all[j] == orders[j];
      } else if i < |orders| {
        assert all[i] == orders[i] && all[j].id == ids[j - |orders|];
      } else {
        assert all[i].id == ids[i - |orders|] && all[j].id == ids[j - |orders|];
      }
    }
  }
}
