/**
 * The organization listing of the Hook0 API: for each organization the caller's
 * authorization grants a role in, the organization's name is looked up and a
 * view record is produced.
 *
 * The database query, the text form of a UUID, the text form of a role and the
 * conversion of a query error into an API problem are foreign code; they are
 * parameters of `List`.
 */
module Organizations {
  import opened Wrappers
  import opened Primitives

  /** One entry of the listing. */
  datatype Organization = Organization(organizationId: Uuid, role: string, name: string)

  /**
   * Lists the caller's organizations, in the order authorization gives them.
   *
   * `lookup` fetches the organization's stored name by id, answering as an
   * optional fetch does: a query error, no row, or the stored name.
   * `queried` records the ids looked up, in the order they were looked up.
   */
  method List<Role, QueryError, Problem>(
    authOrganizations: seq<(Uuid, Role)>,
    lookup: Uuid -> Result<Option<string>, QueryError>,
    idToString: Uuid -> string,
    roleToString: Role -> string,
    intoProblem: QueryError -> Problem
  ) returns (r: Result<seq<Organization>, Problem>, ghost queried: seq<Uuid>)
    // one lookup per pair, in input order, stopping at the first query error
    ensures |queried| <= |authOrganizations|
    ensures forall j :: 0 <= j < |queried| ==> queried[j] == authOrganizations[j].0
    ensures forall j :: 0 <= j < |queried| - 1 ==> lookup(queried[j]).Success?
    // a missing row is no error: the request fails exactly when some lookup fails
    ensures r.Success? <==> forall i :: 0 <= i < |authOrganizations| ==> lookup(authOrganizations[i].0).Success?
    // and then with the first failing lookup's error, having looked up nothing after it
    ensures r.Failure? ==>
      && 0 < |queried|
      && lookup(queried[|queried| - 1]).Failure?
      && r.error == intoProblem(lookup(queried[|queried| - 1]).error)
    // on success: one record per pair, in the same order
    ensures r.Success? ==> |queried| == |authOrganizations| && |r.value| == |authOrganizations|
    ensures r.Success? ==> forall i :: 0 <= i < |authOrganizations| ==>
      var (id, role) := authOrganizations[i];
      && r.value[i].organizationId == id
      && r.value[i].role == roleToString(role)
      && (lookup(id).Success? && lookup(id).value.Some? ==> r.value[i].name == lookup(id).value.value)
      && (lookup(id).Success? && lookup(id).value.None? ==> r.value[i].name == idToString(id))
  {
    var organizations: seq<Organization> := [];
    queried := [];
    var i := 0;
    while i < |authOrganizations|
      invariant 0 <= i <= |authOrganizations|
      invariant |queried| == i && |organizations| == i
      invariant forall j :: 0 <= j < i ==> queried[j] == authOrganizations[j].0
      invariant forall j :: 0 <= j < i ==> lookup(authOrganizations[j].0).Success?
      invariant forall j :: 0 <= j < i ==>
        var (id, role) := authOrganizations[j];
        && organizations[j].organizationId == id
        && organizations[j].role == roleToString(role)
        && (lookup(id).Success? && lookup(id).value.Some? ==> organizations[j].name == lookup(id).value.value)
        && (lookup(id).Success? && lookup(id).value.None? ==> organizations[j].name == idToString(id))
    {
      var (organizationId, role) := authOrganizations[i];
      var fetched := lookup(organizationId);
      queried := queried + [organizationId];
      if fetched.Failure? {
        r := Failure(intoProblem(fetched.error));
        return;
      }
      var name := match fetched.value
        case Some(stored) => stored
        case None => idToString(organizationId);
      organizations := organizations + [Organization(organizationId, roleToString(role), name)];
      i := i + 1;
    }
    r := Success(organizations);
  }
}
