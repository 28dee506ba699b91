/** Roles of a requesting user and the permission classes the views combine. */
module Roles {
  import opened Common

  /** Membership of the `Manager` and `Delivery Crew` groups, and the two account flags. */
  datatype Role = Manager | DeliveryCrew | Staff | Superuser

  /** Who sends a request: nobody logged in, or a user with the roles it holds. */
  datatype Requester = Anonymous | Member(id: UserId, roles: set<Role>)

  /** The permission classes the views list, and their `|` composition. */
  datatype Permission =
    | AllowAny
    | IsAuthenticated
    | IsAdminUser
    | IsManager
    | IsDeliveryCrew
    | Either(left: Permission, right: Permission)

  predicate Has(r: Requester, role: Role) {
    r.Member? && role in r.roles
  }

  /** Whether one permission class lets the requester through. */
  function Grants(p: Permission, r: Requester): bool {
    match p
    case AllowAny => true
    case IsAuthenticated => r.Member?
    case IsAdminUser => Has(r, Staff)
    case IsManager => Has(r, Manager)
    case IsDeliveryCrew => Has(r, DeliveryCrew)
    case Either(a, b) => Grants(a, r) || Grants(b, r)
  }

  /** What each basic class admits, as quantified facts callers can lean on. */
  lemma BasicGrants()
    ensures forall r :: Grants(AllowAny, r)
    ensures forall r :: Grants(IsAuthenticated, r) <==> r.Member?
    ensures forall r :: Grants(IsAdminUser, r) <==> Has(r, Staff)
    ensures forall r :: Grants(IsManager, r) <==> Has(r, Manager)
    ensures forall r :: Grants(IsDeliveryCrew, r) <==> Has(r, DeliveryCrew)
    ensures forall a, b, r :: Grants(Either(a, b), r) <==> Grants(a, r) || Grants(b, r)
  {
  }

  /** A list of permission classes admits a request only when every class in it does. */
  predicate Allowed(ps: seq<Permission>, r: Requester) {
    ps == [] || (Grants(ps[0], r) && Allowed(ps[1..], r))
  }

  /** A two-class list admits exactly the requesters both classes admit. */
  lemma AllowedPair(p: Permission, q: Permission)
    ensures forall r :: Allowed([p, q], r) <==> Grants(p, r) && Grants(q, r)
  {
    forall r ensures Allowed([p, q], r) <==> Grants(p, r) && Grants(q, r) {
      assert [p, q][1..] == [q];
      assert [q][1..] == [];
      assert Allowed([q], r) <==> Grants(q, r) && Allowed([], r);
    }
  }

  /** The permission check run before a handler: classes are tried in order and the
      first refusal ends the request, with 401 for an anonymous requester and 403
      otherwise; `None` lets the handler run. */
  function Denial(ps: seq<Permission>, r: Requester): (d: Option<Status>)
    ensures d.None? <==> Allowed(ps, r)
    ensures d.Some? ==> d.value == (if r.Anonymous? then Unauthorized401 else Forbidden403)
  {
    if ps == [] then None
    else if !Grants(ps[0], r) then Some(if r.Anonymous? then Unauthorized401 else Forbidden403)
    else Denial(ps[1..], r)
  }
}
