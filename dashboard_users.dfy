/** The user cards of the dashboard: how many active users hold each role,
    and the five most recently registered users. */
module DashboardUsers {
  import opened Seqs
  import opened Records

  datatype UserCounts = UserCounts(administradores: nat, supervisores: nat, vendedores: nat)

  predicate IsActive(u: Usuario) { u.usrEstadoDel }

  predicate IsAdmin(u: Usuario) { "ADMINISTRADOR" in u.roles }
  predicate IsSupervisor(u: Usuario) { "SUPERVISOR" in u.roles }
  predicate IsVendor(u: Usuario) { "VENDEDOR" in u.roles }

  /** What the role cards show: over the active users, the number holding
      each role. A user with several roles is counted under each. */
  function RoleCounts(usuarios: seq<Usuario>): UserCounts {
    var active := Filter(usuarios, IsActive);
    UserCounts(Count(active, IsAdmin), Count(active, IsSupervisor), Count(active, IsVendor))
  }

  /** The `reduce` over the active users, bumping each matching counter. */
  method CountRoles(usuarios: seq<Usuario>) returns (counts: UserCounts)
    ensures counts == RoleCounts(usuarios)
  {
    var active := Filter(usuarios, IsActive);
    var administradores, supervisores, vendedores := 0, 0, 0;
    var i := 0;
    while i < |active|
      invariant 0 <= i <= |active|
      invariant administradores == Count(active[..i], IsAdmin)
      invariant supervisores == Count(active[..i], IsSupervisor)
      invariant vendedores == Count(active[..i], IsVendor)
    {
      var user := active[i];
      CountsStep(active, i);
      if IsAdmin(user) {
        administradores := administradores + 1;
      }
      if IsSupervisor(user) {
        supervisores := supervisores + 1;
      }
      if IsVendor(user) {
        vendedores := vendedores + 1;
      }
      i := i + 1;
    }
    assert active[..i] == active;
    counts := UserCounts(administradores, supervisores, vendedores);
  }

  /** One more user changes each count by one exactly when it holds the role. */
  lemma CountsStep(active: seq<Usuario>, i: nat)
    requires i < |active|
    ensures Count(active[..i + 1], IsAdmin) == Count(active[..i], IsAdmin) + if IsAdmin(active[i]) then 1 else 0
    ensures Count(active[..i + 1], IsSupervisor) == Count(active[..i], IsSupervisor) + if IsSupervisor(active[i]) then 1 else 0
    ensures Count(active[..i + 1], IsVendor) == Count(active[..i], IsVendor) + if IsVendor(active[i]) then 1 else 0
  {
    assert active[..i + 1] == active[..i] + [active[i]];
    CountSnoc(active[..i], active[i], IsAdmin);
    CountSnoc(active[..i], active[i], IsSupervisor);
    CountSnoc(active[..i], active[i], IsVendor);
  }

  lemma {:induction false} CountAtMost<T>(s: seq<T>, p: T -> bool)
    ensures Count(s, p) <= |s|
  {
    if s != [] {
      CountAtMost(s[1..], p);
    }
  }

  /** Each count is at most the number of active users, so the three
      together are at most three times that. */
  lemma RoleCountsBound(usuarios: seq<Usuario>)
    ensures RoleCounts(usuarios).administradores <= Count(usuarios, IsActive)
    ensures RoleCounts(usuarios).supervisores <= Count(usuarios, IsActive)
    ensures RoleCounts(usuarios).vendedores <= Count(usuarios, IsActive)
  {
    var active := Filter(usuarios, IsActive);
    FilterLength(usuarios, IsActive);
    CountAtMost(active, IsAdmin);
    CountAtMost(active, IsSupervisor);
    CountAtMost(active, IsVendor);
  }

  /** An inactive user changes no count, wherever it stands in the list. */
  lemma RoleCountsIgnoreInactive(a: seq<Usuario>, u: Usuario, b: seq<Usuario>)
    requires !u.usrEstadoDel
    ensures RoleCounts(a + [u] + b) == RoleCounts(a + b)
  {
    FilterAppend(a + [u], b, IsActive);
    FilterAppend(a, [u], IsActive);
    assert Filter([u], IsActive) == [] by {
      assert [u][1..] == [];
    }
    assert Filter(a, IsActive) + [] == Filter(a, IsActive);
    FilterAppend(a, b, IsActive);
  }

  /** One active user holding all three roles is counted three times. */
  lemma RoleCountsOverlap(u: Usuario)
    requires u.usrEstadoDel
    requires "ADMINISTRADOR" in u.roles && "SUPERVISOR" in u.roles && "VENDEDOR" in u.roles
    ensures var c := RoleCounts([u]); c.administradores + c.supervisores + c.vendedores == 3
  {
    assert [u][1..] == [];
    assert Filter([u], IsActive) == [u];
    assert Count([u], IsAdmin) == 1;
    assert Count([u], IsSupervisor) == 1;
    assert Count([u], IsVendor) == 1;
  }

  // ---------------------------------------------------------------------
  // Last registered

  function UsrIdDesc(u: Usuario): int { -u.usrId }

  /** A copy of the users sorted by `usrId`, highest first (the comparator
      `b.usrId - a.usrId` with a stable sort), cut to its first five. */
  function LastRegistered(usuarios: seq<Usuario>): seq<Usuario> {
    var sorted := SortBy(usuarios, UsrIdDesc);
    sorted[..if |sorted| < 5 then |sorted| else 5]
  }

  /** At most five users, all taken from the input (inactive ones too), in
      non-increasing `usrId` order, and no user left out has a higher id
      than a user shown. */
  lemma LastRegisteredSpec(usuarios: seq<Usuario>)
    ensures |LastRegistered(usuarios)| == if |usuarios| < 5 then |usuarios| else 5
    ensures multiset(LastRegistered(usuarios)) <= multiset(usuarios)
    ensures forall i, j :: 0 <= i < j < |LastRegistered(usuarios)| ==>
      LastRegistered(usuarios)[i].usrId >= LastRegistered(usuarios)[j].usrId
    ensures forall u, v :: u in LastRegistered(usuarios) && v in multiset(usuarios) - multiset(LastRegistered(usuarios)) ==>
      v.usrId <= u.usrId
  {
    var sorted := SortBy(usuarios, UsrIdDesc);
    SortBySorted(usuarios, UsrIdDesc);
    var n := if |sorted| < 5 then |sorted| else 5;
    assert sorted == sorted[..n] + sorted[n..];
    assert multiset(sorted) == multiset(sorted[..n]) + multiset(sorted[n..]);
    SortedPrefix(sorted, n);
  }

  /** In a list sorted by `UsrIdDesc`, ids do not increase, and every id
      after position `n` is at most every id before it. */
  lemma SortedPrefix(sorted: seq<Usuario>, n: nat)
    requires n <= |sorted|
    requires SortedBy(sorted, UsrIdDesc)
    ensures forall i, j :: 0 <= i < j < n ==> sorted[i].usrId >= sorted[j].usrId
    ensures forall u, v :: u in sorted[..n] && v in multiset(sorted[n..]) ==> v.usrId <= u.usrId
  {
    forall i, j | 0 <= i < j < n ensures sorted[i].usrId >= sorted[j].usrId {
      assert UsrIdDesc(sorted[i]) <= UsrIdDesc(sorted[j]);
    }
    forall u, v | u in sorted[..n] && v in multiset(sorted[n..]) ensures v.usrId <= u.usrId {
      var i :| 0 <= i < n && sorted[i] == u;
      var j :| n <= j < |sorted| && sorted[j] == v;
      assert UsrIdDesc(sorted[i]) <= UsrIdDesc(sorted[j]);
    }
  }
}
