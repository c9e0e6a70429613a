/** The admin panel's operations on its cached list of `users` rows:
    `users.find` by id, the status flip, `users.map` that writes the new
    status, and the dashboard's status counts. */
module UserList {
  import opened Records

  /** `users.find((u) => u.id === userId)`: the first row carrying `id`, or
      None when no row does. */
  function Find(users: seq<UserRow>, id: string): (r: Option<UserRow>)
    ensures r.None? <==> forall j :: 0 <= j < |users| ==> users[j].id != id
    ensures r.Some? ==> r.value in users && r.value.id == id
  {
    if users == [] then None
    else if users[0].id == id then Some(users[0])
    else Find(users[1..], id)
  }

  /** Position `i` holds the first row whose id is `id`. */
  ghost predicate FirstWithId(users: seq<UserRow>, id: string, i: int)
  {
    0 <= i < |users| && users[i].id == id && forall j :: 0 <= j < i ==> users[j].id != id
  }

  /** The status a toggle writes: an "Active" user becomes "Banned"; any other
      status, "Banned" or not, becomes "Active". */
  function NextStatus(status: string): (r: string)
    ensures r == Active || r == Banned
    ensures r == Banned <==> status == Active
  {
    if status == Active then Banned else Active
  }

  /** Toggling twice restores any status that was already "Active" or "Banned". */
  lemma NextStatusInvolutive(status: string)
    requires status == Active || status == Banned
    ensures NextStatus(NextStatus(status)) == status
  {
  }

  /** `users.map((u) => (u.id === id ? { ...u, status } : u))`: every row with
      that id gets the new status, every other row is kept as it was. */
  function WithStatus(users: seq<UserRow>, id: string, status: string): (r: seq<UserRow>)
    ensures |r| == |users|
    ensures forall i :: 0 <= i < |users| && users[i].id != id ==> r[i] == users[i]
    ensures forall i :: 0 <= i < |users| && users[i].id == id ==> r[i] == users[i].(status := status)
  {
    if users == [] then []
    else
      var head := if users[0].id == id then users[0].(status := status) else users[0];
      [head] + WithStatus(users[1..], id, status)
  }

  /** A status update for an id that no row carries leaves the list as it is. */
  lemma WithStatusAbsentId(users: seq<UserRow>, id: string, status: string)
    requires Find(users, id).None?
    ensures WithStatus(users, id, status) == users
  {
  }

  /** The update changes no row's id, so the rows it touches are the same
      rows before and after, and `Find` still locates the same position. */
  lemma WithStatusKeepsIds(users: seq<UserRow>, id: string, status: string)
    ensures forall i :: 0 <= i < |users| ==> WithStatus(users, id, status)[i].id == users[i].id
    ensures Find(users, id).Some? ==> Find(WithStatus(users, id, status), id) == Find(users, id).(value := Find(users, id).value.(status := status))
  {
  }

  /** `Find` returns the row at the first position that carries the id. */
  lemma {:induction false} FindReturnsFirst(users: seq<UserRow>, id: string, i: int)
    requires FirstWithId(users, id, i)
    ensures Find(users, id) == Some(users[i])
  {
    if i > 0 {
      FindReturnsFirst(users[1..], id, i - 1);
    }
  }

  /** `users.filter((user) => user.status === status).length` on the dashboard. */
  function CountStatus(users: seq<UserRow>, status: string): (n: nat)
    ensures n <= |users|
  {
    if users == [] then 0
    else (if users[0].status == status then 1 else 0) + CountStatus(users[1..], status)
  }

  /** The dashboard's "Active Users" and "Banned Users" never add up to more
      than "Total Users". */
  lemma {:induction false} ActivePlusBannedAtMostTotal(users: seq<UserRow>)
    ensures CountStatus(users, Active) + CountStatus(users, Banned) <= |users|
  {
    if users != [] {
      ActivePlusBannedAtMostTotal(users[1..]);
    }
  }
}
