/**
  The role registry: an ordered list of roles whose ids are meant to be
  unique. Adding refuses a duplicate id, deleting refuses an unknown one,
  and an empty installation starts from five seeded roles.
 */
module RoleRegistry {
  import opened DayModel

  /** Some role in the list carries the id. */
  predicate HasId(roles: seq<Role>, id: int) {
    exists i :: 0 <= i < |roles| && roles[i].id == id
  }

  /** No two roles share an id. */
  predicate UniqueIds(roles: seq<Role>) {
    forall i, j :: 0 <= i < j < |roles| ==> roles[i].id != roles[j].id
  }

  /** Position of the first role with the id, scanning from the front. */
  function FirstIndex(roles: seq<Role>, id: int): (r: Option<nat>)
    ensures r.None? <==> !HasId(roles, id)
    ensures r.Some? ==> r.value < |roles| && roles[r.value].id == id
    ensures r.Some? ==> forall j :: 0 <= j < r.value ==> roles[j].id != id
  {
    if |roles| == 0 then None
    else if roles[0].id == id then Some(0)
    else
      match FirstIndex(roles[1..], id)
      case None =>
        assert forall i :: 1 <= i < |roles| ==> roles[i] == roles[1..][i - 1];
        None
      case Some(i) =>
        assert forall j :: 1 <= j < i + 1 ==> roles[j] == roles[1..][j - 1];
        Some(i + 1)
  }

  /** Adds a role at the end unless its id is already taken (409). */
  function AddRole(roles: seq<Role>, role: Role): (r: Result<seq<Role>>)
    ensures r.Err? <==> HasId(roles, role.id)
    ensures r.Err? ==> r.error == RoleExists && r.error.Status() == 409
    ensures r.Ok? ==>
      && |r.value| == |roles| + 1
      && r.value[..|roles|] == roles
      && r.value[|roles|] == role
    ensures r.Ok? && UniqueIds(roles) ==> UniqueIds(r.value)
  {
    if FirstIndex(roles, role.id).Some? then Err(RoleExists)
    else Ok(roles + [role])
  }

  /** What a deletion leaves and what it took out. */
  datatype Deleted = Deleted(roles: seq<Role>, removed: Role)

  /** The list with the role at position i taken out, the others in order. */
  function RemoveAt(roles: seq<Role>, i: nat): seq<Role>
    requires i < |roles|
  {
    roles[..i] + roles[i + 1..]
  }

  /** Taking one role out keeps the others, in order, and keeps ids unique;
      with unique ids, no role with the removed id is left. */
  lemma RemoveAtFacts(roles: seq<Role>, i: nat)
    requires i < |roles|
    ensures var rest := RemoveAt(roles, i);
      && |rest| + 1 == |roles|
      && (forall j :: 0 <= j < |rest| ==> rest[j] == if j < i then roles[j] else roles[j + 1])
      && multiset(rest) + multiset{roles[i]} == multiset(roles)
      && (UniqueIds(roles) ==> UniqueIds(rest) && !HasId(rest, roles[i].id))
  {
    var rest := RemoveAt(roles, i);
    assert roles == roles[..i] + [roles[i]] + roles[i + 1..];
    assert forall j :: 0 <= j < |rest| ==> rest[j] == if j < i then roles[j] else roles[j + 1];
  }

  /** Removes the first role with the id and returns it, or fails with 404. */
  function DeleteRole(roles: seq<Role>, id: int): (r: Result<Deleted>)
    ensures r.Err? <==> !HasId(roles, id)
    ensures r.Err? ==> r.error == RoleNotFound && r.error.Status() == 404
    ensures r.Ok? ==> r.value.removed.id == id
    ensures r.Ok? ==>
      exists i :: 0 <= i < |roles|
        && roles[i] == r.value.removed
        && r.value.roles == roles[..i] + roles[i + 1..]
        && (forall j :: 0 <= j < i ==> roles[j].id != id)
    ensures r.Ok? ==> multiset(r.value.roles) + multiset{r.value.removed} == multiset(roles)
    ensures r.Ok? && UniqueIds(roles) ==> UniqueIds(r.value.roles) && !HasId(r.value.roles, id)
  {
    match FirstIndex(roles, id)
    case None => Err(RoleNotFound)
    case Some(i) =>
      RemoveAtFacts(roles, i);
      Ok(Deleted(RemoveAt(roles, i), roles[i]))
  }

  /** Deleting the role just added gives back the registry as it was. */
  lemma AddThenDelete(roles: seq<Role>, role: Role)
    requires AddRole(roles, role).Ok?
    ensures DeleteRole(AddRole(roles, role).value, role.id) == Ok(Deleted(roles, role))
  {
    var added := roles + [role];
    assert added[|roles|].id == role.id;
    assert forall j :: 0 <= j < |roles| ==> added[j] == roles[j];
    var i := FirstIndex(added, role.id).value;
    assert i == |roles|;
    assert AddRole(roles, role).value == added;
    assert RemoveAt(added, i) == roles;
  }

  /** Re-adding a deleted role succeeds and restores the same roles, moved to the end. */
  lemma DeleteThenAdd(roles: seq<Role>, id: int)
    requires UniqueIds(roles)
    requires DeleteRole(roles, id).Ok?
    ensures var d := DeleteRole(roles, id).value;
      AddRole(d.roles, d.removed).Ok?
      && multiset(AddRole(d.roles, d.removed).value) == multiset(roles)
  {
  }

  /** The five roles an installation starts with. */
  function DefaultRoles(): seq<Role> {
    [ Role(1, "Devops", 25),
      Role(2, "Father of the family", 35),
      Role(3, "Sportsman", 20),
      Role(4, "Master of the house", 15),
      Role(5, "Other", 5) ]
  }

  /** The registry at start-up: the stored list if there is one, else the seed. */
  function LoadRoles(stored: Option<seq<Role>>): seq<Role> {
    match stored
    case Some(roles) => roles
    case None => DefaultRoles()
  }

  /** Without a stored list the registry holds ids 1 to 5, unique, with targets
      25/35/20/15/5 that happen to total 100; a stored list is taken as it is. */
  lemma SeededRegistry(stored: seq<Role>)
    ensures var roles := LoadRoles(None);
      && |roles| == 5
      && UniqueIds(roles)
      && (forall i :: 0 <= i < 5 ==> roles[i].id == i + 1)
      && roles[0].name == "Devops" && roles[1].name == "Father of the family"
      && roles[2].name == "Sportsman" && roles[3].name == "Master of the house"
      && roles[4].name == "Other"
      && roles[0].percent + roles[1].percent + roles[2].percent
         + roles[3].percent + roles[4].percent == 100
    ensures LoadRoles(Some(stored)) == stored
  {
  }

  /** Adding id 1 to the seed is refused and deleting id 99 from it is not found. */
  lemma SeedConflicts(name: string, percent: Percent)
    ensures AddRole(DefaultRoles(), Role(1, name, percent)) == Err(RoleExists)
    ensures DeleteRole(DefaultRoles(), 99) == Err(RoleNotFound)
  {
  }
}
