/** The user table of src/server_config.c: three operations that management requests reach, over C strings. */
module ServerConfig {
  import opened Bytes

  /** Names and passwords, in the order of the table. */
  type Users = seq<(seq<byte>, seq<byte>)>

  const MAX_SOCKS_USERS: nat := 10
  const MAX_USERNAME_SIZE: nat := 10

  /** get_user from entry i on: the first entry with this name. */
  function FindFrom(users: Users, name: seq<byte>, i: nat): (r: Option<nat>)
    ensures r.Some? ==> i <= r.value < |users| && users[r.value].0 == name
    ensures forall k :: i <= k < (if r.Some? then r.value else |users|) ==> users[k].0 != name
    decreases |users| - i
  {
    if i >= |users| then None else if users[i].0 == name then Some(i) else FindFrom(users, name, i + 1)
  }

  function Find(users: Users, name: seq<byte>): Option<nat> { FindFrom(users, name, 0) }

  /** add_user: one cell always stays free. */
  function WithUser(users: Users, name: seq<byte>, pass: seq<byte>): Option<Users> {
    if |users| + 1 >= MAX_SOCKS_USERS || |name| > MAX_USERNAME_SIZE then None else Some(users + [(name, pass)])
  }

  /** edit_user. */
  function WithEdit(users: Users, name: seq<byte>, value: seq<byte>, attr: byte): Option<Users> {
    match Find(users, name)
    case None => None
    case Some(i) =>
      if |value| >= MAX_USERNAME_SIZE then None
      else Some(users[i := if attr == 0x00 then (value, users[i].1) else (users[i].0, value)])
  }

  /** delete_user: the last entry takes the place of the first with this name. */
  function WithoutUser(users: Users, name: seq<byte>): Option<Users> {
    match Find(users, name)
    case None => None
    case Some(i) => Some(users[i := users[|users| - 1]][..|users| - 1])
  }

  // ----- what the operations mean for checkUser, which asks whether a pair is in the table

  /** Entry i went, and nobody else came or went. */
  ghost predicate Lost(users: Users, users': Users, i: nat) {
    i < |users| && multiset(users) == multiset(users') + multiset{users[i]}
  }

  /** A user added is the last one, and taking it away gives the old table. */
  lemma AddedUser(users: Users, name: seq<byte>, pass: seq<byte>)
    ensures var r := WithUser(users, name, pass);
            r.Some? ==> |users| < |r.value| && r.value[|users|] == (name, pass) && Lost(r.value, users, |users|)
  {
  }

  /** Exactly the first entry with the name is gone, although another one moved into its place. */
  lemma DeletedUser(users: Users, name: seq<byte>)
    ensures var r, i := WithoutUser(users, name), Find(users, name);
            && (r.Some? <==> exists k :: 0 <= k < |users| && users[k].0 == name)
            && (r.Some? ==> i.Some? && Lost(users, r.value, i.value))
  {
    if Find(users, name).Some? {
      var i, last := Find(users, name).value, |users| - 1;
      var moved := users[i := users[last]];
      assert moved == moved[..last] + [users[last]];
      assert multiset(moved) == multiset(users) - multiset{users[i]} + multiset{users[last]};
      assert multiset(moved) == multiset(moved[..last]) + multiset{users[last]};
    }
  }

  /** One attribute of one entry changes; the others may share its name. */
  lemma EditedUser(users: Users, name: seq<byte>, value: seq<byte>, attr: byte)
    ensures var r, i := WithEdit(users, name, value, attr), Find(users, name);
            && (r.Some? <==> |value| < MAX_USERNAME_SIZE && exists k :: 0 <= k < |users| && users[k].0 == name)
            && (r.Some? ==>
                  && i.Some? && |r.value| == |users|
                  && (forall k :: 0 <= k < |users| && k != i.value ==> r.value[k] == users[k])
                  && multiset(r.value) + multiset{users[i.value]} == multiset(users) + multiset{r.value[i.value]}
                  && r.value[i.value] == if attr == 0x00 then (value, users[i.value].1) else (name, value))
  {
  }

  // ----- the table in place

  /** users and users_size of struct config. */
  class UserTable {
    var users: array<(seq<byte>, seq<byte>)>
    var users_size: nat

    ghost predicate Valid()
      reads this
    {
      users_size <= users.Length == MAX_SOCKS_USERS
    }

    ghost function Value(): Users
      reads this, users
      requires Valid()
    {
      users[..users_size]
    }

    constructor ()
      ensures Valid() && fresh(users) && Value() == []
    {
      users := new (seq<byte>, seq<byte>)[MAX_SOCKS_USERS](_ => ([], []));
      users_size := 0;
    }

    /** get_user: an index, or -1 for NULL. */
    method GetUser(username: seq<byte>) returns (at: int)
      requires Valid()
      ensures at == match Find(Value(), username) case None => -1 case Some(i) => i
    {
      var i := 0;
      while i < users_size
        invariant i <= users_size && Find(Value(), username) == FindFrom(Value(), username, i)
      {
        if users[i].0 == username {
          return i;
        }
        i := i + 1;
      }
      return -1;
    }

    method AddUser(user: seq<byte>, pass: seq<byte>) returns (ok: bool)
      requires Valid()
      modifies this`users_size, users
      ensures Valid()
      ensures var after := WithUser(old(Value()), user, pass);
              ok == after.Some? && Value() == if ok then after.value else old(Value())
    {
      if users_size + 1 >= MAX_SOCKS_USERS || |user| > MAX_USERNAME_SIZE {
        return false;
      }
      users[users_size] := (user, pass);
      users_size := users_size + 1;
      return true;
    }

    method EditUser(username: seq<byte>, new_value: seq<byte>, attr: byte) returns (ok: bool)
      requires Valid()
      modifies users
      ensures Valid()
      ensures var after := WithEdit(old(Value()), username, new_value, attr);
              ok == after.Some? && Value() == if ok then after.value else old(Value())
    {
      var at := GetUser(username);
      if at == -1 || |new_value| >= MAX_USERNAME_SIZE {
        return false;
      }
      if attr == 0x00 {
        users[at] := (new_value, users[at].1);
      } else {
        users[at] := (users[at].0, new_value);
      }
      return true;
    }

    method DeleteUser(username: seq<byte>) returns (ok: bool)
      requires Valid()
      modifies this`users_size, users
      ensures Valid()
      ensures var after := WithoutUser(old(Value()), username);
              ok == after.Some? && Value() == if ok then after.value else old(Value())
    {
      ghost var was := Value();
      var find_flag, i := false, 0;
      while i < users_size && !find_flag
        invariant i <= users_size == |was| && users_size == old(users_size)
        invariant if find_flag then
                    && 0 < i && Find(was, username) == Some(i - 1)
                    && Value() == was[i - 1 := was[|was| - 1]]
                  else Value() == was && Find(was, username) == FindFrom(was, username, i)
      {
        if users[i].0 == username {
          find_flag := true;
        }
        if find_flag && i < users_size - 1 {
          users[i] := users[users_size - 1];
        }
        i := i + 1;
      }
      if find_flag {
        users_size := users_size - 1;
        return true;
      }
      return false;
    }
  }
}
