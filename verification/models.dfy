/** The back end's tables and the `UserOut` schema that filters what a
    response may reveal about a user. */
module Models {
  import opened Wrappers
  import opened Json

  /** A row of `users`; `gender` is optional at signup. */
  datatype User = User(id: int, email: string, hashedPassword: string, name: string, gender: Option<string>)

  /** A row of `inventory`; `name` is unique and, with `category`,
      mandatory, the other columns may be `NULL`. */
  datatype InventoryRow = InventoryRow(
    id: int, name: string, category: string,
    imageUrl: Option<string>, description: Option<string>, unit: Option<string>)

  /** A nullable text column as it is serialised. */
  function Nullable(v: Option<string>): (j: Json)
    ensures v.None? <==> j.Null?
    ensures v.Some? ==> j == Str(v.value)
  {
    if v.Some? then Str(v.value) else Null
  }

  /** The member names of an object, in order. */
  function Keys(members: seq<(string, Json)>): (r: seq<string>)
    ensures |r| == |members|
    ensures forall i :: 0 <= i < |r| ==> r[i] == members[i].0
  {
    seq(|members|, i requires 0 <= i < |members| => members[i].0)
  }

  /** A user as the `UserOut` response model serialises it. */
  function UserOut(u: User): Json {
    Obj([("id", Num(u.id)), ("email", Str(u.email)), ("name", Str(u.name)), ("gender", Nullable(u.gender))])
  }

  /** `UserOut` carries exactly the id, e-mail, name and gender of the
      user, and never the password hash. */
  lemma UserOutKeys(u: User)
    ensures UserOut(u).Obj? && Keys(UserOut(u).members) == ["id", "email", "name", "gender"]
    ensures Member(UserOut(u), "hashed_password").None? && Member(UserOut(u), "password").None?
  {
    var m := UserOut(u).members;
    assert forall i :: 0 <= i < |m| ==> m[i].0 != "hashed_password" && m[i].0 != "password";
  }

  /** Each field of `UserOut` reads back the user's column. */
  lemma UserOutValues(u: User)
    ensures Member(UserOut(u), "id") == Some(Num(u.id))
    ensures Member(UserOut(u), "email") == Some(Str(u.email))
    ensures Member(UserOut(u), "name") == Some(Str(u.name))
    ensures Member(UserOut(u), "gender") == Some(Nullable(u.gender))
  {
    var m := UserOut(u).members;
    assert m[1..] == [("email", Str(u.email)), ("name", Str(u.name)), ("gender", Nullable(u.gender))];
    assert m[1..][1..] == [("name", Str(u.name)), ("gender", Nullable(u.gender))];
    assert m[1..][1..][1..] == [("gender", Nullable(u.gender))];
    assert Lookup(m, "email") == Lookup(m[1..], "email");
    assert Lookup(m, "name") == Lookup(m[1..], "name") == Lookup(m[1..][1..], "name");
    assert Lookup(m, "gender") == Lookup(m[1..], "gender") == Lookup(m[1..][1..], "gender")
        == Lookup(m[1..][1..][1..], "gender");
  }
}
