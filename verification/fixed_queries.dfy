/** The queries of `database.js` whose text does not depend on the input:
    each binds a fixed list of values to `$1, $2, ...` in order. */
module FixedQueries {
  import Js
  import opened Sql

  /** The user record passed to `addUser`; a missing field is `Undefined`. */
  datatype NewUser = NewUser(name: Js.Value, email: Js.Value, password: Js.Value)

  const UserSelectText: string := "\n  SELECT * \n  FROM users\n  where"
  const UserEndText: string := ";\n  "
  const InsertText: string := "\n   INSERT INTO users (name, email, password)  VALUES"
  const InsertEndText: string := ")\n   RETURNING *;\n  "
  const ReservationsHead: string :=
    "\n   SELECT *\n   FROM properties\n   JOIN reservations\n   ON properties.id = reservations.property_id\n   WHERE"
  const ReservationsBreak: string := "\n   "
  const ReservationsEndText: string := ";\n  "

  /** The limit `getAllReservations` uses when none is given. */
  const DefaultReservationLimit: int := 10

  /** The value a JavaScript default parameter takes: the default replaces
      only an absent (undefined) argument, not null or another falsy value. */
  function WithDefault(arg: Js.Value, default: Js.Value): Js.Value {
    if arg.Undefined? then default else arg
  }

  /** `getUserWithEmail`: looks a user up by email, bound as `$1`. */
  function UserWithEmail(email: Js.Value): (r: Query)
    ensures Numbered(r)
    ensures r.params == [Value(email)]
    ensures Slots(r.sql) == [EmailIs]
    ensures Connectives(r.sql) == []
  {
    ThreeTokenViews(Text(UserSelectText), Placeholder(EmailIs, 1), Text(UserEndText));
    Query([Text(UserSelectText), Placeholder(EmailIs, 1), Text(UserEndText)], [Value(email)])
  }

  /** `getUserWithId`: looks a user up by id, bound as `$1`. */
  function UserWithId(id: Js.Value): (r: Query)
    ensures Numbered(r)
    ensures r.params == [Value(id)]
    ensures Slots(r.sql) == [IdIs]
    ensures Connectives(r.sql) == []
  {
    ThreeTokenViews(Text(UserSelectText), Placeholder(IdIs, 1), Text(UserEndText));
    Query([Text(UserSelectText), Placeholder(IdIs, 1), Text(UserEndText)], [Value(id)])
  }

  /** `addUser`: inserts the name, email and password, bound as `$1`, `$2`
      and `$3` in that order. */
  function AddUser(user: NewUser): (r: Query)
    ensures Numbered(r)
    ensures r.params == [Value(user.name), Value(user.email), Value(user.password)]
    ensures Slots(r.sql) == [NewName, NewEmail, NewPassword]
    ensures Connectives(r.sql) == []
  {
    FiveTokenViews(Text(InsertText), Placeholder(NewName, 1), Placeholder(NewEmail, 2),
      Placeholder(NewPassword, 3), Text(InsertEndText));
    Query([Text(InsertText), Placeholder(NewName, 1), Placeholder(NewEmail, 2),
           Placeholder(NewPassword, 3), Text(InsertEndText)],
          [Value(user.name), Value(user.email), Value(user.password)])
  }

  /** `getAllReservations`: the guest id as `$1` and the limit as `$2`, the
      limit being 10 when it is not given. */
  function Reservations(guest_id: Js.Value, limit: Js.Value): (r: Query)
    ensures Numbered(r)
    ensures r.params == [Value(guest_id), Value(WithDefault(limit, Js.Num(DefaultReservationLimit)))]
    ensures Slots(r.sql) == [GuestIs, Limit]
    ensures Connectives(r.sql) == []
  {
    FiveTokenViews(Text(ReservationsHead), Placeholder(GuestIs, 1), Text(ReservationsBreak),
      Placeholder(Limit, 2), Text(ReservationsEndText));
    Query([Text(ReservationsHead), Placeholder(GuestIs, 1), Text(ReservationsBreak),
           Placeholder(Limit, 2), Text(ReservationsEndText)],
          [Value(guest_id), Value(WithDefault(limit, Js.Num(DefaultReservationLimit)))])
  }

  /** Without a limit the reservations are capped at 10; a given limit,
      even a falsy one such as 0 or null, is bound as it is. */
  lemma ReservationsDefaultLimit(guest_id: Js.Value, limit: Js.Value)
    ensures Reservations(guest_id, Js.Undefined).params[1] == Value(Js.Num(10))
    ensures !limit.Undefined? ==> Reservations(guest_id, limit).params[1] == Value(limit)
    ensures Reservations(guest_id, limit).params[0] == Value(guest_id)
  {
  }

  /** Every placeholder of `addUser`'s query refers to the value at its own
      position, and that value is the field its slot names. */
  lemma AddUserPlaceholdersBind(user: NewUser, j: nat)
    requires j < |AddUser(user).sql| && AddUser(user).sql[j].Placeholder?
    ensures var r := AddUser(user);
      var n := r.sql[j].n;
      && 1 <= n <= 3
      && (r.sql[j].slot == NewName ==> r.params[n - 1] == Value(user.name))
      && (r.sql[j].slot == NewEmail ==> r.params[n - 1] == Value(user.email))
      && (r.sql[j].slot == NewPassword ==> r.params[n - 1] == Value(user.password))
  {
    PlaceholderRefersToPosition(AddUser(user), j);
  }

  /** Every placeholder of `getAllReservations`' query refers to the value
      at its own position: the guest id, or the (defaulted) limit. */
  lemma ReservationsPlaceholdersBind(guest_id: Js.Value, limit: Js.Value, j: nat)
    requires j < |Reservations(guest_id, limit).sql| && Reservations(guest_id, limit).sql[j].Placeholder?
    ensures var r := Reservations(guest_id, limit);
      var n := r.sql[j].n;
      && 1 <= n <= 2
      && (r.sql[j].slot == GuestIs ==> r.params[n - 1] == Value(guest_id))
      && (r.sql[j].slot == Limit
          ==> r.params[n - 1] == Value(WithDefault(limit, Js.Num(DefaultReservationLimit))))
  {
    PlaceholderRefersToPosition(Reservations(guest_id, limit), j);
  }

  /** The text `getUserWithEmail` sends. */
  lemma UserWithEmailText(email: Js.Value)
    ensures Render(UserWithEmail(email).sql) == UserSelectText + " email =$1" + UserEndText
  {
    var b := Placeholder(EmailIs, 1);
    RenderThree(Text(UserSelectText), b, Text(UserEndText));
    assert RenderToken(b) == " email =$1" by {
      PlaceholderText(EmailIs, 1, "1");
    }
  }

  /** The text `getUserWithId` sends. */
  lemma UserWithIdText(id: Js.Value)
    ensures Render(UserWithId(id).sql) == UserSelectText + " id =$1" + UserEndText
  {
    var b := Placeholder(IdIs, 1);
    RenderThree(Text(UserSelectText), b, Text(UserEndText));
    assert RenderToken(b) == " id =$1" by {
      PlaceholderText(IdIs, 1, "1");
    }
  }

  /** The text `addUser` sends: `($1, $2, $3)` after VALUES. */
  lemma AddUserText(user: NewUser)
    ensures Render(AddUser(user).sql) == InsertText + "($1" + ", $2" + ", $3" + InsertEndText
  {
    var a, b, c, d, e := Text(InsertText), Placeholder(NewName, 1), Placeholder(NewEmail, 2),
      Placeholder(NewPassword, 3), Text(InsertEndText);
    assert RenderToken(b) == "($1" by {
      PlaceholderText(NewName, 1, "1");
    }
    assert RenderToken(c) == ", $2" by {
      PlaceholderText(NewEmail, 2, "2");
    }
    assert RenderToken(d) == ", $3" by {
      PlaceholderText(NewPassword, 3, "3");
    }
    calc {
      Render(AddUser(user).sql);
      Render([a, b, c, d, e]);
      { RenderFive(a, b, c, d, e); }
      RenderToken(a) + RenderToken(b) + RenderToken(c) + RenderToken(d) + RenderToken(e);
    }
  }

  /** The text `getAllReservations` sends. */
  lemma ReservationsText(guest_id: Js.Value, limit: Js.Value)
    ensures Render(Reservations(guest_id, limit).sql)
         == ReservationsHead + " guest_id=$1" + ReservationsBreak + "LIMIT $2" + ReservationsEndText
  {
    var a, b, c, d, e := Text(ReservationsHead), Placeholder(GuestIs, 1), Text(ReservationsBreak),
      Placeholder(Limit, 2), Text(ReservationsEndText);
    assert RenderToken(b) == " guest_id=$1" by {
      PlaceholderText(GuestIs, 1, "1");
    }
    assert RenderToken(d) == "LIMIT $2" by {
      PlaceholderText(Limit, 2, "2");
    }
    calc {
      Render(Reservations(guest_id, limit).sql);
      Render([a, b, c, d, e]);
      { RenderFive(a, b, c, d, e); }
      RenderToken(a) + RenderToken(b) + RenderToken(c) + RenderToken(d) + RenderToken(e);
    }
  }
}
