/**
 * The route handlers of server/index.js over the record store: plain
 * delegation for contacts, appointments and tasks, the notification hook
 * after an appointment is created, and the account routes (login, register,
 * user fetch and user update) that find and merge records of `users`.
 *
 * Each handler is one atomic step on the store. Its reply is what
 * `res.json` sends, so records in replies have passed through `Normalize`.
 * A notification is returned as the call the handler makes, not sent.
 */
module ApiServer {
  import opened Options
  import opened JsValues
  import opened JsArrays
  import opened JsonDb

  const Contacts := "contacts"
  const Appointments := "appointments"
  const Tasks := "tasks"
  const Users := "users"

  const InvalidCredentials := "Kullan\U{0131}c\U{0131} ad\U{0131} veya \U{015F}ifre hatal\U{0131}"
  const UsernameTaken := "Bu kullan\U{0131}c\U{0131} ad\U{0131} zaten kullan\U{0131}l\U{0131}yor"
  const UserNotFound := "Kullan\U{0131}c\U{0131} bulunamad\U{0131}"

  /**
   * Replies of the account routes: `{ success: true, user }`, a bare user
   * object, or an error status with `{ success: false, message }`.
   */
  datatype UserReply = Success(user: Record) | Found(user: Record) | Failure(status: nat, message: string)

  /** The call `whatsapp.sendMessage(to, message)`. */
  datatype Notification = Notification(to: Value, message: string)

  /** `{ success: true }`, the reply of every delete route. */
  const Deleted: Record := map["success" := Bool(true)]

  // ------------------------------------------------------------ pure decisions

  predicate HasCredentials(u: Record, username: Value, password: Value) {
    Get(u, "username") == username && Get(u, "password") == password
  }

  function CredentialsAre(username: Value, password: Value): Record -> bool {
    u => HasCredentials(u, username, password)
  }

  /**
   * Login: the first user whose `username` and `password` both equal the
   * supplied values, without its password; otherwise 401 with one message,
   * the same whichever of the two was wrong.
   */
  function LoginOutcome(users: seq<Record>, username: Value, password: Value): (r: UserReply)
    ensures r.Success? <==> exists i :: 0 <= i < |users| && HasCredentials(users[i], username, password)
    ensures r.Success? ==> "password" !in r.user
    ensures r.Success? ==> exists i :: 0 <= i < |users| && HasCredentials(users[i], username, password)
                                       && (forall j :: 0 <= j < i ==> !HasCredentials(users[j], username, password))
                                       && r.user == Rest(users[i], "password")
    ensures !r.Success? ==> r == Failure(401, InvalidCredentials)
  {
    match Find(users, CredentialsAre(username, password))
    case Some(u) => Success(Rest(u, "password"))
    case None => Failure(401, InvalidCredentials)
  }

  function UsernameIs(username: Value): Record -> bool {
    u => Get(u, "username") == username
  }

  /** Register's conflict check: some stored user already has this username. */
  function UsernameInUse(users: seq<Record>, username: Value): (taken: bool)
    ensures taken <==> exists i :: 0 <= i < |users| && Get(users[i], "username") == username
  {
    Find(users, UsernameIs(username)).Some?
  }

  /** The record register stores: the five body fields and the creation time. */
  function RegisterItem(body: Record, now: string): (item: Record)
    ensures item.Keys == {"username", "password", "name", "email", "phone", "createdAt"}
    ensures forall k :: k in item && k != "createdAt" ==> item[k] == Get(body, k)
    ensures item["createdAt"] == Str(now)
  {
    map["username" := Get(body, "username"), "password" := Get(body, "password"),
        "name" := Get(body, "name"), "email" := Get(body, "email"),
        "phone" := Get(body, "phone"), "createdAt" := Str(now)]
  }

  /** GET /api/users/:id: the user with that id, without its password, or 404. */
  function GetUserOutcome(users: seq<Record>, id: string): (r: UserReply)
    ensures r.Found? <==> exists i :: 0 <= i < |users| && HasId(users[i], id)
    ensures r.Found? ==> "password" !in r.user
    ensures r.Found? ==> exists i :: 0 <= i < |users| && HasId(users[i], id) && r.user == Rest(users[i], "password")
                                     && forall j :: 0 <= j < i ==> !HasId(users[j], id)
    ensures !r.Found? ==> r == Failure(404, UserNotFound)
  {
    match Find(users, IdIs(id))
    case Some(u) => Found(Rest(u, "password"))
    case None => Failure(404, UserNotFound)
  }

  /**
   * PUT /api/users/:id's `updateData`: `name`, `email` and `phone` always —
   * `undefined` when the body lacks them — and `password` only when the
   * body's password is truthy.
   */
  function UserUpdateData(body: Record): (u: Record)
    ensures u.Keys == {"name", "email", "phone"} + (if Truthy(Get(body, "password")) then {"password"} else {})
    ensures forall k :: k in u ==> u[k] == Get(body, k)
  {
    var base := map["name" := Get(body, "name"), "email" := Get(body, "email"), "phone" := Get(body, "phone")];
    if Truthy(Get(body, "password")) then base["password" := Get(body, "password")] else base
  }

  /** The message text of the appointment notification. */
  function AppointmentMessage(contactName: Value, date: Value): string {
    "Say\U{0131}n " + ToJsString(contactName) + ", " + ToJsString(date)
      + " tarihli randevunuz olu\U{015F}turulmu\U{015F}tur."
  }

  /** The hook is called exactly when the created appointment's `contactPhone` is truthy, with that phone. */
  function NotificationFor(appointment: Record): (n: Option<Notification>)
    ensures n.Some? <==> Truthy(Get(appointment, "contactPhone"))
    ensures n.Some? ==> n.value.to == Get(appointment, "contactPhone")
                        && n.value.message == AppointmentMessage(Get(appointment, "contactName"), Get(appointment, "date"))
  {
    if Truthy(Get(appointment, "contactPhone")) then
      Some(Notification(Get(appointment, "contactPhone"),
                        AppointmentMessage(Get(appointment, "contactName"), Get(appointment, "date"))))
    else None
  }

  // ------------------------------------------------------------ route handlers

  /** GET /api/contacts, /api/appointments, /api/tasks: the whole collection. */
  method List(db: JsonDbService, c: string) returns (reply: seq<Record>)
    requires db.Valid()
    modifies db
    ensures db.Valid() && db.writable == old(db.writable)
    ensures reply == old(db.Stored(c))
    ensures db.files == ReadEffect(old(db.files), c, db.writable)
  {
    reply := db.Read(c);
  }

  /** POST /api/contacts, /api/tasks: the body stored with a generated id, echoed back. */
  method Create(db: JsonDbService, c: string, body: Record, freshId: string) returns (reply: Record)
    requires db.Valid()
    modifies db
    ensures db.Valid() && db.writable == old(db.writable)
    ensures reply == Normalize(NewItem(body, freshId))
    ensures db.files == AddEffect(old(db.files), c, NewItem(body, freshId), db.writable)
  {
    var item := db.Add(c, body, freshId);
    reply := Normalize(item);
  }

  /** DELETE /api/contacts/:id, /api/appointments/:id, /api/tasks/:id. */
  method Remove(db: JsonDbService, c: string, id: string) returns (reply: Record)
    requires db.Valid()
    modifies db
    ensures db.Valid() && db.writable == old(db.writable)
    ensures reply == Deleted
    ensures db.files == DeleteEffect(old(db.files), c, id, db.writable)
  {
    var ok := db.Delete(c, id);
    reply := Deleted;
  }

  /** PUT /api/tasks/:id: the merged task, or `null` when no task has that id. */
  method PutTask(db: JsonDbService, id: string, body: Record) returns (reply: Option<Record>)
    requires db.Valid()
    modifies db
    ensures db.Valid() && db.writable == old(db.writable)
    ensures match UpdateResult(old(db.files), Tasks, id, body)
            case None => reply == None
            case Some(task) => reply == Some(Normalize(task))
    ensures db.files == UpdateEffect(old(db.files), Tasks, id, body, db.writable)
  {
    var task := db.Update(Tasks, id, body);
    match task {
      case None => reply := None;
      case Some(t) => reply := Some(Normalize(t));
    }
  }

  /** POST /api/appointments: stores the appointment and, when it has a phone, calls the notification hook. */
  method PostAppointment(db: JsonDbService, body: Record, freshId: string)
    returns (reply: Record, notification: Option<Notification>)
    requires db.Valid()
    modifies db
    ensures db.Valid() && db.writable == old(db.writable)
    ensures reply == Normalize(NewItem(body, freshId))
    ensures notification == NotificationFor(NewItem(body, freshId))
    ensures db.files == AddEffect(old(db.files), Appointments, NewItem(body, freshId), db.writable)
  {
    var appointment := db.Add(Appointments, body, freshId);
    notification := None;
    if Truthy(Get(appointment, "contactPhone")) {
      var message := AppointmentMessage(Get(appointment, "contactName"), Get(appointment, "date"));
      notification := Some(Notification(Get(appointment, "contactPhone"), message));
    }
    reply := Normalize(appointment);
  }

  /** POST /api/auth/login. */
  method Login(db: JsonDbService, body: Record) returns (reply: UserReply)
    requires db.Valid()
    modifies db
    ensures db.Valid() && db.writable == old(db.writable)
    ensures reply == LoginOutcome(old(db.Stored(Users)), Get(body, "username"), Get(body, "password"))
    ensures db.files == ReadEffect(old(db.files), Users, db.writable)
  {
    var users := db.Read(Users);
    var user := Find(users, CredentialsAre(Get(body, "username"), Get(body, "password")));
    if user.Some? {
      reply := Success(Rest(user.value, "password"));
    } else {
      reply := Failure(401, InvalidCredentials);
    }
  }

  /**
   * POST /api/auth/register: a username already in use is refused with 400
   * and nothing is added; otherwise one user is added and returned without
   * its password.
   */
  method Register(db: JsonDbService, body: Record, freshId: string, now: string) returns (reply: UserReply)
    requires db.Valid()
    modifies db
    ensures db.Valid() && db.writable == old(db.writable)
    ensures UsernameInUse(old(db.Stored(Users)), Get(body, "username")) ==>
              reply == Failure(400, UsernameTaken) && db.files == ReadEffect(old(db.files), Users, db.writable)
    ensures !UsernameInUse(old(db.Stored(Users)), Get(body, "username")) ==>
              && reply == Success(Normalize(Rest(NewItem(RegisterItem(body, now), freshId), "password")))
              && db.files == AddEffect(old(db.files), Users, NewItem(RegisterItem(body, now), freshId), db.writable)
  {
    var users := db.Read(Users);
    ghost var afterRead := db.files;
    var existing := Find(users, UsernameIs(Get(body, "username")));
    if existing.Some? {
      return Failure(400, UsernameTaken);
    }
    var newUser := db.Add(Users, RegisterItem(body, now), freshId);
    AddAfterRead(old(db.files), Users, newUser, db.writable);
    reply := Success(Normalize(Rest(newUser, "password")));
  }

  /** GET /api/users/:id. */
  method GetUser(db: JsonDbService, id: string) returns (reply: UserReply)
    requires db.Valid()
    modifies db
    ensures db.Valid() && db.writable == old(db.writable)
    ensures reply == GetUserOutcome(old(db.Stored(Users)), id)
    ensures db.files == ReadEffect(old(db.files), Users, db.writable)
  {
    var users := db.Read(Users);
    var user := Find(users, IdIs(id));
    if user.Some? {
      reply := Found(Rest(user.value, "password"));
    } else {
      reply := Failure(404, UserNotFound);
    }
  }

  /**
   * PUT /api/users/:id: merges `UserUpdateData(body)` into the user; replies
   * with the merged user without its password, or 404 when no user has the id.
   */
  method PutUser(db: JsonDbService, id: string, body: Record) returns (reply: UserReply)
    requires db.Valid()
    modifies db
    ensures db.Valid() && db.writable == old(db.writable)
    ensures match UpdateResult(old(db.files), Users, id, UserUpdateData(body))
            case None => reply == Failure(404, UserNotFound)
            case Some(u) => reply == Success(Normalize(Rest(u, "password")))
    ensures db.files == UpdateEffect(old(db.files), Users, id, UserUpdateData(body), db.writable)
  {
    var updateData: Record := map["name" := Get(body, "name"), "email" := Get(body, "email"), "phone" := Get(body, "phone")];
    if Truthy(Get(body, "password")) {
      updateData := updateData["password" := Get(body, "password")];
    }
    var updated := db.Update(Users, id, updateData);
    if updated.Some? {
      reply := Success(Normalize(Rest(updated.value, "password")));
    } else {
      reply := Failure(404, UserNotFound);
    }
  }

  // ------------------------------------------------------------ properties

  /** A reply to login, register or user fetch never carries a password field. */
  lemma RepliesOmitPassword(users: seq<Record>, body: Record, id: string, freshId: string, now: string)
    ensures var r := LoginOutcome(users, Get(body, "username"), Get(body, "password"));
      r.Success? ==> "password" !in r.user
    ensures var r := GetUserOutcome(users, id); r.Found? ==> "password" !in r.user
    ensures "password" !in Normalize(Rest(NewItem(RegisterItem(body, now), freshId), "password"))
  {
  }

  /**
   * A successful registration adds exactly one user, holding the body's
   * username, password, name, email and phone (those it has) and the
   * creation time, under the generated id.
   */
  lemma RegisterAddsOneUser(files: map<string, File>, body: Record, freshId: string, now: string)
    ensures var after := StoredIn(AddEffect(files, Users, NewItem(RegisterItem(body, now), freshId), true), Users);
      var before := StoredIn(files, Users);
      && |after| == |before| + 1
      && after[..|before|] == before
      && Get(after[|before|], "id") == Str(freshId)
      && Get(after[|before|], "createdAt") == Str(now)
      && forall k :: k in {"username", "password", "name", "email", "phone"} ==> Get(after[|before|], k) == Get(body, k)
  {
    var item := RegisterItem(body, now);
    var n := Normalize(NewItem(item, freshId));
    forall k | k in {"username", "password", "name", "email", "phone"} ensures Get(n, k) == Get(body, k) {
      assert Get(n, k) == Get(NewItem(item, freshId), k) == Get(item, k);
    }
  }

  /**
   * PUT /api/users/:id merged into a stored user: the body's `name`, `email`
   * and `phone` replace the stored ones, an absent one erasing the field,
   * and the stored password survives unless the body brings a truthy one.
   */
  lemma PutUserFields(user: Record, body: Record)
    requires IsJson(body)
    ensures var merged := Normalize(Spread(user, UserUpdateData(body)));
      && (forall k :: k in {"name", "email", "phone"} ==> Get(merged, k) == Get(body, k))
      && Get(merged, "password") == (if Truthy(Get(body, "password")) then Get(body, "password") else Get(user, "password"))
      && forall k :: k !in {"name", "email", "phone", "password"} ==> Get(merged, k) == Get(user, k)
  {
    var u := UserUpdateData(body);
    var s := Spread(user, u);
    forall k | k in {"name", "email", "phone"} ensures Get(Normalize(s), k) == Get(body, k) {
      assert k in u;
    }
  }

  /** A user update on an unknown id changes no record and replies 404. */
  lemma PutUserUnknownId(files: map<string, File>, id: string, body: Record, writable: bool)
    requires forall j :: 0 <= j < |StoredIn(files, Users)| ==> !HasId(StoredIn(files, Users)[j], id)
    ensures UpdateResult(files, Users, id, UserUpdateData(body)) == None
    ensures forall c :: StoredIn(UpdateEffect(files, Users, id, UserUpdateData(body), writable), c) == StoredIn(files, c)
  {
    UpdateAbsent(files, Users, id, UserUpdateData(body), writable);
  }

  // ------------------------------------------- finding: password-only update

  /**
   * The password change of the settings page sends a body holding only
   * `password`. Merged as written, that body erases the stored user's
   * `name`, `email` and `phone`.
   */
  lemma PasswordOnlyUpdateErasesProfile()
    ensures var user: Record := map["id" := Str("1"), "username" := Str("ayse"), "password" := Str("old123"),
                                    "name" := Str("Ay\U{015F}e"), "email" := Str("a@b.c"), "phone" := Str("5551234567")];
      var body: Record := map["password" := Str("new123")];
      var stored := Normalize(Spread(user, UserUpdateData(body)));
      && "name" !in stored && "email" !in stored && "phone" !in stored
      && stored["password"] == Str("new123")
  {
  }

  /** The update data the handler evidently means: only the fields the body defines. */
  function CorrectedUserUpdateData(body: Record): (u: Record)
    ensures IsJson(u)
    ensures forall k :: k in u ==> u[k] == Get(body, k)
    ensures forall k :: k in {"name", "email", "phone"} && Get(body, k) != Undefined ==> k in u
    ensures "password" in u <==> Truthy(Get(body, "password"))
    ensures u.Keys <= {"name", "email", "phone", "password"}
  {
    var base := map k | k in {"name", "email", "phone"} && Get(body, k) != Undefined :: body[k];
    if Truthy(Get(body, "password")) then base["password" := body["password"]] else base
  }

  /**
   * With the corrected update data a password-only body changes the password
   * and keeps every other field; a body with all three profile fields is
   * merged exactly as the source merges it.
   */
  lemma CorrectedUpdateKeepsProfile(user: Record, body: Record)
    requires IsJson(body)
    ensures Truthy(Get(body, "password")) && body.Keys == {"password"} ==>
      var merged := Normalize(Spread(user, CorrectedUserUpdateData(body)));
      && Get(merged, "password") == body["password"]
      && forall k :: k != "password" ==> Get(merged, k) == Get(user, k)
    ensures {"name", "email", "phone"} <= body.Keys ==>
      Normalize(Spread(user, CorrectedUserUpdateData(body))) == Normalize(Spread(user, UserUpdateData(body)))
  {
    if {"name", "email", "phone"} <= body.Keys {
      var c := CorrectedUserUpdateData(body);
      var w := UserUpdateData(body);
      assert c.Keys == w.Keys;
      assert c == w;
    }
  }
}
