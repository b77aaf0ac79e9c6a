/** Profile update: the PUT handler keeps only a fixed list of fields from
    the request body, always sets the e-mail from the signed-in user, and
    upserts the result into the caller's own profile row. */
module Profile {
  import opened Common

  /** A JSON value of the request body. */
  datatype Json = JNull | JBool(b: bool) | JNum(n: int) | JStr(s: string) | JArray(items: seq<Json>) | JObject(fields: map<string, Json>)

  /** The signed-in user as the authentication service reports it. */
  datatype AuthUser = AuthUser(id: string, email: Option<string>)

  const EmailField := "email"
  const IdField := "id"

  /** The fields a caller may set. */
  const AllowedFields: seq<string> :=
    ["full_name", "phone", "company_name", "job_title", "country", "preferred_language", "onboarded", "avatar_url"]

  /** The update built from `body` by taking, in order, each field of
      `fields` that it has, after the forced e-mail. */
  function Picked(email: Option<string>, body: map<string, Json>, fields: seq<string>): map<string, Json>
  {
    if fields == [] then map[EmailField := JStr(OrElse(email, ""))]
    else
      var m := Picked(email, body, fields[..|fields| - 1]);
      var f := fields[|fields| - 1];
      if f in body then m[f := body[f]] else m
  }

  /** For any field list without `email`: the e-mail is the user's (or "")
      whatever the body says, a key is present exactly when it is the
      e-mail or a listed field the body has, and a listed field keeps the
      body's value. */
  lemma {:induction false} PickedKeys(email: Option<string>, body: map<string, Json>, fields: seq<string>)
    requires EmailField !in fields
    ensures EmailField in Picked(email, body, fields)
    ensures Picked(email, body, fields)[EmailField] == JStr(OrElse(email, ""))
    ensures forall k :: k in Picked(email, body, fields) <==> k == EmailField || (k in fields && k in body)
    ensures forall k :: k in Picked(email, body, fields) && k != EmailField ==> Picked(email, body, fields)[k] == body[k]
  {
    if fields != [] {
      var init := fields[..|fields| - 1];
      assert forall k :: k in fields <==> k in init || k == fields[|fields| - 1];
      PickedKeys(email, body, init);
    }
  }

  /** What the whitelist promises: the e-mail is the user's (or "") whatever
      the body says, no key outside the list but the e-mail gets in (so
      never `id`), and a listed key is copied, value unchanged, exactly
      when the body has it. */
  lemma PickedKeepsOnlyAllowed(email: Option<string>, body: map<string, Json>)
    ensures var u := Picked(email, body, AllowedFields);
      && EmailField in u && u[EmailField] == JStr(OrElse(email, ""))
      && (forall k :: k in u ==> k == EmailField || k in AllowedFields)
      && (forall k :: k in AllowedFields ==> (k in u <==> k in body))
      && (forall k :: k in AllowedFields && k in body ==> u[k] == body[k])
      && IdField !in u
  {
    assert EmailField !in AllowedFields && IdField !in AllowedFields;
    PickedKeys(email, body, AllowedFields);
  }

  /** The loop of PUT over the allowed fields. */
  method BuildUpdates(email: Option<string>, body: map<string, Json>) returns (updates: map<string, Json>)
    ensures updates == Picked(email, body, AllowedFields)
  {
    updates := map[EmailField := JStr(OrElse(email, ""))];
    for i := 0 to |AllowedFields|
      invariant updates == Picked(email, body, AllowedFields[..i])
    {
      var key := AllowedFields[i];
      assert AllowedFields[..i + 1][..i] == AllowedFields[..i];
      if key in body {
        updates := updates[key := body[key]];
      }
    }
    assert AllowedFields[..|AllowedFields|] == AllowedFields;
  }

  /** `upsertProfile`: `{ id: userId, ...updates }` written over the row with
      that id, or as a new row; columns not named keep their values. */
  function Upserted(existing: map<string, Json>, userId: string, updates: map<string, Json>): (row: map<string, Json>)
    ensures row.Keys == existing.Keys + updates.Keys + {IdField}
    ensures forall k :: k in updates ==> row[k] == updates[k]
    ensures IdField !in updates ==> row[IdField] == JStr(userId)
    ensures forall k :: k in existing && k !in updates && k != IdField ==> row[k] == existing[k]
  {
    existing + (map[IdField := JStr(userId)] + updates)
  }

  /** The row PUT leaves behind: the caller's id, the caller's e-mail,
      every allowed field of the body with its value, and no new column
      other than those; columns the update does not name keep their values. */
  lemma UpsertedProfileRow(existing: map<string, Json>, userId: string, email: Option<string>, body: map<string, Json>)
    ensures var r := Upserted(existing, userId, Picked(email, body, AllowedFields));
      && IdField in r && r[IdField] == JStr(userId)
      && EmailField in r && r[EmailField] == JStr(OrElse(email, ""))
      && (forall k :: k in AllowedFields && k in body ==> k in r && r[k] == body[k])
      && (forall k :: k in r && k !in existing ==> k == IdField || k == EmailField || (k in AllowedFields && k in body))
      && (forall k :: k in existing && k != IdField && k != EmailField && k !in body ==> r[k] == existing[k])
  {
    PickedKeepsOnlyAllowed(email, body);
  }

  datatype ProfileResponse = Unauthenticated | UpdateFailed | Updated(profile: map<string, Json>)
  {
    function Status(): int {
      match this
      case Unauthenticated => 401
      case UpdateFailed => 500
      case Updated(_) => 200
    }
  }

  class ProfileStore {
    /** The `cap_profiles` table, by profile id. */
    var profiles: map<string, map<string, Json>>

    /** Every row carries its own key as its id. */
    ghost predicate Valid()
      reads this
    {
      forall id :: id in profiles ==> IdField in profiles[id] && profiles[id][IdField] == JStr(id)
    }

    constructor ()
      ensures Valid() && profiles == map[]
    {
      profiles := map[];
    }

    /** `upsertProfile`; the store refuses when `ok` is false. */
    method UpsertProfile(userId: string, updates: map<string, Json>, ok: bool) returns (row: Option<map<string, Json>>)
      requires Valid()
      requires IdField !in updates
      modifies this
      ensures Valid()
      ensures row.Some? <==> ok
      ensures ok ==>
        var r := Upserted(if userId in old(profiles) then old(profiles)[userId] else map[], userId, updates);
        row == Some(r) && profiles == old(profiles)[userId := r]
      ensures !ok ==> profiles == old(profiles)
    {
      if !ok {
        return None;
      }
      var r := Upserted(if userId in profiles then profiles[userId] else map[], userId, updates);
      profiles := profiles[userId := r];
      row := Some(r);
    }

    /** PUT: only the caller's own row changes, it keeps the caller's id
        whatever the body holds, and its e-mail is the caller's. */
    method Put(user: Option<AuthUser>, body: map<string, Json>, storeOk: bool) returns (resp: ProfileResponse)
      requires Valid()
      modifies this
      ensures Valid()
      ensures user.None? ==> resp == Unauthenticated && profiles == old(profiles)
      ensures user.Some? && !storeOk ==> resp == UpdateFailed && profiles == old(profiles)
      ensures user.Some? && storeOk ==>
        var id := user.value.id;
        var existing := if id in old(profiles) then old(profiles)[id] else map[];
        && resp == Updated(Upserted(existing, id, Picked(user.value.email, body, AllowedFields)))
        && profiles == old(profiles)[id := resp.profile]
    {
      if user.None? {
        return Unauthenticated;
      }
      var updates := BuildUpdates(user.value.email, body);
      PickedKeepsOnlyAllowed(user.value.email, body);
      var profile := UpsertProfile(user.value.id, updates, storeOk);
      if profile.None? {
        return UpdateFailed;
      }
      resp := Updated(profile.value);
    }
  }
}
