/**
 * `backend/storage/user_store.py`: the users file, a JSON object mapping user
 * ids to user records, read whole by `_load_raw` and written whole by
 * `_save_raw` after every change. The file is the state of a `Store`;
 * reads are functions of the document it holds.
 */
module UserStore {
  import opened Wrappers
  import opened JsonCodec

  /** What `users.json` holds: nothing, something `open`/`json.load` cannot read, or a JSON document. */
  datatype UsersFile = Missing | Corrupt | Stored(doc: Json)

  /** An `AttributeError` from a document of the wrong shape; it is not caught. */
  datatype StoreError =
    | UsersNotAnObject     // the document is not a dict
    | UserNotAnObject      // the user record is not a dict
    | ContactsNotAList     // the contacts entry is not a list

  /** The users map after a change, with what the operation returns. */
  datatype Saved<T> = Saved(users: map<string, Json>, value: T)

  /** `_load_raw()`: a missing or unreadable file reads as the empty dict. */
  function LoadRaw(f: UsersFile): (doc: Json)
    ensures !f.Stored? ==> doc == JObject(map[])
    ensures f.Stored? ==> doc == f.doc
  {
    match f
    case Stored(doc) => doc
    case _ => JObject(map[])
  }

  /** Python truthiness of a JSON value, for `users.get(user_id) or {}`. */
  predicate Truthy(j: Json) {
    match j
    case JNull => false
    case JBool(b) => b
    case JInt(n) => n != 0
    case JString(s) => s != ""
    case JArray(items) => items != []
    case JObject(fields) => fields != map[]
  }

  /** `get_user(user_id)` on the loaded document: the stored record, or None. */
  function GetUser(doc: Json, userId: string): (r: Result<Option<Json>, StoreError>)
    ensures r.Ok? <==> doc.JObject?
    ensures r.Ok? ==> (r.value.Some? <==> userId in doc.fields)
    ensures r.Ok? && r.value.Some? ==> r.value.value == doc.fields[userId]
  {
    if !doc.JObject? then Err(UsersNotAnObject)
    else if userId in doc.fields then Ok(Some(doc.fields[userId]))
    else Ok(None)
  }

  /** `list_contacts(user_id)` on the loaded document. */
  function ListContacts(doc: Json, userId: string): (r: Result<Json, StoreError>)
    ensures doc.JObject? && (userId !in doc.fields || !Truthy(doc.fields[userId])) ==> r == Ok(JArray([]))
    ensures (doc.JObject? && userId in doc.fields && doc.fields[userId].JObject?
             && "contacts" !in doc.fields[userId].fields) ==> r == Ok(JArray([]))
    ensures (doc.JObject? && userId in doc.fields && doc.fields[userId].JObject?
             && "contacts" in doc.fields[userId].fields) ==> r == Ok(doc.fields[userId].fields["contacts"])
    ensures r.Err? <==>
      !doc.JObject? || (userId in doc.fields && Truthy(doc.fields[userId]) && !doc.fields[userId].JObject?)
    ensures r.Ok? && r != Ok(JArray([])) ==>
      && doc.JObject? && userId in doc.fields && doc.fields[userId].JObject?
      && "contacts" in doc.fields[userId].fields && r.value == doc.fields[userId].fields["contacts"]
  {
    if !doc.JObject? then Err(UsersNotAnObject)
    else
      var user := if userId in doc.fields && Truthy(doc.fields[userId]) then doc.fields[userId] else JObject(map[]);
      if !user.JObject? then Err(UserNotAnObject)
      else if "contacts" in user.fields then Ok(user.fields["contacts"])
      else Ok(JArray([]))
  }

  /** The four fields `create_or_update_user` writes. */
  function ProfileFields(userId: string, name: string, phone: string, language: string): map<string, Json> {
    map["id" := JString(userId), "name" := JString(name), "phone" := JString(phone), "language" := JString(language)]
  }

  /** The record `add_contact` creates for an unknown user. */
  function DefaultUser(userId: string): map<string, Json> {
    ProfileFields(userId, "", "", "english")
  }

  function ContactRecord(contactName: string, contactId: string): Json {
    JObject(map["name" := JString(contactName), "id" := JString(contactId)])
  }

  /** `create_or_update_user` on the loaded document: the users map saved and the record returned. */
  function Upsert(doc: Json, userId: string, name: string, phone: string,
                  language: string): (r: Result<Saved<map<string, Json>>, StoreError>)
    ensures r.Err? <==> !doc.JObject? || (userId in doc.fields && !doc.fields[userId].JObject?)
    ensures r.Ok? ==> r.value.users == doc.fields[userId := JObject(r.value.value)]
  {
    if !doc.JObject? then Err(UsersNotAnObject)
    else
      var prior := if userId in doc.fields then doc.fields[userId] else JObject(map[]);
      if !prior.JObject? then Err(UserNotAnObject)
      else
        var user := prior.fields + ProfileFields(userId, name, phone, language);
        Ok(Saved(doc.fields[userId := JObject(user)], user))
  }

  /** `add_contact` on the loaded document: the users map saved and the contact list returned. */
  function AppendContact(doc: Json, userId: string, contactName: string,
                         contactId: string): (r: Result<Saved<seq<Json>>, StoreError>)
    ensures r.Err? <==>
      || !doc.JObject?
      || (userId in doc.fields && !doc.fields[userId].JObject?)
      || (userId in doc.fields && "contacts" in doc.fields[userId].fields
          && !doc.fields[userId].fields["contacts"].JArray?)
    ensures r.Ok? ==> userId in r.value.users && r.value.users[userId].JObject?
    ensures r.Ok? ==> "contacts" in r.value.users[userId].fields
                      && r.value.users[userId].fields["contacts"] == JArray(r.value.value)
    ensures r.Ok? && userId in doc.fields ==>
      forall k :: k != "contacts" ==>
        && (k in r.value.users[userId].fields <==> k in doc.fields[userId].fields)
        && (k in doc.fields[userId].fields ==> r.value.users[userId].fields[k] == doc.fields[userId].fields[k])
  {
    if !doc.JObject? then Err(UsersNotAnObject)
    else
      var user := if userId in doc.fields then doc.fields[userId] else JObject(DefaultUser(userId));
      if !user.JObject? then Err(UserNotAnObject)
      else
        var contacts := if "contacts" in user.fields then user.fields["contacts"] else JArray([]);
        if !contacts.JArray? then Err(ContactsNotAList)
        else
          var appended := contacts.items + [ContactRecord(contactName, contactId)];
          Ok(Saved(doc.fields[userId := JObject(user.fields["contacts" := JArray(appended)])], appended))
  }

  /** The users file; the changing operations read it, update the dict and write it back. */
  class Store {
    var file: UsersFile

    /** The document `_load_raw` reads. */
    function Users(): Json
      reads this
    {
      LoadRaw(file)
    }

    constructor(file: UsersFile)
      ensures this.file == file
    {
      this.file := file;
    }

    /** `create_or_update_user`: the file is rewritten only when the update succeeds. */
    method CreateOrUpdateUser(userId: string, name: string, phone: string, language: string)
      returns (r: Result<map<string, Json>, StoreError>)
      modifies this
      ensures var u := Upsert(old(Users()), userId, name, phone, language);
        if u.Ok? then file == Stored(JObject(u.value.users)) && r == Ok(u.value.value)
        else file == old(file) && r == Err(u.error)
    {
      var users := Users();
      if !users.JObject? {
        return Err(UsersNotAnObject);
      }
      var user := if userId in users.fields then users.fields[userId] else JObject(map[]);
      if !user.JObject? {
        return Err(UserNotAnObject);
      }
      var fields := user.fields + ProfileFields(userId, name, phone, language);
      var updated := users.fields[userId := JObject(fields)];
      file := Stored(JObject(updated));
      return Ok(fields);
    }

    /** `add_contact`: the file is rewritten only when the contact was appended. */
    method AddContact(userId: string, contactName: string, contactId: string)
      returns (r: Result<seq<Json>, StoreError>)
      modifies this
      ensures var a := AppendContact(old(Users()), userId, contactName, contactId);
        if a.Ok? then file == Stored(JObject(a.value.users)) && r == Ok(a.value.value)
        else file == old(file) && r == Err(a.error)
    {
      var users := Users();
      if !users.JObject? {
        return Err(UsersNotAnObject);
      }
      var user := if userId in users.fields then users.fields[userId] else JObject(DefaultUser(userId));
      if !user.JObject? {
        return Err(UserNotAnObject);
      }
      var contacts := if "contacts" in user.fields then user.fields["contacts"] else JArray([]);
      if !contacts.JArray? {
        return Err(ContactsNotAList);
      }
      var appended := contacts.items + [ContactRecord(contactName, contactId)];
      var updated := users.fields[userId := JObject(user.fields["contacts" := JArray(appended)])];
      file := Stored(JObject(updated));
      return Ok(appended);
    }
  }

  /**
   * After `create_or_update_user`, `get_user` returns the new record: the four
   * profile fields as given, every other field (contacts included) as before.
   */
  lemma UpsertThenGet(doc: Json, userId: string, name: string, phone: string, language: string)
    requires Upsert(doc, userId, name, phone, language).Ok?
    ensures var s := Upsert(doc, userId, name, phone, language).value;
      && GetUser(JObject(s.users), userId) == Ok(Some(JObject(s.value)))
      && s.value.Keys == (if userId in doc.fields then doc.fields[userId].fields.Keys else {}) + {"id", "name", "phone", "language"}
      && s.value["id"] == JString(userId) && s.value["name"] == JString(name)
      && s.value["phone"] == JString(phone) && s.value["language"] == JString(language)
      && forall k :: k in s.value && k !in {"id", "name", "phone", "language"} ==> s.value[k] == doc.fields[userId].fields[k]
  {
  }

  /** An update leaves every other user's record as it was. */
  lemma UpsertKeepsOtherUsers(doc: Json, userId: string, name: string, phone: string, language: string,
                              other: string)
    requires other != userId
    requires Upsert(doc, userId, name, phone, language).Ok?
    ensures GetUser(JObject(Upsert(doc, userId, name, phone, language).value.users), other) == GetUser(doc, other)
  {
  }

  /**
   * `add_contact` appends one record to what `list_contacts` listed before,
   * keeping the earlier entries in order, and `list_contacts` then lists the
   * returned list.
   */
  lemma AddThenList(doc: Json, userId: string, contactName: string, contactId: string)
    requires AppendContact(doc, userId, contactName, contactId).Ok?
    ensures ListContacts(doc, userId).Ok? && ListContacts(doc, userId).value.JArray?
    ensures AppendContact(doc, userId, contactName, contactId).value.value
         == ListContacts(doc, userId).value.items + [ContactRecord(contactName, contactId)]
    ensures ListContacts(JObject(AppendContact(doc, userId, contactName, contactId).value.users), userId)
         == Ok(JArray(AppendContact(doc, userId, contactName, contactId).value.value))
  {
    var s := AppendContact(doc, userId, contactName, contactId).value;
    assert "contacts" in s.users[userId].fields;
  }

  /** Adding the same contact twice lists it twice: there is no de-duplication. */
  lemma AddContactKeepsDuplicates(doc: Json, userId: string, contactName: string, contactId: string)
    requires AppendContact(doc, userId, contactName, contactId).Ok?
    ensures var once := JObject(AppendContact(doc, userId, contactName, contactId).value.users);
      && AppendContact(once, userId, contactName, contactId).Ok?
      && var twice := AppendContact(once, userId, contactName, contactId).value.value;
         |twice| >= 2 && twice[|twice| - 1] == twice[|twice| - 2] == ContactRecord(contactName, contactId)
  {
    var once := JObject(AppendContact(doc, userId, contactName, contactId).value.users);
    AddThenList(doc, userId, contactName, contactId);
    AddThenList(once, userId, contactName, contactId);
  }

  /** For an unknown user, `add_contact` first creates the default record. */
  lemma AddContactCreatesDefaultUser(doc: Json, userId: string, contactName: string, contactId: string)
    requires doc.JObject? && userId !in doc.fields
    ensures AppendContact(doc, userId, contactName, contactId)
         == Ok(Saved(doc.fields[userId := JObject(DefaultUser(userId)["contacts" := JArray([ContactRecord(contactName, contactId)])])],
                     [ContactRecord(contactName, contactId)]))
  {
    var record := ContactRecord(contactName, contactId);
    assert "contacts" !in DefaultUser(userId);
    assert [] + [record] == [record];
  }

  /** `add_contact` leaves every other user's record as it was. */
  lemma AddContactKeepsOtherUsers(doc: Json, userId: string, contactName: string, contactId: string,
                                  other: string)
    requires other != userId
    requires AppendContact(doc, userId, contactName, contactId).Ok?
    ensures GetUser(JObject(AppendContact(doc, userId, contactName, contactId).value.users), other) == GetUser(doc, other)
  {
  }
}
