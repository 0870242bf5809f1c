/** The user-document service over the `users` collection: an initial
    profile record built from the caller's data and fixed defaults, update
    payloads stamped with `updatedAt`, and lookups by user id. The store is
    a map from user id to record. */
module Firestore {
  import opened Wrappers

  /** The values a profile field can hold. Money fields are held as integers:
      the record only ever starts them at zero. */
  datatype Value =
    | Str(s: string)
    | Num(n: int)
    | Bool(b: bool)
    | Null
    /** The `serverTimestamp()` sentinel, replaced by the server's clock on write. */
    | ServerTimestamp
    /** A client-side `new Date()`, in milliseconds. */
    | Date(millis: int)
    | Fields(fields: map<string, Value>)

  type Record = map<string, Value>

  /** The keys `createUserDocument` sets itself, overriding the caller's. */
  const DefaultKeys: set<string> := {"createdAt", "updatedAt", "onboardingCompleted", "earnings", "stats", "role"}

  function ZeroEarnings(): (v: Value)
    ensures v.Fields? && v.fields.Keys == {"total", "pending", "withdrawn", "available"}
    ensures forall k :: k in v.fields ==> v.fields[k] == Num(0)
  {
    Fields(map["total" := Num(0), "pending" := Num(0), "withdrawn" := Num(0), "available" := Num(0)])
  }

  function ZeroStats(): (v: Value)
    ensures v.Fields? && v.fields.Keys == {"tasksCompleted", "tasksPending", "referrals"}
    ensures forall k :: k in v.fields ==> v.fields[k] == Num(0)
  {
    Fields(map["tasksCompleted" := Num(0), "tasksPending" := Num(0), "referrals" := Num(0)])
  }

  function Defaults(): (r: Record)
    ensures r.Keys == DefaultKeys
  {
    map[
      "createdAt" := ServerTimestamp,
      "updatedAt" := ServerTimestamp,
      "onboardingCompleted" := Bool(false),
      "earnings" := ZeroEarnings(),
      "stats" := ZeroStats(),
      "role" := Str("user")
    ]
  }

  /** `initialData`: the caller's fields spread first, the defaults written over them. */
  function InitialRecord(userData: Record): (r: Record)
    ensures r.Keys == userData.Keys + DefaultKeys
    ensures r["onboardingCompleted"] == Bool(false) && r["role"] == Str("user")
    ensures r["createdAt"] == ServerTimestamp && r["updatedAt"] == ServerTimestamp
    ensures r["earnings"] == ZeroEarnings() && r["stats"] == ZeroStats()
    ensures forall k :: k in userData && k !in DefaultKeys ==> r[k] == userData[k]
  {
    userData + Defaults()
  }

  /** The payload `updateUserDocument` sends: the caller's fields with `updatedAt` stamped by the server. */
  function UpdatePayload(data: Record): (r: Record)
    ensures r.Keys == data.Keys + {"updatedAt"}
    ensures r["updatedAt"] == ServerTimestamp
    ensures forall k :: k in data && k != "updatedAt" ==> r[k] == data[k]
  {
    data["updatedAt" := ServerTimestamp]
  }

  /** A write of `fields` into the document `uid`: top-level fields of an
      existing document survive unless `fields` sets them. */
  function MergedInto(docs: map<string, Record>, uid: string, fields: Record): (r: Record)
    ensures r.Keys == fields.Keys + (if uid in docs then docs[uid].Keys else {})
    ensures forall k :: k in fields ==> r[k] == fields[k]
    ensures uid in docs ==> forall k :: k in docs[uid] && k !in fields ==> r[k] == docs[uid][k]
  {
    (if uid in docs then docs[uid] else map[]) + fields
  }

  /** The document `uid`, or `null` when there is none. */
  function Lookup(docs: map<string, Record>, uid: string): (profile: Option<Record>)
    ensures profile.Some? <==> uid in docs
    ensures profile.Some? ==> profile.value == docs[uid]
  {
    if uid in docs then Some(docs[uid]) else None
  }

  class UserStore {
    /** The `users` collection. */
    var docs: map<string, Record>

    constructor (docs: map<string, Record>)
      ensures this.docs == docs
    {
      this.docs := docs;
    }

    /** `checkUserExists`; `readSucceeds` stands for `getDoc` resolving. A
        rejected read answers nothing (`ok` false, `found` false). */
    method CheckUserExists(uid: string, readSucceeds: bool) returns (ok: bool, found: bool)
      ensures ok == readSucceeds
      ensures ok ==> (found <==> uid in docs)
      ensures ok ==> found == Lookup(docs, uid).Some?
      ensures !ok ==> !found
    {
      ok := readSucceeds;
      found := ok && uid in docs;
    }

    /** `getUserProfile`; `readSucceeds` stands for `getDoc` resolving. A
        rejected read answers nothing (`ok` false, no profile). */
    method GetUserProfile(uid: string, readSucceeds: bool) returns (ok: bool, profile: Option<Record>)
      ensures ok == readSucceeds
      ensures ok ==> (profile.Some? <==> uid in docs)
      ensures ok ==> profile == Lookup(docs, uid)
      ensures !ok ==> profile.None?
    {
      ok := readSucceeds;
      if ok && uid in docs {
        profile := Some(docs[uid]);
      } else {
        profile := None;
      }
    }

    /** `createUserDocument`: writes the initial record with `merge: true`;
        `writeSucceeds` stands for the backend accepting the write. A rejected
        write leaves the store as it was. */
    method CreateUserDocument(uid: string, userData: Record, writeSucceeds: bool) returns (ok: bool)
      modifies this
      ensures ok == writeSucceeds
      ensures ok ==> docs == old(docs)[uid := MergedInto(old(docs), uid, InitialRecord(userData))]
      ensures ok ==> docs[uid]["onboardingCompleted"] == Bool(false) && docs[uid]["role"] == Str("user")
      ensures !ok ==> docs == old(docs)
    {
      ok := writeSucceeds;
      if ok {
        docs := docs[uid := MergedInto(docs, uid, InitialRecord(userData))];
      }
    }

    /** `updateUserDocument`: patches an existing document; the write fails
        when there is no document to update, or when the backend rejects it
        (`writeSucceeds` false), and a failed write changes nothing. */
    method UpdateUserDocument(uid: string, data: Record, writeSucceeds: bool) returns (ok: bool)
      modifies this
      ensures ok <==> uid in old(docs) && writeSucceeds
      ensures ok ==> docs == old(docs)[uid := MergedInto(old(docs), uid, UpdatePayload(data))]
      ensures !ok ==> docs == old(docs)
    {
      ok := uid in docs && writeSucceeds;
      if ok {
        docs := docs[uid := MergedInto(docs, uid, UpdatePayload(data))];
      }
    }
  }
}
