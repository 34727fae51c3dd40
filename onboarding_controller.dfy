/**
 * The server's onboarding endpoints: `updateOnboarding` validates the five
 * answers under JavaScript truthiness and then updates the caller's record
 * or creates it; `getOnboarding` returns the caller's record. The document
 * store is a map from user id to record.
 */
module OnboardingController {
  import opened Common
  import OnboardingFlow

  /** A value of the parsed JSON request body. */
  datatype JsValue =
    | Undefined
    | Null
    | JsBool(b: bool)
    | JsNumber(n: real)
    | NaN
    | JsString(s: string)
    | JsArray(elements: seq<JsValue>)
    | JsObject

  /** `!!v`: only `undefined`, `null`, `false`, `0`, `NaN` and `''` are
      falsy; every array and object is truthy, empty or not. */
  predicate Truthy(v: JsValue) {
    match v
    case Undefined => false
    case Null => false
    case JsBool(b) => b
    case JsNumber(n) => n != 0.0
    case NaN => false
    case JsString(s) => s != ""
    case JsArray(_) => true
    case JsObject => true
  }

  datatype RequestBody = RequestBody(
    name: JsValue, age: JsValue, gender: JsValue, location: JsValue, fitnessGoals: JsValue)

  /** A stored onboarding document; `docId` is the store's own id, which an
      update keeps and a creation draws anew. */
  datatype Record = Record(
    docId: string, userId: string,
    name: JsValue, age: JsValue, gender: JsValue, location: JsValue, fitnessGoals: JsValue,
    onboarded: bool)

  datatype Response = Response(status: int, success: bool, message: string, data: Option<Record>)

  const MissingFields: string := "Please provide all required fields"
  const UpdateFailed: string := "Server error while updating onboarding data"
  const NotFound: string := "Onboarding data not found"
  const FetchFailed: string := "Server error while fetching onboarding data"

  /** Which store call throws, if any: the lookup, or the save/create. */
  datatype StoreFault = NoFault | LookupThrows | WriteThrows

  /** The validation of the five fields. */
  predicate AllProvided(body: RequestBody) {
    Truthy(body.name) && Truthy(body.age) && Truthy(body.gender) &&
    Truthy(body.location) && Truthy(body.fitnessGoals)
  }

  /** Age 0 and an empty name are turned away, an empty goal list is not. */
  lemma ValidationUnderTruthiness(body: RequestBody)
    ensures body.age == JsNumber(0.0) ==> !AllProvided(body)
    ensures body.name == JsString("") ==> !AllProvided(body)
    ensures Truthy(body.name) && Truthy(body.age) && Truthy(body.gender) && Truthy(body.location) ==>
      AllProvided(body.(fitnessGoals := JsArray([])))
    ensures body.fitnessGoals == Undefined ==> !AllProvided(body)
  {
  }

  /** The record after a successful upsert: the five answers and
      `onboarded`, on the existing document or on a new one. */
  function Upserted(existing: Option<Record>, userId: string, body: RequestBody, newDocId: string): (r: Record)
    ensures r.userId == (if existing.Some? then existing.value.userId else userId)
    ensures r.docId == (if existing.Some? then existing.value.docId else newDocId)
    ensures r.name == body.name && r.age == body.age && r.gender == body.gender
    ensures r.location == body.location && r.fitnessGoals == body.fitnessGoals && r.onboarded
  {
    match existing
    case Some(doc) =>
      doc.(name := body.name, age := body.age, gender := body.gender, location := body.location,
           fitnessGoals := body.fitnessGoals, onboarded := true)
    case None =>
      Record(newDocId, userId, body.name, body.age, body.gender, body.location, body.fitnessGoals, true)
  }

  class OnboardingStore {
    /** The onboarding collection, by user id. */
    var records: map<string, Record>

    /** Each record sits under its own user id. */
    ghost predicate Valid()
      reads this
    {
      forall u :: u in records ==> records[u].userId == u
    }

    constructor ()
      ensures Valid() && records == map[]
    {
      records := map[];
    }

    function Lookup(userId: string): (r: Option<Record>)
      reads this
      ensures r.Some? <==> userId in records
      ensures r.Some? ==> r.value == records[userId]
    {
      if userId in records then Some(records[userId]) else None
    }

    /** `POST /api/onboarding` for the signed-in `userId`. `fault` says
        which store call throws; `newDocId` is the id a creation draws. */
    method UpdateOnboarding(userId: string, body: RequestBody, fault: StoreFault, newDocId: string)
      returns (resp: Response)
      requires Valid()
      modifies this
      ensures Valid()
      ensures !AllProvided(body) ==>
        resp == Response(400, false, MissingFields, None) && records == old(records)
      ensures AllProvided(body) && fault != NoFault ==>
        resp == Response(500, false, UpdateFailed, None) && records == old(records)
      ensures AllProvided(body) && fault == NoFault ==>
        records == old(records)[userId := Upserted(old(Lookup(userId)), userId, body, newDocId)] &&
        resp == Response(200, true, "", Some(records[userId]))
    {
      if !(Truthy(body.name) && Truthy(body.age) && Truthy(body.gender) &&
           Truthy(body.location) && Truthy(body.fitnessGoals)) {
        return Response(400, false, MissingFields, None);
      }
      if fault == LookupThrows {
        return Response(500, false, UpdateFailed, None);
      }
      var existing := Lookup(userId);
      var doc := Upserted(existing, userId, body, newDocId);
      if fault == WriteThrows {
        return Response(500, false, UpdateFailed, None);
      }
      records := records[userId := doc];
      resp := Response(200, true, "", Some(doc));
    }

    /** `GET /api/onboarding` for the signed-in `userId`. */
    method GetOnboarding(userId: string, lookupThrows: bool) returns (resp: Response)
      requires Valid()
      ensures lookupThrows ==> resp == Response(500, false, FetchFailed, None)
      ensures !lookupThrows && userId !in records ==> resp == Response(404, false, NotFound, None)
      ensures !lookupThrows && userId in records ==> resp == Response(200, true, "", Some(records[userId]))
      ensures resp.success <==> resp.status == 200
      ensures resp.data.Some? ==> resp.data.value.userId == userId
    {
      if lookupThrows {
        return Response(500, false, FetchFailed, None);
      }
      var found := Lookup(userId);
      if found.None? {
        return Response(404, false, NotFound, None);
      }
      resp := Response(200, true, "", found);
    }
  }

  /** A successful update touches only the caller's record: it exists
      afterwards, an existing one keeps its document id, and every other
      user's record is as it was. */
  lemma UpsertTouchesOnlyCaller(records: map<string, Record>, userId: string, body: RequestBody, newDocId: string)
    requires forall u :: u in records ==> records[u].userId == u
    ensures var existing := if userId in records then Some(records[userId]) else None;
      var after := records[userId := Upserted(existing, userId, body, newDocId)];
      userId in after && after[userId].userId == userId && after[userId].onboarded &&
      (userId in records ==> after[userId].docId == records[userId].docId) &&
      after.Keys == records.Keys + {userId} &&
      (forall u :: u in records && u != userId ==> after[u] == records[u])
  {
  }

  /** Posting the same answers twice leaves the same store as posting them
      once. */
  lemma UpsertIdempotent(records: map<string, Record>, userId: string, body: RequestBody, d1: string, d2: string)
    requires forall u :: u in records ==> records[u].userId == u
    ensures var once := records[userId := Upserted(if userId in records then Some(records[userId]) else None, userId, body, d1)];
      once[userId := Upserted(Some(once[userId]), userId, body, d2)] == once
  {
  }

  // ---------------------------------------------------------------------
  // What the wizard sends

  /** The wizard's form record as a JSON body: a never-edited age is the
      number, an edited one the input's text. */
  function BodyOf(d: OnboardingFlow.OnboardingData): (r: RequestBody)
    ensures r.name == JsString(d.name) && r.gender == JsString(d.gender) && r.location == JsString(d.location)
    ensures r.fitnessGoals.JsArray? && |r.fitnessGoals.elements| == |d.fitnessGoals|
  {
    RequestBody(
      JsString(d.name),
      match d.age
      case AgeNumber(n) => JsNumber(n as real)
      case AgeText(t) => JsString(t),
      JsString(d.gender),
      JsString(d.location),
      JsArray(seq(|d.fitnessGoals|, i requires 0 <= i < |d.fitnessGoals| => JsString(d.fitnessGoals[i]))))
  }

  /** The untouched wizard form is turned away; once name, age and location
      are typed the form is accepted even with no goal chosen and even with
      the age typed as "0". */
  lemma WizardSubmissions(name: string, age: string, location: string)
    requires name != "" && age != "" && location != ""
    ensures !AllProvided(BodyOf(OnboardingFlow.InitialData))
    ensures AllProvided(BodyOf(OnboardingFlow.InitialData.(name := name, age := OnboardingFlow.AgeText(age), location := location)))
  {
  }
}
