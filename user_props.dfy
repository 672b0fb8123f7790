/**
 * Properties of the users response: a user keeps every entry other than
 * `_id` and `fullName`, in the order the object lists them, a missing
 * required key is reported at that key, and every user whose remaining
 * entries avoid those two keys is read back from the JSON it is written as.
 */
module UserProps {
  import opened Wrappers
  import opened JsonValues
  import opened Schemas
  import opened Serialize

  /** The remaining entries of a concatenation are those of each part, in order. */
  lemma {:induction false} OtherFieldsConcat(a: Fields, b: Fields)
    ensures OtherFields(a + b) == OtherFields(a) + OtherFields(b)
    decreases |a|
  {
    if a == [] {
      assert a + b == b;
    } else {
      assert (a + b)[0] == a[0];
      assert (a + b)[1..] == a[1..] + b;
      OtherFieldsConcat(a[1..], b);
    }
  }

  /** Entries none of which is under `_id` or `fullName` are kept whole. */
  lemma {:induction false} OtherFieldsKeepsOthers(p: Fields)
    requires forall i :: 0 <= i < |p| ==> !UserKey(p[i].0)
    ensures OtherFields(p) == p
    decreases |p|
  {
    if p != [] {
      OtherFieldsKeepsOthers(p[1..]);
    }
  }

  /** A user object missing `_id` or `fullName` is rejected with "expected string, received undefined" at that key. */
  lemma UserRejectsMissingKey(fs: Fields, k: string)
    requires UserKey(k) && Get(fs, k).None?
    ensures ValidateUser(JObject(fs)).Failure?
    ensures Issue([Key(k)], KString, KUndefined) in ValidateUser(JObject(fs)).error
  {
    var x := Issue([Key(k)], KString, KUndefined);
    var id := Required(fs, "_id", KString, AsString);
    var fullName := Required(fs, "fullName", KString, AsString);
    assert x in IssuesOf(id) + IssuesOf(fullName);
  }

  /** A user whose remaining entries do not repeat the two keys it reads. */
  predicate WellFormedUser(u: User) {
    forall i :: 0 <= i < |u.profile| ==> !UserKey(u.profile[i].0)
  }

  /** Every user the schema accepts is well formed. */
  lemma ValidatedUserWellFormed(j: Json)
    requires ValidateUser(j).Success?
    ensures WellFormedUser(ValidateUser(j).value)
  {
    var u := ValidateUser(j).value;
    forall i | 0 <= i < |u.profile| ensures !UserKey(u.profile[i].0) {
      assert u.profile[i] in u.profile;
    }
  }

  /** A user written as JSON: its two keys first, then its remaining entries. */
  function UserToJson(u: User): Json {
    JObject([("_id", JString(u.id)), ("fullName", JString(u.fullName))] + u.profile)
  }

  /** A well-formed user validates back to itself from the JSON it is written as. */
  lemma UserRoundTrip(u: User)
    requires WellFormedUser(u)
    ensures ValidateUser(UserToJson(u)) == Success(u)
  {
    var head: Fields := [("_id", JString(u.id)), ("fullName", JString(u.fullName))];
    var fs := head + u.profile;
    assert fs == UserToJson(u).fields;
    GetFindsKey(u.profile, "_id");
    GetFindsKey(u.profile, "fullName");
    GetConcat(head, u.profile, "_id");
    GetConcat(head, u.profile, "fullName");
    assert Get(head, "_id") == Some(JString(u.id));
    assert Get(head, "fullName") == Some(JString(u.fullName));
    OtherFieldsConcat(head, u.profile);
    OtherFieldsKeepsOthers(u.profile);
    assert OtherFields(head) == [];
  }

  /** A list of well-formed users validates back to itself, in order. */
  lemma UsersRoundTrip(us: seq<User>)
    requires forall i :: 0 <= i < |us| ==> WellFormedUser(us[i])
    ensures ValidateUsers(ArrayJson(us, UserToJson)) == Success(us)
  {
    forall i | 0 <= i < |us| ensures ValidateUser(UserToJson(us[i])) == Success(us[i]) {
      UserRoundTrip(us[i]);
    }
    ArrayRoundTrip(us, UserToJson, ValidateUser);
  }
}
