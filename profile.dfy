/** The profile page: the loaded profile never shows the stored password, saving leaves the
    password out of the request unless one was typed, and a successful save clears the
    password field and nothing else. */
module ProfilePage {
  import opened Js
  import Client
  import Backend

  /** The profile as loaded: the server's fields with the password field blanked. */
  function Loaded(data: Object): (p: Object)
    ensures p.Keys == data.Keys + {"password"}
    ensures p["password"] == Text("")
    ensures forall key :: key in data && key != "password" ==> p[key] == data[key]
  {
    data["password" := Text("")]
  }

  /** `saveProfile`'s body: a copy of the profile without the password key when the
      password is empty. */
  function UpdateData(profile: Object): (d: Object)
    ensures "password" in d <==> Truthy(Get(profile, "password"))
    ensures forall key :: key != "password" ==> (key in d <==> key in profile)
    ensures forall key :: key in d ==> d[key] == profile[key]
  {
    if Truthy(Get(profile, "password")) then profile else profile - {"password"}
  }

  /** A body field as the server reads it: a string as it is, an absent field as "". */
  function BodyField(d: Object, key: string): string
  {
    match Get(d, key)
    case Text(s) => s
    case _ => ""
  }

  /** The request the server decodes from the body the page sends. */
  function AsRequest(d: Object): Backend.ProfileRequest
  {
    Backend.ProfileRequest(BodyField(d, "name"), BodyField(d, "email"), BodyField(d, "mobile"), BodyField(d, "password"))
  }

  /** Saving without typing a password keeps the stored password hash: the page leaves the
      key out, so the server sees no new password. */
  lemma SaveWithoutPasswordKeepsHash(u: Backend.User, profile: Object, hash: string -> string)
    requires !Truthy(Get(profile, "password"))
    ensures Backend.UpdatedAccount(u, AsRequest(UpdateData(profile)), hash).password == u.password
  {
    assert BodyField(UpdateData(profile), "password") == "";
    Backend.ProfileUpdateFields(u, AsRequest(UpdateData(profile)), hash);
  }

  /** In particular, loading the profile and saving it straight away never touches the
      password, whatever else is sent. */
  lemma LoadThenSaveKeepsHash(u: Backend.User, data: Object, hash: string -> string)
    ensures Backend.UpdatedAccount(u, AsRequest(UpdateData(Loaded(data))), hash).password == u.password
  {
    SaveWithoutPasswordKeepsHash(u, Loaded(data), hash);
  }

  /** A typed password reaches the server and is stored hashed. */
  lemma SaveWithPasswordHashesIt(u: Backend.User, profile: Object, typed: string, hash: string -> string)
    requires Get(profile, "password") == Text(typed) && typed != "" && typed != u.password
    ensures Backend.UpdatedAccount(u, AsRequest(UpdateData(profile)), hash).password == hash(typed)
  {
    assert BodyField(UpdateData(profile), "password") == typed;
    Backend.ProfileUpdateFields(u, AsRequest(UpdateData(profile)), hash);
  }

  const InitialProfile: Object := map["name" := Text(""), "email" := Text(""), "password" := Text("")]

  /** The state of the page. */
  class ProfileView {
    var profile: Object
    var loading: bool
    var requests: seq<Client.Request>
    var alerts: seq<string>

    constructor ()
      ensures profile == InitialProfile && loading && requests == [] && alerts == []
    {
      profile, loading := InitialProfile, true;
      requests, alerts := [], [];
    }

    /** The mount effect: the fetched profile is loaded with its password blanked; loading
        ends either way. */
    method Mount(answer: Option<Object>)
      modifies this
      ensures requests == old(requests) + [Client.Get("/profile")] && alerts == old(alerts) && !loading
      ensures profile == (if answer.Some? then Loaded(answer.value) else old(profile))
    {
      requests := requests + [Client.Get("/profile")];
      if answer.Some? {
        profile := Loaded(answer.value);
      }
      loading := false;
    }

    /** A field's `onChange`. */
    method Change(key: string, value: Value)
      modifies this
      ensures profile == old(profile)[key := value]
      ensures loading == old(loading) && requests == old(requests) && alerts == old(alerts)
    {
      profile := profile[key := value];
    }

    /** `saveProfile`: sends the profile, without an empty password; on success only the
        password field is cleared, on failure the profile stays as it was. */
    method SaveProfile(outcome: Client.Outcome)
      modifies this
      ensures loading == old(loading)
      ensures requests == old(requests) + [Client.Put("/profile", UpdateData(old(profile)))]
      ensures outcome.Succeeded? ==>
        profile == old(profile)["password" := Text("")] && alerts == old(alerts) + ["Profile updated successfully!"]
      ensures outcome.Failed? ==>
        profile == old(profile) && alerts == old(alerts) + [Client.FailureText(outcome, "Update failed")]
    {
      var updateData := profile;
      if !Truthy(Get(updateData, "password")) {
        updateData := updateData - {"password"};
      }
      requests := requests + [Client.Put("/profile", updateData)];
      if outcome.Succeeded? {
        alerts := alerts + ["Profile updated successfully!"];
        profile := profile["password" := Text("")];
      } else {
        alerts := alerts + [Client.FailureText(outcome, "Update failed")];
      }
    }
  }
}
