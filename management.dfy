/** The data shaping done by the management UI views of
    django/management/views.py between the form layer and the REST client
    (`api.*`). A validated form is its cleaned data (`None` when the form
    did not validate); each POST handler's decision is returned as an
    outcome: the one `api.*` call it makes with its arguments, a re-render
    of the page with the failed form, or a refusal. */
module Management {
  import opened Wrappers
  import opened Strings

  /** A form's cleaned data; every value is carried as its text. */
  type FormData = map<string, string>

  /** The form handed back to the page when validation failed. */
  datatype FormSlot = UserFormSlot | ColFormSlot | CoordFormSlot | ExpFormSlot | ChanFormSlot | MetaFormSlot

  /** A channel payload field after `source`/`related` were split. */
  datatype FieldValue = Text(s: string) | Items(items: seq<string>)

  datatype ApiCall =
    | AddUser(username: string, data: FormData)
    | AddCollection(collection: string, data: FormData)
    | AddCoord(coord: string, data: FormData)
    | UpCoord(coord: string, data: FormData)
    | AddExperiment(collection: string, experiment: string, data: FormData)
    | AddChannel(collection: string, experiment: string, channel: string, payload: map<string, FieldValue>)
    | AddMeta(key: string, value: string, path: seq<string>)

  datatype PostOutcome =
    | Call(call: ApiCall)
    | Rerender(slot: FormSlot)
    | Reject(status: int, reason: string)   // HttpResponse(status=..., reason=...)
    | Crash(exception: string)              // an exception escapes the view

  const UnknownAction: PostOutcome := Reject(400, "Unknown post action")

  /** The data with the given fields deleted; everything else kept. */
  function Without(data: FormData, fields: set<string>): (r: FormData)
    ensures r.Keys == data.Keys - fields
    ensures forall k :: k in r ==> r[k] == data[k]
  {
    map k | k in data && k !in fields :: data[k]
  }

  /** Putting the deleted fields back restores the data. */
  lemma WithoutRestores(data: FormData, fields: set<string>)
    requires fields <= data.Keys
    ensures Without(data, fields) + (map k | k in fields :: data[k]) == data
  {
  }

  // ---------------------------------------------------------------------
  // Users.post

  const UserDropped: set<string> := {"username", "verify_password"}

  /** Users.post: the username goes in its own argument and neither it nor
      the password confirmation is sent in the payload. */
  method UsersPost(form: Option<FormData>) returns (r: PostOutcome)
    requires form.Some? ==> "username" in form.value && "verify_password" in form.value
    ensures form.None? ==> r == Rerender(UserFormSlot)
    ensures form.Some? ==> r == Call(AddUser(form.value["username"], Without(form.value, UserDropped)))
  {
    if form.None? {
      return Rerender(UserFormSlot);
    }
    var data := form.value;
    var username := data["username"];
    data := data - {"username"};
    data := data - {"verify_password"};
    assert data == Without(form.value, UserDropped);
    return Call(AddUser(username, data));
  }

  // ---------------------------------------------------------------------
  // Token.get / Token.post

  /** The API tokens of the users, by user name. */
  class TokenStore {
    var tokens: map<string, string>

    constructor (tokens: map<string, string>)
      ensures this.tokens == tokens
    {
      this.tokens := tokens;
    }

    /** Token.get: the button offered on the token page. */
    function Button(user: string): (caption: string)
      reads this
      ensures caption == "Revoke Token" <==> user in tokens
      ensures caption == "Generate Token" <==> user !in tokens
    {
      if user in tokens then "Revoke Token" else "Generate Token"
    }

    /** Token.post: delete the user's token if there is one, otherwise
        create one (its key, generated by the token model, is an input). */
    method Post(user: string, newKey: string)
      modifies this
      ensures tokens == Toggled(old(tokens), user, newKey)
    {
      if user in tokens {
        tokens := tokens - {user};
      } else {
        tokens := tokens[user := newKey];
      }
    }
  }

  /** The tokens after one Token.post by `user`. */
  function Toggled(tokens: map<string, string>, user: string, newKey: string): (r: map<string, string>)
    ensures user in r <==> user !in tokens
    ensures user in r ==> r[user] == newKey
    ensures forall u :: u != user ==> (u in r <==> u in tokens) && (u in r ==> r[u] == tokens[u])
  {
    if user in tokens then tokens - {user} else tokens[user := newKey]
  }

  /** Two posts in a row give the user back the presence or absence of a
      token they started with, and touch no other user. */
  lemma ToggleTwice(tokens: map<string, string>, user: string, k1: string, k2: string)
    ensures var after := Toggled(Toggled(tokens, user, k1), user, k2);
            && (user in after <==> user in tokens)
            && after - {user} == tokens - {user}
  {
    var after := Toggled(Toggled(tokens, user, k1), user, k2);
    assert (after - {user}).Keys == (tokens - {user}).Keys;
  }

  /** Posting twice from the page brings the button back to its label. */
  method PostTwice(store: TokenStore, user: string, k1: string, k2: string)
    modifies store
    ensures store.Button(user) == old(store.Button(user))
    ensures store.tokens - {user} == old(store.tokens) - {user}
  {
    store.Post(user, k1);
    store.Post(user, k2);
    ToggleTwice(old(store.tokens), user, k1, k2);
  }

  // ---------------------------------------------------------------------
  // Group.get

  /** Group.get's role table: each member is a 'member', or a
      'member+maintainer' when also a maintainer; each other maintainer is
      a 'maintainer'; nobody else appears. */
  ghost predicate IsRoleTable(data: map<string, string>, members: seq<string>, maintainers: seq<string>)
  {
    && (forall u :: u in data <==> u in members || u in maintainers)
    && (forall u :: u in members ==> data[u] == if u in maintainers then "member+maintainer" else "member")
    && (forall u :: u in maintainers && u !in members ==> data[u] == "maintainer")
  }

  method RoleTable(members: seq<string>, maintainers: seq<string>) returns (data: map<string, string>)
    ensures IsRoleTable(data, members, maintainers)
  {
    data := map[];
    for i := 0 to |members|
      invariant forall u :: u in data <==> u in members[..i]
      invariant forall u :: u in data ==>
                  data[u] == if u in maintainers then "member+maintainer" else "member"
    {
      var member := members[i];
      data := data[member := "member"];
      if member in maintainers {
        data := data[member := data[member] + "+maintainer"];
      }
      assert members[..i + 1] == members[..i] + [member];
    }
    assert members[..|members|] == members;
    ghost var afterMembers := data;
    for j := 0 to |maintainers|
      invariant forall u :: u in data <==> u in members || u in maintainers[..j]
      invariant forall u :: u in members ==> u in data && data[u] == afterMembers[u]
      invariant forall u :: u in data && u !in members ==> data[u] == "maintainer"
    {
      var maintainer := maintainers[j];
      if maintainer !in members {
        data := data[maintainer := "maintainer"];
      }
      assert maintainers[..j + 1] == maintainers[..j] + [maintainer];
    }
    assert maintainers[..|maintainers|] == maintainers;
  }

  /** The rows of the table are exactly the members and the maintainers. */
  lemma RoleTableKeys(data: map<string, string>, members: seq<string>, maintainers: seq<string>)
    requires IsRoleTable(data, members, maintainers)
    ensures data.Keys == (set u | u in members) + (set u | u in maintainers)
  {
  }

  predicate OccursAt(s: string, sub: string, i: nat)
  {
    i + |sub| <= |s| && s[i..i + |sub|] == sub
  }

  /** Python's `sub in s` on strings. */
  predicate Contains(s: string, sub: string)
  {
    exists i: nat | i <= |s| :: OccursAt(s, sub, i)
  }

  lemma NotContainsMember()
    ensures !Contains("maintainer", "member")
  {
    var s := "maintainer";
    forall i: nat | i <= |s|
      ensures !OccursAt(s, "member", i)
    {
      if i + 6 <= |s| {
        assert s[i..i + 6][0] == s[i] && s[i..i + 6][1] == s[i + 1];
      }
    }
  }

  lemma NotContainsMaintainer()
    ensures !Contains("member", "maintainer")
  {
  }

  /** Reading a role string back the way Group.post reads its role field
      ('member' in role, 'maintainer' in role) recovers exactly the two
      lists the table was built from. */
  lemma RoleTableReadsBack(data: map<string, string>, members: seq<string>, maintainers: seq<string>, u: string)
    requires IsRoleTable(data, members, maintainers) && u in data
    ensures Contains(data[u], "member") <==> u in members
    ensures Contains(data[u], "maintainer") <==> u in maintainers
  {
    NotContainsMember();
    NotContainsMaintainer();
    var both := "member+maintainer";
    assert OccursAt(both, "member", 0);
    assert OccursAt(both, "maintainer", 7);
    assert OccursAt("member", "member", 0);
    assert OccursAt("maintainer", "maintainer", 0);
  }

  // ---------------------------------------------------------------------
  // CoordinateFrame.post

  /** The coordinate-frame fields the update request may not carry. */
  const CoordReadOnly: seq<string> := [
    "z_start", "voxel_unit", "y_voxel_size", "time_step_unit", "y_start", "x_start",
    "time_step", "x_stop", "x_voxel_size", "y_stop", "z_stop", "z_voxel_size"]

  lemma CoordReadOnlyDistinct()
    ensures forall i, j :: 0 <= i < j < |CoordReadOnly| ==> CoordReadOnly[i] != CoordReadOnly[j]
  {
  }

  /** `for key in ro: del data[key]`: every read-only field is removed and
      nothing else is. */
  method StripReadOnly(data: FormData) returns (stripped: FormData)
    requires forall i :: 0 <= i < |CoordReadOnly| ==> CoordReadOnly[i] in data
    ensures stripped == Without(data, set k | k in CoordReadOnly)
  {
    stripped := data;
    for i := 0 to |CoordReadOnly|
      invariant stripped == Without(data, set k | k in CoordReadOnly[..i])
    {
      var key := CoordReadOnly[i];
      assert key in stripped by {
        CoordReadOnlyDistinct();
        assert key !in CoordReadOnly[..i];
      }
      stripped := stripped - {key};
      assert CoordReadOnly[..i + 1] == CoordReadOnly[..i] + [key];
    }
    assert CoordReadOnly[..|CoordReadOnly|] == CoordReadOnly;
  }

  /** CoordinateFrame.post: update the frame with the read-only fields left out. */
  method CoordinateFramePost(coordName: string, form: Option<FormData>) returns (r: PostOutcome)
    requires form.Some? ==> forall i :: 0 <= i < |CoordReadOnly| ==> CoordReadOnly[i] in form.value
    ensures form.None? ==> r == Rerender(CoordFormSlot)
    ensures form.Some? ==> r.Call? && r.call.UpCoord? && r.call.coord == coordName
    ensures form.Some? ==> r.call.data.Keys == form.value.Keys - (set k | k in CoordReadOnly)
    ensures form.Some? ==> forall k :: k in r.call.data ==> r.call.data[k] == form.value[k]
  {
    if form.None? {
      return Rerender(CoordFormSlot);
    }
    var data := StripReadOnly(form.value);
    return Call(UpCoord(coordName, data));
  }

  // ---------------------------------------------------------------------
  // Experiment.post: the channel payload

  /** One of `source`/`related`: `[]` when absent or empty, otherwise the
      comma-separated pieces. */
  function ListField(v: Option<string>): (r: seq<string>)
    ensures r == [] <==> v.None? || v.value == ""
    ensures v.Some? && v.value != "" ==> Join(r, ',') == v.value && NoneContains(r, ',')
  {
    if v.None? || |v.value| == 0 then []
    else
      JoinSplit(v.value, ',');
      Split(v.value, ',')
  }

  function Lookup(data: FormData, k: string): Option<string>
  {
    if k in data then Some(data[k]) else None
  }

  /** The channel form's data as sent to `api.add_channel`. */
  function ChannelPayload(data: FormData): (r: map<string, FieldValue>)
    ensures r.Keys == data.Keys + {"source", "related"}
    ensures r["source"] == Items(ListField(Lookup(data, "source")))
    ensures r["related"] == Items(ListField(Lookup(data, "related")))
    ensures forall k :: k in data && k != "source" && k != "related" ==> r[k] == Text(data[k])
  {
    (map k | k in data :: Text(data[k]))
      ["source" := Items(ListField(Lookup(data, "source")))]
      ["related" := Items(ListField(Lookup(data, "related")))]
  }

  /** Splitting a non-empty list field and joining the pieces with ','
      gives back what was typed. */
  lemma ListFieldRoundTrip(data: FormData, k: string)
    requires k in data && data[k] != ""
    ensures Join(ListField(Lookup(data, k)), ',') == data[k]
  {
  }

  // ---------------------------------------------------------------------
  // POST action dispatch

  /** Resources.post. */
  function ResourcesPost(action: Option<string>, form: Option<FormData>): (r: PostOutcome)
    requires action == Some("col") && form.Some? ==> "collection" in form.value && "description" in form.value
    requires action == Some("coord") && form.Some? ==> "name" in form.value
    ensures r == UnknownAction <==> action != Some("col") && action != Some("coord")
    ensures action == Some("col") && form.Some? ==>
              r == Call(AddCollection(form.value["collection"], map["description" := form.value["description"]]))
    ensures action == Some("coord") && form.Some? ==> r == Call(AddCoord(form.value["name"], form.value))
    ensures action == Some("col") && form.None? ==> r == Rerender(ColFormSlot)
    ensures action == Some("coord") && form.None? ==> r == Rerender(CoordFormSlot)
  {
    if action == Some("col") then
      if form.Some? then
        Call(AddCollection(form.value["collection"], map["description" := form.value["description"]]))
      else Rerender(ColFormSlot)
    else if action == Some("coord") then
      if form.Some? then Call(AddCoord(form.value["name"], form.value)) else Rerender(CoordFormSlot)
    else UnknownAction
  }

  predicate IsMetaForm(form: Option<FormData>)
  {
    form.Some? ==> "key" in form.value && "value" in form.value
  }

  /** The 'meta' action shared by the collection, experiment and channel pages. */
  function MetaAction(form: Option<FormData>, path: seq<string>): (r: PostOutcome)
    requires IsMetaForm(form)
    ensures r.Call? <==> form.Some?
    ensures r.Call? ==> r.call == AddMeta(form.value["key"], form.value["value"], path)
    ensures form.None? ==> r == Rerender(MetaFormSlot)
  {
    if form.Some? then Call(AddMeta(form.value["key"], form.value["value"], path)) else Rerender(MetaFormSlot)
  }

  /** Collection.post. */
  function CollectionPost(collection: string, action: Option<string>, form: Option<FormData>): (r: PostOutcome)
    requires action == Some("exp") && form.Some? ==> "name" in form.value
    requires action == Some("meta") ==> IsMetaForm(form)
    ensures r == UnknownAction <==> action != Some("exp") && action != Some("meta")
    ensures action == Some("exp") && form.Some? ==>
              r == Call(AddExperiment(collection, form.value["name"], form.value))
    ensures action == Some("meta") && form.Some? ==>
              r == Call(AddMeta(form.value["key"], form.value["value"], [collection]))
    ensures action == Some("exp") && form.None? ==> r == Rerender(ExpFormSlot)
    ensures action == Some("meta") && form.None? ==> r == Rerender(MetaFormSlot)
  {
    if action == Some("exp") then
      if form.Some? then Call(AddExperiment(collection, form.value["name"], form.value)) else Rerender(ExpFormSlot)
    else if action == Some("meta") then MetaAction(form, [collection])
    else UnknownAction
  }

  /** Experiment.post as written: an invalid channel form is handed to
      `self.get(..., exp_form=form)`, a keyword Experiment.get does not
      accept, so the view raises TypeError instead of showing the errors. */
  function ExperimentPostAsWritten(collection: string, experiment: string, action: Option<string>, form: Option<FormData>): (r: PostOutcome)
    requires action == Some("chan") && form.Some? ==> "name" in form.value
    requires action == Some("meta") ==> IsMetaForm(form)
    ensures r == UnknownAction <==> action != Some("chan") && action != Some("meta")
    ensures action == Some("chan") && form.None? ==> r == Crash("TypeError")
    ensures action == Some("meta") && form.None? ==> r == Rerender(MetaFormSlot)
  {
    if action == Some("chan") then
      if form.Some? then
        Call(AddChannel(collection, experiment, form.value["name"], ChannelPayload(form.value)))
      else Crash("TypeError")
    else if action == Some("meta") then MetaAction(form, [collection, experiment])
    else UnknownAction
  }

  /** Experiment.post with the channel form handed back as `chan_form`. */
  function ExperimentPost(collection: string, experiment: string, action: Option<string>, form: Option<FormData>): (r: PostOutcome)
    requires action == Some("chan") && form.Some? ==> "name" in form.value
    requires action == Some("meta") ==> IsMetaForm(form)
    ensures r == UnknownAction <==> action != Some("chan") && action != Some("meta")
    ensures !r.Crash?
    ensures action == Some("chan") && form.None? ==> r == Rerender(ChanFormSlot)
    ensures action == Some("chan") && form.Some? ==>
              r == Call(AddChannel(collection, experiment, form.value["name"], ChannelPayload(form.value)))
    ensures action == Some("meta") && form.Some? ==>
              r == Call(AddMeta(form.value["key"], form.value["value"], [collection, experiment]))
    ensures action == Some("meta") && form.None? ==> r == Rerender(MetaFormSlot)
  {
    if action == Some("chan") then
      if form.Some? then
        Call(AddChannel(collection, experiment, form.value["name"], ChannelPayload(form.value)))
      else Rerender(ChanFormSlot)
    else if action == Some("meta") then MetaAction(form, [collection, experiment])
    else UnknownAction
  }

  /** The two differ only on an invalid channel form. */
  lemma ExperimentPostFixIsLocal(collection: string, experiment: string, action: Option<string>, form: Option<FormData>)
    requires action == Some("chan") && form.Some? ==> "name" in form.value
    requires action == Some("meta") ==> IsMetaForm(form)
    ensures ExperimentPostAsWritten(collection, experiment, action, form) != ExperimentPost(collection, experiment, action, form)
        <==> action == Some("chan") && form.None?
  {
  }

  /** Channel.post. */
  function ChannelPost(collection: string, experiment: string, channel: string, action: Option<string>, form: Option<FormData>): (r: PostOutcome)
    requires action == Some("meta") ==> IsMetaForm(form)
    ensures r == UnknownAction <==> action != Some("meta")
    ensures action == Some("meta") && form.Some? ==>
              r == Call(AddMeta(form.value["key"], form.value["value"], [collection, experiment, channel]))
    ensures action == Some("meta") && form.None? ==> r == Rerender(MetaFormSlot)
  {
    if action == Some("meta") then MetaAction(form, [collection, experiment, channel])
    else UnknownAction
  }

  // ---------------------------------------------------------------------
  // Meta.get

  datatype Category = Category(kind: string, name: string)

  /** Meta.get: the page is about the deepest resource named in the URL. */
  function MetaCategory(collection: string, experiment: Option<string>, channel: Option<string>): (r: Category)
    ensures channel.Some? ==> r == Category("Channel", channel.value)
    ensures channel.None? && experiment.Some? ==> r == Category("Experiment", experiment.value)
    ensures channel.None? && experiment.None? ==> r == Category("Collection", collection)
  {
    if channel.Some? then Category("Channel", channel.value)
    else if experiment.Some? then Category("Experiment", experiment.value)
    else Category("Collection", collection)
  }
}
