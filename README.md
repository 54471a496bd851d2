# Boss metadata endpoint, lookup keys and management views, in Dafny

This project models two parts of the Boss web service (a Django application that serves a
Collection → Experiment → Channel/Layer data model):

- **Lookup-key registration and the metadata endpoint** (`django/bosscore/views.py`). Each
  list-create view registers a *lookup key* for a new entity. The key is built from the
  primary keys of the entity and its ancestors joined with `&`. A human-readable *boss key* is
  built the same way from their names. The `BossMeta` view is a key/value store with one
  handler per HTTP verb, scoped by the first element of the request's resolved lookup key.
- **Data shaping in the management UI** (`django/management/views.py`). This covers the
  group role table, the `source`/`related` comma lists of a new channel, the read-only fields
  stripped from a coordinate-frame update, the fields dropped from a new user, the token
  toggle, the category of the metadata page and the `action` dispatch of every POST handler.

Files, one module each:

- `wrappers.dfy` — `Option` and `Result`.
- `strings.dfy` — Python's `sep.join`, `s.split(sep)` and `str(int)`. It proves the round trips
  that make the `&`-joined id keys injective.
- `lookup_keys.dfy` — entities, the entries the four list-create views register, and the
  properties of the key derivation.
- `list_create.dfy` — how those views re-read the row they just saved (Django's `get`), as
  written and corrected (see Findings).
- `metadata.dfy` — the `MetaDB` class over a `map<(scope, key), value>` and the four `BossMeta`
  handlers.
- `management.dfy` — the management views' data shaping and the `TokenStore` class.

Behaviours of the code worth knowing, all modelled as written:

- A missing `key`/`value` argument gets status 404 with code 30000.
- Metadata update is an unconditional write; it does not require the entry to exist.
- A successful delete answers 201. Deleting an absent key answers 400.
- An empty key listing is a 404 with code 30000.
- The collection's lookup key is handed over as the raw integer pk. The other keys are strings.

## Model

| member | source | states |
|---|---|---|
| Strings.Split | django/management/views.py:436 | `str.split(',')` always yields at least one piece, and no piece contains the separator |
| Strings.JoinSplit | django/management/views.py:433-440 | re-joining the pieces of a split with the separator gives the original string |
| Strings.SplitJoin | django/bosscore/views.py:241 | splitting the `&`-join of `&`-free pieces gives the pieces back |
| Strings.JoinInjective | django/bosscore/views.py:271 | two non-empty lists of separator-free pieces with equal joins are equal |
| Strings.NatDigits | django/bosscore/views.py:241 | `str()` of a natural number is a non-empty string of decimal digits |
| Strings.ParseNatDigits | django/bosscore/views.py:241 | reading the decimal digits back gives the number (round trip) |
| Strings.IntToString | django/bosscore/views.py:241 | `str()` of an int is non-empty: an optional leading '-', then digits |
| Strings.SignShows | django/bosscore/views.py:241 | the rendering starts with '-' exactly when the integer is negative |
| Strings.IntToStringInjective | django/bosscore/views.py:241 | distinct ids render to distinct strings |
| Strings.IntToStringExcludes | django/bosscore/views.py:302 | a rendered id never contains '&' (or any character other than digits and '-') |
| LookupKeys.CollectionEntry | django/bosscore/views.py:212-215 | a collection's lookup key is its raw pk, whose text is the one-element id key; its boss key is its name |
| LookupKeys.ExperimentEntry | django/bosscore/views.py:238-242 | an experiment's lookup key reads as the `&`-join of [collection pk, experiment pk]; its boss key is the `&`-join of the two names; the experiment name is recorded |
| LookupKeys.ChannelLayerEntry | django/bosscore/views.py:266-272 | a channel's (and, by the same code at 297-303, a layer's) lookup key is the `&`-join of the three ancestor ids; its boss key is the join of the three names; it records the experiment's max_time_sample |
| LookupKeys.EntryFollowsChains | django/bosscore/views.py:213-302 | for every entity, the lookup key is the joined id chain and the boss key the joined name chain, in ancestor order |
| LookupKeys.LookupKeyIdentifiesIdChain | django/bosscore/views.py:240-302 | two entities, at any levels, have equal lookup-key text if and only if their ancestor id chains are equal |
| LookupKeys.RenameKeepsLookupKey | django/bosscore/views.py:241 | entities with the same id chain get the same lookup key, whatever their names |
| LookupKeys.BossKeyDeterminesNames | django/bosscore/views.py:240 | when no name contains '&', equal boss keys mean equal name chains |
| LookupKeys.BossKeyAmbiguousWithAmpersandNames | django/bosscore/views.py:270 | names that contain '&' make boss keys collide across entities and levels ("a&b&c" three ways) |
| ListCreate.Get | django/bosscore/views.py:238 | `objects.get`: a found row is in the table and matches; DoesNotExist exactly when no row matches |
| ListCreate.GetFailsOnTwoMatches | django/bosscore/views.py:266 | two distinct matching rows make `get` raise MultipleObjectsReturned |
| ListCreate.GetFindsOnlyMatch | django/bosscore/views.py:297 | in a table of distinct rows, the only matching row is the one `get` returns |
| ListCreate.ExperimentCreateAsWritten | django/bosscore/views.py:238-242 | as written, a registered entry is the entry of some experiment with the saved experiment's name |
| ListCreate.ExperimentCreateAsWrittenFailsOnSharedName | django/bosscore/views.py:238 | as written, registration fails when an experiment of the same name exists in another collection |
| ListCreate.ExperimentCreateAsWrittenCounterexample | django/bosscore/views.py:238 | exp1 in col1, then exp1 in col2: the second registration fails |
| ListCreate.ExperimentCreate | django/bosscore/views.py:237-242 | corrected: registration always succeeds, keyed by the saved experiment's own id chain |
| ListCreate.ExperimentCreateAgreesOnUniqueName | django/bosscore/views.py:238-242 | when the name is unique in the table, as-written and corrected registration agree |
| ListCreate.ChannelLayerCreateAsWritten | django/bosscore/views.py:297-303 | as written (channel and layer views alike), a registered entry is that of some channel/layer with the saved name |
| ListCreate.ChannelLayerCreateAsWrittenFailsOnSharedName | django/bosscore/views.py:266 | as written, registration fails when any other channel or layer shares the name |
| ListCreate.ChannelLayerCreateAsWrittenCounterexample | django/bosscore/views.py:266 | channel "c1" of exp1, then channel "c1" of exp2: the second fails to register |
| ListCreate.ChannelLayerCreate | django/bosscore/views.py:265-272 | corrected: registration succeeds, keyed by the saved channel/layer's own id chain |
| ListCreate.ChannelLayerCreateAgreesOnUniqueName | django/bosscore/views.py:296-303 | with a unique name, as-written and corrected registration agree |
| Metadata.MetaDB.constructor | django/bosscore/views.py:351 | a handle on the shared metadata table as it stands, holding exactly its current entries |
| Metadata.MetaDB.ScopeKeys | django/bosscore/views.py:352 | the keys under a scope are exactly those stored with that scope |
| Metadata.MetaDB.GetMeta | django/bosscore/views.py:367 | `get_meta` returns the item exactly when (scope, key) is stored, with the stored value |
| Metadata.MetaDB.GetMetaList | django/bosscore/views.py:352 | `get_meta_list` lists every key under the scope once, each with its stored value |
| Metadata.MetaDB.WriteMeta | django/bosscore/views.py:407 | `write_meta` sets (scope, key) to the value and changes nothing else |
| Metadata.MetaDB.UpdateMeta | django/bosscore/views.py:481 | `update_meta` sets (scope, key) to the value whether or not it existed |
| Metadata.MetaDB.DeleteMeta | django/bosscore/views.py:441-443 | `delete_meta` removes (scope, key) and reports whether it existed |
| Metadata.Get | django/bosscore/views.py:325-372 | a parse error passes through; an empty lookup key or first element is a 404/30000; without `key`, the keys of the scope without duplicates (404/30000 when none); with `key`, exactly the stored (key, value) or 404/30000 |
| Metadata.Post | django/bosscore/views.py:374-408 | missing key or value is a 404/30000 before anything else; a parse error or empty scope is refused; an existing entry is refused; otherwise exactly that entry is inserted and status 201 returned; the store changes only then |
| Metadata.Delete | django/bosscore/views.py:410-446 | missing key is refused first; only an empty lookup key is refused; the entry is removed, 201 if it existed and 400 otherwise (store then unchanged) |
| Metadata.Put | django/bosscore/views.py:448-482 | missing key or value is refused first; only an empty lookup key is refused; otherwise the entry is written unconditionally and 201 returned |
| Metadata.CreateReadDelete | django/bosscore/views.py:400-446 | create then get returns the value; a second create is refused; delete then get is a 404; the store ends as it began |
| Management.Without | django/management/views.py:46-47 | deleting fields keeps every other field with its value |
| Management.WithoutRestores | django/management/views.py:309-310 | putting the deleted fields back restores the form data |
| Management.UsersPost | django/management/views.py:41-54 | an invalid form re-renders; otherwise `add_user` gets the username apart and a payload without username and verify_password, all else kept |
| Management.TokenStore.Button | django/management/views.py:92-98 | "Revoke Token" exactly when the user has a token, else "Generate Token" |
| Management.TokenStore.Post | django/management/views.py:107-112 | the user's token is deleted if present, created otherwise |
| Management.Toggled | django/management/views.py:108-112 | after one post the user's token presence is flipped, a new token carries the new key, other users are untouched |
| Management.ToggleTwice | django/management/views.py:107-114 | two posts restore the user's presence state and leave every other user as they were |
| Management.PostTwice | django/management/views.py:92-114 | after two posts the token page offers the same button as before, and every other user's token is as it was |
| Management.RoleTable | django/management/views.py:173-180 | members map to 'member', or 'member+maintainer' when also maintainers; other maintainers map to 'maintainer'; no one else appears |
| Management.RoleTableKeys | django/management/views.py:173-180 | the table's keys are exactly members ∪ maintainers |
| Management.RoleTableReadsBack | django/management/views.py:199-205 | reading a role with `'member' in role` / `'maintainer' in role`, as Group.post does, recovers membership in each list |
| Management.CoordReadOnlyDistinct | django/management/views.py:297-308 | the twelve read-only field names are distinct |
| Management.StripReadOnly | django/management/views.py:297-310 | removes exactly the twelve read-only fields (all must be present) and keeps every other field unchanged |
| Management.CoordinateFramePost | django/management/views.py:291-317 | an invalid form re-renders; otherwise `up_coord` gets the data minus the read-only fields, values unchanged |
| Management.ListField | django/management/views.py:433-440 | `[]` exactly when absent or empty; otherwise comma-free pieces that re-join to the typed string |
| Management.ChannelPayload | django/management/views.py:431-440 | source and related become lists; every other field is kept |
| Management.ListFieldRoundTrip | django/management/views.py:436 | a non-empty list field splits into pieces that join back to it |
| Management.ResourcesPost | django/management/views.py:247-276 | 400 "Unknown post action" exactly for actions other than col/coord; col sends only the description; coord sends the whole form; an invalid col or coord form re-renders its own form and calls nothing |
| Management.MetaAction | django/management/views.py:369-380 | a valid meta form becomes one `add_meta` with key, value and resource path; an invalid one re-renders the meta form and calls nothing |
| Management.CollectionPost | django/management/views.py:354-382 | 400 "Unknown post action" exactly for actions other than exp/meta; the api call for each valid form; an invalid exp or meta form re-renders that form |
| Management.ExperimentPostAsWritten | django/management/views.py:425-461 | as written: unknown actions give 400; an invalid channel form raises TypeError; an invalid meta form re-renders the meta form |
| Management.ExperimentPost | django/management/views.py:428-447 | corrected: never crashes; an invalid channel form re-renders; a valid one sends the split payload; a valid meta form adds the entry under [collection, experiment], an invalid one re-renders the meta form |
| Management.ExperimentPostFixIsLocal | django/management/views.py:447 | as-written and corrected differ exactly on an invalid channel form |
| Management.ChannelPost | django/management/views.py:491-507 | 400 "Unknown post action" exactly for actions other than meta; a valid meta form adds the entry under [collection, experiment, channel], an invalid one re-renders the meta form |
| Management.MetaCategory | django/management/views.py:516-524 | Channel when a channel is given, else Experiment when an experiment is given, else Collection, named by that argument |

## Left out

- `BossRequest` and its `get_lookup_key()` are not part of this model. Each metadata handler takes the resolved key list, or the `BossError` it raised, as an input.
- `LookUpKey.add_lookup` is not part of this model. The create views are modelled up to the entry they hand over.
- The DynamoDB behaviour of `MetaDB` is not part of this model. Its table is a map, and writes, updates and deletes act on it directly.
- Metadata.MetaDB.GetMetaList: the listing order is the store's and is not constrained; only the set of items and the absence of duplicates are stated.
- Metadata.Get: the key list is stated up to order (keys of the scope, no duplicates), because the store's listing order is not modelled.
- Management.RoleTable: the row order of the rendered table (dict insertion order) is not stated; the table is a map.
- `@transaction.atomic` and the race between the existence check and the write in metadata POST are left out. The model is sequential.
- ORM CRUD views (`CollectionObj`, `ExperimentObj`, `ChannelLayerObj`, `CoordinateFrameList`) and serializer validation are left out. In the list-create views only the registration after a successful save is modelled; the 400 on invalid data is glue.
- Forms: validation is an input (the cleaned data, or none). Typed form values are carried as text.
- `api.*` calls, `render_to_string`, `redirect` and `LoginRequiredMixin` are left out. Each POST handler is modelled up to the api call it makes. What follows the call (return the error or redirect) is not modelled.
- Apart from the role table of Group.get, the button of Token.get and the category of Meta.get, the GET handlers of the management views only fetch and render and are not modelled. The POST handlers of `User`, `Groups` and `Group` only forward form fields to `api.*` and are not modelled either; `Group.post`'s role test appears only in RoleTableReadsBack.
- Token.post catches every exception with a bare `except:`. Only the "no token" case is modelled. The new token's key, generated by the token model, is an input.
- Cutout reading/writing, compression, coordinate-frame bound checks and view tokens belong to other parts of the service (`django/bossspatialdb`), whose code is not part of this model. The ingest delegation (`django/bossingest/views.py`) and the health check (`django/boss/views.py`, socket I/O) are also left out.

## Findings

| source | as written | input that shows it | evidently intended | confidence | as-written member | corrected member |
|---|---|---|---|---|---|---|
| django/bosscore/views.py:238 | ExperimentList.create re-reads the saved experiment with `Experiment.objects.get(name=...)`, by name alone | collection col1 has experiment exp1; creating exp1 in col2 matches two rows, `get` raises MultipleObjectsReturned and the atomic create fails | register the experiment that was just saved (its own pk and collection) | medium, not executed (relies on experiment names being unique only per collection) | ListCreate.ExperimentCreateAsWrittenCounterexample | ListCreate.ExperimentCreate |
| django/bosscore/views.py:266 | ChannelList.create (and LayerList.create, line 297) re-reads with `ChannelLayer.objects.get(name=...)`, without experiment or channel/layer flag | experiment exp1 has channel c1; creating channel c1 in exp2 matches two rows and fails | register the channel or layer that was just saved | medium, not executed (relies on names being unique only per experiment) | ListCreate.ChannelLayerCreateAsWrittenCounterexample | ListCreate.ChannelLayerCreate |
| django/management/views.py:447 | Experiment.post re-renders an invalid channel form with `self.get(..., exp_form=form)`, but Experiment.get has no `exp_form` parameter | POST with action=chan and an invalid channel form: the call raises TypeError | `chan_form=form`, re-rendering the page with the channel form's errors | high, not executed | Management.ExperimentPostAsWritten | Management.ExperimentPost |
