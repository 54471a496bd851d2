/** The lookup-key and boss-key entries that the list-create views of
    django/bosscore/views.py register for every new collection, experiment,
    channel and layer. The lookup key is built from the primary keys of the
    entity and its ancestors, the boss key from their names, both joined
    with '&'. */
module LookupKeys {
  import opened Wrappers
  import opened Strings

  const Sep: char := '&'

  datatype Collection = Collection(pk: int, name: string)

  datatype Experiment = Experiment(pk: int, name: string, collection: Collection, maxTimeSample: int)

  /** A channel (isChannel) or a layer (!isChannel); both share one table. */
  datatype ChannelLayer = ChannelLayer(pk: int, name: string, isChannel: bool, experiment: Experiment)

  /** Any entity that gets a lookup entry. */
  datatype Resource = Col(col: Collection) | Exp(exp: Experiment) | ChanLayer(chan: ChannelLayer)

  /** The collection view hands the raw integer pk over as its lookup key;
      the others hand over an '&'-joined string. */
  datatype LookupKey = RawPk(pk: int) | Joined(text: string)

  /** The arguments of one `LookUpKey.add_lookup` call. */
  datatype LookupEntry = LookupEntry(
    lookupKey: LookupKey,
    bossKey: string,
    collectionName: string,
    experimentName: Option<string>,
    channelLayerName: Option<string>,
    maxTimeSample: Option<int>)

  /** The text of a lookup key, as `str()` renders it. */
  function KeyText(k: LookupKey): string
  {
    match k
    case RawPk(pk) => IntToString(pk)
    case Joined(text) => text
  }

  /** Primary keys of the entity's ancestors and itself, outermost first. */
  function IdChain(r: Resource): (ids: seq<int>)
    ensures 1 <= |ids| <= 3
  {
    match r
    case Col(c) => [c.pk]
    case Exp(e) => [e.collection.pk, e.pk]
    case ChanLayer(ch) => [ch.experiment.collection.pk, ch.experiment.pk, ch.pk]
  }

  /** Names of the entity's ancestors and itself, outermost first. */
  function NameChain(r: Resource): (names: seq<string>)
    ensures |names| == |IdChain(r)|
  {
    match r
    case Col(c) => [c.name]
    case Exp(e) => [e.collection.name, e.name]
    case ChanLayer(ch) => [ch.experiment.collection.name, ch.experiment.name, ch.name]
  }

  function IdStrings(ids: seq<int>): (r: seq<string>)
    ensures |r| == |ids|
    ensures forall i :: 0 <= i < |ids| ==> r[i] == IntToString(ids[i])
  {
    if |ids| == 0 then [] else [IntToString(ids[0])] + IdStrings(ids[1..])
  }

  /** The '&'-joined decimal rendering of an id chain. */
  function IdsKey(ids: seq<int>): string
  {
    Join(IdStrings(ids), Sep)
  }

  // ---------------------------------------------------------------------
  // The entries built by the four list-create views

  /** CollectionList.create: lookup key is the pk itself, boss key the name. */
  function CollectionEntry(c: Collection): (r: LookupEntry)
    ensures r.lookupKey == RawPk(c.pk) && KeyText(r.lookupKey) == IdsKey([c.pk])
    ensures r.bossKey == Join([c.name], Sep)
  {
    LookupEntry(RawPk(c.pk), c.name, c.name, None, None, None)
  }

  /** ExperimentList.create, given the experiment that was just saved. */
  function ExperimentEntry(e: Experiment): (r: LookupEntry)
    ensures KeyText(r.lookupKey) == IdsKey([e.collection.pk, e.pk])
    ensures r.bossKey == Join([e.collection.name, e.name], Sep)
    ensures r.experimentName == Some(e.name) && r.channelLayerName == None
  {
    var c := e.collection;
    assert IdStrings([c.pk, e.pk]) == [IntToString(c.pk), IntToString(e.pk)];
    JoinTwo(IntToString(c.pk), IntToString(e.pk), Sep);
    JoinTwo(c.name, e.name, Sep);
    LookupEntry(
      Joined(IntToString(c.pk) + [Sep] + IntToString(e.pk)),
      c.name + [Sep] + e.name,
      c.name, Some(e.name), None, None)
  }

  /** ChannelList.create and LayerList.create (the same code), given the
      channel or layer that was just saved. */
  function ChannelLayerEntry(ch: ChannelLayer): (r: LookupEntry)
    ensures KeyText(r.lookupKey) == IdsKey([ch.experiment.collection.pk, ch.experiment.pk, ch.pk])
    ensures r.bossKey == Join([ch.experiment.collection.name, ch.experiment.name, ch.name], Sep)
    ensures r.channelLayerName == Some(ch.name) && r.maxTimeSample == Some(ch.experiment.maxTimeSample)
  {
    var e := ch.experiment;
    var c := e.collection;
    assert IdStrings([c.pk, e.pk, ch.pk]) == [IntToString(c.pk), IntToString(e.pk), IntToString(ch.pk)];
    JoinThree(IntToString(c.pk), IntToString(e.pk), IntToString(ch.pk), Sep);
    JoinThree(c.name, e.name, ch.name, Sep);
    LookupEntry(
      Joined(IntToString(c.pk) + [Sep] + IntToString(e.pk) + [Sep] + IntToString(ch.pk)),
      c.name + [Sep] + e.name + [Sep] + ch.name,
      c.name, Some(e.name), Some(ch.name), Some(e.maxTimeSample))
  }

  function EntryOf(r: Resource): LookupEntry
  {
    match r
    case Col(c) => CollectionEntry(c)
    case Exp(e) => ExperimentEntry(e)
    case ChanLayer(ch) => ChannelLayerEntry(ch)
  }

  // ---------------------------------------------------------------------
  // Properties of the derivation

  /** Every entity's lookup key is the joined rendering of its id chain and
      its boss key the joined name chain. */
  lemma EntryFollowsChains(r: Resource)
    ensures KeyText(EntryOf(r).lookupKey) == IdsKey(IdChain(r))
    ensures EntryOf(r).bossKey == Join(NameChain(r), Sep)
  {
  }

  lemma IdStringsInjective(p: seq<int>, q: seq<int>)
    requires IdStrings(p) == IdStrings(q)
    ensures p == q
  {
    forall i | 0 <= i < |p|
      ensures p[i] == q[i]
    {
      IntToStringInjective(p[i], q[i]);
    }
  }

  lemma IdStringsFreeOfSep(ids: seq<int>)
    ensures NoneContains(IdStrings(ids), Sep)
  {
    forall i | 0 <= i < |ids|
      ensures Sep !in IdStrings(ids)[i]
    {
      IntToStringExcludes(ids[i], Sep);
    }
  }

  /** Two entities share a lookup key exactly when they have the same id
      chain: the key depends on ids only (renaming changes nothing), and
      since rendered ids never contain '&' distinct chains never collide,
      across levels as well. */
  lemma {:induction false} LookupKeyIdentifiesIdChain(r1: Resource, r2: Resource)
    ensures KeyText(EntryOf(r1).lookupKey) == KeyText(EntryOf(r2).lookupKey)
        <==> IdChain(r1) == IdChain(r2)
  {
    EntryFollowsChains(r1);
    EntryFollowsChains(r2);
    if IdsKey(IdChain(r1)) == IdsKey(IdChain(r2)) {
      IdStringsFreeOfSep(IdChain(r1));
      IdStringsFreeOfSep(IdChain(r2));
      JoinInjective(IdStrings(IdChain(r1)), IdStrings(IdChain(r2)), Sep);
      IdStringsInjective(IdChain(r1), IdChain(r2));
    }
  }

  /** Giving an entity or any ancestor a new name leaves its lookup key as it was. */
  lemma RenameKeepsLookupKey(r1: Resource, r2: Resource)
    requires IdChain(r1) == IdChain(r2)
    ensures EntryOf(r1).lookupKey == EntryOf(r2).lookupKey
  {
  }

  /** With names free of '&', the boss key determines the name chain. */
  lemma BossKeyDeterminesNames(r1: Resource, r2: Resource)
    requires NoneContains(NameChain(r1), Sep) && NoneContains(NameChain(r2), Sep)
    requires EntryOf(r1).bossKey == EntryOf(r2).bossKey
    ensures NameChain(r1) == NameChain(r2)
  {
    EntryFollowsChains(r1);
    EntryFollowsChains(r2);
    JoinInjective(NameChain(r1), NameChain(r2), Sep);
  }

  /** Names are not checked for '&' here, so a boss key alone does not tell
      an experiment "b&c" of collection "a" from experiment "c" of
      collection "a&b", nor from channel "c" of experiment "b". */
  lemma BossKeyAmbiguousWithAmpersandNames()
    ensures var a := Collection(1, "a");
            var ab := Collection(2, "a&b");
            var r1 := Exp(Experiment(3, "b&c", a, 0));
            var r2 := Exp(Experiment(4, "c", ab, 0));
            var r3 := ChanLayer(ChannelLayer(5, "c", true, Experiment(6, "b", a, 0)));
            && EntryOf(r1).bossKey == EntryOf(r2).bossKey == EntryOf(r3).bossKey == "a&b&c"
            && NameChain(r1) != NameChain(r2)
  {
  }
}
