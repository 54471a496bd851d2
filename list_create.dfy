/** How the list-create views of django/bosscore/views.py find the row they
    just saved before registering its lookup entry. They re-read it with
    `objects.get(name=...)`, a query on the name alone, while experiment
    names are unique only within a collection and channel/layer names only
    within an experiment. The relational table is modelled as a sequence of
    rows and Django's `get` as a function over it. */
module ListCreate {
  import opened Wrappers
  import opened LookupKeys

  /** What Django's `QuerySet.get` gives back. */
  datatype GetResult<T> = Found(row: T) | DoesNotExist | MultipleObjectsReturned

  function Filter<T(!new)>(rows: seq<T>, p: T -> bool): (r: seq<T>)
    ensures forall x :: x in r <==> x in rows && p(x)
  {
    if |rows| == 0 then []
    else (if p(rows[0]) then [rows[0]] else []) + Filter(rows[1..], p)
  }

  /** `Model.objects.get(<p>)`: the single matching row, or one of the two errors. */
  function Get<T(!new)>(rows: seq<T>, p: T -> bool): (r: GetResult<T>)
    ensures r.Found? ==> r.row in rows && p(r.row)
    ensures r.DoesNotExist? <==> forall x :: x in rows ==> !p(x)
  {
    var hits := Filter(rows, p);
    if |hits| == 0 then DoesNotExist
    else
      assert hits[0] in hits;
      if |hits| == 1 then Found(hits[0]) else MultipleObjectsReturned
  }

  /** Two different rows that both satisfy the query make `get` fail. */
  lemma {:induction false} GetFailsOnTwoMatches<T(!new)>(rows: seq<T>, p: T -> bool, x: T, y: T)
    requires x in rows && y in rows && x != y && p(x) && p(y)
    ensures Get(rows, p) == MultipleObjectsReturned
  {
    var hits := Filter(rows, p);
    assert x in hits && y in hits;
    var i :| 0 <= i < |hits| && hits[i] == x;
    var j :| 0 <= j < |hits| && hits[j] == y;
    assert i != j;
  }

  /** Rows of a table are pairwise distinct. */
  ghost predicate Distinct<T>(rows: seq<T>)
  {
    forall i, j :: 0 <= i < j < |rows| ==> rows[i] != rows[j]
  }

  /** When only x satisfies the query, `get` returns x. */
  lemma GetFindsOnlyMatch<T(!new)>(rows: seq<T>, p: T -> bool, x: T)
    requires Distinct(rows) && x in rows && p(x)
    requires forall y :: y in rows && p(y) ==> y == x
    ensures Get(rows, p) == Found(x)
  {
    var hits := Filter(rows, p);
    FilterHasNoDuplicates(rows, p);
    assert x in hits;
    forall i | 0 <= i < |hits|
      ensures hits[i] == x
    {
      assert hits[i] in hits;
    }
    FirstTwoEqual(hits, x);
  }

  lemma FirstTwoEqual<T>(s: seq<T>, x: T)
    requires forall i :: 0 <= i < |s| ==> s[i] == x
    ensures |s| >= 2 ==> s[0] == s[1]
  {
  }

  lemma {:induction false} FilterHasNoDuplicates<T(!new)>(rows: seq<T>, p: T -> bool)
    requires Distinct(rows)
    ensures Distinct(Filter(rows, p))
  {
    if |rows| > 0 {
      FilterHasNoDuplicates(rows[1..], p);
    }
  }

  // ---------------------------------------------------------------------
  // ExperimentList.create

  datatype CreateError = LookupFailed

  /** As written: the entry is built from the experiment that
      `Experiment.objects.get(name=exp_data['name'])` returns from the table
      after the save; any other outcome raises inside the atomic block. */
  function ExperimentCreateAsWritten(rows: seq<Experiment>, saved: Experiment): (r: Result<LookupEntry, CreateError>)
    requires saved in rows
    ensures r.Success? ==> exists e :: e in rows && e.name == saved.name && r.value == ExperimentEntry(e)
  {
    match Get(rows, (e: Experiment) => e.name == saved.name)
    case Found(e) => Success(ExperimentEntry(e))
    case _ => Failure(LookupFailed)
  }

  /** As written, creating experiment "exp1" in a second collection fails
      once another collection already has an "exp1". */
  lemma ExperimentCreateAsWrittenFailsOnSharedName(rows: seq<Experiment>, saved: Experiment, other: Experiment)
    requires saved in rows && other in rows
    requires other.name == saved.name && other.collection != saved.collection
    ensures ExperimentCreateAsWritten(rows, saved) == Failure(LookupFailed)
  {
    GetFailsOnTwoMatches(rows, (e: Experiment) => e.name == saved.name, saved, other);
  }

  /** A concrete instance of the failure. */
  lemma ExperimentCreateAsWrittenCounterexample()
    ensures var exp1InCol1 := Experiment(1, "exp1", Collection(1, "col1"), 0);
            var exp1InCol2 := Experiment(2, "exp1", Collection(2, "col2"), 0);
            ExperimentCreateAsWritten([exp1InCol1, exp1InCol2], exp1InCol2) == Failure(LookupFailed)
  {
    var exp1InCol1 := Experiment(1, "exp1", Collection(1, "col1"), 0);
    var exp1InCol2 := Experiment(2, "exp1", Collection(2, "col2"), 0);
    ExperimentCreateAsWrittenFailsOnSharedName([exp1InCol1, exp1InCol2], exp1InCol2, exp1InCol1);
  }

  /** Corrected: the entry is built from the saved experiment itself, so it
      always succeeds and is keyed by that experiment's own id chain. */
  function ExperimentCreate(rows: seq<Experiment>, saved: Experiment): (r: Result<LookupEntry, CreateError>)
    requires saved in rows
    ensures r.Success?
    ensures KeyText(r.value.lookupKey) == IdsKey([saved.collection.pk, saved.pk])
    ensures r.value.bossKey == EntryOf(Exp(saved)).bossKey
  {
    Success(ExperimentEntry(saved))
  }

  /** The two agree whenever the name is unique across the whole table. */
  lemma ExperimentCreateAgreesOnUniqueName(rows: seq<Experiment>, saved: Experiment)
    requires Distinct(rows) && saved in rows
    requires forall e :: e in rows && e.name == saved.name ==> e == saved
    ensures ExperimentCreateAsWritten(rows, saved) == ExperimentCreate(rows, saved)
  {
    GetFindsOnlyMatch(rows, (e: Experiment) => e.name == saved.name, saved);
  }

  // ---------------------------------------------------------------------
  // ChannelList.create and LayerList.create

  /** As written: `ChannelLayer.objects.get(name=...)`, with neither the
      experiment nor the channel/layer flag in the query. */
  function ChannelLayerCreateAsWritten(rows: seq<ChannelLayer>, saved: ChannelLayer): (r: Result<LookupEntry, CreateError>)
    requires saved in rows
    ensures r.Success? ==> exists ch :: ch in rows && ch.name == saved.name && r.value == ChannelLayerEntry(ch)
  {
    match Get(rows, (ch: ChannelLayer) => ch.name == saved.name)
    case Found(ch) => Success(ChannelLayerEntry(ch))
    case _ => Failure(LookupFailed)
  }

  /** As written, a channel or layer fails to register when a channel or
      layer of the same name exists in another experiment. */
  lemma ChannelLayerCreateAsWrittenFailsOnSharedName(rows: seq<ChannelLayer>, saved: ChannelLayer, other: ChannelLayer)
    requires saved in rows && other in rows
    requires other.name == saved.name && other != saved
    ensures ChannelLayerCreateAsWritten(rows, saved) == Failure(LookupFailed)
  {
    GetFailsOnTwoMatches(rows, (ch: ChannelLayer) => ch.name == saved.name, saved, other);
  }

  /** Channel "c1" of exp1, then channel "c1" of exp2: the second fails. */
  lemma ChannelLayerCreateAsWrittenCounterexample()
    ensures var col := Collection(1, "col1");
            var c1InExp1 := ChannelLayer(1, "c1", true, Experiment(1, "exp1", col, 10));
            var c1InExp2 := ChannelLayer(2, "c1", true, Experiment(2, "exp2", col, 10));
            ChannelLayerCreateAsWritten([c1InExp1, c1InExp2], c1InExp2) == Failure(LookupFailed)
  {
    var col := Collection(1, "col1");
    var c1InExp1 := ChannelLayer(1, "c1", true, Experiment(1, "exp1", col, 10));
    var c1InExp2 := ChannelLayer(2, "c1", true, Experiment(2, "exp2", col, 10));
    ChannelLayerCreateAsWrittenFailsOnSharedName([c1InExp1, c1InExp2], c1InExp2, c1InExp1);
  }

  /** Corrected: register the saved channel or layer itself. */
  function ChannelLayerCreate(rows: seq<ChannelLayer>, saved: ChannelLayer): (r: Result<LookupEntry, CreateError>)
    requires saved in rows
    ensures r.Success?
    ensures KeyText(r.value.lookupKey) == IdsKey([saved.experiment.collection.pk, saved.experiment.pk, saved.pk])
    ensures r.value.bossKey == EntryOf(ChanLayer(saved)).bossKey
  {
    Success(ChannelLayerEntry(saved))
  }

  lemma ChannelLayerCreateAgreesOnUniqueName(rows: seq<ChannelLayer>, saved: ChannelLayer)
    requires Distinct(rows) && saved in rows
    requires forall ch :: ch in rows && ch.name == saved.name ==> ch == saved
    ensures ChannelLayerCreateAsWritten(rows, saved) == ChannelLayerCreate(rows, saved)
  {
    GetFindsOnlyMatch(rows, (ch: ChannelLayer) => ch.name == saved.name, saved);
  }
}
