/**
  The storage consistency check across the short-, medium- and long-term
  models (`JulESAggregator.assert_equal_storages`).

  A node carries storage when `get_storage()` returns anything but `None`;
  an empty string counts. For each model, its unique remainder is the set of
  storage nodes that neither of the other two models has as a storage node.
  The check fails only when all three remainders are non-empty, and then
  reports the three remainders, labelled by model.
 */
module StorageCheck {

  import opened Wrappers
  import opened AggregationMap

  /** The nodes of one model, each with what its `get_storage()` returns. */
  type StorageModel = map<Id, Option<string>>

  /** The three remainders of a failed check. */
  datatype StorageMismatch = StorageMismatch(uniqueShort: set<Id>, uniqueMedium: set<Id>, uniqueLong: set<Id>)

  datatype Outcome = Pass | Fail(mismatch: StorageMismatch)

  /** The node has storage in the model: presence, not truthiness. */
  predicate HasStorage(model: StorageModel, id: Id)
  {
    id in model && model[id].Some?
  }

  /** The node has storage in `own` and in neither of the other two models. */
  predicate OnlyIn(own: StorageModel, other1: StorageModel, other2: StorageModel, id: Id)
  {
    HasStorage(own, id) && !HasStorage(other1, id) && !HasStorage(other2, id)
  }

  /** The ids of the storage nodes of a model. */
  function StorageIds(model: StorageModel): set<Id>
  {
    set id | id in model && model[id].Some?
  }

  /** What is left of `own` once everything in the union of the other two is removed. */
  function Remainder(own: set<Id>, other1: set<Id>, other2: set<Id>): set<Id>
  {
    own - (other1 + other2)
  }

  function AssertEqualStorages(short: StorageModel, medium: StorageModel, long: StorageModel): (r: Outcome)
    ensures r.Fail? <==> && (exists s :: OnlyIn(short, medium, long, s))
                         && (exists m :: OnlyIn(medium, short, long, m))
                         && (exists l :: OnlyIn(long, short, medium, l))
    ensures r.Fail? ==> forall id ::
      && (id in r.mismatch.uniqueShort <==> OnlyIn(short, medium, long, id))
      && (id in r.mismatch.uniqueMedium <==> OnlyIn(medium, short, long, id))
      && (id in r.mismatch.uniqueLong <==> OnlyIn(long, short, medium, id))
  {
    var s, m, l := StorageIds(short), StorageIds(medium), StorageIds(long);
    RemainderMeaning(short, medium, long);
    RemainderMeaning(medium, short, long);
    RemainderMeaning(long, short, medium);
    var uniqueShort, uniqueMedium, uniqueLong := Remainder(s, m, l), Remainder(m, s, l), Remainder(l, s, m);
    if uniqueShort != {} && uniqueMedium != {} && uniqueLong != {} then
      Fail(StorageMismatch(uniqueShort, uniqueMedium, uniqueLong))
    else
      Pass
  }

  /** The remainder of a model is the set of its own storage nodes. */
  lemma RemainderMeaning(own: StorageModel, other1: StorageModel, other2: StorageModel)
    ensures forall id :: id in Remainder(StorageIds(own), StorageIds(other1), StorageIds(other2))
                         <==> OnlyIn(own, other1, other2, id)
  {
  }

  /** No node is reported for two models: the three remainders are disjoint. */
  lemma RemaindersDisjoint(short: StorageModel, medium: StorageModel, long: StorageModel)
    requires AssertEqualStorages(short, medium, long).Fail?
    ensures var f := AssertEqualStorages(short, medium, long).mismatch;
            && f.uniqueShort !! f.uniqueMedium
            && f.uniqueShort !! f.uniqueLong
            && f.uniqueMedium !! f.uniqueLong
  {
    var f := AssertEqualStorages(short, medium, long).mismatch;
    forall id | id in f.uniqueShort ensures id !in f.uniqueMedium && id !in f.uniqueLong {
      assert OnlyIn(short, medium, long, id);
    }
    forall id | id in f.uniqueMedium ensures id !in f.uniqueLong {
      assert OnlyIn(medium, short, long, id);
    }
  }

  /** A model whose storage nodes all have storage in one of the other two
      models explains itself, and the check passes. */
  lemma PassWhenOneExplained(short: StorageModel, medium: StorageModel, long: StorageModel)
    requires || StorageIds(short) <= StorageIds(medium) + StorageIds(long)
             || StorageIds(medium) <= StorageIds(short) + StorageIds(long)
             || StorageIds(long) <= StorageIds(short) + StorageIds(medium)
    ensures AssertEqualStorages(short, medium, long) == Pass
  {
    if StorageIds(short) <= StorageIds(medium) + StorageIds(long) {
      forall id ensures !OnlyIn(short, medium, long, id) {
        assert HasStorage(short, id) ==> id in StorageIds(short);
      }
    } else if StorageIds(medium) <= StorageIds(short) + StorageIds(long) {
      forall id ensures !OnlyIn(medium, short, long, id) {
        assert HasStorage(medium, id) ==> id in StorageIds(medium);
      }
    } else {
      forall id ensures !OnlyIn(long, short, medium, id) {
        assert HasStorage(long, id) ==> id in StorageIds(long);
      }
    }
  }

  /** Three models with the same storage nodes pass. */
  lemma PassWhenEqual(short: StorageModel, medium: StorageModel, long: StorageModel)
    requires StorageIds(short) == StorageIds(medium) == StorageIds(long)
    ensures AssertEqualStorages(short, medium, long) == Pass
  {
    PassWhenOneExplained(short, medium, long);
  }

  // ---------------------------------------------------------------------
  // The two scenarios: storage nodes return "" from `get_storage()`, the
  // others `None`.

  /** Short has N2_s, medium N3_s and long N_s on its own: the check fails
      and reports exactly those three. */
  lemma FailsWhenUnequal()
    ensures AssertEqualStorages(
              map["N1_s" := Some(""), "N2_s" := Some(""), "N1" := None],
              map["N1_s" := Some(""), "N" := None, "N3_s" := Some("")],
              map["N_s" := Some("")])
            == Fail(StorageMismatch({"N2_s"}, {"N3_s"}, {"N_s"}))
  {
    var short: StorageModel := map["N1_s" := Some(""), "N2_s" := Some(""), "N1" := None];
    var medium: StorageModel := map["N1_s" := Some(""), "N" := None, "N3_s" := Some("")];
    var long: StorageModel := map["N_s" := Some("")];
    assert StorageIds(short) == {"N1_s", "N2_s"};
    assert StorageIds(medium) == {"N1_s", "N3_s"};
    assert StorageIds(long) == {"N_s"};
  }

  /** Only long has a storage node (N_s) of its own: the check passes. */
  lemma PassesWhenOnlyOneUnique()
    ensures AssertEqualStorages(
              map["N1_s" := Some(""), "N2_s" := Some(""), "N1" := None, "N2" := None],
              map["N1_s" := Some(""), "N2_s" := Some(""), "N" := None],
              map["N_s" := Some(""), "N2_s" := Some("")])
            == Pass
  {
    var short: StorageModel := map["N1_s" := Some(""), "N2_s" := Some(""), "N1" := None, "N2" := None];
    var medium: StorageModel := map["N1_s" := Some(""), "N2_s" := Some(""), "N" := None];
    assert StorageIds(short) == {"N1_s", "N2_s"};
    assert StorageIds(medium) == {"N1_s", "N2_s"};
  }
}
