/**
  The loss-recipe catalog `LOSS_TYPE`: recipe name to the per-sub-model
  weight maps and the optional cross-model KL weights.
 */
module Catalog {
  import opened Keys

  /**
    One recipe. `main` and `peer` are the weight slices handed to the two
    sub-models; `cross` holds the recipe's remaining top-level entries,
    the "main_kl_loss{i}" / "peer_kl_loss{i}" weights.
   */
  datatype Recipe = Recipe(main: map<string, real>, peer: map<string, real>, cross: map<string, real>)

  const CeWeights: map<string, real> := map["ce_loss0" := 1.0, "ce_loss1" := 0.01]
  const TriWeights: map<string, real> :=
    map["ce_loss0" := 1.0, "ce_loss1" := 0.01, "tri_loss0" := 0.01, "tri_loss1" := 0.01]
  const LsWeights: map<string, real> :=
    map["ce_loss0" := 1.0, "ce_loss1" := 0.01, "ls_loss0" := 0.01, "ls_loss1" := 0.01]
  const MutualKL: map<string, real> := map["main_kl_loss0" := 1.0, "peer_kl_loss0" := 1.0]

  const LossTypes: map<string, Recipe> := map[
    "ts_klce_loss" := Recipe(map[], map["ce_loss0" := 1.0], map["peer_kl_loss0" := 100.0]),
    "ce_loss" := Recipe(CeWeights, CeWeights, map[]),
    "klce_loss" := Recipe(CeWeights, CeWeights, MutualKL),
    "trice_loss" := Recipe(TriWeights, TriWeights, map[]),
    "lsce_loss" := Recipe(LsWeights, LsWeights, map[]),
    "triklce_loss" := Recipe(TriWeights, TriWeights, MutualKL),
    "lsklce_loss" := Recipe(LsWeights, LsWeights, MutualKL)
  ]

  ghost predicate PositiveWeights(w: map<string, real>) {
    forall k :: k in w ==> w[k] > 0.0
  }

  /** Every weight of the recipe is positive, and every cross entry is a KL key of some direction and group. */
  ghost predicate WellFormed(r: Recipe) {
    && PositiveWeights(r.main)
    && PositiveWeights(r.peer)
    && PositiveWeights(r.cross)
    && forall k :: k in r.cross ==> exists d: Role, i: nat :: k == KLKey(d, i)
  }

  /** The recipe names the catalog knows. */
  lemma CatalogNames()
    ensures LossTypes.Keys == {"ts_klce_loss", "ce_loss", "klce_loss", "trice_loss",
                               "lsce_loss", "triklce_loss", "lsklce_loss"}
  {
  }

  /** The teacher-student recipe: nothing for the teacher, cross-entropy for the student, one student-direction KL term. */
  lemma TeacherStudentRecipe()
    ensures "ts_klce_loss" in LossTypes
    ensures LossTypes["ts_klce_loss"].main == map[]
    ensures LossTypes["ts_klce_loss"].peer == map["ce_loss0" := 1.0]
    ensures LossTypes["ts_klce_loss"].cross == map[KLKey(Peer, 0) := 100.0]
  {
    GroupZeroKeys();
  }

  /** The plain recipes carry no KL entry at all. */
  lemma PlainRecipesHaveNoKL(name: string)
    requires name in {"ce_loss", "trice_loss", "lsce_loss"}
    ensures name in LossTypes && LossTypes[name].cross == map[]
    ensures forall d: Role, i: nat :: KLKey(d, i) !in LossTypes[name].cross
  {
  }

  /** The mutual recipes weight both directions of class-group 0 by 1.0 and nothing else. */
  lemma MutualRecipesHaveBothKL(name: string)
    requires name in {"klce_loss", "triklce_loss", "lsklce_loss"}
    ensures name in LossTypes
    ensures LossTypes[name].cross == map[KLKey(Main, 0) := 1.0, KLKey(Peer, 0) := 1.0]
  {
    GroupZeroKeys();
  }

  /** The weight maps the catalog is built from are positive. */
  lemma SlicesPositive()
    ensures PositiveWeights(map[]) && PositiveWeights(map["ce_loss0" := 1.0])
    ensures PositiveWeights(CeWeights) && PositiveWeights(TriWeights) && PositiveWeights(LsWeights)
    ensures PositiveWeights(map["peer_kl_loss0" := 100.0]) && PositiveWeights(MutualKL)
  {
  }

  /** A cross map keyed only by the two KL keys of group 0 is keyed by KL keys. */
  lemma GroupZeroCross(cross: map<string, real>)
    requires cross.Keys <= {"main_kl_loss0", "peer_kl_loss0"}
    ensures forall k :: k in cross ==> exists d: Role, i: nat :: k == KLKey(d, i)
  {
    GroupZeroKeys();
    forall k | k in cross
      ensures exists d: Role, i: nat :: k == KLKey(d, i)
    {
      assert k == KLKey(Main, 0) || k == KLKey(Peer, 0);
    }
  }

  /** Every recipe in the catalog is well formed. */
  lemma CatalogWellFormed()
    ensures forall name :: name in LossTypes ==> WellFormed(LossTypes[name])
  {
    SlicesPositive();
    GroupZeroCross(map[]);
    GroupZeroCross(map["peer_kl_loss0" := 100.0]);
    GroupZeroCross(MutualKL);
    CatalogNames();
  }

  /**
    A KL key is never "main" or "peer", so keeping the cross weights apart
    from the two slices loses nothing of the source's single dictionary.
   */
  lemma KLKeyIsNotSliceName(d: Role, i: nat)
    ensures KLKey(d, i) != "main" && KLKey(d, i) != "peer"
  {
    assert |KLKey(d, i)| > 4;
  }
}
