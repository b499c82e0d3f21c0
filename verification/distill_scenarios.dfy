/**
  Whole-wrapper consequences for the recipes of the catalog: construction
  followed by a forward pass.
 */
module DistillScenarios {
  import opened Wrappers
  import opened Keys
  import opened Symbolic
  import opened Catalog
  import opened DistillModel

  /**
    Recipe "ts_klce_loss" in teacher-student mode, with at least one class-group:
    temperature 10.0, the teacher frozen, the student untouched, and the
    forward pass adds exactly one KL term, "peer_kl_loss0", weighted 100.0,
    over temperature-divided logits with main's side detached.
   */
  lemma {:induction false} TeacherStudentEndToEnd(groups: seq<nat>, mainParams: seq<Param>, peerParams: seq<Param>, m: Dicts, p: Dicts)
    requires |groups| >= 1
    requires "main_out0" in m.out.Keys + p.out.Keys && "peer_out0" in m.out.Keys + p.out.Keys
    ensures var c := Construct(Config("ts_klce_loss", Some("teacher-student")), mainParams, peerParams);
      && c.Success?
      && c.value.temperature == 10.0
      && Frozen(c.value.main) && |c.value.main.params| == |mainParams|
      && c.value.peer.params == peerParams
      && c.value.main.lossWeights == map[] && c.value.peer.lossWeights == map["ce_loss0" := 1.0]
      && Forward(c.value, groups, m, p).Success?
      && Forward(c.value, groups, m, p).value.loss.Keys == m.loss.Keys + p.loss.Keys + {"peer_kl_loss0"}
      && Forward(c.value, groups, m, p).value.loss["peer_kl_loss0"]
         == LossEntry([Div(Merge(m.out, p.out)["peer_out0"], 10.0), Detach(Div(Merge(m.out, p.out)["main_out0"], 10.0))], KL, 100.0)
  {
    TeacherStudentRecipe();
    GroupZeroKeys();
    var c := Construct(Config("ts_klce_loss", Some("teacher-student")), mainParams, peerParams);
    var cross := c.value.recipe.cross;
    var n := |groups|;
    assert cross == map[KLKey(Peer, 0) := 100.0];
    KLKeyInjective(Main, 0, Peer, 0);
    assert forall j: nat :: KLKey(Main, j) !in cross && (0 < j ==> KLKey(Peer, j) !in cross) by {
      forall j: nat
        ensures KLKey(Main, j) !in cross && (0 < j ==> KLKey(Peer, j) !in cross)
      {
        KLKeyInjective(Main, j, Peer, 0);
        KLKeyInjective(Peer, j, Peer, 0);
      }
    }
    assert OperandsAvailable(c.value, groups, m, p);
    assert InsertedKeys(cross, 0, n) == {"peer_kl_loss0"} by {
      assert KLKey(Peer, 0) in InsertedKeys(cross, 0, n);
    }
    assert PeerKLEntry(Forward(c.value, groups, m, p).value.loss, Merge(m.out, p.out), cross, 10.0, 0);
  }

  /**
    Recipes "klce_loss", "triklce_loss" and "lsklce_loss" outside
    teacher-student mode: temperature 1.0, nothing frozen, and both KL terms
    of group 0 inserted with weight 1.0; the main direction's operands carry
    no temperature, the peer direction's carry it on both sides.
   */
  lemma {:induction false} MutualEndToEnd(name: string, mode: Option<string>, groups: seq<nat>,
                                          mainParams: seq<Param>, peerParams: seq<Param>, m: Dicts, p: Dicts)
    requires name in {"klce_loss", "triklce_loss", "lsklce_loss"}
    requires mode == None || mode == Some("student-student")
    requires |groups| >= 1
    requires "main_out0" in m.out.Keys + p.out.Keys && "peer_out0" in m.out.Keys + p.out.Keys
    ensures var c := Construct(Config(name, mode), mainParams, peerParams);
      && c.Success?
      && c.value.temperature == 1.0
      && c.value.main.params == mainParams && c.value.peer.params == peerParams
      && Forward(c.value, groups, m, p).Success?
      && Forward(c.value, groups, m, p).value.loss.Keys == m.loss.Keys + p.loss.Keys + {"main_kl_loss0", "peer_kl_loss0"}
      && Forward(c.value, groups, m, p).value.loss["main_kl_loss0"]
         == LossEntry([Merge(m.out, p.out)["main_out0"], Detach(Merge(m.out, p.out)["peer_out0"])], KL, 1.0)
      && Forward(c.value, groups, m, p).value.loss["peer_kl_loss0"]
         == LossEntry([Div(Merge(m.out, p.out)["peer_out0"], 1.0), Detach(Div(Merge(m.out, p.out)["main_out0"], 1.0))], KL, 1.0)
  {
    MutualRecipesHaveBothKL(name);
    GroupZeroKeys();
    var c := Construct(Config(name, mode), mainParams, peerParams);
    var cross := c.value.recipe.cross;
    var n := |groups|;
    assert cross == map[KLKey(Main, 0) := 1.0, KLKey(Peer, 0) := 1.0];
    KLKeyInjective(Main, 0, Peer, 0);
    assert forall j: nat :: 0 < j ==> KLKey(Main, j) !in cross && KLKey(Peer, j) !in cross by {
      forall j: nat | 0 < j
        ensures KLKey(Main, j) !in cross && KLKey(Peer, j) !in cross
      {
        KLKeyInjective(Main, j, Main, 0);
        KLKeyInjective(Main, j, Peer, 0);
        KLKeyInjective(Peer, j, Main, 0);
        KLKeyInjective(Peer, j, Peer, 0);
      }
    }
    assert OperandsAvailable(c.value, groups, m, p);
    assert InsertedKeys(cross, 0, n) == {"main_kl_loss0", "peer_kl_loss0"} by {
      assert KLKey(Main, 0) in InsertedKeys(cross, 0, n);
      assert KLKey(Peer, 0) in InsertedKeys(cross, 0, n);
    }
    assert MainKLEntry(Forward(c.value, groups, m, p).value.loss, Merge(m.out, p.out), cross, 0);
    assert PeerKLEntry(Forward(c.value, groups, m, p).value.loss, Merge(m.out, p.out), cross, 1.0, 0);
  }

  /**
    Recipes "ce_loss", "trice_loss" and "lsce_loss": whatever the admitted
    mode and the number of class-groups, the forward pass returns the merged
    sub-model losses and no KL term.
   */
  lemma PlainRecipeAddsNoKL(name: string, mode: Option<string>, groups: seq<nat>,
                            mainParams: seq<Param>, peerParams: seq<Param>, m: Dicts, p: Dicts)
    requires name in {"ce_loss", "trice_loss", "lsce_loss"}
    requires KnownMethod(mode)
    ensures var c := Construct(Config(name, mode), mainParams, peerParams);
      && c.Success?
      && Forward(c.value, groups, m, p).Success?
      && Forward(c.value, groups, m, p).value.loss == Merge(m.loss, p.loss)
  {
    PlainRecipesHaveNoKL(name);
    var c := Construct(Config(name, mode), mainParams, peerParams);
    NoCrossWeightsNoKL(c.value, groups, m, p);
  }
}
