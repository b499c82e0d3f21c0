/**
  The two-model distillation wrapper `DistillModel`: construction picks a
  recipe from the catalog, hands each sub-model its weight slice, fixes the
  temperature and freezes the teacher; the forward pass merges the two
  sub-models' dictionaries and inserts the cross-model KL descriptors.
  Sub-model calls are inputs: the model receives the `(out, label, loss)`
  dictionaries each of them returned.
 */
module DistillModel {
  import opened Wrappers
  import opened Keys
  import opened Symbolic
  import opened Catalog

  const TeacherStudent: string := "teacher-student"
  const StudentStudent: string := "student-student"

  /** Temperature in teacher-student mode, and otherwise. */
  const DistillTemperature: real := 10.0
  const PlainTemperature: real := 1.0

  /**
    The configuration values construction reads: `loss.loss_type` and
    `network.distill_method` (absent reads as `None`). `data.num_classes` is
    read anew by every forward call and is a parameter of `Forward`.
   */
  datatype Config = Config(lossType: string, distillMethod: Option<string>)

  /** A sub-model parameter, reduced to its name and its `requires_grad` flag. */
  datatype Param = Param(name: string, requiresGrad: bool)

  /** A classification sub-model: its role tag, its weight slice of the recipe, its parameters. */
  datatype SubModel = SubModel(role: Role, lossWeights: map<string, real>, params: seq<Param>)

  datatype State = State(config: Config, recipe: Recipe, main: SubModel, peer: SubModel, temperature: real)

  datatype Error =
    | UnknownLossType(name: string)                  // `LOSS_TYPE[...]` raises KeyError
    | InvalidDistillMethod(mode: Option<string>)   // the mode assertion fails
    | MissingOutput(key: string)                     // `out_dict[...]` raises KeyError

  /** The `(out_dict, label_dict, loss_dict)` triple a sub-model, or the wrapper, returns. */
  datatype Dicts = Dicts(out: map<string, Term>, labels: map<string, Term>, loss: map<string, LossEntry>)

  /** The modes the construction-time assertion admits. */
  predicate KnownMethod(m: Option<string>) {
    m == None || m == Some(TeacherStudent) || m == Some(StudentStudent)
  }

  /** Sets `requires_grad = False` on every parameter, keeping each parameter in place. */
  function Freeze(ps: seq<Param>): (r: seq<Param>)
    ensures |r| == |ps|
    ensures forall i :: 0 <= i < |r| ==> r[i].name == ps[i].name && !r[i].requiresGrad
  {
    if |ps| == 0 then [] else [ps[0].(requiresGrad := false)] + Freeze(ps[1..])
  }

  ghost predicate Frozen(m: SubModel) {
    forall i :: 0 <= i < |m.params| ==> !m.params[i].requiresGrad
  }

  /**
    `DistillModel.__init__`. The sub-models' parameters as built are inputs.
    An unknown recipe fails before anything else; the mode is checked only
    after both sub-models exist, and only outside teacher-student mode.
   */
  function Construct(cfg: Config, mainParams: seq<Param>, peerParams: seq<Param>): (r: Result<State, Error>)
    ensures cfg.lossType !in LossTypes ==> r == Failure(UnknownLossType(cfg.lossType))
    ensures cfg.lossType in LossTypes && !KnownMethod(cfg.distillMethod) ==>
              r == Failure(InvalidDistillMethod(cfg.distillMethod))
    ensures r.Success? <==> cfg.lossType in LossTypes && KnownMethod(cfg.distillMethod)
    ensures r.Success? ==> r.value.config == cfg && r.value.recipe == LossTypes[cfg.lossType]
    ensures r.Success? ==> r.value.main.role == Main && r.value.main.lossWeights == LossTypes[cfg.lossType].main
    ensures r.Success? ==> r.value.peer.role == Peer && r.value.peer.lossWeights == LossTypes[cfg.lossType].peer
    ensures r.Success? ==> (r.value.temperature == 10.0 <==> cfg.distillMethod == Some(TeacherStudent))
    ensures r.Success? && cfg.distillMethod != Some(TeacherStudent) ==> r.value.temperature == 1.0
    ensures r.Success? ==> |r.value.main.params| == |mainParams|
    ensures r.Success? ==> forall i :: 0 <= i < |mainParams| ==> r.value.main.params[i].name == mainParams[i].name
    ensures r.Success? && cfg.distillMethod == Some(TeacherStudent) ==> Frozen(r.value.main)
    ensures r.Success? && cfg.distillMethod != Some(TeacherStudent) ==> r.value.main.params == mainParams
    ensures r.Success? ==> r.value.peer.params == peerParams
  {
    if cfg.lossType !in LossTypes then
      Failure(UnknownLossType(cfg.lossType))
    else
      var recipe := LossTypes[cfg.lossType];
      var main := SubModel(Main, recipe.main, mainParams);
      var peer := SubModel(Peer, recipe.peer, peerParams);
      if cfg.distillMethod == Some(TeacherStudent) then
        Success(State(cfg, recipe, main.(params := Freeze(mainParams)), peer, DistillTemperature))
      else if KnownMethod(cfg.distillMethod) then
        Success(State(cfg, recipe, main, peer, PlainTemperature))
      else
        Failure(InvalidDistillMethod(cfg.distillMethod))
  }

  // ---------------------------------------------------------------------------
  // The KL insertion loop of `forward`

  /** Group j reads both logits when the recipe weights either KL direction for it. */
  ghost predicate NeedsOutputs(cross: map<string, real>, j: nat) {
    KLKey(Main, j) in cross || KLKey(Peer, j) in cross
  }

  /** Every group in [lo, hi) that needs its logits finds both among `keys`. */
  ghost predicate OutputsPresent(cross: map<string, real>, keys: set<string>, lo: nat, hi: nat) {
    forall j: nat :: lo <= j < hi && NeedsOutputs(cross, j) ==> OutKey(Main, j) in keys && OutKey(Peer, j) in keys
  }

  /** The recipe's KL keys of the groups in [lo, hi): the keys the loop inserts. */
  ghost function InsertedKeys(cross: map<string, real>, lo: nat, hi: nat): set<string> {
    set k | k in cross && exists j: nat :: lo <= j < hi && (k == KLKey(Main, j) || k == KLKey(Peer, j))
  }

  /**
    Main direction of group j: main's logits against peer's logits as a
    detached target, no temperature, weighted by the recipe.
   */
  ghost predicate MainKLEntry(loss: map<string, LossEntry>, out: map<string, Term>, cross: map<string, real>, j: nat) {
    && KLKey(Main, j) in cross && KLKey(Main, j) in loss
    && OutKey(Main, j) in out && OutKey(Peer, j) in out
    && loss[KLKey(Main, j)] == LossEntry([out[OutKey(Main, j)], Detach(out[OutKey(Peer, j)])], KL, cross[KLKey(Main, j)])
  }

  /**
    Peer direction of group j: peer's logits divided by the temperature
    against main's logits divided by the temperature and detached.
   */
  ghost predicate PeerKLEntry(loss: map<string, LossEntry>, out: map<string, Term>, cross: map<string, real>, t: real, j: nat) {
    && KLKey(Peer, j) in cross && KLKey(Peer, j) in loss
    && OutKey(Main, j) in out && OutKey(Peer, j) in out
    && loss[KLKey(Peer, j)] == LossEntry([Div(out[OutKey(Peer, j)], t), Detach(Div(out[OutKey(Main, j)], t))], KL, cross[KLKey(Peer, j)])
  }

  /**
    The key whose lookup raises at group j: the main direction's operand
    list reads main's logits first, the peer direction's reads peer's first,
    and the main direction runs first.
   */
  function MissingAt(cross: map<string, real>, keys: set<string>, j: nat): (k: string)
    requires KLKey(Main, j) in cross || KLKey(Peer, j) in cross
    requires !(OutKey(Main, j) in keys && OutKey(Peer, j) in keys)
    ensures k !in keys
    ensures k == OutKey(Main, j) || k == OutKey(Peer, j)
    ensures KLKey(Main, j) in cross && OutKey(Main, j) !in keys ==> k == OutKey(Main, j)
    ensures KLKey(Main, j) !in cross && OutKey(Peer, j) !in keys ==> k == OutKey(Peer, j)
  {
    if KLKey(Main, j) in cross then
      (if OutKey(Main, j) !in keys then OutKey(Main, j) else OutKey(Peer, j))
    else
      (if OutKey(Peer, j) !in keys then OutKey(Peer, j) else OutKey(Main, j))
  }

  /**
    The `main_kl_loss{i}` assignment: it needs both logits, reading main's
    first, and writes only its own key.
   */
  function MainDirection(cross: map<string, real>, out: map<string, Term>, loss: map<string, LossEntry>, i: nat)
    : (r: Result<map<string, LossEntry>, Error>)
    requires KLKey(Main, i) in cross
    ensures r.Success? <==> OutKey(Main, i) in out && OutKey(Peer, i) in out
    ensures r.Failure? ==> r.error.MissingOutput? && r.error.key !in out
    ensures r.Failure? ==> r.error.key == OutKey(Main, i) || r.error.key == OutKey(Peer, i)
    ensures OutKey(Main, i) !in out ==> r == Failure(MissingOutput(OutKey(Main, i)))
    ensures r.Success? ==> r.value.Keys == loss.Keys + {KLKey(Main, i)}
    ensures r.Success? ==> MainKLEntry(r.value, out, cross, i)
    ensures r.Success? ==> forall k :: k in loss && k != KLKey(Main, i) ==> r.value[k] == loss[k]
  {
    if OutKey(Main, i) !in out then Failure(MissingOutput(OutKey(Main, i)))
    else if OutKey(Peer, i) !in out then Failure(MissingOutput(OutKey(Peer, i)))
    else Success(loss[KLKey(Main, i) := LossEntry([out[OutKey(Main, i)], Detach(out[OutKey(Peer, i)])], KL, cross[KLKey(Main, i)])])
  }

  /**
    The `peer_kl_loss{i}` assignment: it needs both logits, reading peer's
    first, and writes only its own key.
   */
  function PeerDirection(cross: map<string, real>, out: map<string, Term>, t: real, loss: map<string, LossEntry>, i: nat)
    : (r: Result<map<string, LossEntry>, Error>)
    requires KLKey(Peer, i) in cross
    ensures r.Success? <==> OutKey(Main, i) in out && OutKey(Peer, i) in out
    ensures r.Failure? ==> r.error.MissingOutput? && r.error.key !in out
    ensures r.Failure? ==> r.error.key == OutKey(Main, i) || r.error.key == OutKey(Peer, i)
    ensures OutKey(Peer, i) !in out ==> r == Failure(MissingOutput(OutKey(Peer, i)))
    ensures r.Success? ==> r.value.Keys == loss.Keys + {KLKey(Peer, i)}
    ensures r.Success? ==> PeerKLEntry(r.value, out, cross, t, i)
    ensures r.Success? ==> forall k :: k in loss && k != KLKey(Peer, i) ==> r.value[k] == loss[k]
  {
    if OutKey(Peer, i) !in out then Failure(MissingOutput(OutKey(Peer, i)))
    else if OutKey(Main, i) !in out then Failure(MissingOutput(OutKey(Main, i)))
    else Success(loss[KLKey(Peer, i) := LossEntry([Div(out[OutKey(Peer, i)], t), Detach(Div(out[OutKey(Main, i)], t))], KL, cross[KLKey(Peer, i)])])
  }

  /** One iteration of the loop: both directions of class-group i. */
  function InsertGroup(cross: map<string, real>, out: map<string, Term>, t: real, loss: map<string, LossEntry>, i: nat)
    : (r: Result<map<string, LossEntry>, Error>)
    ensures r.Success? <==> OutputsPresent(cross, out.Keys, i, i + 1)
    ensures r.Failure? ==> NeedsOutputs(cross, i) && r.error == MissingOutput(MissingAt(cross, out.Keys, i))
    ensures r.Success? ==> r.value.Keys == loss.Keys + InsertedKeys(cross, i, i + 1)
    ensures r.Success? && KLKey(Main, i) in cross ==> MainKLEntry(r.value, out, cross, i)
    ensures r.Success? && KLKey(Peer, i) in cross ==> PeerKLEntry(r.value, out, cross, t, i)
    ensures r.Success? ==> forall k :: k in loss && k !in InsertedKeys(cross, i, i + 1) ==> r.value[k] == loss[k]
  {
    KLKeyInjective(Main, i, Peer, i);
    InsertedKeysOneGroup(cross, i);
    if KLKey(Main, i) in cross then
      match MainDirection(cross, out, loss, i)
      case Failure(e) => Failure(e)
      case Success(l) => if KLKey(Peer, i) in cross then PeerDirection(cross, out, t, l, i) else Success(l)
    else if KLKey(Peer, i) in cross then
      PeerDirection(cross, out, t, loss, i)
    else
      Success(loss)
  }

  lemma InsertedKeysOneGroup(cross: map<string, real>, i: nat)
    ensures InsertedKeys(cross, i, i + 1)
            == (if KLKey(Main, i) in cross then {KLKey(Main, i)} else {}) + (if KLKey(Peer, i) in cross then {KLKey(Peer, i)} else {})
  {
  }

  /** `for i in range(n)`, from group i on. */
  function InsertKL(cross: map<string, real>, out: map<string, Term>, t: real, loss: map<string, LossEntry>, i: nat, n: nat)
    : Result<map<string, LossEntry>, Error>
    decreases n - i
  {
    if i >= n then Success(loss)
    else
      var l :- InsertGroup(cross, out, t, loss, i);
      InsertKL(cross, out, t, l, i + 1, n)
  }

  /** A KL key of group i is not inserted by the groups of a range that leaves i out. */
  lemma KLKeyOutsideRange(cross: map<string, real>, d: Role, i: nat, lo: nat, hi: nat)
    requires i < lo || hi <= i
    ensures KLKey(d, i) !in InsertedKeys(cross, lo, hi)
  {
    if KLKey(d, i) in InsertedKeys(cross, lo, hi) {
      var j: nat :| lo <= j < hi && (KLKey(d, i) == KLKey(Main, j) || KLKey(d, i) == KLKey(Peer, j));
      KLKeyInjective(d, i, Main, j);
      KLKeyInjective(d, i, Peer, j);
    }
  }

  lemma InsertedKeysSplit(cross: map<string, real>, i: nat, n: nat)
    requires i < n
    ensures InsertedKeys(cross, i, n) == InsertedKeys(cross, i, i + 1) + InsertedKeys(cross, i + 1, n)
  {
  }

  /** The loop succeeds exactly when every group that needs its logits finds them; otherwise it stops at the first group that does not. */
  lemma {:induction false} InsertKLOutcome(cross: map<string, real>, out: map<string, Term>, t: real,
                                           loss: map<string, LossEntry>, i: nat, n: nat)
    ensures InsertKL(cross, out, t, loss, i, n).Success? <==> OutputsPresent(cross, out.Keys, i, n)
    ensures InsertKL(cross, out, t, loss, i, n).Failure? ==>
              exists j: nat :: i <= j < n && NeedsOutputs(cross, j) && OutputsPresent(cross, out.Keys, i, j)
                && !(OutKey(Main, j) in out && OutKey(Peer, j) in out)
                && InsertKL(cross, out, t, loss, i, n).error == MissingOutput(MissingAt(cross, out.Keys, j))
    decreases n - i
  {
    if i < n {
      var g := InsertGroup(cross, out, t, loss, i);
      if g.Success? {
        InsertKLOutcome(cross, out, t, g.value, i + 1, n);
        var r := InsertKL(cross, out, t, g.value, i + 1, n);
        if r.Failure? {
          var j: nat :| i + 1 <= j < n && NeedsOutputs(cross, j) && OutputsPresent(cross, out.Keys, i + 1, j)
                        && !(OutKey(Main, j) in out && OutKey(Peer, j) in out)
                        && r.error == MissingOutput(MissingAt(cross, out.Keys, j));
          assert OutputsPresent(cross, out.Keys, i, j);
        }
      } else {
        assert OutputsPresent(cross, out.Keys, i, i);
      }
    }
  }

  /**
    A successful loop inserts exactly the recipe's KL keys of groups [i, n),
    each with its direction's descriptor, and leaves every other entry alone.
   */
  lemma {:induction false} InsertKLResult(cross: map<string, real>, out: map<string, Term>, t: real,
                                          loss: map<string, LossEntry>, i: nat, n: nat)
    requires InsertKL(cross, out, t, loss, i, n).Success?
    ensures InsertKL(cross, out, t, loss, i, n).value.Keys == loss.Keys + InsertedKeys(cross, i, n)
    ensures forall j: nat :: i <= j < n && KLKey(Main, j) in cross ==>
              MainKLEntry(InsertKL(cross, out, t, loss, i, n).value, out, cross, j)
    ensures forall j: nat :: i <= j < n && KLKey(Peer, j) in cross ==>
              PeerKLEntry(InsertKL(cross, out, t, loss, i, n).value, out, cross, t, j)
    ensures forall k :: k in loss && k !in InsertedKeys(cross, i, n) ==> InsertKL(cross, out, t, loss, i, n).value[k] == loss[k]
    decreases n - i
  {
    if i < n {
      var g := InsertGroup(cross, out, t, loss, i).value;
      var r := InsertKL(cross, out, t, g, i + 1, n).value;
      InsertKLResult(cross, out, t, g, i + 1, n);
      InsertedKeysSplit(cross, i, n);
      KLKeyOutsideRange(cross, Main, i, i + 1, n);
      KLKeyOutsideRange(cross, Peer, i, i + 1, n);
      forall j: nat | i <= j < n && KLKey(Main, j) in cross
        ensures MainKLEntry(r, out, cross, j)
      {
        if j == i {
          assert MainKLEntry(g, out, cross, i);
          assert r[KLKey(Main, i)] == g[KLKey(Main, i)];
        }
      }
      forall j: nat | i <= j < n && KLKey(Peer, j) in cross
        ensures PeerKLEntry(r, out, cross, t, j)
      {
        if j == i {
          assert PeerKLEntry(g, out, cross, t, i);
          assert r[KLKey(Peer, i)] == g[KLKey(Peer, i)];
        }
      }
    } else {
      assert InsertedKeys(cross, i, n) == {};
    }
  }

  // ---------------------------------------------------------------------------
  // `forward`

  /** Every KL term the recipe asks for among the configured groups finds both logits in the merged outputs. */
  ghost predicate OperandsAvailable(st: State, numClasses: seq<nat>, m: Dicts, p: Dicts) {
    OutputsPresent(st.recipe.cross, m.out.Keys + p.out.Keys, 0, |numClasses|)
  }

  /**
    `DistillModel.forward`, given what the main and peer sub-models returned
    for the same batch and the `data.num_classes` list the configuration
    holds at the time of the call. The three dictionaries are merged with peer winning,
    then the recipe's KL terms of each configured class-group are inserted.
   */
  function Forward(st: State, numClasses: seq<nat>, m: Dicts, p: Dicts): (r: Result<Dicts, Error>)
    ensures r.Success? <==> OperandsAvailable(st, numClasses, m, p)
    ensures r.Failure? ==>
              exists j: nat :: j < |numClasses| && NeedsOutputs(st.recipe.cross, j)
                && OutputsPresent(st.recipe.cross, m.out.Keys + p.out.Keys, 0, j)
                && !(OutKey(Main, j) in m.out.Keys + p.out.Keys && OutKey(Peer, j) in m.out.Keys + p.out.Keys)
                && r.error.MissingOutput? && r.error.key !in m.out && r.error.key !in p.out
                && r.error.key == MissingAt(st.recipe.cross, m.out.Keys + p.out.Keys, j)
    ensures r.Success? ==> r.value.out == Merge(m.out, p.out) && r.value.labels == Merge(m.labels, p.labels)
    ensures r.Success? ==>
              r.value.loss.Keys == m.loss.Keys + p.loss.Keys + InsertedKeys(st.recipe.cross, 0, |numClasses|)
    ensures r.Success? ==> forall j: nat :: j < |numClasses| && KLKey(Main, j) in st.recipe.cross ==>
              MainKLEntry(r.value.loss, r.value.out, st.recipe.cross, j)
    ensures r.Success? ==> forall j: nat :: j < |numClasses| && KLKey(Peer, j) in st.recipe.cross ==>
              PeerKLEntry(r.value.loss, r.value.out, st.recipe.cross, st.temperature, j)
    ensures r.Success? ==> forall k :: k in p.loss && k !in InsertedKeys(st.recipe.cross, 0, |numClasses|) ==>
              r.value.loss[k] == p.loss[k]
    ensures r.Success? ==> forall k :: k in m.loss && k !in p.loss && k !in InsertedKeys(st.recipe.cross, 0, |numClasses|) ==>
              r.value.loss[k] == m.loss[k]
  {
    var out := Merge(m.out, p.out);
    var loss := Merge(m.loss, p.loss);
    var n := |numClasses|;
    InsertKLOutcome(st.recipe.cross, out, st.temperature, loss, 0, n);
    var l :- InsertKL(st.recipe.cross, out, st.temperature, loss, 0, n);
    InsertKLResult(st.recipe.cross, out, st.temperature, loss, 0, n);
    Success(Dicts(out, Merge(m.labels, p.labels), l))
  }

  /** A recipe KL key whose group index is not below the number of class-groups is never inserted. */
  lemma GroupsBeyondConfigIgnored(st: State, numClasses: seq<nat>, m: Dicts, p: Dicts, d: Role, j: nat)
    requires Forward(st, numClasses, m, p).Success?
    requires j >= |numClasses|
    ensures KLKey(d, j) in Forward(st, numClasses, m, p).value.loss <==> KLKey(d, j) in m.loss || KLKey(d, j) in p.loss
  {
    KLKeyOutsideRange(st.recipe.cross, d, j, 0, |numClasses|);
  }

  /** A recipe without KL weights returns the merged loss dictionary untouched. */
  lemma NoCrossWeightsNoKL(st: State, numClasses: seq<nat>, m: Dicts, p: Dicts)
    requires st.recipe.cross == map[]
    ensures Forward(st, numClasses, m, p).Success?
    ensures Forward(st, numClasses, m, p).value.loss == Merge(m.loss, p.loss)
  {
    var n := |numClasses|;
    assert InsertedKeys(st.recipe.cross, 0, n) == {};
    assert OperandsAvailable(st, numClasses, m, p);
  }
}
