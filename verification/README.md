# Distillation wrapper model

A Dafny model of `DistillModel`, the two-model knowledge-distillation wrapper in
`lib/models/nets/distill_model.py`. The model covers three parts:

- The loss-recipe catalog `LOSS_TYPE`. It maps a recipe name to the weight slice of the
  `main` sub-model, the weight slice of the `peer` sub-model, and optional top-level
  `main_kl_loss{i}` / `peer_kl_loss{i}` weights.
- Construction. It looks up the recipe and hands each sub-model its slice. It picks the
  temperature: 10.0 in teacher-student mode, 1.0 otherwise. In teacher-student mode it
  freezes every parameter of `main`. It asserts that the mode is `None`,
  `'teacher-student'` or `'student-student'`.
- The forward pass. It merges the `(out, label, loss)` dictionaries of the two sub-models,
  with `peer` winning on a shared key. Then, for each class-group `i`, it inserts the KL
  descriptors the recipe asks for. The `main` direction is
  `[main_out{i}, Detach(peer_out{i})]` with no temperature. The `peer` direction is
  `[Div(peer_out{i}, T), Detach(Div(main_out{i}, T))]`.

Tensors are symbolic terms (`Symbolic.Term`): `Tensor(id)`, `Detach(t)` and `Div(t, T)`.
Loss descriptors are `LossEntry(params, kind, weight)`, where the kind is the abstract `KL`.

Modules:

- `Wrappers` (wrappers.dfy): `Option` and `Result`.
- `Keys` (keys.dfy): the `"main_out{i}"` and `"main_kl_loss{i}"` key strings. The decimal
  rendering is proved injective through a parse round trip, so a (role, index) pair and
  its string stand for each other.
- `Symbolic` (symbolic.dfy): terms, loss descriptors and the right-biased merge
  `{**a, **b}`.
- `Catalog` (catalog.dfy): `LOSS_TYPE` as a constant `map<string, Recipe>`, with facts
  about it.
- `DistillModel` (distill_model.dfy): `Construct` (`__init__`), `Forward` (`forward`) and
  the KL insertion loop.
- `DistillScenarios` (distill_scenarios.dfy): construction followed by forward, for each
  family of recipes.

Errors are values, not preconditions:

- An unknown `loss_type` gives `UnknownLossType`. The source raises `KeyError` at line 77.
- A mode outside the three admitted values gives `InvalidDistillMethod`. The source's
  assertion at line 87 fails.
- A `main_out{i}` or `peer_out{i}` that a needed KL term cannot find gives
  `MissingOutput(key)`. The source raises `KeyError` at lines 98 and 104-105. The reported
  key is the first one the source would look up. For group `i`, the main direction reads
  `main_out{i}` first and the peer direction reads `peer_out{i}` first.

The sub-models' results are inputs to `Forward`, so any error a sub-model raises is
outside the model. Each sub-model's parameters, as built, are inputs to `Construct`.
The source keeps the live `configer` object and reads `data.num_classes` again on every
forward call (line 95). The model therefore passes that list to `Forward` as a parameter,
not as part of the state built by `Construct`.

`DistillModel.InsertKL` is the `for i in range(...)` loop of line 95. It carries no
contract of its own. The lemmas `DistillModel.InsertKLOutcome` and
`DistillModel.InsertKLResult` state what it computes, by induction over the groups.

Two behaviours of the code worth stating explicitly:

- The merge is a right-biased union, not a disjoint one. The `peer` value silently
  replaces the `main` value on a shared key (`Symbolic.MergeCollisionDropsFirst`).
- The temperature applies to the entry stored under `peer_kl_loss{i}`: `peer`'s logits
  against detached `main` logits, both divided by `T`. It never applies to
  `main_kl_loss{i}`.

## Model

| member | source | states |
|---|---|---|
| Keys.NatToString | lib/models/nets/distill_model.py:96 | the `{}` rendering of a group index is a non-empty digit string with no leading zero (it starts with '0' only for 0) |
| Keys.ParseRendered | lib/models/nets/distill_model.py:96 | reading the rendered index back gives the index: the rendering loses nothing |
| Keys.KLKeyInjective | lib/models/nets/distill_model.py:96-108 | two KL keys are equal exactly when their direction and group index are both equal, so each insertion writes its own entry |
| Keys.OutKeyInjective | lib/models/nets/distill_model.py:98-105 | `main_out{i}` / `peer_out{i}` name one logits entry per (role, group) |
| Keys.GroupZeroKeys | lib/models/nets/distill_model.py:17 | the structured keys of group 0 render as the catalog's literals "main_kl_loss0" / "peer_kl_loss0" and as "main_out0" / "peer_out0" |
| Symbolic.Merge | lib/models/nets/distill_model.py:92-94 | `{**a, **b}` has the keys of both sides; b's value wins on a shared key, a's survives elsewhere |
| Symbolic.MergeDisjointSize | lib/models/nets/distill_model.py:92-94 | with no shared key the merge keeps every entry of both sides |
| Symbolic.MergeCollisionDropsFirst | lib/models/nets/distill_model.py:92-94 | on a shared key with differing values the main side's value is lost without an error |
| Catalog.CatalogNames | lib/models/nets/distill_model.py:13-70 | the catalog holds exactly the seven recipe names |
| Catalog.TeacherStudentRecipe | lib/models/nets/distill_model.py:14-18 | ts_klce_loss: empty main slice, peer slice {ce_loss0: 1.0}, and only the KL weight peer_kl_loss0 = 100.0 |
| Catalog.PlainRecipesHaveNoKL | lib/models/nets/distill_model.py:19-51 | ce_loss, trice_loss and lsce_loss carry no KL weight in either direction for any group |
| Catalog.MutualRecipesHaveBothKL | lib/models/nets/distill_model.py:27-69 | klce_loss, triklce_loss and lsklce_loss carry exactly main_kl_loss0 = 1.0 and peer_kl_loss0 = 1.0 |
| Catalog.CatalogWellFormed | lib/models/nets/distill_model.py:13-70 | every weight of every recipe is positive and every top-level weight is a KL key of some direction and group |
| Catalog.KLKeyIsNotSliceName | lib/models/nets/distill_model.py:96-102 | a KL key is never 'main' or 'peer', so the membership test on the recipe sees only KL weights |
| DistillModel.Freeze | lib/models/nets/distill_model.py:84-85 | freezing keeps every parameter in place and makes every one non-trainable |
| DistillModel.Construct | lib/models/nets/distill_model.py:74-87 | unknown recipe fails first; otherwise success exactly for the three admitted modes; the sub-models get exactly the recipe's main/peer slices; temperature is 10.0 iff the mode is teacher-student, else 1.0; teacher-student freezes all of main and nothing else; peer parameters are never touched |
| DistillModel.MissingAt | lib/models/nets/distill_model.py:98-105 | the key the source looks up first among the missing ones is missing, belongs to the group, and is main's when the main direction runs and main's logits are absent |
| DistillModel.MainDirection | lib/models/nets/distill_model.py:96-101 | the main_kl_loss{i} assignment succeeds iff both logits exist; a missing main_out{i} is reported first; on success it adds exactly main_kl_loss{i} = [main_out{i}, Detach(peer_out{i})], KL, recipe weight, and changes no other entry |
| DistillModel.PeerDirection | lib/models/nets/distill_model.py:102-108 | the peer_kl_loss{i} assignment succeeds iff both logits exist; a missing peer_out{i} is reported first; on success it adds exactly peer_kl_loss{i} = [Div(peer_out{i}, T), Detach(Div(main_out{i}, T))], KL, recipe weight, and changes no other entry |
| DistillModel.InsertGroup | lib/models/nets/distill_model.py:96-108 | one loop iteration succeeds iff the group's logits exist when needed; it adds exactly the group's recipe KL keys, with the asymmetric descriptors, and leaves the rest alone |
| DistillModel.KLKeyOutsideRange | lib/models/nets/distill_model.py:95 | groups outside the loop's range never insert a KL key of a given group |
| DistillModel.InsertKLOutcome | lib/models/nets/distill_model.py:95-108 | the loop succeeds iff every needed group finds its logits; a failure names the missing key of the first failing group |
| DistillModel.InsertKLResult | lib/models/nets/distill_model.py:95-108 | a successful loop adds exactly the recipe's KL keys of the groups in range, each with its direction's descriptor, and keeps every other entry |
| DistillModel.Forward | lib/models/nets/distill_model.py:89-110 | for the num_classes list read at the call: success iff every needed logits key is in either sub-model's outputs; out and label are the right-biased merges; loss keys are main ∪ peer ∪ the recipe's KL keys with index below len(num_classes); main_kl_loss{i} = [main_out{i}, Detach(peer_out{i})], KL, recipe weight; peer_kl_loss{i} = [Div(peer_out{i}, T), Detach(Div(main_out{i}, T))], KL, recipe weight; other entries keep the merged value |
| DistillModel.GroupsBeyondConfigIgnored | lib/models/nets/distill_model.py:95-102 | a recipe KL key with index at or above len(num_classes) is in the result only if a sub-model produced it |
| DistillModel.NoCrossWeightsNoKL | lib/models/nets/distill_model.py:94-110 | a recipe with no KL weight always succeeds and returns the merged loss dictionary unchanged |
| DistillScenarios.TeacherStudentEndToEnd | lib/models/nets/distill_model.py:13-110 | ts_klce_loss, at least one group, teacher-student: temperature 10.0, main frozen, peer untouched, and the losses gain exactly peer_kl_loss0, weighted 100.0, over logits divided by 10.0 with main's side detached |
| DistillScenarios.MutualEndToEnd | lib/models/nets/distill_model.py:27-108 | the mutual recipes outside teacher-student mode: temperature 1.0, nothing frozen, and both group-0 KL terms with weight 1.0, the temperature on the peer direction only |
| DistillScenarios.PlainRecipeAddsNoKL | lib/models/nets/distill_model.py:19-110 | plain recipes under any admitted mode and any number of groups return the merged sub-model losses and no KL term |

## Left out

- The internals of `ClsModel` (line 9) are not modelled. Its forward pass is replaced by
  the `(out, label, loss)` dictionaries it returns. Its parameters are replaced by the
  `Param` list passed to `Construct`. Errors a sub-model raises are not modelled.
- Tensor semantics are not modelled: the values, the real `.div` arithmetic and the CUDA
  tensors `torch.cuda.LongTensor` / `FloatTensor` (lines 99-100, 106-107). A descriptor's
  `type` is the abstract `KL` kind, not `BASE_LOSS_DICT['kl_loss']` (line 10). Its
  `weight` is the recipe's number itself, not a one-element tensor.
- Gradient flow and autograd are not modelled. `.detach()` is the `Detach` tag and
  `requires_grad` is a flag on `Param`.
- Recipe weights are exact `real` values, not binary floating-point numbers. 0.01 is exact
  here.
- The parsing done by `configer` is not modelled. Construction reads the loss-type
  string and the mode as an optional string. `Forward` receives the `num_classes` list, of
  which only the length is used. A mode value that is not a string is not modelled.
- The model treats the mode assertion on line 87 as always active. Under `python -O` the
  source skips that assertion and would accept any mode.
- `nn.Module` registration is left out. The `configer` object stored on the instance is
  not modelled as shared state. Its only effect here, the `num_classes` list read at each
  forward call, is the `numClasses` parameter of `Forward`.
- Dictionary order is not modelled. Python dicts keep insertion order: the loss dict lists
  main's keys, then peer's new keys, then the KL keys. A Dafny `map` has no order. The
  source never relies on that order.
- Calling forward twice on the same inputs gives the same dictionaries. This needs no
  lemma, because `Forward` is a pure function.
