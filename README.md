# Functional RMSprop state bookkeeping

This project models the functional RMSprop optimizer that PyTorch's distributed optimizer uses internally (`_FunctionalRMSprop`). The optimizer does not read gradients from `param.grad`. Instead, `step` takes an explicit list of optional gradients, one per parameter. It then does the following:

- keeps a state dictionary keyed by parameter identity;
- lazily creates a parameter's record the first time it receives a gradient (`step`, `square_avg`, plus `momentum_buffer` when momentum > 0 and `grad_avg` when centered);
- collects the gradients and buffers of the slots that have a gradient;
- advances each record's step counter;
- hands everything to the library RMSprop update routine.

The model covers that bookkeeping. Tensors are reduced to their identity, and a buffer is named by its owner and its kind. The update routine is an opaque call whose arguments `Step` returns and logs.

There are two files:

- `rmsprop_state.dfy` (module `RmspropState`) defines the data model and a pure specification of one `step`. The walk is `Visit`, applied slot by slot by `Walk`. Reference definitions (`Present`, `Owners`, `Hits`, `BuffersOf`, `Received`, `Replay`) say what the walk should produce. Lemmas tie the walk to those definitions and to the behaviour across a whole history of calls.
- `functional_rmsprop.dfy` (module `DistributedOptim`) defines the imperative class `FunctionalRMSprop`. Its `state` field is a mutable map, and its `Step` method contains the loop. Every method is proved against the functions above. The class invariant `Valid` says that the state dictionary is the replay of every successful call so far.

Two behaviours of the original are kept as written:

- A parameter listed twice shares one record, and its step counter goes up once per slot that has a gradient.
- The update routine receives the full, unfiltered parameter list, even when some gradients are absent.

## Model

| member | source | states |
|---|---|---|
| DistributedOptim.FunctionalRMSprop.Create | torch/distributed/optim/functional_rmsprop.py:18-44 | Construction fails with the empty-parameter-list error exactly when the parameter list is empty. Otherwise it yields a fresh, valid optimizer that holds the given hyper-parameters (with the source's defaults), the `centered` flag and the parameter list, and starts with an empty state dictionary. |
| DistributedOptim.FunctionalRMSprop.constructor | torch/distributed/optim/functional_rmsprop.py:28-44 | For a non-empty parameter list, stores the defaults, the `centered` flag and the single parameter group, and starts with an empty state dictionary; the class invariant holds. |
| DistributedOptim.FunctionalRMSprop.Step | torch/distributed/optim/functional_rmsprop.py:46-99 | A gradient list whose length differs from the parameter list's is rejected with both lengths, and nothing changes. Otherwise the new state and the arguments passed to the update routine are those of the slot walk over the old state. The call receives the full parameter list and the configuration, and is logged. The class invariant (state = replay of all successful calls) is preserved. |
| DistributedOptim.FunctionalRMSprop.CollectSlots | torch/distributed/optim/functional_rmsprop.py:65-86 | The loop over the (parameter, gradient) slots updates the state dictionary in place and builds the four lists. Its final state and lists equal `Walk` over all slots from the state it started with. |
| RmspropState.Visit | torch/distributed/optim/functional_rmsprop.py:66-86 | Processing one slot keeps every record well-formed: its buffers are those created for its own parameter, and `momentum_buffer` / `grad_avg` are present exactly when momentum > 0 / centered. |
| RmspropState.Walk | torch/distributed/optim/functional_rmsprop.py:65-86 | Walking any prefix of the slots keeps every record well-formed. |
| RmspropState.VisitRecord | torch/distributed/optim/functional_rmsprop.py:69-79 | After one slot, a parameter has a record iff it had one or this slot is its own and carries a gradient. Its record is its starting record, with the step advanced by one exactly in that case, so every other record is unchanged. |
| RmspropState.WalkRecord | torch/distributed/optim/functional_rmsprop.py:66-86 | After walking `n` slots, a parameter has a record iff it had one before or received a gradient. The record is its starting record (existing, or freshly created with step 0) with the step advanced once per slot with a gradient for that parameter. |
| RmspropState.HitsCountsOwners | torch/distributed/optim/functional_rmsprop.py:65-67 | The per-parameter count of gradient slots equals the multiplicity of that parameter among the parameters of slots with a gradient. |
| RmspropState.WalkLists | torch/distributed/optim/functional_rmsprop.py:65-84 | The collected `grads` are exactly the present gradients in slot order. `square_avgs` holds the square-average buffer of each such slot's own parameter. The momentum list holds those parameters' momentum buffers when momentum > 0 and is empty otherwise. The grad-average list holds their grad-average buffers when centered and is empty otherwise. |
| RmspropState.WalkListLengths | torch/distributed/optim/functional_rmsprop.py:65-84 | `grads` and `square_avgs` have one entry per present gradient. The momentum list has the same length when momentum > 0 (else 0), and the grad-average list has it when centered (else 0). |
| RmspropState.AbsentGradientsChangeNothing | torch/distributed/optim/functional_rmsprop.py:66 | A prefix of slots that all lack a gradient leaves the state and the lists unchanged: no record is created or advanced and nothing is collected. For mixed lists, the per-slot skip is part of `VisitRecord`, `WalkSlot`, `WalkRecord` and `WalkLists`. |
| RmspropState.DuplicateParameterSharesRecord | torch/distributed/optim/functional_rmsprop.py:69-86 | A parameter listed twice with two gradients ends up with a single record whose step is 2. The lists hold both gradients and that record's square-average buffer twice. |
| RmspropState.ParamsNotFiltered | torch/distributed/optim/functional_rmsprop.py:89-93 | With one of two gradients absent, the update routine still receives both parameters, but only the one gradient and the one square-average buffer. |
| RmspropState.VisitSome | torch/distributed/optim/functional_rmsprop.py:67-86 | A slot with a gradient advances its parameter's starting record by one and appends the gradient and that parameter's own buffers (momentum / grad-average only when configured). |
| RmspropState.WalkSlot | torch/distributed/optim/functional_rmsprop.py:65-86 | One more loop iteration: a slot without a gradient leaves state and lists as they were. A slot with one advances its parameter's starting record and appends the gradient and that parameter's buffers. This is what the imperative loop is checked against. |
| RmspropState.InitRecordShape | torch/distributed/optim/functional_rmsprop.py:69-77 | A record created lazily for parameter `p` has step 0 and `p`'s own square-average buffer. It has `p`'s momentum buffer exactly when momentum > 0 and `p`'s grad-average buffer exactly when centered. |
| RmspropState.CallArguments | torch/distributed/optim/functional_rmsprop.py:89-99 | The call built by `CallOf` after a whole `step` gets the full parameter list, exactly the present gradients in slot order, and the configured buffers of those slots' parameters (empty lists when not configured). It also gets `lr`, `alpha`, `eps`, `weight_decay`, `momentum` and `centered` unchanged. |
| RmspropState.PresentContents | torch/distributed/optim/functional_rmsprop.py:66-67 | Every gradient of the first `n` slots is in the collected gradient list, and every entry of that list is the gradient of one of those slots. |
| RmspropState.Present | torch/distributed/optim/functional_rmsprop.py:66-67 | The present gradients among the first `n` slots are at most `n`. |
| RmspropState.Owners | torch/distributed/optim/functional_rmsprop.py:66-80 | There is exactly one owning parameter per present gradient. |
| RmspropState.Replay | torch/distributed/optim/functional_rmsprop.py:44-86 | The state dictionary after any history of successful calls, replayed from the constructor's empty dictionary, is well-formed. |
| RmspropState.ReplayCounts | torch/distributed/optim/functional_rmsprop.py:69-86 | Across any history of calls, a parameter has a record exactly when it has received at least one gradient. That record is the one created for it, with step equal to the number of gradient slots it received (duplicates counted per slot). `momentum_buffer` is present iff momentum > 0, and `grad_avg` iff centered. |
| RmspropState.ReplaySnoc | torch/distributed/optim/functional_rmsprop.py:65-86 | Replaying one more successful call is one more slot walk over the state the earlier calls left. |

## Left out

- The arithmetic of the library update routine `F.rmsprop` (lines 89-99) is left out. It is another module, and it is modelled as the recorded call `RmspropCall`, so the buffers' contents and the parameter updates are not captured.
- Tensor allocation (`torch.zeros_like`) and tensor contents are left out. A buffer is identified by its owner and kind, and that is enough to tell which record each collected buffer comes from.
- RmspropState.ReplayCounts: `step` is a float32 tensor in the source (`torch.tensor(0.0)`, incremented by 1). The model uses an unbounded natural-number counter. The two are equal while the count is at most 2^24 = 16777216. Beyond that, the source's counter stops increasing (2^24 + 1 rounds back to 2^24) and the model's does not.
- The parameter list, `defaults` and `centered` are fixed values in the model. The source holds the caller's list by reference (`self.param_group = {"params": params}`), keeps the configuration in mutable attributes, and re-reads all of them on every `step`. So changes a caller makes after construction (including emptying the list) are not modelled, and `Valid` assumes the list stays non-empty.
- TorchScript compilation (`@torch.jit.script`), `torch.no_grad()` and the multithreaded use described in the source's comment are left out. The model is sequential.
- The text of the two `ValueError` messages is left out. The errors carry the kind and, for the length mismatch, both lengths.
- `momentum > 0` is modelled on real numbers, so a NaN momentum (for which the comparison is false) is not modelled.
- DistributedOptim.FunctionalRMSprop.constructor: requires a non-empty parameter list, because Python raises from inside `__init__`. The raising path is modelled by `Create`, which returns the error instead of an object.
- DistributedOptim.FunctionalRMSprop.CollectSlots: the loop of `step` (lines 65-86) is a separate method called from `Step`. The source inserts an empty dictionary for a new parameter and fills it in place, while the model builds the record and stores it once with its step advanced. Nothing in between can observe the difference.
- The unused `lr`, `alpha`, `eps` and `weight_decay` values are only passed through. Any real values are accepted, as in the source, which does not validate them.
