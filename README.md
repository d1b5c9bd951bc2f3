# RAM-threshold client selection for a federated-learning round

This project models `Client_selection_RAM_strategy.configure_fit`, the rule a
Flower federated-learning server strategy uses to configure one round of training.
Each call does four things:

1. It decodes the incoming global parameters into weights and stores them as the
   strategy's `pre_weights`. Then it re-encodes them.
2. It builds one fit instruction (`FitIns`) from those parameters and a round
   configuration. The configuration is empty unless an `on_fit_config_fn` is set.
3. It walks the available clients in the order the client manager returns them.
   It keeps exactly those that report more than 3 units of RAM.
4. It returns one (client, instruction) pair per kept client. Every pair carries
   the same instruction.

Modules:

- `Wrappers` (wrappers.dfy): the `Option` and `Result` values.
- `Selection` (selection.dfy): a client with its reported RAM, the threshold, and
  the filter as a specification function. It also holds the lemmas for the
  filter's membership, multiplicity, order and emptiness.
- `Strategy` (strategy.dfy): the strategy as a class. Its `preWeights` field is
  updated in place. `SelectClients` holds the steps of lines 7-25; its loop
  invariant ties the selection loop to `Selection.SelectEligible`. `ConfigureFit`
  finishes the round with the empty check done as a length test.
  `ConfigureFitAsWritten` finishes it with the empty check as written at line 27.
  A client method, `ExampleRounds`, states example rounds that the verifier
  checks against the contracts: clients reporting RAM 5, 2 and 4 keep the first
  and the third; an empty pool, one client reporting 1 and one client reporting 3
  each give an empty, flagged selection; the same round configured twice gives
  the same pairs.

Collaborators are given as values:

- The serialisation functions `parameters_to_ndarrays` and `ndarrays_to_parameters`
  are function parameters over abstract types. The model does not assume that
  encoding after decoding gives back the original parameters.
- The answer of each client's `get_properties()` is the `ram` field of the client
  value. The client manager's `all()` is the sequence of clients in its order.
- The inherited `num_fit_clients` is a function-valued field. It is called with the
  number of available clients, as in the source, and its result is not used.

## Model

| member | source | states |
|---|---|---|
| `Strategy.RamStrategy.SelectClients` | strategy.py:7-25 | After the call `preWeights` is the decoded incoming parameters, and nothing else in the strategy changes. The instruction holds the re-encoded weights, with the empty config when `onFitConfigFn` is None and `onFitConfigFn(serverRound)` otherwise. The selected clients are exactly `SelectEligible` of the pool, which the loop invariant establishes. |
| `Strategy.RamStrategy.ConfigureFit` | strategy.py:3-30 | After the call `preWeights` is the decoded incoming parameters, and nothing else in the strategy changes. The pairs are the eligible clients, in pool order and one per client. Every pair carries the same `FitIns`: the re-encoded weights, with the empty config when `onFitConfigFn` is None and `onFitConfigFn(serverRound)` otherwise. The "no client selected" flag holds exactly when the list is empty, which is exactly when no client reports RAM above 3. The contract does not mention `numFitClients`, so the sizing it computes has no effect on the result. |
| `Selection.SelectEligible` | strategy.py:20-25 | The selection is never longer than the pool. Every selected client is a client of the pool that reports RAM above the threshold. |
| `Selection.SelectEligibleMembership` | strategy.py:22-25 | A client is selected if and only if it is in the pool and reports RAM strictly greater than 3, so a client reporting exactly 3 is excluded. |
| `Selection.SelectEligibleCount` | strategy.py:21-25 | The filter adds no duplicates. An eligible client occurs in the selection exactly as often as in the pool, and an ineligible client does not occur at all. |
| `Selection.SelectEligibleOrder` | strategy.py:20-30 | The filter is stable. The selection is the pool restricted to the indices of its eligible clients, taken in strictly increasing order, and no eligible index is skipped. |
| `Selection.NoneSelectedIff` | strategy.py:24-28 | The selection is empty exactly when every client of the pool, possibly none, reports RAM of at most 3. |
| `Strategy.RamStrategy.ConfigureFitAsWritten` | strategy.py:3-30 | With line 27 as written, every call, whatever the pool, first sets `preWeights` to the decoded incoming parameters and then raises AttributeError for the missing list method `empty`, so it never returns pairs. |

## Findings

| source | as written | input that shows it | evidently intended | confidence | as-written member | corrected member |
|---|---|---|---|---|---|---|
| strategy.py:27 | `selected_clients.empty()` calls a method that Python lists do not have. It raises AttributeError after `pre_weights` has been updated. | Any call, for example a pool whose clients report RAM 5, 2 and 4. | Test whether the selected list has length 0, report it, and return the (possibly empty) pairs. | high, from the language's list type; not executed | `Strategy.RamStrategy.ConfigureFitAsWritten` | `Strategy.RamStrategy.ConfigureFit` (flag `noneSelected` is the length-0 test), with `Selection.NoneSelectedIff` |

## Left out

- Console output: the `print` at strategy.py:28 is not modelled. The boolean `noneSelected` result stands in for it.
- Serialisation: `parameters_to_ndarrays` and `ndarrays_to_parameters` are library code and are not part of this model. They are opaque function parameters.
- Remote calls: `client.get_properties()` is a call to a remote client. Its RAM answer is supplied as the client's `ram` field. The shape of the reply object is not modelled, and neither is a call that fails. The source has no failure handling, so a failing query would propagate out of the call.
- Sizing: `num_fit_clients` and `client_manager.num_available()` belong to a base class and a client manager that are not part of this model. The sizing rule is a function-valued field, and its result is unused, as in the source.
- Construction: the strategy's constructor (`__init__`) is not part of this model. `Strategy.RamStrategy.constructor` only sets the fields the method reads.
- Collaborators: the `Strategy` base class, `ClientManager`, aggregation and training are not part of this model.
- RAM values: RAM is modelled as an integer compared against the literal 3. Floating-point RAM values are not modelled.
- Behaviour the code does not have: it has no per-query timeout, no concurrent queries, no configurable threshold and no subsampling. A failed query propagates out of the call. Every eligible client is selected, whatever the computed sample size.
