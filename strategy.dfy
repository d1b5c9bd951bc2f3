/** `Client_selection_RAM_strategy.configure_fit` (strategy.py): the per-round
    configuration of training. It records the incoming global weights, builds one
    fit instruction and hands it to every client that reports enough RAM. */
module Strategy {
  import opened Wrappers
  import opened Selection

  /** Serialized model parameters, as the server holds them. */
  type Parameters

  /** Deserialized model weights (a list of numeric arrays). */
  type NDArrays

  /** A value of a fit configuration (a bool, bytes, a number or a string). */
  type Scalar

  /** A fit configuration: named values sent to a client with its instruction. */
  type Config = map<string, Scalar>

  /** The fit instruction: the parameters to train from and the round's configuration. */
  datatype FitIns = FitIns(parameters: Parameters, config: Config)

  /** The round's configuration: empty without a configuration function,
      otherwise what that function answers for the round. */
  function RoundConfig(onFitConfigFn: Option<int -> Config>, serverRound: int): Config {
    match onFitConfigFn
    case None => map[]
    case Some(f) => f(serverRound)
  }

  class RamStrategy {
    /** The weights received by the last configured round (None before the first). */
    var preWeights: Option<NDArrays>

    /** Optional function from the round number to that round's fit configuration. */
    const onFitConfigFn: Option<int -> Config>

    /** The inherited sizing rule: from the number of available clients to
        (sample size, minimum number of clients). */
    const numFitClients: nat -> (nat, nat)

    constructor (onFitConfigFn: Option<int -> Config>, numFitClients: nat -> (nat, nat), preWeights: Option<NDArrays>)
      ensures this.onFitConfigFn == onFitConfigFn && this.numFitClients == numFitClients
      ensures this.preWeights == preWeights
    {
      this.onFitConfigFn := onFitConfigFn;
      this.numFitClients := numFitClients;
      this.preWeights := preWeights;
    }

    /** Records the incoming weights, builds the round's fit instruction and keeps
        the clients that report enough RAM. `allClients` are the available clients
        in the order the client manager returns them; `toNdarrays` and
        `toParameters` are the library's decoding and encoding of parameters. */
    method SelectClients(serverRound: int, parameters: Parameters, allClients: seq<ClientProxy>,
                         toNdarrays: Parameters -> NDArrays, toParameters: NDArrays -> Parameters)
      returns (selected: seq<ClientProxy>, fitIns: FitIns)
      modifies this`preWeights
      ensures preWeights == Some(toNdarrays(parameters))
      ensures fitIns == FitIns(toParameters(toNdarrays(parameters)), RoundConfig(onFitConfigFn, serverRound))
      ensures selected == SelectEligible(allClients)
    {
      var weights := toNdarrays(parameters);
      preWeights := Some(weights);
      var encoded := toParameters(weights);
      var config: Config := map[];
      if onFitConfigFn.Some? {
        config := onFitConfigFn.value(serverRound);
      }
      fitIns := FitIns(encoded, config);

      // The sizing is computed from the number of available clients, and not used.
      var (sampleSize, minNumClients) := numFitClients(|allClients|);

      selected := [];
      for i := 0 to |allClients|
        invariant selected == SelectEligible(allClients[..i])
      {
        assert allClients[..i + 1][..i] == allClients[..i];
        if allClients[i].ram > RamThreshold {
          selected := selected + [allClients[i]];
        }
      }
      assert allClients[..|allClients|] == allClients;
    }

    /** Configures round `serverRound`, with the empty check done as a length test.
        Returns one (client, instruction) pair per selected client and whether no
        client was selected. */
    method ConfigureFit(serverRound: int, parameters: Parameters, allClients: seq<ClientProxy>,
                        toNdarrays: Parameters -> NDArrays, toParameters: NDArrays -> Parameters)
      returns (instructions: seq<(ClientProxy, FitIns)>, noneSelected: bool)
      modifies this`preWeights
      ensures preWeights == Some(toNdarrays(parameters))
      ensures |instructions| == |SelectEligible(allClients)|
      ensures forall k :: 0 <= k < |instructions| ==> instructions[k].0 == SelectEligible(allClients)[k]
      ensures forall k :: 0 <= k < |instructions| ==>
                instructions[k].1 == FitIns(toParameters(toNdarrays(parameters)), RoundConfig(onFitConfigFn, serverRound))
      ensures noneSelected <==> instructions == []
      ensures noneSelected <==> forall c :: c in allClients ==> !Eligible(c)
    {
      var selected, fitIns := SelectClients(serverRound, parameters, allClients, toNdarrays, toParameters);
      noneSelected := |selected| == 0;
      NoneSelectedIff(allClients);
      instructions := FanOut(selected, fitIns);
    }

    /** Configures round `serverRound` with the empty check as written: it asks the
        selected list for a method `empty`. A Python list has none, so the call
        raises AttributeError after `preWeights` has been updated and never
        returns its pairs. */
    method ConfigureFitAsWritten(serverRound: int, parameters: Parameters, allClients: seq<ClientProxy>,
                                 toNdarrays: Parameters -> NDArrays, toParameters: NDArrays -> Parameters)
      returns (r: Result<seq<(ClientProxy, FitIns)>, PyError>)
      modifies this`preWeights
      ensures preWeights == Some(toNdarrays(parameters))
      ensures r == Failure(AttributeError("empty"))
    {
      var selected, fitIns := SelectClients(serverRound, parameters, allClients, toNdarrays, toParameters);
      if HasListMethod("empty") {
        r := Success(FanOut(selected, fitIns));
      } else {
        r := Failure(AttributeError("empty"));
      }
    }
  }

  /** One (client, instruction) pair per selected client, all with the same instruction. */
  function FanOut(selected: seq<ClientProxy>, fitIns: FitIns): seq<(ClientProxy, FitIns)> {
    seq(|selected|, k requires 0 <= k < |selected| => (selected[k], fitIns))
  }

  /** The exception Python raises when an object has no attribute of that name. */
  datatype PyError = AttributeError(attribute: string)

  /** The methods a Python list has; `empty` is not among them. */
  const ListMethods: set<string> :=
    {"append", "clear", "copy", "count", "extend", "index", "insert", "pop", "remove", "reverse", "sort"}

  predicate HasListMethod(name: string) {
    name in ListMethods
  }

  /** Example rounds, checked by the verifier against the contracts: clients
      reporting RAM 5, 2 and 4 give the first and the third; configuring the same
      round twice gives the same pairs; an empty pool, a pool of one client
      reporting 1 and a pool of one client reporting 3 give an empty, flagged
      selection; with the empty check as written every round raises. */
  method ExampleRounds(p: Parameters, toNdarrays: Parameters -> NDArrays, toParameters: NDArrays -> Parameters)
  {
    var strategy := new RamStrategy(None, (n: nat) => (n, n), None);
    var a, b, c := ClientProxy("A", 5), ClientProxy("B", 2), ClientProxy("C", 4);
    var pairs, none := strategy.ConfigureFit(1, p, [a, b, c], toNdarrays, toParameters);
    assert [a, b, c][..2] == [a, b] && [a, b][..1] == [a] && [a][..0] == [];
    assert SelectEligible([a]) == [a] && SelectEligible([a, b]) == [a];
    assert SelectEligible([a, b, c]) == [a, c];
    assert |pairs| == 2 && pairs[0].0 == a && pairs[1].0 == c && !none;
    assert pairs[0].1 == pairs[1].1 && pairs[0].1.config == map[];
    assert strategy.preWeights == Some(toNdarrays(p));

    var again, noneAgain := strategy.ConfigureFit(1, p, [a, b, c], toNdarrays, toParameters);
    assert again == pairs && noneAgain == none;

    var empty, noneEmpty := strategy.ConfigureFit(2, p, [], toNdarrays, toParameters);
    assert empty == [] && noneEmpty;

    var low := ClientProxy("A", 1);
    var lowPairs, noneLow := strategy.ConfigureFit(3, p, [low], toNdarrays, toParameters);
    assert lowPairs == [] && noneLow;

    var edge := ClientProxy("E", 3);
    var edgePairs, noneEdge := strategy.ConfigureFit(4, p, [edge], toNdarrays, toParameters);
    assert edgePairs == [] && noneEdge;

    var raised := strategy.ConfigureFitAsWritten(5, p, [a, b, c], toNdarrays, toParameters);
    assert raised.Failure? && strategy.preWeights == Some(toNdarrays(p));
  }
}
