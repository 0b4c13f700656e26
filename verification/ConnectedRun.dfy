/** The fully-connected test: check the graph, turn one node into a staker, check again. */
module ConnectedRun {
  import opened Sets
  import opened PeerCheck
  import opened PeerGraph
  import BringUp
  import Polling
  import Requests
  import Runner
  import Serving
  import StartValidation
  import TwoChain

  const SEED_AMOUNT: nat := 50000000000000
  const STAKE_AMOUNT: nat := 30000000000000

  const VALIDATOR: ServiceId := "validator-service"
  const NON_VALIDATOR: ServiceId := "non-validator-service"

  function Everyone(stakers: nat): set<ServiceId> {
    BringUp.BootIds(stakers) + {VALIDATOR, NON_VALIDATOR}
  }

  /** Staking on the validator's node. */
  function Staked(env: Polling.Env, w: Polling.World, wallet: Runner.Wallet, ids: map<ServiceId, NodeId>): Polling.Outcome {
    Runner.StartValidating(env, w, wallet, IdOf(ids, VALIDATOR), SEED_AMOUNT, STAKE_AMOUNT)
  }

  ghost predicate RunPasses(env: Polling.Env, w: Polling.World, wallet: Runner.Wallet, running: set<ServiceId>, stakers: nat,
                            ids: map<ServiceId, NodeId>, before: map<ServiceId, Reply>, after: map<ServiceId, Reply>)
    requires Everyone(stakers) <= before.Keys * after.Keys
  {
    var all, bootIds := Everyone(stakers), BringUp.BootIds(stakers);
    && all <= running * ids.Keys
    && Passes(all, bootIds, ids, before)
    && Staked(env, w, wallet, ids).Ok?
    && Passes(all, bootIds + {VALIDATOR}, ids, after)
  }

  /**
   * The two checks with the validator's staking in between. The replies to both are given; `ids` holds the node IDs
   * that can be queried.
   */
  method RunFullyConnected(runner: Runner.RPCWorkFlowRunner, running: set<ServiceId>, stakers: nat, ids: map<ServiceId, NodeId>,
                           before: map<ServiceId, Reply>, after: map<ServiceId, Reply>)
    returns (passed: bool)
    requires Everyone(stakers) <= before.Keys * after.Keys
    modifies runner.network
    ensures passed <==> RunPasses(runner.network.env, old(runner.network.w), runner.wallet, running, stakers, ids, before, after)
    ensures passed ==> runner.network.w == Staked(runner.network.env, old(runner.network.w), runner.wallet, ids).w
  {
    hide BringUp.BootIds, Passes, Runner.StartValidating;
    var stakerIds := BringUp.GetAllBootServiceIDs(stakers);
    var all := Copy(stakerIds);
    all := all + {VALIDATOR};
    all := all + {NON_VALIDATOR};
    assert all == Everyone(stakers);
    var known := GetNodeIds(all, running, ids);
    if known.None? {
      return false;
    }
    var nodeIds := known.value;
    SameVerdict(all, stakerIds, nodeIds, ids, before);
    passed := VerifyNetworkFullyConnected(all, stakerIds, nodeIds, before);
    if !passed {
      return;
    }
    passed := runner.ImportGenesisFundsAndStartValidating(nodeIds[VALIDATOR], SEED_AMOUNT, STAKE_AMOUNT);
    if !passed {
      return;
    }
    stakerIds := stakerIds + {VALIDATOR};
    SameVerdict(all, stakerIds, nodeIds, ids, after);
    passed := VerifyNetworkFullyConnected(all, stakerIds, nodeIds, after);
  }

  method Copy(ids: set<ServiceId>) returns (copy: set<ServiceId>)
    ensures copy == ids
  {
    copy := {};
    var todo := ids;
    while todo != {}
      invariant todo <= ids && copy == ids - todo
      decreases todo
    {
      var id :| id in todo;
      todo := todo - {id};
      copy := copy + {id};
    }
  }

  lemma Strangers(stakers: nat)
    ensures VALIDATOR !in BringUp.BootIds(stakers) && NON_VALIDATOR !in BringUp.BootIds(stakers)
    ensures VALIDATOR != NON_VALIDATOR
  {
    assert |VALIDATOR| != |NON_VALIDATOR|;
    BringUp.BootIdsAre(stakers);
    forall s | s in BringUp.BootIds(stakers) ensures s != VALIDATOR && s != NON_VALIDATOR {
      var i: nat :| i < stakers && s == BringUp.BootServiceId(i);
      assert s[0] == BringUp.SERVICE_PREFIX[0];
      assert VALIDATOR[0] == 'v' && NON_VALIDATOR[0] == 'n';
    }
  }

  /**
   * In a passing run, given that node IDs are unique, the validator and the non-validator did not list each other
   * before, and afterwards each lists the other unless it lists someone twice.
   */
  lemma RunSeesPromotion(env: Polling.Env, w: Polling.World, wallet: Runner.Wallet, running: set<ServiceId>, stakers: nat,
                         ids: map<ServiceId, NodeId>, before: map<ServiceId, Reply>, after: map<ServiceId, Reply>)
    requires Everyone(stakers) <= before.Keys * after.Keys && InjectiveOn(ids, Everyone(stakers))
    requires RunPasses(env, w, wallet, running, stakers, ids, before, after)
    ensures before[VALIDATOR].Peers? && before[NON_VALIDATOR].Peers? && after[VALIDATOR].Peers? && after[NON_VALIDATOR].Peers?
    ensures !Edge(ids, before, VALIDATOR, NON_VALIDATOR) && !Edge(ids, before, NON_VALIDATOR, VALIDATOR)
    ensures NoDup(after[VALIDATOR].ids) ==> Edge(ids, after, VALIDATOR, NON_VALIDATOR)
    ensures NoDup(after[NON_VALIDATOR].ids) ==> Edge(ids, after, NON_VALIDATOR, VALIDATOR)
  {
    var all, bootIds := Everyone(stakers), BringUp.BootIds(stakers);
    Strangers(stakers);
    hide BringUp.BootIds, Runner.StartValidating;
    assert VALIDATOR in all && NON_VALIDATOR in all;
    Listed(all, bootIds, ids, before, VALIDATOR, NON_VALIDATOR);
    Listed(all, bootIds, ids, before, NON_VALIDATOR, VALIDATOR);
    Listed(all, bootIds + {VALIDATOR}, ids, after, VALIDATOR, NON_VALIDATOR);
    Listed(all, bootIds + {VALIDATOR}, ids, after, NON_VALIDATOR, VALIDATOR);
  }

  /** A node that passes lists another only if one of them stakes, and then does so unless it lists someone twice. */
  lemma Listed(all: set<ServiceId>, stakers: set<ServiceId>, ids: map<ServiceId, NodeId>, replies: map<ServiceId, Reply>,
               s: ServiceId, t: ServiceId)
    requires all <= replies.Keys && InjectiveOn(ids, all) && Passes(all, stakers, ids, replies)
    requires s in all && t in all && s != t
    ensures replies[s].Peers?
    ensures Edge(ids, replies, s, t) ==> s in stakers || t in stakers
    ensures NoDup(replies[s].ids) && (s in stakers || t in stakers) ==> Edge(ids, replies, s, t)
  {
    assert NodePasses(all, stakers, ids, replies, s);
    AcceptableIsImage(all, stakers, ids, s);
    if NoDup(replies[s].ids) {
      ExactListIff(replies[s].ids, Acceptable(all, stakers, ids, s));
    }
  }

  // ---- What a passing run means ----

  /**
   * With unique IDs and tidy replies, from a quiet beginning, the test passes exactly when all nodes run; the graph is
   * the one for the boot nodes as stakers; the network serves the seeding and staking, which the wallet can pay; and
   * afterwards the graph of all nodes is the one for the boot nodes and the validator as stakers.
   */
  lemma PassesIff(env: Polling.Env, w: Polling.World, wallet: Runner.Wallet, running: set<ServiceId>, stakers: nat,
                  ids: map<ServiceId, NodeId>, before: map<ServiceId, Reply>, after: map<ServiceId, Reply>)
    requires Serving.Calm(w) && UniqueIds(ids, Everyone(stakers))
    requires Tidy(Everyone(stakers), before) && Tidy(Everyone(stakers), after)
    ensures var all, bootIds := BringUp.BootIds(stakers) + {"validator-service", "non-validator-service"}, BringUp.BootIds(stakers);
            RunPasses(env, w, wallet, running, stakers, ids, before, after) <==>
              && all <= running && Connected(all, bootIds, ids, before)
              && StartValidation.CanPay(env.fees, w.ledger, wallet, 50_000_000_000_000, 30_000_000_000_000)
              && Serving.Served(env, w, StartValidation.SeedAndStake(wallet, ids["validator-service"], 50_000_000_000_000,
                                                                     30_000_000_000_000))
              && Connected(all, bootIds + {"validator-service"}, ids, after)
  {
    var all, bootIds := Everyone(stakers), BringUp.BootIds(stakers);
    hide BringUp.BootIds, Passes, FullyConnected, Answered;
    if all <= ids.Keys {
      CheckShape(all, bootIds, ids, before);
      CheckShape(all, bootIds + {VALIDATOR}, ids, after);
      StartValidation.StartValidatingIff(env, w, wallet, ids[VALIDATOR], SEED_AMOUNT, STAKE_AMOUNT);
      hide Runner.StartValidating, StartValidation.CanPay, StartValidation.SeedAndStake, Serving.Served, Connected;
    }
  }

  /** A passing run from a quiet beginning has staked, added one validator, and neither made nor lost money. */
  lemma RunStakes(env: Polling.Env, w: Polling.World, wallet: Runner.Wallet, running: set<ServiceId>, stakers: nat,
                  ids: map<ServiceId, NodeId>, before: map<ServiceId, Reply>, after: map<ServiceId, Reply>)
    requires Everyone(stakers) <= before.Keys * after.Keys && Serving.Calm(w)
    requires RunPasses(env, w, wallet, running, stakers, ids, before, after)
    ensures var last := Staked(env, w, wallet, ids).w;
            && last.validators == w.validators + 1 && last.delegators == w.delegators && Sum(last.ledger) == Sum(w.ledger)
            && StartValidation.HasStaked(env.fees, w.ledger, last.ledger, wallet, 50_000_000_000_000, 30_000_000_000_000)
  {
    hide BringUp.BootIds, Passes;
    var node := IdOf(ids, VALIDATOR);
    StartValidation.StartValidatingIff(env, w, wallet, node, SEED_AMOUNT, STAKE_AMOUNT);
    StartValidation.ScriptOf(env, w, wallet, node, SEED_AMOUNT, STAKE_AMOUNT);
    hide Runner.StartValidating, StartValidation.HasStaked, StartValidation.SeedAndStake, Runner.RunSteps;
    Runner.RunSafe(env, w, StartValidation.SeedAndStake(wallet, node, SEED_AMOUNT, STAKE_AMOUNT));
  }

  /** It has asked for just the export and import of the seed and the stake on the validator's node. */
  lemma RunAsksToStake(env: Polling.Env, w: Polling.World, wallet: Runner.Wallet, running: set<ServiceId>, stakers: nat,
                       ids: map<ServiceId, NodeId>, before: map<ServiceId, Reply>, after: map<ServiceId, Reply>)
    returns (start: nat)
    requires Everyone(stakers) <= before.Keys * after.Keys
    requires RunPasses(env, w, wallet, running, stakers, ids, before, after)
    ensures "validator-service" in ids
    ensures Runner.Attempts(Staked(env, w, wallet, ids).w.log) ==
            Runner.Attempts(w.log) +
            [TwoChain.ExportX(wallet.x, wallet.p, 50_000_000_000_000), TwoChain.ImportP(wallet.p),
             TwoChain.AddValidator(wallet.p, 30_000_000_000_000,
                                   TwoChain.Term(ids["validator-service"], start, start + 72 * 3600), 2)]
  {
    hide BringUp.BootIds, Passes;
    assert VALIDATOR in Everyone(stakers);
    hide Runner.StartValidating, Runner.Attempts;
    start := Requests.StartValidatingAsks(env, w, wallet, ids[VALIDATOR], SEED_AMOUNT, STAKE_AMOUNT);
  }
}
