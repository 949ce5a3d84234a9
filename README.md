# Nanobot and varicose-vein simulations, modelled in Dafny

This project models the simulation logic of a set of Python scripts about
nanobots treating blocked or diseased veins. Each script steps a small state
machine once per video frame:

- **Metro-train clot dissolution**, in three variants. Five coaches C1..C5
  carry medicine from a catheter to a clot as one train. The front coach (the
  leader) dispenses at most 0.05 ml per frame until it is empty. Then it
  detaches, and later it rejoins at the back of the train. The swarm runs the
  states ENTERING, APPROACHING, DELIVERING, EVALUATING (in one variant),
  EXITING and COMPLETE. The variants differ in how a coach rejoins:
  - `metro_enhanced.dfy` (metro_train_enhanced.py): the coach waits at the clot and glides back.
  - `metro_final_correct.dfy` (metro_train_final_correct.py): the coach waits and snaps back.
  - `metro_correct_order.dfy` (metro_train_correct_order.py): the coach U-turns to the catheter and rejoins there.
  - `metro_common.dfy` holds what the three share: the approach-speed schedule, the
    choice of leader and back coach, the stable sort by position and the delivery log.
- **Role-based swarm on a branching vein** (run_swarm_vein_sim.py):
  - `swarm_vein_network.dfy` has the six-segment tree, its health and derived
    sensor fields, pathology and reset, role scores and the weighted choice of
    the next segment.
  - `swarm_vein_tick.dfy` has agent creation, role counts, role switching and one tick
    of the simulation loop.
- **Flow-redirection swarm** (run_flow_redirection_swarm_sim.py):
  - `flow_network.dfy` has the trunk with three branches, one of them faulty, its
    sensors and flow shares, and the branch choice.
  - `flow_swarm.dfy` has the agents.
  - `flow_frame.dfy` has one frame of the loop: the reflux pulse, the agents, the
    temporary plug, valve remodelling and the tracer lists.
- **A single nanobot** (run_nanobot_realistic.py), in `nanobot_realistic.dfy`. The bot
  has acceleration-limited motion and a SEARCHING → APPROACHING → CLEARING →
  CONTINUING state machine. Detection needs two of three sensor signals to agree.
  The vein holds three clogs whose density falls while the bot clears them.
- `numeric.dfy` holds shared arithmetic: `clamp`, `min`, `max`, `abs`, Python's
  `int()`, counting, and the cumulative-weight pick.

## How it is modelled

Objects whose fields the scripts update in place become Dafny classes: coaches,
swarms, clots, vein segments, agents, the nanobot and the vein.
- Each method is proved against a pure step function on a value snapshot, as in
  `ensures Snapshot() == UpdateStep(old(Snapshot()), Settings())`.
- The properties the scripts promise are lemmas about those step functions:
  - invariants kept by every step, such as medicine conservation, a log total
    equal to the total applied, exactly one of in-formation and waiting per
    coach, and fields kept in [0,1];
  - the state-machine transitions, stated in both directions where the code is an if-and-only-if;
  - monotonicity, such as a clot that never grows or a mapping that never falls.

Python floats are modelled as exact reals. Random draws, shuffles, `math.sin`
and `math.hypot` become parameters with their ranges stated.

The three metro variants are modelled separately, as the code keeps them. They
are not merged into one policy.

The nanobot's clearing never marks a clog as cleared (see "## Findings").
- `NanobotRealistic.RunOk` and `NanobotRealistic.CreateRealisticSimulation`
  follow the code as written and prove this.
- The intended update is defined beside the one as written, and is proved to
  mark the clog cleared on the completing frame.

## Model

| member | source | states |
|---|---|---|
| FlowNetwork.SensorsFacts | run_flow_redirection_swarm_sim.py:101-122 | whatever the pooling and reflux, the four normalised readings and their mean `abnormal` lie in [0,1] |
| FlowNetwork.SensorsMonotone | run_flow_redirection_swarm_sim.py:101-122 | more pooling and more reflux never lower a normalised reading or `abnormal` |
| FlowNetwork.VeinSegment.constructor | run_flow_redirection_swarm_sim.py:46-62 | a new segment has beacon, mapping, pooling and reflux 0, competence and permeability 1, no children, no readings, and its endpoints and name |
| FlowNetwork.SegViewsOf | run_flow_redirection_swarm_sim.py:45-62 | the value view of a segment list has one entry per segment, each that segment's fields |
| FlowNetwork.ComputeSensors | run_flow_redirection_swarm_sim.py:101-122 | the segment's readings become those derived from its current pooling and reflux; no other field changes |
| FlowNetwork.BuildNetwork | run_flow_redirection_swarm_sim.py:75-88 | four fresh, distinct segments whose values are the built network: ids 0..3, trunk children [1,2,3], every branch's parent is 0 |
| FlowNetwork.CreateSegments | run_flow_redirection_swarm_sim.py:76-81 | four fresh, distinct, pristine segments with ids 0..3, of which only segment 2 is faulty |
| FlowNetwork.LinkBranches | run_flow_redirection_swarm_sim.py:83-86 | after the links are set, the segment values are exactly the built network |
| FlowNetwork.BuiltNetwork | run_flow_redirection_swarm_sim.py:75-88 | the built network has four segments |
| FlowNetwork.BuiltNetworkLayout | run_flow_redirection_swarm_sim.py:75-88 | the built network has the layout: `seg_id` equals its index, positive lengths, trunk children [1,2,3] with no parent, branches childless with parent 0, and segment 2 is the only faulty one |
| FlowNetwork.NetworkLengthsPositive | run_flow_redirection_swarm_sim.py:51 | every segment length of the network is positive |
| FlowNetwork.SameLayoutKeeps | run_flow_redirection_swarm_sim.py:75-88 | a segment list with the same layout fields as a well-formed one is well-formed |
| FlowNetwork.InitializePathology | run_flow_redirection_swarm_sim.py:91-98 | every segment gets pooling 0.65 and competence 0.2 if faulty, else 0.05 and 0.95; nothing else changes |
| FlowNetwork.PathologyAll | run_flow_redirection_swarm_sim.py:91-98 | the pathology keeps the list length and treats each segment by itself |
| FlowNetwork.PathologyInRange | run_flow_redirection_swarm_sim.py:91-98 | the pathology keeps the built layout, leaves every field in range, and sets the faulty segment to pooling 0.65 and competence 0.2 |
| FlowNetwork.FirstFaulty | run_flow_redirection_swarm_sim.py:152 | the first index whose segment is faulty, with no faulty one before it |
| FlowNetwork.FirstFaultyInLayout | run_flow_redirection_swarm_sim.py:152 | in the built layout the generator finds segment 2 |
| FlowNetwork.FindFaulty | run_flow_redirection_swarm_sim.py:152 | the search returns the index of the first faulty segment |
| FlowNetwork.SharesFacts | run_flow_redirection_swarm_sim.py:151-162 | for competence in [0,1] the three shares are positive and sum to 1 |
| FlowNetwork.FaultyWeightMonotone | run_flow_redirection_swarm_sim.py:157 | the faulty branch weight is non-negative and never falls as permeability or valve competence rise |
| FlowNetwork.SharesMonotone | run_flow_redirection_swarm_sim.py:155-161 | a more permeable faulty branch, or one with a more competent valve, takes no smaller a share, and the deep and side branches no larger ones |
| FlowNetwork.WithPermeability | run_flow_redirection_swarm_sim.py:152-153 | setting the faulty permeability keeps the list length |
| FlowNetwork.ComputeFlowShares | run_flow_redirection_swarm_sim.py:151-162 | the faulty segment's permeability becomes `clamp(1 - plug_progress, 0.05, 1)`, nothing else changes, and the shares it returns are those of the weights 1, `0.9·perm·(0.35+0.65·competence)` and 0.7 |
| FlowNetwork.BranchWeights | run_flow_redirection_swarm_sim.py:166-175 | choose_branch weighs exactly the three branches |
| FlowNetwork.BranchWeightsPositive | run_flow_redirection_swarm_sim.py:166-175 | with non-negative shares and bias every branch weighs at least 0.05 |
| FlowNetwork.Branch | run_flow_redirection_swarm_sim.py:165-182 | choose_branch always returns 1, 2 or 3 |
| FlowNetwork.PickBranch | run_flow_redirection_swarm_sim.py:176-182 | the cumulative pick lands on 1, 2 or 3 |
| FlowNetwork.PickBranchAt | run_flow_redirection_swarm_sim.py:176-182 | the pick names the first branch whose cumulative weight reaches `u·total`, counting from 1 |
| FlowNetwork.SliceReachable | run_flow_redirection_swarm_sim.py:176-182 | for each of three positive weights there is a draw in [0,1) the pick sends to that branch |
| FlowNetwork.BranchReachable | run_flow_redirection_swarm_sim.py:165-182 | every branch can be chosen: for each of 1, 2, 3 some draw in [0,1) selects it |
| FlowNetwork.ChooseBranch | run_flow_redirection_swarm_sim.py:165-182 | the loop returns the branch the weighted-pick function names for the draw |
| FlowNetwork.PickFrom | run_flow_redirection_swarm_sim.py:177-182 | subtracting the weights in turn stops at the branch the cumulative pick names, or falls back to branch 3 |
| FlowSwarm.SwarmAgent.constructor | run_flow_redirection_swarm_sim.py:69-72 | a new agent has the given role, segment and position |
| FlowSwarm.AgentViewsOf | run_flow_redirection_swarm_sim.py:68-72 | the value view of an agent list has one entry per agent, each that agent's fields |
| FlowSwarm.Roles | run_flow_redirection_swarm_sim.py:144-148 | the roles of the agents, in order |
| FlowSwarm.TallyCoversAll | run_flow_redirection_swarm_sim.py:144-148 | the four role counts add up to the number of agents |
| FlowSwarm.RoleCounts | run_flow_redirection_swarm_sim.py:144-148 | the loop's counters are the number of agents of each role |
| FlowSwarm.QuotasFit | run_flow_redirection_swarm_sim.py:126-131 | `int(n·0.25) + int(n·0.4) + int(n·0.2) <= n`, so the Monitor remainder is non-negative |
| FlowSwarm.RoleListMultiset | run_flow_redirection_swarm_sim.py:132-135 | the unshuffled role list holds exactly the quota of each role |
| FlowSwarm.Recruits | run_flow_redirection_swarm_sim.py:138-141 | one agent per shuffled role |
| FlowSwarm.RecruitsFacts | run_flow_redirection_swarm_sim.py:125-141 | create_agents returns exactly `n` agents, with the floors of 25%, 40% and 20% as Scouts, Workers and Repairs and the rest Monitors, all on segment 0 with `t` in [0,1) |
| FlowSwarm.CreateAgents | run_flow_redirection_swarm_sim.py:125-141 | fresh, distinct agents whose values are one agent per shuffled role at the drawn position |
| FlowSwarm.PhaseFrames | run_flow_redirection_swarm_sim.py:365-371 | Baseline exactly before frame `5·fps`, Temporary Plug exactly from `5·fps` to before `12·fps`, Remodeling from `12·fps` on |
| FlowSwarm.PhaseMonotone | run_flow_redirection_swarm_sim.py:365-371 | the phase never goes back as the frame index grows |
| FlowSwarm.StepFraction | run_flow_redirection_swarm_sim.py:450-458 | one frame's share of a second is in (0,1], and of the dissolve time in (0,1/4] |
| FlowSwarm.PlugUpdateKeeps | run_flow_redirection_swarm_sim.py:440-461 | every plug update keeps progress in [0,1] and the state/progress/timer invariant (inactive at 0, active at 1 with a timer in (0,4]) |
| FlowSwarm.PlugStartsForming | run_flow_redirection_swarm_sim.py:440-443 | an inactive plug leaves inactive exactly in the plug phase with at least `worker_threshold` Workers, and then it is forming at 0.02 |
| FlowSwarm.PlugForming | run_flow_redirection_swarm_sim.py:440-448 | a forming plug grows by 0.02 and turns active with timer `4 - 1/fps` when it reaches 1; with too few Workers it erodes by 0.006 |
| FlowSwarm.PlugActive | run_flow_redirection_swarm_sim.py:450-458 | an active plug turns dissolving exactly when its timer runs out or remodelling has begun, else it counts down |
| FlowSwarm.PlugDissolving | run_flow_redirection_swarm_sim.py:456-461 | a dissolving plug becomes inactive, with timer 0, exactly when its progress reaches 0 |
| FlowSwarm.UpdatePlug | run_flow_redirection_swarm_sim.py:440-461 | the plug statements compute the plug update function |
| FlowFrame.FlowDefinedOk | run_flow_redirection_swarm_sim.py:151-162 | compute_flow_shares is defined on every in-range network, and its shares are in (0,1] |
| FlowFrame.RefluxDirection | run_flow_redirection_swarm_sim.py:379 | the direction is ±1, and -1 exactly when the pulse exceeds 0.55 and plug progress is below 0.2 |
| FlowFrame.RefluxedFacts | run_flow_redirection_swarm_sim.py:376-383 | for a sine in [-1,1] the pulse is in [0,1], and the faulty segment stays in range with only its reflux and pooling changed |
| FlowFrame.ResensedSource | run_flow_redirection_swarm_sim.py:385-393 | re-sensing depends only on the pooling, competence and reflux of the faulty segment |
| FlowFrame.ResenseAll | run_flow_redirection_swarm_sim.py:385-393 | every segment is re-sensed against the faulty one |
| FlowFrame.ResenseAllFacts | run_flow_redirection_swarm_sim.py:385-393 | re-sensing keeps the layout and ranges, lowers no mapping or competence, and leaves every segment with readings |
| FlowFrame.SensedFacts | run_flow_redirection_swarm_sim.py:398-411 | an agent's sensing keeps the segment in range, changes only its beacon and mapping, and never lowers its mapping |
| FlowFrame.Speed | run_flow_redirection_swarm_sim.py:413-427 | an agent's speed is at least 0.05 |
| FlowFrame.DirectedIsProduct | run_flow_redirection_swarm_sim.py:428 | for direction ±1 the directed step is `step * direction` |
| FlowFrame.MovedFacts | run_flow_redirection_swarm_sim.py:422-438 | a move keeps `t` in [0,1], keeps the role, and either just advances `t` or, on leaving, resets `t` to 0 or 1 and moves trunk→branch 1-3 or branch→trunk |
| FlowFrame.SenseStep | run_flow_redirection_swarm_sim.py:398-411 | the sensing half of a turn keeps the walk invariant, the agents and the segment health |
| FlowFrame.MoveStep | run_flow_redirection_swarm_sim.py:413-438 | the moving half of a turn keeps the walk invariant, the segments, the counts and the roles |
| FlowFrame.AgentStep | run_flow_redirection_swarm_sim.py:398-438 | one agent's turn keeps the walk invariant, the population, the health and the roles |
| FlowFrame.AgentsUpTo | run_flow_redirection_swarm_sim.py:398-438 | after any number of turns the walk invariant and population hold |
| FlowFrame.AgentsUpToFacts | run_flow_redirection_swarm_sim.py:398-438 | the agent loop lowers no mapping, keeps segment health and changes no role |
| FlowFrame.Remodeled | run_flow_redirection_swarm_sim.py:463-466 | remodelling keeps the list length |
| FlowFrame.RemodeledFacts | run_flow_redirection_swarm_sim.py:463-466 | the faulty competence never decreases or passes 1, rises by `0.0008·repairs` (clamped) only while remodelling with Repairs present, and nothing else changes |
| FlowFrame.BaseCount | run_flow_redirection_swarm_sim.py:470 | `int(8 + target_flow·22)` lies in [8, 30] for a target flow in [0,1] |
| FlowFrame.CutBounds | run_flow_redirection_swarm_sim.py:472 | the plug-cut product lies between 0 and the count |
| FlowFrame.PlugCut | run_flow_redirection_swarm_sim.py:472 | `max(4, int(desired·(1 - progress)))` lies between 4 and the count |
| FlowFrame.DesiredCount | run_flow_redirection_swarm_sim.py:469-472 | the desired tracer count lies in [4, 30] |
| FlowFrame.Resized | run_flow_redirection_swarm_sim.py:473-477 | the list has `desired` entries: the old ones in order, then the draws at the end |
| FlowFrame.Wrap | run_flow_redirection_swarm_sim.py:483-486 | the result is in [0,1]; above 1 it wraps to 0 and below 0 to 1 |
| FlowFrame.Advanced | run_flow_redirection_swarm_sim.py:481-487 | every tracer is advanced by `delta` and wrapped |
| FlowFrame.TracerStepFacts | run_flow_redirection_swarm_sim.py:468-487 | a tracer list ends with `desired_count` entries in [0,1]: each kept or new tracer moved by one directed step and wrapped |
| FlowFrame.TracersAll | run_flow_redirection_swarm_sim.py:468-487 | the tracer update keeps the number of lists |
| FlowFrame.TracersAllOk | run_flow_redirection_swarm_sim.py:468-487 | after the update every tracer of every list is in [0,1] |
| FlowFrame.OpenedFacts | run_flow_redirection_swarm_sim.py:151-153 | compute_flow_shares finds segment 2, keeps layout and ranges and changes only its permeability |
| FlowFrame.Pulsed | run_flow_redirection_swarm_sim.py:373-383 | the top of the frame keeps the four segments |
| FlowFrame.FrameDirection | run_flow_redirection_swarm_sim.py:379 | the frame's reflux direction is ±1 |
| FlowFrame.FrameShares | run_flow_redirection_swarm_sim.py:373 | the frame's shares are in (0,1] |
| FlowFrame.FrameConditions | run_flow_redirection_swarm_sim.py:373-379 | the frame conditions carry the settings and the frame's shares |
| FlowFrame.StartWalk | run_flow_redirection_swarm_sim.py:373-396 | the agent loop starts with all the agents |
| FlowFrame.StartWalkOk | run_flow_redirection_swarm_sim.py:373-396 | the top of the frame keeps every invariant and competence, zeroes reflux off the faulty branch and gives each segment the readings of its pooling and reflux |
| FlowFrame.TickWalk | run_flow_redirection_swarm_sim.py:373-438 | after the agent loop the walk invariant and population hold |
| FlowFrame.TickWalkFacts | run_flow_redirection_swarm_sim.py:373-438 | through the agent loop no mapping falls, no role or competence changes, reflux is 0 off the faulty branch and readings match |
| FlowFrame.TickPlug | run_flow_redirection_swarm_sim.py:440-461 | the frame's plug keeps the plug invariant |
| FlowFrame.Tick | run_flow_redirection_swarm_sim.py:364-487 | a frame keeps four segments and four tracer lists |
| FlowFrame.TickKeeps | run_flow_redirection_swarm_sim.py:364-487 | a frame keeps the whole-state invariant (layout, ranges, agents, tracers, plug), the swarm's size and roles, and lowers no mapping |
| FlowFrame.TickReadings | run_flow_redirection_swarm_sim.py:385-393 | after a frame every reading matches its segment and only the faulty branch has reflux |
| FlowFrame.TickValve | run_flow_redirection_swarm_sim.py:463-466 | over a frame the faulty valve never weakens or passes 1, and changes only while remodelling |
| FlowFrame.TickTracers | run_flow_redirection_swarm_sim.py:468-477 | after a frame each tracer list has `desired_count` entries for the frame's shares and the new plug progress |
| FlowFrame.InitialStateOk | run_flow_redirection_swarm_sim.py:344-353 | set-up establishes the state invariant with `swarm_size` agents in the quota proportions and faulty competence 0.2 |
| FlowFrame.Frame | run_flow_redirection_swarm_sim.py:364-487 | one frame keeps the state invariant, size and roles, lowers no mapping and never weakens the faulty valve |
| FlowFrame.Run | run_flow_redirection_swarm_sim.py:364-487 | the frame loop keeps the invariant, the swarm's size and roles and never weakens the faulty valve, which is unchanged if the run stops by frame `12·fps` |
| FlowFrame.RunStates | run_flow_redirection_swarm_sim.py:364-487 | there is a chain of states, each the frame of the one before, all satisfying the invariant, ending where the run ends |
| FlowFrame.RunChain | run_flow_redirection_swarm_sim.py:364-487 | the chain of a whole run starts at the set-up state and ends at the run's result |
| FlowFrame.BeforeRemodeling | run_flow_redirection_swarm_sim.py:365-371 | no frame before `12·fps` is in the remodelling phase |
| FlowFrame.FrameCount | run_flow_redirection_swarm_sim.py:342 | `num_frames` is 0 when `fps` is 0 |
| FlowFrame.FinalState | run_flow_redirection_swarm_sim.py:551 | the final compute_flow_shares sets only the faulty permeability, keeping the invariant, agents, tracers and plug |
| FlowFrame.RunToEnd | run_flow_redirection_swarm_sim.py:364-551 | after the loop and the final shares the swarm keeps its size and roles and the faulty valve does not weaken |
| FlowFrame.EndShares | run_flow_redirection_swarm_sim.py:551 | the final shares are in (0,1] |
| FlowFrame.Simulation | run_flow_redirection_swarm_sim.py:322-553 | the whole run ends in the invariant with `swarm_size` agents |
| FlowFrame.FinalShares | run_flow_redirection_swarm_sim.py:551 | `final_flow_shares` are in (0,1] |
| FlowFrame.SimulationFacts | run_flow_redirection_swarm_sim.py:322-553 | at the end the role tally is still the creation quotas and the faulty competence lies in [0.2, 1] |
| FlowFrame.PulseFaulty | run_flow_redirection_swarm_sim.py:376-383 | the faulty segment takes the reflux pulse and pooling change, the direction follows the pulse, and no agent changes |
| FlowFrame.ResenseSegment | run_flow_redirection_swarm_sim.py:386-393 | one segment is re-sensed against the faulty one |
| FlowFrame.SenseSegment | run_flow_redirection_swarm_sim.py:399-411 | the agent's segment takes the agent's sensing and no agent changes |
| FlowFrame.MoveAgent | run_flow_redirection_swarm_sim.py:413-438 | the agent takes the move function's result and no segment changes |
| FlowFrame.ResizeTracers | run_flow_redirection_swarm_sim.py:473-477 | the in-place extend or delete yields the resized list |
| FlowFrame.AdvanceTracers | run_flow_redirection_swarm_sim.py:479-487 | the in-place loop yields every tracer advanced and wrapped |
| FlowFrame.UpdateTracerList | run_flow_redirection_swarm_sim.py:469-487 | one tracer list becomes the tracer-step function's result |
| FlowFrame.UpdateTracers | run_flow_redirection_swarm_sim.py:468-487 | every tracer list becomes the tracer-step function's result |
| FlowFrame.ResensePhase | run_flow_redirection_swarm_sim.py:385-393 | the re-sensing loop leaves the segments as the re-sense function says and changes no agent |
| FlowFrame.SenseTurn | run_flow_redirection_swarm_sim.py:398-411 | the sensing statements compute the sensing half of the turn, counts included |
| FlowFrame.MoveTurn | run_flow_redirection_swarm_sim.py:413-438 | the moving statements compute the moving half of the turn |
| FlowFrame.AgentTurn | run_flow_redirection_swarm_sim.py:398-438 | one loop iteration advances the walk by agent `k`'s turn |
| FlowFrame.AgentPhase | run_flow_redirection_swarm_sim.py:395-438 | the agent loop computes the walk after all agents and the Worker and Repair counts |
| FlowFrame.RemodelPhase | run_flow_redirection_swarm_sim.py:463-466 | the remodelling statements compute the remodel function and change no agent |
| FlowFrame.CurrentPhase | run_flow_redirection_swarm_sim.py:365-371 | the phase label is that of `frame_idx / fps` |
| FlowFrame.OpenFrame | run_flow_redirection_swarm_sim.py:373-383 | the shares, the faulty segment (segment 2) and the pulsed segments are the frame's |
| FlowFrame.StartFrame | run_flow_redirection_swarm_sim.py:373-393 | the objects after the top of the frame and re-sensing are the start of the walk |
| FlowFrame.TickIs | run_flow_redirection_swarm_sim.py:364-487 | the frame is the plug update and tracer update after the agent loop from the start of the walk |
| FlowFrame.WalkFrame | run_flow_redirection_swarm_sim.py:395-461 | the agent loop and plug statements compute the walk and the plug update of the frame's phase |
| FlowFrame.FinishFrame | run_flow_redirection_swarm_sim.py:440-487 | the plug, remodel and tracer statements compute the end of the frame |
| FlowFrame.RunFrame | run_flow_redirection_swarm_sim.py:364-487 | the objects after one pass of the loop are the frame function's result |
| FlowFrame.SetUp | run_flow_redirection_swarm_sim.py:344-353 | fresh, distinct segments and agents in the set-up state |
| FlowFrame.LoopStep | run_flow_redirection_swarm_sim.py:364-487 | pass `f` moves the objects from state `T[f]` to `T[f+1]` |
| FlowFrame.FrameLoop | run_flow_redirection_swarm_sim.py:364-487 | after `num_frames` passes the objects are in the chain's last state |
| FlowFrame.FinishRun | run_flow_redirection_swarm_sim.py:551 | the final compute_flow_shares on the objects gives the final state and shares |
| FlowFrame.RunAll | run_flow_redirection_swarm_sim.py:364-551 | the frame loop then the final shares leave the objects as the run function says |
| FlowFrame.CreateFlowRedirectionSimulation | run_flow_redirection_swarm_sim.py:322-553 | the objects end in the simulation's final state, and the returned shares are `final_flow_shares` |
| SwarmVein.ScaffoldRelief | run_swarm_vein_sim.py:94-95 | the scaffold factor `max(0.35, 1 - 0.6·scaffold)` is at least 0.35, and at most 1 for a non-negative scaffold |
| SwarmVein.FieldsFor | run_swarm_vein_sim.py:89-113 | the four normalised readings lie in [0,1], `abnormal` is their mean and lies in [0,1] |
| SwarmVein.ScaffoldEffect | run_swarm_vein_sim.py:93-95 | a scaffold at or below 0.01 leaves the raw strain; otherwise strain lies between 0.35 times and 1 times the raw strain |
| SwarmVein.FieldsMonotone | run_swarm_vein_sim.py:89-113 | more blockage, inflammation or pooling never lowers a normalised reading or `abnormal` |
| SwarmVein.StrainMonotone | run_swarm_vein_sim.py:93-95 | more pooling never lowers the (scaffold-relieved) strain |
| SwarmVein.VeinSegment.constructor | run_swarm_vein_sim.py:66-84 | a new segment has all health fields 0, is unaffected, has no readings and no initial state, and its children, endpoints and name |
| SwarmVein.VeinSegment.ComputeFields | run_swarm_vein_sim.py:89-113 | the returned and stored readings are those of the present health fields; no other field changes |
| SwarmVein.SegViewsOf | run_swarm_vein_sim.py:65-84 | the value view of a segment list has one entry per segment, each that segment's fields |
| SwarmVein.BuiltNetwork | run_swarm_vein_sim.py:124-138 | the network has six segments |
| SwarmVein.BuiltNetworkShape | run_swarm_vein_sim.py:125-136 | every segment has its literal's id, children and the parent the linking loop gives it |
| SwarmVein.BuiltChildrenLinked | run_swarm_vein_sim.py:134-136 | every listed child is a valid later index whose `parent_id` is the segment listing it |
| SwarmVein.BuiltParentsListed | run_swarm_vein_sim.py:134-136 | every segment but the root has an earlier parent that lists it |
| SwarmVein.BuiltNetworkIsTree | run_swarm_vein_sim.py:124-138 | the network is a tree rooted at segment 0 (no parent) with `seg_id` equal to the index; 1 and 2 hang off 0, 3 and 4 off 1, 5 off 2 |
| SwarmVein.NetworkLengthsPositive | run_swarm_vein_sim.py:72 | every segment length of the network is positive |
| SwarmVein.CreateSegments | run_swarm_vein_sim.py:125-132 | six fresh, distinct, pristine segments with the literal ids and children and no parents |
| SwarmVein.AdoptChildren | run_swarm_vein_sim.py:135-136 | each child of segment `i` gets parent `i`; no other field or segment changes |
| SwarmVein.LinkParents | run_swarm_vein_sim.py:134-136 | each child's parent becomes the segment listing it; nothing else changes |
| SwarmVein.BuildVeinNetwork | run_swarm_vein_sim.py:124-138 | six fresh, distinct segments whose values are the built network |
| SwarmVein.PathologyFacts | run_swarm_vein_sim.py:142-159 | every baseline lies in [0,1], and exactly segments 3 and 5 start affected |
| SwarmVein.PathologyAll | run_swarm_vein_sim.py:151-161 | the pathology treats each segment by itself and keeps the list length |
| SwarmVein.InitializePathology | run_swarm_vein_sim.py:141-161 | each segment takes the baseline of its id, `affected` as `blockage > 0.5 or inflammation > 0.45`, and remembers it as initial state |
| SwarmVein.ApplyPathology | run_swarm_vein_sim.py:152-161 | one segment takes its pathology |
| SwarmVein.ResetFacts | run_swarm_vein_sim.py:164-172 | reset keeps fields in range, is idempotent, returns a freshly initialised segment with beacon, mapping, spike and scaffold 0, and keeps the links |
| SwarmVein.ResetSegments | run_swarm_vein_sim.py:164-172 | every segment is restored from its initial state with beacon, mapping, spike and scaffold zeroed |
| SwarmVein.ResetSegment | run_swarm_vein_sim.py:165-172 | one segment is restored |
| SwarmVein.ScoreBounds | run_swarm_vein_sim.py:214-223 | for a segment in range every role's score lies between 0 and that role's cap |
| SwarmVein.UniformIndex | run_swarm_vein_sim.py:204-205 | the uniform fallback index is a valid index |
| SwarmVein.WeightedIndex | run_swarm_vein_sim.py:202-211 | the weighted pick is a valid index |
| SwarmVein.WeightedIndexFacts | run_swarm_vein_sim.py:202-211 | with a non-positive total the fallback draw decides alone; with a positive total it lands on a positively weighted item (for a non-zero draw) and ignores the fallback draw |
| SwarmVein.WeightedChoice | run_swarm_vein_sim.py:202-211 | the returned item is the one at the weighted index, so a member of `items` |
| SwarmVein.ChildWeights | run_swarm_vein_sim.py:229-232 | one weight per child |
| SwarmVein.NextSegment | run_swarm_vein_sim.py:226-234 | the next segment is valid: segment 0 from a leaf, else one of the current segment's children |
| SwarmVein.NextSegmentIgnoresFallback | run_swarm_vein_sim.py:226-234 | over children in range the choice never takes the uniform fallback |
| SwarmVein.ChooseNextSegment | run_swarm_vein_sim.py:226-234 | the loop returns the segment the choice function names |
| SwarmVeinTick.SwarmAgent.constructor | run_swarm_vein_sim.py:117-121 | a new agent has the given role, segment, position and direction |
| SwarmVeinTick.AgentViewsOf | run_swarm_vein_sim.py:116-121 | the value view of an agent list has one entry per agent, each that agent's fields |
| SwarmVeinTick.Roles | run_swarm_vein_sim.py:195-199 | the roles of the agents, in order |
| SwarmVeinTick.TallyCoversAll | run_swarm_vein_sim.py:195-199 | the four role counts add up to the number of agents |
| SwarmVeinTick.RoleCounts | run_swarm_vein_sim.py:195-199 | the loop's counters are the number of agents of each role |
| SwarmVeinTick.QuotasFit | run_swarm_vein_sim.py:176-181 | `int(n·0.25) + int(n·0.45) + int(n·0.15) <= n`, so the Monitor remainder is non-negative |
| SwarmVeinTick.RoleListMultiset | run_swarm_vein_sim.py:183-186 | the unshuffled role list holds exactly the quota of each role |
| SwarmVeinTick.Recruits | run_swarm_vein_sim.py:188-191 | one agent per shuffled role |
| SwarmVeinTick.RecruitsFacts | run_swarm_vein_sim.py:175-192 | create_agents returns exactly `n` agents in the 25/45/15% quotas with Monitors the rest, all on segment 0 with `t` in [0,1) and direction ±1, only Monitors facing -1 |
| SwarmVeinTick.CreateAgents | run_swarm_vein_sim.py:175-192 | fresh, distinct agents whose values are one agent per shuffled role with the drawn direction and position |
| SwarmVeinTick.Pick | run_swarm_vein_sim.py:246-260 | `[agent for agent in agents if role == from]` in shuffled order, cut to `k`: at most `k` indices, each a valid agent of role `from` |
| SwarmVeinTick.PickNoDuplicates | run_swarm_vein_sim.py:246-260 | the picked agents are distinct |
| SwarmVeinTick.Relabel | run_swarm_vein_sim.py:248-261 | relabelling keeps the population |
| SwarmVeinTick.RelabelSnoc | run_swarm_vein_sim.py:248-261 | relabelling one more agent relabels that agent on top of the others |
| SwarmVeinTick.RelabelContent | run_swarm_vein_sim.py:248-261 | exactly the chosen agents change, and only their role, which becomes `to` |
| SwarmVeinTick.RelabelCounts | run_swarm_vein_sim.py:248-261 | relabelling distinct agents of role `from` moves exactly that many from `from` to `to` and leaves the other counts alone |
| SwarmVeinTick.SwitchStage | run_swarm_vein_sim.py:245-261 | a stage keeps the population |
| SwarmVeinTick.StageCounts | run_swarm_vein_sim.py:245-261 | a stage moves between 0 and `k` agents from `from` to `to`; the other roles keep their counts |
| SwarmVeinTick.StageKeeps | run_swarm_vein_sim.py:245-261 | a stage that does not fire changes nothing; otherwise each agent is unchanged or was a `from` and is now a `to` |
| SwarmVeinTick.Beacons | run_swarm_vein_sim.py:241 | one beacon per segment |
| SwarmVeinTick.StrainNorms | run_swarm_vein_sim.py:242 | one strain reading per segment |
| SwarmVeinTick.Mappings | run_swarm_vein_sim.py:243 | one mapping per segment |
| SwarmVeinTick.RoleSwitch | run_swarm_vein_sim.py:237-261 | role switching keeps the population |
| SwarmVeinTick.RoleSwitchKeeps | run_swarm_vein_sim.py:237-261 | switching fires only when `role_switch and frame_idx % fps == 0`; otherwise nothing changes, and it changes only roles, each along Scout→Worker/Support, Worker→Support or Monitor→Scout |
| SwarmVeinTick.ScoutStage | run_swarm_vein_sim.py:245-249 | the first stage moves at most two Scouts to Worker, nothing else |
| SwarmVeinTick.WorkerStage | run_swarm_vein_sim.py:251-255 | the second stage moves at most one Worker to Support, nothing else |
| SwarmVeinTick.MonitorStage | run_swarm_vein_sim.py:257-261 | the third stage moves at most one Monitor to Scout, nothing else |
| SwarmVeinTick.RoleSwitchTally | run_swarm_vein_sim.py:237-261 | per switching frame the role counts move by at most those bounds and their total is unchanged |
| SwarmVeinTick.SameShapeKeeps | run_swarm_vein_sim.py:124-138 | the layout and tree properties depend only on ids, links and lengths |
| SwarmVeinTick.SameShapeKeepsTree | run_swarm_vein_sim.py:124-138 | a list with the same shape as a tree is a tree |
| SwarmVeinTick.DecayAll | run_swarm_vein_sim.py:441-448 | decay keeps the number of segments |
| SwarmVeinTick.DecayedFacts | run_swarm_vein_sim.py:441-448 | decay keeps fields in range and leaves blockage, mapping and layout as they were |
| SwarmVeinTick.Spiked | run_swarm_vein_sim.py:450-455 | the spike keeps the number of segments |
| SwarmVeinTick.FieldsAll | run_swarm_vein_sim.py:457-458 | compute_fields over all segments keeps the number of segments |
| SwarmVeinTick.Prepared | run_swarm_vein_sim.py:441-458 | preparing keeps the number of segments |
| SwarmVeinTick.DecayAllFacts | run_swarm_vein_sim.py:441-448 | decay over all segments keeps them in range and no worse (blockage not raised, mapping not lowered, same shape) |
| SwarmVeinTick.SpikedFacts | run_swarm_vein_sim.py:450-455 | the spike keeps the segments in range and no worse |
| SwarmVeinTick.FieldsAllFacts | run_swarm_vein_sim.py:457-458 | compute_fields keeps the segments in range and no worse and gives each segment readings |
| SwarmVeinTick.PreparedFacts | run_swarm_vein_sim.py:441-458 | the top of the frame keeps shape, ranges, blockage and mapping and leaves every segment with readings |
| SwarmVeinTick.SensedFacts | run_swarm_vein_sim.py:464-482 | an agent's sensing keeps the segment in range, never changes its blockage or layout and never lowers its mapping |
| SwarmVeinTick.Speed | run_swarm_vein_sim.py:484-492 | an agent's speed is at least 0.05 |
| SwarmVeinTick.PositiveStep | run_swarm_vein_sim.py:492-493 | the step `speed / length` is positive |
| SwarmVeinTick.MovedFacts | run_swarm_vein_sim.py:494-516 | movement keeps the agent on a valid segment with `t` in [0,1] and direction ±1, and never changes its role |
| SwarmVeinTick.SenseStep | run_swarm_vein_sim.py:464-482 | the sensing half of a turn keeps the walk invariant and the agents, and leaves the segments no worse |
| SwarmVeinTick.MoveStep | run_swarm_vein_sim.py:484-516 | the moving half of a turn keeps the walk invariant, the segments, the Worker counts and the roles |
| SwarmVeinTick.AgentStep | run_swarm_vein_sim.py:464-516 | one agent's turn keeps the walk invariant, the population and the roles, and leaves the segments no worse |
| SwarmVeinTick.AgentsUpTo | run_swarm_vein_sim.py:464-516 | after any number of turns the walk invariant and population hold, no blockage has risen, no mapping has fallen and no role has changed |
| SwarmVeinTick.ReduceAll | run_swarm_vein_sim.py:518-523 | reduction keeps the number of segments |
| SwarmVeinTick.ReducedFacts | run_swarm_vein_sim.py:518-523 | reduction keeps a segment in range with its layout and mapping and never raises its blockage |
| SwarmVeinTick.ReduceAllFacts | run_swarm_vein_sim.py:518-523 | reduction over all segments keeps the layout and ranges and makes nothing worse |
| SwarmVeinTick.Zeros | run_swarm_vein_sim.py:462 | `worker_activity` starts as one 0 per segment |
| SwarmVeinTick.StartWalk | run_swarm_vein_sim.py:441-462 | the agent loop starts with all the agents |
| SwarmVeinTick.StartWalkOk | run_swarm_vein_sim.py:441-462 | the top of the frame keeps the walk invariant and leaves the segments no worse |
| SwarmVeinTick.TickWalk | run_swarm_vein_sim.py:441-516 | after the agent loop the walk invariant and population hold |
| SwarmVeinTick.TickFacts | run_swarm_vein_sim.py:436-523 | a tick keeps the state invariant (tree, fields in [0,1], agents on valid segments with `t` in [0,1]) and the population, raises no blockage and lowers no mapping |
| SwarmVeinTick.ResetFramesFacts | run_swarm_vein_sim.py:416-421 | frame 0 is a reset frame exactly when the run is non-empty, every reset frame lies in the run, and a default run of 12 s or more also resets at `10·fps` |
| SwarmVeinTick.RestoredAll | run_swarm_vein_sim.py:164-172 | reset keeps the number of segments |
| SwarmVeinTick.BeginFacts | run_swarm_vein_sim.py:431-436 | the start of a frame keeps the invariant and the shape, and on a reset frame other than 0 the swarm has `swarm_size` agents again; otherwise nothing changes |
| SwarmVeinTick.InitialStateOk | run_swarm_vein_sim.py:410-413 | the set-up establishes the state invariant with `swarm_size` agents |
| SwarmVeinTick.DecaySegment | run_swarm_vein_sim.py:442-448 | one segment decays |
| SwarmVeinTick.SenseSegment | run_swarm_vein_sim.py:465-482 | the agent's segment takes the agent's sensing and no agent changes |
| SwarmVeinTick.MoveAgent | run_swarm_vein_sim.py:494-516 | the agent takes the move function's result and no segment changes |
| SwarmVeinTick.ReduceSegment | run_swarm_vein_sim.py:519-523 | one segment takes its reduction and spike relief |
| SwarmVeinTick.SetRole | run_swarm_vein_sim.py:249 | one agent takes role `to`; nothing else changes |
| SwarmVeinTick.SetUp | run_swarm_vein_sim.py:410-413 | fresh, distinct segments and agents in the set-up state |
| SwarmVeinTick.DecayPhase | run_swarm_vein_sim.py:441-448 | the decay loop computes the decay function and changes no agent |
| SwarmVeinTick.SpikePhase | run_swarm_vein_sim.py:450-455 | the spike statements compute the spike function and change no agent |
| SwarmVeinTick.FieldsPhase | run_swarm_vein_sim.py:457-458 | the compute_fields loop computes the fields function and changes no agent |
| SwarmVeinTick.PreparePhase | run_swarm_vein_sim.py:441-458 | decay, spike and compute_fields compute the prepared segments |
| SwarmVeinTick.SwitchRoles | run_swarm_vein_sim.py:245-261 | one relabelling loop computes the stage function and changes no segment |
| SwarmVeinTick.UpdateRoleSwitching | run_swarm_vein_sim.py:237-261 | update_role_switching leaves the agents as the role-switch function says and changes no segment |
| SwarmVeinTick.SenseTurn | run_swarm_vein_sim.py:465-482 | the sensing statements compute the sensing half of the turn |
| SwarmVeinTick.MoveTurn | run_swarm_vein_sim.py:484-516 | the moving statements compute the moving half of the turn |
| SwarmVeinTick.AgentTurn | run_swarm_vein_sim.py:464-516 | one loop iteration advances the walk by agent `k`'s turn |
| SwarmVeinTick.AgentPhase | run_swarm_vein_sim.py:462-516 | the agent loop computes the walk after all agents and the per-segment Worker activity |
| SwarmVeinTick.ReducePhase | run_swarm_vein_sim.py:518-523 | the reduction loop computes the reduction function and changes no agent |
| SwarmVeinTick.BeginPhase | run_swarm_vein_sim.py:431-436 | on a reset frame the segments are reset and a fresh swarm replaces the old one, as the begin function says |
| SwarmVeinTick.StartTick | run_swarm_vein_sim.py:438-462 | the first half of a tick leaves the objects at the start of the walk |
| SwarmVeinTick.FinishTick | run_swarm_vein_sim.py:462-523 | the second half of a tick leaves the objects as the tick function says |
| SwarmVeinTick.FrameFacts | run_swarm_vein_sim.py:430-523 | a frame keeps the state invariant and the swarm size |
| SwarmVeinTick.Run | run_swarm_vein_sim.py:430-523 | the frame loop keeps the state invariant and `swarm_size` agents |
| SwarmVeinTick.Simulation | run_swarm_vein_sim.py:384-523 | the set-up followed by `duration_sec·fps` frames ends in the invariant with `swarm_size` agents; `fps` 0 is accepted |
| SwarmVeinTick.NoFramesSimulation | run_swarm_vein_sim.py:408-430 | with `fps` or `duration_sec` 0, `num_frames` is 0, the loop never runs and the result is the set-up state |
| SwarmVeinTick.RunFrame | run_swarm_vein_sim.py:430-523 | one pass of the loop leaves the objects as the frame function says |
| SwarmVeinTick.CreateSwarmSimulation | run_swarm_vein_sim.py:384-523 | the objects end in the simulation function's final state, for every `fps` including 0 |
| MetroEnhanced.ColorReflectsLoad | metro_train_enhanced.py:65-84 | light coral exactly for a coach waiting at the clot; otherwise a fuller coach is never lighter, dark blue from 90% and white at 1% or less |
| MetroEnhanced.DissolveBounds | metro_train_enhanced.py:96-113 | a dose keeps size, viscosity, reflectance and resistance non-negative and never raises them; above the floor size falls by `ml·100/6.5`, viscosity and resistance by `10·ml`, reflectance by `7·ml` |
| MetroEnhanced.DissolveCompose | metro_train_enhanced.py:96-113 | two doses in a row act as one dose of their sum |
| MetroEnhanced.DissolvedExactlyAfterFullDose | metro_train_enhanced.py:90-117 | a fresh clot is dissolved (`size_percent <= 0`) exactly when at least 6.5 ml have reached it; a zero dose changes nothing |
| MetroEnhanced.ClotModel.constructor | metro_train_enhanced.py:90-94 | a new clot reads 100, 100, 95, 100 |
| MetroEnhanced.ClotModel.ApplyMedicine | metro_train_enhanced.py:96-113 | the clot takes the dose as the dissolve function says |
| MetroEnhanced.DispenseConserves | metro_train_enhanced.py:59-63 | the dose is `min(ml, medicine_current)`, the load stays non-negative, load plus delivered amount is unchanged and nothing else changes |
| MetroEnhanced.GlideApproaches | metro_train_enhanced.py:43-57 | on the axis, the glide reaches the target exactly when it is within `speed`, and otherwise gets exactly `speed` closer; only the position changes |
| MetroEnhanced.NanobotCoach.constructor | metro_train_enhanced.py:26-38 | a new coach is full, has delivered nothing, is in formation and not at the clot |
| MetroEnhanced.NanobotCoach.UpdatePosition | metro_train_enhanced.py:40-41 | `x` moves by `vx`; nothing else changes |
| MetroEnhanced.NanobotCoach.MoveToPosition | metro_train_enhanced.py:43-57 | the coach and the reached flag are the glide function's result |
| MetroEnhanced.NanobotCoach.DispenseMedicine | metro_train_enhanced.py:59-63 | the returned dose and the new coach are those of the dispense functions |
| MetroEnhanced.FormationOrder | metro_train_enhanced.py:154-155 | get_formation is exactly the in-formation coaches, each once, sorted by `x`, coaches with equal `x` in list order |
| MetroEnhanced.InitialValid | metro_train_enhanced.py:121-152 | the swarm starts in the invariant, with C5 in front |
| MetroEnhanced.Advance | metro_train_enhanced.py:173-196 | every in-formation coach moves by `vx` |
| MetroEnhanced.AdvanceKeepsShape | metro_train_enhanced.py:173-196 | moving the train keeps the gaps between its coaches, leaves waiting coaches alone, and keeps the same leader and back coach |
| MetroEnhanced.MoveFormationTransitions | metro_train_enhanced.py:164-198 | move_formation goes only ENTERING→APPROACHING when the leader is at `catheter_x+60` or beyond, and APPROACHING→DELIVERING when within 5 of the target; otherwise the train advances by some `vx` in (0,4] without passing the clot; other states are untouched |
| MetroEnhanced.DeliverFacts | metro_train_enhanced.py:200-248 | delivery is a no-op outside DELIVERING or once the clot is gone; a dose of at most 0.05 goes to total, effect and clot; an empty leader detaches to the target, the cycle count rises by 1 and the state returns to APPROACHING |
| MetroEnhanced.DeliverDispenseCase | metro_train_enhanced.py:212-237 | a leader within 15 with medicine books one dose |
| MetroEnhanced.DeliverDetachCase | metro_train_enhanced.py:239-248 | an empty leader within 15 leaves the train and waits at the target |
| MetroEnhanced.ReattachFacts | metro_train_enhanced.py:265-283 | a waiting coach gets its target once, glides 2.0 closer, and on arrival rejoins the train (not at the clot, not reattaching, at the target); load is untouched |
| MetroEnhanced.ReattachAll | metro_train_enhanced.py:265-283 | every coach takes its reattach step |
| MetroEnhanced.AttachActsCase | metro_train_enhanced.py:258-283 | within 100 of the clot the waiting coaches glide toward 35 left of the back coach |
| MetroEnhanced.Retreat | metro_train_enhanced.py:293-297 | every coach takes its retreat step |
| MetroEnhanced.ExitFacts | metro_train_enhanced.py:289-301 | exit acts only in EXITING, moves only in-formation coaches right of `catheter_x+25` by -4, and reaches COMPLETE exactly when the train is back and nobody waits |
| MetroEnhanced.SumDeliveredSame | metro_train_enhanced.py:35 | coaches with the same delivered amounts have the same total delivered |
| MetroEnhanced.InvMove | metro_train_enhanced.py:164-198 | move_formation keeps the invariant |
| MetroEnhanced.DeliveredStep | metro_train_enhanced.py:215-216 | a dispense keeps the running total equal to the sum of the coaches' deliveries |
| MetroEnhanced.BookedKeeps | metro_train_enhanced.py:216-237 | booking a dose keeps the logged total equal to the running total, the clot equal to a fresh clot after that total, the effect non-negative, and changes nothing else |
| MetroEnhanced.InvDispense | metro_train_enhanced.py:212-237 | a dispensing frame keeps the invariant |
| MetroEnhanced.InvDeliver | metro_train_enhanced.py:200-248 | deliver_medicine_to_clot keeps the invariant |
| MetroEnhanced.ReattachKeepsOk | metro_train_enhanced.py:265-283 | reattaching keeps a coach well-formed (exactly one of in-formation and at-clot) and its delivered amount |
| MetroEnhanced.InvReattachAll | metro_train_enhanced.py:265-283 | reattaching the waiting coaches keeps the invariant |
| MetroEnhanced.InvAttach | metro_train_enhanced.py:250-283 | attach_waiting_coaches keeps the invariant |
| MetroEnhanced.InvExit | metro_train_enhanced.py:289-301 | exit_treatment keeps the invariant |
| MetroEnhanced.StepsKeepClock | metro_train_enhanced.py:164-301 | the treatment steps never touch the frame counter or the clock |
| MetroEnhanced.UpdateFacts | metro_train_enhanced.py:303-317 | update keeps the invariant (conservation, log total, clot in step with total, one flag per coach), advances `frame` by 1, keeps the effect non-negative; once dissolved the state is EXITING or COMPLETE and COMPLETE means all back and none waiting; COMPLETE passes through EXITING |
| MetroEnhanced.MakeCoaches | metro_train_enhanced.py:133-139 | five fresh, distinct coaches C1..C5, full, in formation 35 apart from the catheter |
| MetroEnhanced.MetroTrainSwarm.Views | metro_train_enhanced.py:120-152 | the value view of the coach list has one entry per coach |
| MetroEnhanced.MetroTrainSwarm.constructor | metro_train_enhanced.py:121-152 | the new swarm is valid and in its initial state |
| MetroEnhanced.MetroTrainSwarm.GetFormation | metro_train_enhanced.py:154-155 | exactly the in-formation coaches, each once, sorted by `x` |
| MetroEnhanced.MetroTrainSwarm.GetWaitingCoaches | metro_train_enhanced.py:157-158 | exactly the coaches waiting at the clot |
| MetroEnhanced.MetroTrainSwarm.GetLeader | metro_train_enhanced.py:160-162 | None exactly without a train; otherwise an in-formation coach with the largest `x` |
| MetroEnhanced.MetroTrainSwarm.AdvanceFormation | metro_train_enhanced.py:175-196 | every in-formation coach moves by `vx` |
| MetroEnhanced.MetroTrainSwarm.MoveFormation | metro_train_enhanced.py:164-198 | keeps the invariant and computes the move step |
| MetroEnhanced.MetroTrainSwarm.MoveFormationStep | metro_train_enhanced.py:166-198 | the branches of move_formation compute the move step |
| MetroEnhanced.MetroTrainSwarm.SetState | metro_train_enhanced.py:178 | only the state changes |
| MetroEnhanced.MetroTrainSwarm.DispenseFromLeader | metro_train_enhanced.py:213-237 | the leader's dose is booked to the total, effect, clot and log |
| MetroEnhanced.MetroTrainSwarm.DispenseCoach | metro_train_enhanced.py:215 | coach `l` hands out its dose; no other coach changes |
| MetroEnhanced.MetroTrainSwarm.RecordDose | metro_train_enhanced.py:216-237 | the swarm books the dose |
| MetroEnhanced.MetroTrainSwarm.ApplyDose | metro_train_enhanced.py:216-220 | the dose goes to total and effect and dissolves the clot |
| MetroEnhanced.MetroTrainSwarm.LogDose | metro_train_enhanced.py:223-237 | the dose is credited in the log |
| MetroEnhanced.MetroTrainSwarm.DetachLeader | metro_train_enhanced.py:239-248 | the empty leader leaves the train and waits at the target; the cycle count rises and the state is APPROACHING |
| MetroEnhanced.MetroTrainSwarm.DeliverMedicineToClot | metro_train_enhanced.py:200-248 | keeps the invariant and computes the delivery step |
| MetroEnhanced.MetroTrainSwarm.ReattachWaiting | metro_train_enhanced.py:265-283 | the loop computes every coach's reattach step |
| MetroEnhanced.MetroTrainSwarm.ReattachCoach | metro_train_enhanced.py:266-283 | one waiting coach takes its reattach step |
| MetroEnhanced.MetroTrainSwarm.AttachWaitingCoaches | metro_train_enhanced.py:250-283 | keeps the invariant and computes the attach step |
| MetroEnhanced.MetroTrainSwarm.CheckClotDissolved | metro_train_enhanced.py:285-287 | keeps the invariant and computes the check step |
| MetroEnhanced.MetroTrainSwarm.RetreatFormation | metro_train_enhanced.py:293-297 | in-formation coaches right of `catheter_x+25` move back by 4 |
| MetroEnhanced.MetroTrainSwarm.ExitTreatment | metro_train_enhanced.py:289-301 | keeps the invariant and computes the exit step |
| MetroEnhanced.MetroTrainSwarm.StartFrame | metro_train_enhanced.py:304-307 | keeps the invariant and computes the start of update |
| MetroEnhanced.MetroTrainSwarm.TreatmentPhase | metro_train_enhanced.py:309-312 | keeps the invariant and computes the treatment steps |
| MetroEnhanced.MetroTrainSwarm.FinishFrame | metro_train_enhanced.py:314-317 | keeps the invariant and computes the end of update |
| MetroEnhanced.MetroTrainSwarm.Update | metro_train_enhanced.py:303-317 | keeps the invariant and computes the update step |
| MetroEnhanced.MetroTrainSwarm.IsComplete | metro_train_enhanced.py:319-320 | when complete, the whole train is back and nobody waits |
| MetroFinalCorrect.ColorDarkensAsItEmpties | metro_train_final_correct.py:63-74 | light coral exactly for a waiting coach; otherwise an emptier coach is never lighter, light blue above 75% and dark blue at 25% or less |
| MetroFinalCorrect.RemainingFacts | metro_train_final_correct.py:183-184 | the clot stays in [0, clot], falls by `dose·dissolution_per_ml` above the floor, and two doses act as one of their sum |
| MetroFinalCorrect.RemainingMonotone | metro_train_final_correct.py:183-184 | a larger total dose leaves no more clot |
| MetroFinalCorrect.DissolvedExactlyAtRequired | metro_train_final_correct.py:87 | with `dissolution_per_ml = 100 / clot_required` a fresh clot is gone exactly when `clot_required` ml have reached it |
| MetroFinalCorrect.DispenseConserves | metro_train_final_correct.py:57-61 | the dose is `min(ml, medicine_current)`, the load stays non-negative, load plus delivered amount is unchanged and nothing else changes |
| MetroFinalCorrect.NanobotCoach.constructor | metro_train_final_correct.py:43-52 | a new coach is full, has delivered nothing, is in formation and not at the clot |
| MetroFinalCorrect.NanobotCoach.UpdatePosition | metro_train_final_correct.py:54-55 | `x` moves by `vx`; nothing else changes |
| MetroFinalCorrect.NanobotCoach.DispenseMedicine | metro_train_final_correct.py:57-61 | the returned dose and the new coach are those of the dispense functions |
| MetroFinalCorrect.FormationOrder | metro_train_final_correct.py:114-116 | get_formation is exactly the in-formation coaches, each once, sorted by `x`, coaches with equal `x` in list order |
| MetroFinalCorrect.InitialValid | metro_train_final_correct.py:78-112 | the swarm starts in the invariant, with C5 in front |
| MetroFinalCorrect.Advance | metro_train_final_correct.py:136-159 | every in-formation coach moves by `vx` |
| MetroFinalCorrect.AdvanceKeepsShape | metro_train_final_correct.py:136-159 | moving the train keeps the gaps between its coaches, leaves waiting coaches alone, and keeps the same leader and back coach |
| MetroFinalCorrect.MoveFormationTransitions | metro_train_final_correct.py:127-161 | move_formation goes only ENTERING→APPROACHING at `catheter_x+60` and APPROACHING→DELIVERING within 5 of the target; otherwise the train advances by some `vx` in (0,4] without passing the clot |
| MetroFinalCorrect.DeliverFacts | metro_train_final_correct.py:163-207 | delivery is a no-op outside DELIVERING or when `clot_remaining <= 0`; a dose of at most 0.05 goes to total, effect and clot; an empty leader leaves the train where it stands, the cycle count rises by 1 and the state returns to APPROACHING |
| MetroFinalCorrect.DeliverDispenseCase | metro_train_final_correct.py:175-198 | a leader within 15 with medicine books one dose |
| MetroFinalCorrect.DeliverDetachCase | metro_train_final_correct.py:200-207 | an empty leader within 15 gets `in_formation` false and `at_clot` true without moving |
| MetroFinalCorrect.RejoinAll | metro_train_final_correct.py:222-232 | every coach takes its rejoin step |
| MetroFinalCorrect.RejoinFacts | metro_train_final_correct.py:222-232 | after rejoining nobody waits; the train's coaches stay put and every waiting coach is placed 35 left of the snapshot's back coach, so behind every coach of the train |
| MetroFinalCorrect.RejoinKeepsLeader | metro_train_final_correct.py:234-235 | the rejoined coaches do not take over the lead |
| MetroFinalCorrect.AttachFacts | metro_train_final_correct.py:209-235 | attach acts only with a train and waiting coaches and the leader within 30 of the clot, then rejoins every waiting coach behind the back; the leader stays the leader |
| MetroFinalCorrect.CheckFacts | metro_train_final_correct.py:237-241 | check_clot_dissolved sets `treatment_complete` and EXITING exactly when `clot_remaining <= 0`, and changes nothing otherwise |
| MetroFinalCorrect.Retreat | metro_train_final_correct.py:248-252 | every coach takes its retreat step |
| MetroFinalCorrect.ExitFacts | metro_train_final_correct.py:243-258 | exit acts only in EXITING, moves only in-formation coaches right of `catheter_x+25` by -4, and reaches COMPLETE exactly when the train is back and nobody waits |
| MetroFinalCorrect.SumDeliveredSame | metro_train_final_correct.py:52 | coaches with the same delivered amounts have the same total delivered |
| MetroFinalCorrect.InvMove | metro_train_final_correct.py:127-161 | move_formation keeps the invariant |
| MetroFinalCorrect.DeliveredStep | metro_train_final_correct.py:178-179 | a dispense keeps the running total equal to the sum of the coaches' deliveries |
| MetroFinalCorrect.BookedKeeps | metro_train_final_correct.py:179-198 | booking a dose keeps the logged total equal to the running total, the clot equal to a fresh clot after that total and never higher, the effect non-negative, and nothing else changes |
| MetroFinalCorrect.BookedShape | metro_train_final_correct.py:179-198 | booking a dose sets total, effect, clot and log as the statements do |
| MetroFinalCorrect.ClotStep | metro_train_final_correct.py:183-184 | a dose dissolves the clot as if it had been part of the total from the start, and never raises it |
| MetroFinalCorrect.InvDispense | metro_train_final_correct.py:175-198 | a dispensing frame keeps the invariant |
| MetroFinalCorrect.InvDeliver | metro_train_final_correct.py:163-207 | deliver_medicine_to_clot keeps the invariant |
| MetroFinalCorrect.InvAttach | metro_train_final_correct.py:209-235 | attach_waiting_coaches keeps the invariant |
| MetroFinalCorrect.InvExit | metro_train_final_correct.py:243-258 | exit_treatment keeps the invariant |
| MetroFinalCorrect.StepsKeepClock | metro_train_final_correct.py:127-258 | the treatment steps never touch the frame counter, the clock or `treatment_complete` |
| MetroFinalCorrect.TotalBounded | metro_train_final_correct.py:179 | the total applied stays in [0, five coaches' capacity] |
| MetroFinalCorrect.TreatFacts | metro_train_final_correct.py:269-272 | the treatment phase keeps the invariant, the clock and the dissolution flag, never lowers the total, and does nothing outside treatment |
| MetroFinalCorrect.PrepareFacts | metro_train_final_correct.py:262-266 | the start of a frame keeps the invariant and sets the clock; with the clot gone the swarm is EXITING with the treatment complete |
| MetroFinalCorrect.UpdateFacts | metro_train_final_correct.py:260-280 | update keeps the invariant (conservation, log total, clot in [0,100] in step with the total, exactly one flag per coach), advances `frame` by 1, keeps the effect non-negative, never lowers the total nor raises the clot; once dissolved no more is applied and the state is EXITING or COMPLETE |
| MetroFinalCorrect.MakeCoaches | metro_train_final_correct.py:95-101 | five fresh, distinct coaches C1..C5, full, in formation 35 apart from the catheter |
| MetroFinalCorrect.MetroTrainSwarm.Views | metro_train_final_correct.py:77-112 | the value view of the coach list has one entry per coach |
| MetroFinalCorrect.MetroTrainSwarm.constructor | metro_train_final_correct.py:78-112 | the new swarm is valid and in its initial state |
| MetroFinalCorrect.MetroTrainSwarm.GetFormation | metro_train_final_correct.py:114-116 | exactly the in-formation coaches, each once, sorted by `x` |
| MetroFinalCorrect.MetroTrainSwarm.GetWaitingCoaches | metro_train_final_correct.py:118-120 | exactly the coaches waiting at the clot |
| MetroFinalCorrect.MetroTrainSwarm.GetLeader | metro_train_final_correct.py:122-125 | None exactly without a train; otherwise an in-formation coach with the largest `x` |
| MetroFinalCorrect.MetroTrainSwarm.AdvanceFormation | metro_train_final_correct.py:136-159 | every in-formation coach moves by `vx` |
| MetroFinalCorrect.MetroTrainSwarm.MoveFormation | metro_train_final_correct.py:127-161 | keeps the invariant and computes the move step |
| MetroFinalCorrect.MetroTrainSwarm.MoveFormationStep | metro_train_final_correct.py:129-161 | the branches of move_formation compute the move step |
| MetroFinalCorrect.MetroTrainSwarm.SetState | metro_train_final_correct.py:141 | only the state changes |
| MetroFinalCorrect.MetroTrainSwarm.DispenseFromLeader | metro_train_final_correct.py:176-198 | the leader's dose is booked to the total, effect, clot and log |
| MetroFinalCorrect.MetroTrainSwarm.DispenseCoach | metro_train_final_correct.py:178 | coach `l` hands out its dose; no other coach changes |
| MetroFinalCorrect.MetroTrainSwarm.RecordDose | metro_train_final_correct.py:179-198 | the swarm books the dose |
| MetroFinalCorrect.MetroTrainSwarm.ApplyDose | metro_train_final_correct.py:179-184 | the dose goes to total and effect and dissolves the clot |
| MetroFinalCorrect.MetroTrainSwarm.LogDose | metro_train_final_correct.py:187-198 | the dose is credited in the log |
| MetroFinalCorrect.MetroTrainSwarm.DetachLeader | metro_train_final_correct.py:200-207 | the empty leader leaves the train where it stands; the cycle count rises and the state is APPROACHING |
| MetroFinalCorrect.MetroTrainSwarm.DeliverMedicineToClot | metro_train_final_correct.py:163-207 | keeps the invariant and computes the delivery step |
| MetroFinalCorrect.MetroTrainSwarm.RejoinWaiting | metro_train_final_correct.py:222-232 | the loop computes every coach's rejoin step |
| MetroFinalCorrect.MetroTrainSwarm.AttachWaitingCoaches | metro_train_final_correct.py:209-235 | keeps the invariant and computes the attach step |
| MetroFinalCorrect.MetroTrainSwarm.CheckClotDissolved | metro_train_final_correct.py:237-241 | keeps the invariant and computes the check step |
| MetroFinalCorrect.MetroTrainSwarm.RetreatFormation | metro_train_final_correct.py:248-252 | in-formation coaches right of `catheter_x+25` move back by 4 |
| MetroFinalCorrect.MetroTrainSwarm.ExitTreatment | metro_train_final_correct.py:243-258 | keeps the invariant and computes the exit step |
| MetroFinalCorrect.MetroTrainSwarm.StartFrame | metro_train_final_correct.py:262-266 | keeps the invariant and computes the start of update |
| MetroFinalCorrect.MetroTrainSwarm.TreatmentPhase | metro_train_final_correct.py:269-272 | keeps the invariant and computes the treatment steps |
| MetroFinalCorrect.MetroTrainSwarm.FinishFrame | metro_train_final_correct.py:275-280 | keeps the invariant and computes the end of update |
| MetroFinalCorrect.MetroTrainSwarm.Update | metro_train_final_correct.py:260-280 | keeps the invariant and computes the update step |
| MetroFinalCorrect.MetroTrainSwarm.IsComplete | metro_train_final_correct.py:282-283 | when complete, the train is back, nobody waits, the treatment is marked complete and the clot is gone |
| MetroCorrectOrder.ColorDarkensAsItEmpties | metro_train_correct_order.py:57-68 | orange exactly for a returning coach; otherwise an emptier coach is never lighter, light blue above 75% and dark blue at 25% or less |
| MetroCorrectOrder.RemainingFacts | metro_train_correct_order.py:171-172 | a non-negative dose keeps the clot in [0, clot], and two doses act as one of their sum |
| MetroCorrectOrder.RemainingMonotone | metro_train_correct_order.py:171-172 | a larger total dose leaves no more clot |
| MetroCorrectOrder.DispenseConserves | metro_train_correct_order.py:51-55 | the dose is `min(ml, medicine_current)`, the load stays non-negative and load plus delivered amount is unchanged |
| MetroCorrectOrder.NanobotCoach.constructor | metro_train_correct_order.py:33-46 | a new coach is full, has delivered nothing, is active and not returning |
| MetroCorrectOrder.NanobotCoach.UpdatePosition | metro_train_correct_order.py:48-49 | `x` moves by `vx`; nothing else changes |
| MetroCorrectOrder.NanobotCoach.DispenseMedicine | metro_train_correct_order.py:51-55 | the returned dose and the new coach are those of the dispense functions |
| MetroCorrectOrder.ActiveTrain | metro_train_correct_order.py:107-109 | get_active_train is exactly the active, non-returning coaches, each once, sorted by `x`, coaches with equal `x` in list order |
| MetroCorrectOrder.ActiveTrainNonEmpty | metro_train_correct_order.py:114-117 | the active train is non-empty exactly when get_leader returns a coach |
| MetroCorrectOrder.InitialValid | metro_train_correct_order.py:72-105 | the swarm starts in the invariant with C5 in front |
| MetroCorrectOrder.Advance | metro_train_correct_order.py:150-151 | every coach of the active train moves by `vx` |
| MetroCorrectOrder.AdvanceKeepsShape | metro_train_correct_order.py:150-151 | moving the train keeps its gaps, leaves returning coaches alone and keeps the same leader and back coach |
| MetroCorrectOrder.MoveTrainTransitions | metro_train_correct_order.py:119-153 | move_train goes only ENTERING→APPROACHING at `catheter_x+60` and APPROACHING→DELIVERING within 5 of the clot; otherwise the train advances by some `vx` in (0,4] |
| MetroCorrectOrder.DeliverFacts | metro_train_correct_order.py:155-195 | delivery is a no-op outside DELIVERING; a leader at the clot with medicine adds at most 0.05 to total and effect and reaches EVALUATING exactly at the threshold; a depleted leader turns back, the cycle count rises by 1 and the state is APPROACHING |
| MetroCorrectOrder.DeliverDispenseCase | metro_train_correct_order.py:165-189 | a leader within 15 with medicine books one dose |
| MetroCorrectOrder.DeliverTurnBackCase | metro_train_correct_order.py:190-195 | a depleted leader within 15 becomes inactive and returning |
| MetroCorrectOrder.Reactivated | metro_train_correct_order.py:206-209 | the rejoining coach is active again at the catheter, so the active train has a back coach |
| MetroCorrectOrder.ReturnOne | metro_train_correct_order.py:201-216 | one pass of the loop keeps the coach count |
| MetroCorrectOrder.ReturnUpTo | metro_train_correct_order.py:201-216 | the loop over the first `n` coaches keeps the coach count |
| MetroCorrectOrder.ReturnAll | metro_train_correct_order.py:197-216 | move_returning_coaches keeps the coach count |
| MetroCorrectOrder.ReturnOneFacts | metro_train_correct_order.py:201-216 | only coach `k` changes and only if returning; far away it moves 3 toward the catheter; at the catheter it rejoins at least 35 left of the catheter and of every coach of the train (it counts itself when the back is looked up); its load is unchanged |
| MetroCorrectOrder.ReturnUpToKeepsOk | metro_train_correct_order.py:201-216 | the loop touches only returning coaches and keeps every coach valid |
| MetroCorrectOrder.ReturnUpToKeepsBack | metro_train_correct_order.py:201-216 | once every coach is back, the loop keeps them back |
| MetroCorrectOrder.EvaluateFacts | metro_train_correct_order.py:218-233 | evaluate_dissolution changes only the state and only from EVALUATING: EXITING with no clot or the threshold reached, APPROACHING exactly when clot is left, the threshold is not reached and a train remains |
| MetroCorrectOrder.Retreat | metro_train_correct_order.py:239-242 | every coach takes its retreat step |
| MetroCorrectOrder.ExitFacts | metro_train_correct_order.py:235-246 | exit acts only in EXITING, moves only train coaches right of `catheter_x+25` by -4, and reaches COMPLETE exactly when every coach is back |
| MetroCorrectOrder.SumDeliveredSame | metro_train_correct_order.py:46 | coaches with the same delivered amounts have the same total delivered |
| MetroCorrectOrder.InvMove | metro_train_correct_order.py:119-153 | move_train keeps the invariant |
| MetroCorrectOrder.DeliveredStep | metro_train_correct_order.py:166-167 | a dispense keeps the running total equal to the coaches' deliveries |
| MetroCorrectOrder.ClotStep | metro_train_correct_order.py:171-172 | a dose dissolves the clot as if it had been part of the total from the start |
| MetroCorrectOrder.InvDispense | metro_train_correct_order.py:165-189 | a dispensing frame keeps the invariant |
| MetroCorrectOrder.InvDeliver | metro_train_correct_order.py:155-195 | deliver_medicine_to_clot keeps the invariant |
| MetroCorrectOrder.InvReturn | metro_train_correct_order.py:197-216 | move_returning_coaches keeps the invariant |
| MetroCorrectOrder.InvEvaluate | metro_train_correct_order.py:218-233 | evaluate_dissolution keeps the invariant and never leaves the swarm in EVALUATING |
| MetroCorrectOrder.InvExit | metro_train_correct_order.py:235-246 | exit_treatment keeps the invariant |
| MetroCorrectOrder.TotalBounded | metro_train_correct_order.py:167 | the total applied stays in [0, five coaches' capacity] |
| MetroCorrectOrder.TreatFacts | metro_train_correct_order.py:252-254 | the treatment phase keeps the invariant and the clock and never lowers the total |
| MetroCorrectOrder.SettleFacts | metro_train_correct_order.py:256-258 | returning, evaluating and exiting keep the invariant, the clock and the total, never end in EVALUATING, and keep COMPLETE |
| MetroCorrectOrder.UpdateFacts | metro_train_correct_order.py:248-261 | update keeps the invariant, advances `frame` by 1, sets `time = frame/20`, keeps the effect non-negative, never lowers the total (bounded by the coaches' load) nor raises the clot, never ends in EVALUATING, and COMPLETE is final |
| MetroCorrectOrder.UpdateKeepsThreshold | metro_train_correct_order.py:218-233 | from a state with the threshold reached in every exit state, a frame keeps that, and EVALUATING always goes straight to EXITING: the fall-back branches are never taken |
| MetroCorrectOrder.MakeCoaches | metro_train_correct_order.py:89-95 | five fresh, distinct coaches C1..C5, full, 35 apart from the catheter |
| MetroCorrectOrder.MetroTrainSwarm.Views | metro_train_correct_order.py:77 | the value view of the coach list has one entry per coach |
| MetroCorrectOrder.MetroTrainSwarm.constructor | metro_train_correct_order.py:72-105 | the new swarm is valid, in its initial state, with the given medicine and clot settings |
| MetroCorrectOrder.MetroTrainSwarm.GetActiveTrain | metro_train_correct_order.py:107-109 | exactly the active, non-returning coaches, each once, sorted by `x` |
| MetroCorrectOrder.MetroTrainSwarm.GetReturningCoaches | metro_train_correct_order.py:111-112 | exactly the returning coaches |
| MetroCorrectOrder.MetroTrainSwarm.GetLeader | metro_train_correct_order.py:114-117 | None exactly without an active train; otherwise an active coach with the largest `x` |
| MetroCorrectOrder.MetroTrainSwarm.AdvanceTrain | metro_train_correct_order.py:150-151 | every coach of the active train moves by `vx` |
| MetroCorrectOrder.MetroTrainSwarm.MoveTrain | metro_train_correct_order.py:119-153 | keeps the invariant and computes the move step |
| MetroCorrectOrder.MetroTrainSwarm.MoveTrainStep | metro_train_correct_order.py:121-153 | the branches of move_train compute the move step |
| MetroCorrectOrder.MetroTrainSwarm.DispenseFromLeader | metro_train_correct_order.py:165-189 | the leader's dose is booked to total, effect, clot and log, with EVALUATING at the threshold |
| MetroCorrectOrder.MetroTrainSwarm.DispenseCoach | metro_train_correct_order.py:166 | coach `l` hands out its dose; no other coach changes |
| MetroCorrectOrder.MetroTrainSwarm.RecordDose | metro_train_correct_order.py:167-189 | the swarm books the dose |
| MetroCorrectOrder.MetroTrainSwarm.ApplyDose | metro_train_correct_order.py:167-172 | the dose goes to total and effect and dissolves the clot |
| MetroCorrectOrder.MetroTrainSwarm.LogDose | metro_train_correct_order.py:175-189 | the dose is credited in the log; EVALUATING once the total reaches the threshold |
| MetroCorrectOrder.MetroTrainSwarm.TurnBackLeader | metro_train_correct_order.py:190-195 | the depleted leader turns back; the cycle count rises and the state is APPROACHING |
| MetroCorrectOrder.MetroTrainSwarm.DeliverMedicineToClot | metro_train_correct_order.py:155-195 | keeps the invariant and computes the delivery step |
| MetroCorrectOrder.MetroTrainSwarm.Rejoin | metro_train_correct_order.py:205-216 | coach `k` is active again and placed 35 left of the back of the active train |
| MetroCorrectOrder.MetroTrainSwarm.DriveBack | metro_train_correct_order.py:202-203 | a far returning coach moves 3 toward the catheter |
| MetroCorrectOrder.MetroTrainSwarm.ReturnLoop | metro_train_correct_order.py:201-216 | the loop computes every coach's return step |
| MetroCorrectOrder.MetroTrainSwarm.ReturnCoach | metro_train_correct_order.py:201-216 | one pass of that loop on coach `k` |
| MetroCorrectOrder.MetroTrainSwarm.MoveReturningCoaches | metro_train_correct_order.py:197-216 | keeps the invariant and computes the return step |
| MetroCorrectOrder.MetroTrainSwarm.EvaluateDissolution | metro_train_correct_order.py:218-233 | keeps the invariant and computes the evaluate step |
| MetroCorrectOrder.MetroTrainSwarm.SetState | metro_train_correct_order.py:133 | only the state changes |
| MetroCorrectOrder.MetroTrainSwarm.RetreatTrain | metro_train_correct_order.py:239-242 | train coaches right of `catheter_x+25` move back by 4 |
| MetroCorrectOrder.MetroTrainSwarm.ExitTreatment | metro_train_correct_order.py:235-246 | keeps the invariant and computes the exit step |
| MetroCorrectOrder.MetroTrainSwarm.TreatmentPhase | metro_train_correct_order.py:252-254 | keeps the invariant and computes the treatment steps |
| MetroCorrectOrder.MetroTrainSwarm.FinishFrame | metro_train_correct_order.py:259-261 | the effect decays by 0.15 down to 0 and the frame advances |
| MetroCorrectOrder.MetroTrainSwarm.Update | metro_train_correct_order.py:248-261 | keeps the invariant and computes the update step |
| MetroCorrectOrder.MetroTrainSwarm.IsComplete | metro_train_correct_order.py:263-264 | when complete, every coach is back at the catheter |
| NanobotRealistic.InitialClogs | run_nanobot_realistic.py:213-217 | three clogs, each of density 1 and not cleared |
| NanobotRealistic.FirstFrom | run_nanobot_realistic.py:235-238 | the first clog from `i` on satisfying the test, or none when no clog from `i` on does |
| NanobotRealistic.GetCurrentClog | run_nanobot_realistic.py:233-238 | the first uncleared clog whose centre lies beyond `x`; none exactly when every clog is cleared or behind `x` |
| NanobotRealistic.IsInClogZone | run_nanobot_realistic.py:221-231 | the first uncleared clog within 80 in `x` with `y` inside the vein, or none exactly when there is no such clog |
| NanobotRealistic.MaxIncrease | run_nanobot_realistic.py:243-254 | the largest `scale·density·max(0, 1-d/80)` over uncleared clogs within 100, or 0: non-negative, an upper bound of every such increase and attained by one |
| NanobotRealistic.IncreaseAtMostScale | run_nanobot_realistic.py:252-253 | with a density in [0,1] an increase is at most the scale |
| NanobotRealistic.MaxIncreaseAtMostScale | run_nanobot_realistic.py:243-254 | with densities in [0,1] the largest increase is at most the scale |
| NanobotRealistic.GetViscosityAtPosition | run_nanobot_realistic.py:240-256 | at least 4.5, exactly 4.5 with no clog in range, and at least 4.5 plus each clog's increase in range |
| NanobotRealistic.GetOpticalReflectance | run_nanobot_realistic.py:258-274 | at least 0.08, exactly 0.08 with no clog in range, and at least 0.08 plus each clog's increase in range |
| NanobotRealistic.GetFlowResistance | run_nanobot_realistic.py:276-292 | at least 1.0, exactly 1.0 with no clog in range, and at least 1.0 plus each clog's increase in range |
| NanobotRealistic.VeinEnvironment.constructor | run_nanobot_realistic.py:204-219 | the vein spans 200 to 450 and holds the three initial clogs |
| NanobotRealistic.FusionFacts | run_nanobot_realistic.py:96-115 | a clog is detected exactly when two of the three signals exceed 0.3; the signal is then their mean and the distance `max(0, resistance-5)`, else their maximum with no distance; every signal is at most 1, and readings at their bases or above give signals >= 0 and a detected signal above 0.2 |
| NanobotRealistic.SensorPositions | run_nanobot_realistic.py:58-61 | one sensor position per offset |
| NanobotRealistic.Samples | run_nanobot_realistic.py:57-63 | one reading per sensor position |
| NanobotRealistic.PositionAt | run_nanobot_realistic.py:60-61 | the k-th sensor sits at the bot's position plus the k-th offset |
| NanobotRealistic.SamplesAt | run_nanobot_realistic.py:62-63 | the k-th sample is the field read at the k-th sensor position |
| NanobotRealistic.RingStep | run_nanobot_realistic.py:58-63 | one loop pass appends the reading at the next sensor |
| NanobotRealistic.FieldBounds | run_nanobot_realistic.py:240-292 | with densities in [0,1] each getter reads between its base and base plus scale, and exactly its base once every clog is cleared |
| NanobotRealistic.SamplesBounds | run_nanobot_realistic.py:57-63 | every sample of a ring lies between the field's base and base plus scale, and is the base once every clog is cleared |
| NanobotRealistic.MeanBetween | run_nanobot_realistic.py:65 | a mean of terms in [lo, hi] lies in [lo, hi] |
| NanobotRealistic.RingMean | run_nanobot_realistic.py:65-87 | a ring's average lies between the field's base and base plus scale, and is the base once every clog is cleared |
| NanobotRealistic.SampledFacts | run_nanobot_realistic.py:54-115 | the three averages lie in [4.5, 49.5], [0.08, 0.93] and [1, 96], so every normalised signal lies in [0,1]; with every clog cleared the readings are the bases and nothing is detected |
| NanobotRealistic.InitialBotOk | run_nanobot_realistic.py:20-52 | a new bot satisfies the bot invariant, is SEARCHING and has no clearing progress |
| NanobotRealistic.MovementFacts | run_nanobot_realistic.py:117-167 | the speed stays within 3.5 and the bot moves by exactly its new velocity; SEARCHING toward a target ahead and CONTINUING speed up by 0.15 up to 3.5; APPROACHING brakes by 0.12 above 1 and speeds up by 0.075 below; CLEARING keeps 70% or stops below 0.05, so never speeds up |
| NanobotRealistic.Progress | run_nanobot_realistic.py:188 | progress lies in [0,1], reaches 1 exactly at 200 frames and is `t/200` before |
| NanobotRealistic.SteppedOk | run_nanobot_realistic.py:169-198 | update_state keeps the bot invariant and progress in [0,1], and touches only the state, the clearing fields and the detection flag |
| NanobotRealistic.Transitions | run_nanobot_realistic.py:174-198 | SEARCHING is left only on a detected signal above 0.4; CLEARING is entered exactly on a detected signal above 0.6 from SEARCHING or APPROACHING, starting the clock; clearing counts one frame per call and stops exactly at 200 frames with the detection dropped; CONTINUING returns to SEARCHING exactly at velocity 2.8 |
| NanobotRealistic.ClearingIncomplete | run_nanobot_realistic.py:186-194 | a bot still clearing never has progress 1 |
| NanobotRealistic.RealisticNanobot.constructor | run_nanobot_realistic.py:20-52 | the new bot is in its initial state |
| NanobotRealistic.RealisticNanobot.UpdateSensors | run_nanobot_realistic.py:89-115 | the bot stores the readings and their fusion |
| NanobotRealistic.RealisticNanobot.SampleRing | run_nanobot_realistic.py:57-65 | the loop returns the mean of the field read at every sensor of the ring |
| NanobotRealistic.RealisticNanobot.SenseVein | run_nanobot_realistic.py:54-115 | the bot stores the fusion of the three ring averages at its position |
| NanobotRealistic.RealisticNanobot.UpdateMovement | run_nanobot_realistic.py:117-167 | the bot takes the movement step |
| NanobotRealistic.RealisticNanobot.UpdateState | run_nanobot_realistic.py:169-198 | the bot takes the state-machine step |
| NanobotRealistic.RealisticNanobot.NoticeClog | run_nanobot_realistic.py:174-183 | the first block reacts to a detected clog |
| NanobotRealistic.RealisticNanobot.AdvanceClearing | run_nanobot_realistic.py:186-194 | the second block counts a clearing frame |
| NanobotRealistic.RealisticNanobot.Resume | run_nanobot_realistic.py:197-198 | the last block resumes searching at speed |
| NanobotRealistic.DensityUpdateFacts | run_nanobot_realistic.py:330-346 | the density update touches only the tracked clog, setting its density to `1 - clearing_progress`, keeps densities in [0,1] and never marks a clog cleared |
| NanobotRealistic.TrackedInRange | run_nanobot_realistic.py:332-338 | the tracked clog is a clog of the list |
| NanobotRealistic.CompletionMissed | run_nanobot_realistic.py:343-346 | on the frame that completes a clearing the density update as written does nothing, so the clog is never marked cleared |
| NanobotRealistic.CompletionMarksCleared | run_nanobot_realistic.py:343-346 | the intended update marks the tracked clog cleared with density 0 on the completing frame and agrees with the written one on every other frame |
| NanobotRealistic.FindTrackedClog | run_nanobot_realistic.py:332-338 | the search returns get_current_clog's clog, else the first uncleared clog within 150 |
| NanobotRealistic.UpdateClogDensity | run_nanobot_realistic.py:330-346 | the clogs take the density update |
| NanobotRealistic.FrameStepOk | run_nanobot_realistic.py:311-346 | a frame keeps both invariants and the clogs, none newly cleared, whatever the readings |
| NanobotRealistic.RunOk | run_nanobot_realistic.py:311-346 | over any number of frames the invariants hold and no clog becomes cleared |
| NanobotRealistic.RunUnfold | run_nanobot_realistic.py:311 | the first of `n` frames leads to the world the other `n-1` start from |
| NanobotRealistic.SimulateFrame | run_nanobot_realistic.py:312-346 | one pass of the loop is one frame step on the world |
| NanobotRealistic.FrameLoopStep | run_nanobot_realistic.py:311 | after one more frame, `k-1` frames are left |
| NanobotRealistic.RunFrames | run_nanobot_realistic.py:311-346 | the loop runs exactly `n` frame steps |
| NanobotRealistic.CreateRealisticSimulation | run_nanobot_realistic.py:305-346 | 900 frames from the start; the invariants hold at the end and all three clogs are still uncleared |
| Numeric.Min | run_swarm_vein_sim.py:54 | the smaller of the two |
| Numeric.Max | run_swarm_vein_sim.py:54 | the larger of the two |
| Numeric.Abs | run_nanobot_realistic.py:251 | non-negative and of the argument's size |
| Numeric.Clamp | run_swarm_vein_sim.py:53-54 | the result lies in [low, high], a value inside is kept and a value below is raised to `low` |
| Numeric.ClampUnitStep | run_swarm_vein_sim.py:53-54 | clamping to [0,1] after an increment never lowers a value inside, and after a decrement never raises it |
| Numeric.ClampMonotone | run_swarm_vein_sim.py:53-54 | clamping preserves order |
| Numeric.Trunc | run_swarm_vein_sim.py:177-179 | Python's `int()` truncates toward zero: the floor on non-negative values |
| Numeric.DrawFor | run_swarm_vein_sim.py:206 | a pick strictly between 0 and a total is that total times a draw in [0,1) |
| Numeric.SumUpdate | run_swarm_vein_sim.py:203 | replacing one weight changes the sum by the difference |
| Numeric.SumBounds | run_swarm_vein_sim.py:203 | a sum of terms in [0, bound] lies in [0, n·bound] |
| Tally.Count | run_flow_redirection_swarm_sim.py:144-148 | a role count is at most the number of agents |
| Tally.CountIsMultiplicity | run_flow_redirection_swarm_sim.py:144-148 | a role count is the role's multiplicity, so any reordering of the agents has the same counts |
| Tally.CountUpdate | run_flow_redirection_swarm_sim.py:144-148 | changing one agent's role moves one count from its old role to its new one |
| Weighted.FirstReaching | run_swarm_vein_sim.py:206-211 | the pick lands on the first item whose cumulative weight reaches it, or on the last item |
| Weighted.PrefixSumMonotone | run_swarm_vein_sim.py:207-209 | with non-negative weights the cumulative sums never decrease |
| Weighted.PositiveTotal | run_swarm_vein_sim.py:203-204 | strictly positive weights have a positive total |
| Weighted.FirstReachingIs | run_swarm_vein_sim.py:206-211 | the pick lands on `i` exactly when every earlier cumulative weight falls short and the one through `i` reaches it |
| Weighted.PickLandsOnPositiveWeight | run_swarm_vein_sim.py:206-211 | a pick in (0, total] lands on an item of positive weight |
| MetroCommon.ApproachSpeed | metro_train_correct_order.py:137-148 | the approach speed is one of 4, 3.5, 3, 2, 1, 0.3 and smaller than the distance, so the leader never passes the clot |
| MetroCommon.ApproachSpeedMonotone | metro_train_correct_order.py:137-148 | the train never speeds up as it nears the clot |
| MetroCommon.FirstMaxUpTo | metro_train_correct_order.py:117 | `max(key=x)`: none exactly without members, else the first member with the largest `x` |
| MetroCommon.FirstMinUpTo | metro_train_correct_order.py:214 | `min(key=x)`: none exactly without members, else the first member with the smallest `x` |
| MetroCommon.FirstMaxUnique | metro_train_correct_order.py:117 | the first maximum is the member no smaller than any member and larger than every earlier one |
| MetroCommon.FirstMaxShift | metro_train_correct_order.py:150-151 | shifting every member equally keeps the same leader |
| MetroCommon.FirstMinShift | metro_train_correct_order.py:150-151 | shifting every member equally keeps the same back coach |
| MetroCommon.FirstMaxIgnoresOthers | metro_train_correct_order.py:117 | positions of non-members do not change the leader |
| MetroCommon.Insert | metro_train_correct_order.py:109 | an insertion adds exactly the new index |
| MetroCommon.InsertSorted | metro_train_correct_order.py:109 | inserting into a list sorted by `x` keeps it sorted |
| MetroCommon.SortByX | metro_train_correct_order.py:109 | `sorted(key=x)`: a permutation of the list with non-decreasing `x` |
| MetroCommon.Members | metro_train_correct_order.py:109 | the list comprehension: exactly the members, in increasing index order |
| MetroCommon.NoRepeats | metro_train_correct_order.py:109 | a sorted rearrangement of the comprehension repeats no coach |
| MetroCommon.SortByXStable | metro_train_correct_order.py:109 | sorting an increasing index list keeps coaches with equal `x` in list order, as the stable `sorted` does |
| MetroCommon.SortedMembers | metro_train_correct_order.py:109 | `sorted([c for c in coaches if ...], key=x)`: every member exactly once, in non-decreasing `x`, equal `x` in list order |
| MetroCommon.RecordFacts | metro_train_correct_order.py:175-186 | the delivering coach ends the log and the logged total rises by exactly the dose; a repeated coach credits its last entry, another coach opens a new entry after the whole old log |
| MetroCommon.LoggedStep | metro_train_correct_order.py:175-186 | crediting a dose keeps the logged total equal to the running total |

## Left out

- Rendering, which is presentation only: `render_frame`, `draw_ui`, `draw_arrow`, `lerp_color`, and the matplotlib, PIL and cv2 drawing.
- Video and PDF output: `imageio`, `cv2.VideoWriter`, and the reportlab scripts generate_pdf.py and generate_enhanced_pdf.py. These are I/O.
- The console printing, `argparse`, `main()` and the output paths, which are I/O.
- The metro scripts' driver loops that call `update` and render until `is_complete()` or `max_frames`, e.g. metro_train_correct_order.py:450. Every frame they run is an `Update`, whose contract covers it.
- The pybullet scripts under src/ and test_sim.py, which are bindings over a physics engine.
- The animation-only scripts: run_nanobot_sim.py, simple_test.py and the other demos under src/.
- run_nanobot_biological.py: its fields use `math.exp` and `math.sqrt`. Its two-of-three fusion rule is the same as the one modelled in `NanobotRealistic.FusionFacts`.
- NanobotRealistic.Sampled: the sensor rings of `update_sensors` (run_nanobot_realistic.py:56-87) are sampled through the modelled field getters. The sensor offsets `k·18·(cos a, sin a)` are given as the `Rings` parameter, because the trigonometry is not modelled.
- Numeric.Trunc: Python floats are modelled as exact reals, with no rounding. This also governs the `int()` truncations in `FlowSwarm.Quota` and `FlowFrame.BaseCount` and every threshold comparison in the model.
- Numeric.IsDraw: every `rng.random()` and `rng.uniform()` draw is a parameter in [0,1) rather than the Mersenne Twister. Reproducible replay from a seed is therefore not modelled.
- SwarmVeinTick.IsOrder: the orders `rng.shuffle` gives to the role-switch candidates are parameters `Orders`, each a permutation of the candidates. The shuffle of the role list at creation is the parameter of `FlowSwarm.Shuffled` and `SwarmVeinTick.Shuffled`.
- SwarmVein.UniformIndex: the `rng.choice` fallback of `weighted_choice` is modelled as the index `floor(u·n)` for a draw `u`.
- FlowFrame.RefluxPulse: the value of `math.sin(2.4·time_sec)` (run_flow_redirection_swarm_sim.py:377) is a parameter in [-1,1].
- Basics.HypotOf: the segment lengths from `math.hypot` are given lengths whose square is `dx² + dy²`, not computed roots.
- MetroEnhanced.NanobotCoach.MoveToPosition: only on-axis moves are modelled (`requires p.Some? ==> p.value.y == y`), so the distance is `|dx|` and no square root is taken. Every coach and every target in metro_train_enhanced.py lies on y = 500 (lines 128-138), so no call leaves the axis.
- MetroCorrectOrder.MetroTrainSwarm.constructor: requires `medicinePerCoach > 0.0 && clotRequired > 0.0`. The script divides by `clot_required` and by the capacity, and its one call site uses 2.0 and 6.5 (metro_train_correct_order.py:438).
- MetroFinalCorrect.MetroTrainSwarm.constructor: requires `medicinePerCoach > 0.0 && clotRequired > 0.0`, for the same reason. Its call site uses the defaults.
- MetroEnhanced.MetroTrainSwarm.constructor: requires `medicinePerCoach > 0.0`, because the colour ratio divides by it. Its call site uses the default.
- MetroCorrectOrder.NanobotCoach.GetColor: requires `medicineCapacity != 0.0`. The same holds for the `GetColor` of the other two variants. Python would raise ZeroDivisionError here, and no coach is built with capacity 0.
- NanobotRealistic.BotState: the fields that nothing reads are dropped: `target_reached`, `clearing_rate`, and the vein's `vein_center`, `current_clog_idx` and `vein_width_coverage`. The radius 18 enters only through the given sensor offsets.
- The per-frame status and summary figures are left out, because they only feed the on-screen text and the printed summary. They include the mapped, blockage-reduced and support-deployed percentages, `support_peak`, the plug text and the role-count strings (run_swarm_vein_sim.py:525-561 and 583-596, run_flow_redirection_swarm_sim.py:489-519).
- FlowFrame.Settings and SwarmVeinTick.Settings: the swarm size is a `nat`, so no negative size is modelled. `--swarm_size` is a plain `type=int` (run_flow_redirection_swarm_sim.py:567, run_swarm_vein_sim.py:604). For a negative size `create_agents` builds no agents, because every `[role] * count` is then empty (run_flow_redirection_swarm_sim.py:125-141, run_swarm_vein_sim.py:175-192).
- FlowFrame.Simulation and SwarmVeinTick.Simulation: `duration_sec` and `fps` are `nat`, so negative values are not modelled. Both are a plain `type=int` (run_flow_redirection_swarm_sim.py:571-572, run_swarm_vein_sim.py:617-618). With exactly one of them negative, `int(duration_sec * fps)` is negative and the source runs no frames. With both negative it runs frames with a negative `fps`.
- SwarmVeinTick.CreateSwarmSimulation: the same `nat` restriction on `duration_sec` and `fps`.
- SwarmVeinTick.Mode: the string folding of `mode.lower()` is not modelled. The mode is given already classified: `Rest`, `Activity`, or `Other` for any other string. `Other` takes neither the rest branch nor the activity branch (run_swarm_vein_sim.py:439 and 446).

## Findings

| source | as written | input that shows it | evidently intended | confidence | as-written member | corrected member |
|---|---|---|---|---|---|---|
| run_nanobot_realistic.py:343-346 | The density update (line 330) runs only while `is_clearing`. On the frame where clearing completes, `update_state` has already set `is_clearing` to False (lines 191-192), so the `cleared = True` branch is never reached and no clog ever becomes cleared. | A bot in CLEARING with `is_clearing` True and `clearing_time` 199 at the start of a frame: `update_state` makes the progress 1.0 and drops `is_clearing`, the update at line 330 is skipped, and the clog keeps density 0.005 with `cleared` False | On the completing frame the tracked clog gets density 0 and `cleared` True ("Mark as cleared when done", line 343) | high; not executed | NanobotRealistic.CompletionMissed | NanobotRealistic.CompletionMarksCleared |
