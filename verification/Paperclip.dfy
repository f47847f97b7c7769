/**
 The work board as the bridge reaches it. A listing is a page of its rows; a patch takes effect at
 once, with the manual hold the board itself adds on a pause and drops on a resume.
 */
module WorkBoard {
  import opened Basics
  import opened Events
  import Allocation
  import Observation
  import opened Storage

  class Paperclip {
    var issues: seq<Issue>
    var originChannels: map<string, string>
    var roster: seq<string>
    var agents: map<string, Allocation.Agent>
    const journal: Journal
    ghost var held: set<string> // the agents the bridge was the last to pause

    constructor (journal: Journal)
      ensures this.journal == journal && issues == [] && roster == [] && agents == map[] && held == {}
    {
      this.journal := journal;
      issues, originChannels, roster, agents, held := [], map[], [], map[], {};
    }

    method IssuesUpdatedSince(since: Time, limit: nat, offset: nat) returns (rows: seq<Issue>)
      ensures rows == Observation.Page(Observation.UpdatedSince(issues, since), limit, offset)
    {
      rows := Observation.Page(Observation.UpdatedSince(issues, since), limit, offset);
    }

    /** The first open tickets of one status, at most limit of them. */
    method IssuesWithStatus(status: Status, limit: nat) returns (rows: seq<Issue>)
      ensures rows == Observation.WithStatus(issues, status)[..Min(limit, |Observation.WithStatus(issues, status)|)]
    {
      var all := Observation.WithStatus(issues, status);
      rows := all[..Min(limit, |all|)];
    }

    method PausePatch(a: string)
      requires a in agents
      modifies this`agents, this`held, journal
      ensures agents == old(agents)[a := old(agents)[a].(
                status := Allocation.Paused,
                holds := if Allocation.MANUAL in old(agents)[a].holds then old(agents)[a].holds
                         else old(agents)[a].holds + [Allocation.MANUAL])]
      ensures held == old(held) + {a}
      ensures journal.writes == old(journal.writes) + [Allocation.SetPaused(a)]
    {
      var agent := agents[a];
      var holds := agent.holds;
      if Allocation.MANUAL !in holds { holds := holds + [Allocation.MANUAL]; }
      agents := agents[a := agent.(status := Allocation.Paused, holds := holds)];
      held := held + {a};
      journal.Add(Allocation.SetPaused(a));
    }

    method IdlePatch(a: string)
      requires a in agents
      modifies this`agents, this`held, journal
      ensures agents == old(agents)[a := old(agents)[a].(
                status := Allocation.Awake("idle"), holds := Allocation.DropManual(old(agents)[a].holds))]
      ensures held == old(held) - {a}
      ensures journal.writes == old(journal.writes) + [Allocation.SetIdle(a)]
    {
      var agent := agents[a];
      agents := agents[a := agent.(status := Allocation.Awake("idle"), holds := Allocation.DropManual(agent.holds))];
      held := held - {a};
      journal.Add(Allocation.SetIdle(a));
    }

    /** Both settings objects are replaced as a whole. */
    method SettingsPatch(a: string, runtimeConfig: map<string, Allocation.Json>, metadata: map<string, Allocation.Json>)
      requires a in agents
      modifies this`agents, journal
      ensures agents == old(agents)[a := old(agents)[a].(runtimeConfig := runtimeConfig, metadata := metadata)]
      ensures journal.writes == old(journal.writes) + [Allocation.SetSlots(a, runtimeConfig, metadata)]
    {
      agents := agents[a := agents[a].(runtimeConfig := runtimeConfig, metadata := metadata)];
      journal.Add(Allocation.SetSlots(a, runtimeConfig, metadata));
    }
  }
}
