/**
 * The failover engine: one object owning the failure counts and the
 * active server, with the source's loops. CheckHealth, NextAvailable,
 * SwitchTo and CheckAndFailover are proved equal to FailoverSpec's Tally,
 * Select, Switch and Cycle, whose properties are proved there; the
 * constructor and GetStatus state their results directly.
 */
module Failover {
  import opened Wrappers
  import opened Config
  import opened Probe
  import opened Priority
  import opened FailoverSpec

  /** One server's line of the status snapshot. */
  datatype ServerStatus = ServerStatus(name: string, ip: string, port: int, priority: int, healthy: bool, failureCount: nat)

  /** The status snapshot: the active server and one line per configured server, in configuration order. */
  datatype Status = Status(activeServer: string, servers: seq<ServerStatus>)

  /** The verdict each server's probe returns on `net`, by configuration index. */
  function Verdicts(cfg: Settings, net: Network): nat -> bool {
    (i: nat) => i < |cfg.servers| && ServerUp(cfg.monitoring, net, cfg.servers[i])
  }

  lemma {:induction false} NamesPrefix(servers: seq<ServerSpec>, k: nat)
    requires k < |servers|
    ensures Names(servers[..k + 1]) == Names(servers[..k]) + {servers[k].name}
  {
    var a, b := servers[..k + 1], servers[..k];
    forall n | n in Names(a) ensures n in Names(b) + {servers[k].name} {
      var i :| 0 <= i < |a| && a[i].name == n;
      if i < k {
        assert b[i] == a[i];
      }
    }
    forall n | n in Names(b) + {servers[k].name} ensures n in Names(a) {
      if n == servers[k].name {
        assert a[k].name == n;
      } else {
        var i :| 0 <= i < |b| && b[i].name == n;
        assert a[i] == b[i];
      }
    }
  }

  /** The counts at construction: a 0 for every configured server and no other key. */
  method InitialCounts(servers: seq<ServerSpec>) returns (counts: map<string, nat>)
    ensures counts.Keys == Names(servers)
    ensures forall n :: n in counts ==> counts[n] == 0
  {
    counts := map[];
    for k := 0 to |servers|
      invariant counts.Keys == Names(servers[..k])
      invariant forall n :: n in counts ==> counts[n] == 0
    {
      NamesPrefix(servers, k);
      counts := counts[servers[k].name := 0];
    }
    assert servers[..|servers|] == servers;
  }

  /**
   * The active server at startup: the first entry whose address is the
   * record's content; when the record is missing, unreadable or matches
   * no entry, the default server (the first of least priority).
   */
  method DetermineActive(servers: seq<ServerSpec>, lookup: Option<DnsRecord>) returns (k: nat)
    requires |servers| > 0
    ensures k < |servers|
    ensures lookup.Some? && (exists j :: 0 <= j < |servers| && servers[j].ip == lookup.value.content) ==>
      servers[k].ip == lookup.value.content && forall j :: 0 <= j < k ==> servers[j].ip != lookup.value.content
    ensures lookup.None? || (forall j :: 0 <= j < |servers| ==> servers[j].ip != lookup.value.content) ==>
      k == HighestPriority(servers)
  {
    if lookup.Some? {
      var content := lookup.value.content;
      for j := 0 to |servers|
        invariant forall i :: 0 <= i < j ==> servers[i].ip != content
      {
        if servers[j].ip == content {
          return j;
        }
      }
    }
    k := HighestPriority(servers);
  }

  class Engine {
    const cfg: Settings
    var failureCounts: map<string, nat>
    var active: string

    function State(): EngineState
      reads this
    {
      EngineState(failureCounts, active)
    }

    ghost predicate Valid()
      reads this
    {
      WellFormed(cfg.servers) && Inv(cfg.servers, State())
    }

    /** Zero counts, and the active server resolved from the record the store returned. */
    constructor (cfg: Settings, lookup: Option<DnsRecord>)
      requires WellFormed(cfg.servers)
      ensures Valid() && this.cfg == cfg
      ensures forall n :: n in failureCounts ==> failureCounts[n] == 0
      ensures lookup.Some? && (exists j :: 0 <= j < |cfg.servers| && cfg.servers[j].ip == lookup.value.content) ==>
        exists k :: 0 <= k < |cfg.servers| && active == cfg.servers[k].name && cfg.servers[k].ip == lookup.value.content &&
          forall j :: 0 <= j < k ==> cfg.servers[j].ip != lookup.value.content
      ensures lookup.None? || (forall j :: 0 <= j < |cfg.servers| ==> cfg.servers[j].ip != lookup.value.content) ==>
        active == cfg.servers[HighestPriority(cfg.servers)].name
    {
      this.cfg := cfg;
      var counts := InitialCounts(cfg.servers);
      var k := DetermineActive(cfg.servers, lookup);
      assert cfg.servers[k].name in Names(cfg.servers);
      failureCounts := counts;
      active := cfg.servers[k].name;
    }

    /** Probe one server and record the verdict in its count. */
    method CheckHealth(name: string, net: Network) returns (healthy: bool)
      requires Valid() && name in Names(cfg.servers)
      modifies this`failureCounts
      ensures Valid() && active == old(active)
      ensures healthy == Verdicts(cfg, net)(IndexOf(cfg.servers, name))
      ensures failureCounts == Tally(old(failureCounts), name, healthy)
    {
      var server := cfg.servers[IndexOf(cfg.servers, name)];
      healthy := CheckServer(net, server.ip, server.port, cfg.monitoring.checkMethod.GetOr("tcp"), cfg.monitoring.httpPath.GetOr("/"));
      if healthy {
        failureCounts := failureCounts[name := 0];
      } else {
        failureCounts := failureCounts[name := failureCounts[name] + 1];
      }
    }

    /**
     * Walk the servers in priority order, skip the active one, and return
     * the first that probes healthy; every probe updates that server's count.
     */
    method NextAvailable(net: Network) returns (next: Option<string>)
      requires Valid()
      modifies this`failureCounts
      ensures Valid() && active == old(active)
      ensures var (c, counts) := Select(cfg, Verdicts(cfg, net), old(failureCounts), active);
        && failureCounts == counts
        && next == (if c.Some? then Some(cfg.servers[c.value].name) else None)
      ensures next.Some? ==> next.value in Names(cfg.servers) && next.value != active
    {
      var order := PriorityOrder(cfg.servers);
      ghost var health := Verdicts(cfg, net);
      ghost var p := FirstUp(cfg, health, active, order, 0);
      for k := 0 to |order|
        invariant Valid() && active == old(active)
        invariant k <= p
        invariant failureCounts == ProbeRun(cfg, health, old(failureCounts), active, order[..k])
      {
        var i := order[k];
        var name := cfg.servers[i].name;
        ProbeRunStep(cfg, health, old(failureCounts), active, order, k);
        if name != active {
          assert name in Names(cfg.servers);
          IndexOfName(cfg.servers, i);
          var healthy := CheckHealth(name, net);
          assert healthy == health(i);
          if healthy {
            assert k == p;
            next := Some(name);
            return;
          }
        }
      }
      assert p == |order| && order[..|order|] == order;
      next := None;
    }

    /**
     * Re-read the record, send the update pointing it at `newServer`, and
     * commit the new active server and its zero count only when the store
     * confirms the update.
     */
    method SwitchTo(newServer: string, store: Store) returns (ok: bool, write: Option<UpdateRequest>)
      requires Valid() && newServer in Names(cfg.servers)
      modifies this
      ensures Valid()
      ensures var r := Switch(cfg, old(State()), newServer, store);
        State() == r.state && ok == r.ok && write == r.write
      ensures write.Some? <==> store.lookup.Some?
      ensures write.Some? ==> write.value == SwitchRequest(cfg, store.lookup.value, IndexOf(cfg.servers, newServer))
      ensures ok <==> write.Some? && store.confirms(write.value)
      ensures ok ==> active == newServer && failureCounts == old(failureCounts)[newServer := 0]
      ensures !ok ==> active == old(active) && failureCounts == old(failureCounts)
    {
      var server := cfg.servers[IndexOf(cfg.servers, newServer)];
      match store.lookup
      case None =>
        ok, write := false, None;
      case Some(rec) =>
        var request := UpdateRequest(rec.id, cfg.dns.domain, server.ip, cfg.dns.recordType, cfg.dns.ttl);
        write := Some(request);
        ok := store.confirms(request);
        if ok {
          active := newServer;
          failureCounts := failureCounts[newServer := 0];
        }
    }

    /**
     * One cycle: probe the active server; at or above the threshold, select
     * a candidate and switch to it. Returns the branch taken and the
     * update sent, if any.
     */
    method CheckAndFailover(net: Network, store: Store) returns (outcome: Outcome, write: Option<UpdateRequest>)
      requires Valid()
      modifies this
      ensures Valid()
      ensures Step(State(), outcome, write) == Cycle(cfg, old(State()), Verdicts(cfg, net), store)
      ensures active != old(active) ==> outcome == Switched && write.Some? && store.confirms(write.value)
    {
      write := None;
      var threshold := cfg.monitoring.threshold;
      if active == "" {
        outcome := NoActiveServer;
        return;
      }
      ghost var health := Verdicts(cfg, net);
      ghost var before := State();
      var healthy := CheckHealth(active, net);
      assert healthy == health(IndexOf(cfg.servers, active));
      if healthy {
        outcome := Healthy;
        return;
      }
      if failureCounts[active] >= threshold {
        assert Cycle(cfg, before, health, store) == Tripped(cfg, State(), health, store);
        var next := NextAvailable(net);
        if next.Some? && next.value != "" {
          var ok;
          ok, write := SwitchTo(next.value, store);
          outcome := if ok then Switched else if write.None? then LookupFailed else UpdateRejected;
        } else {
          outcome := NoCandidate;
        }
      } else {
        outcome := Degraded;
      }
    }

    /** Probe the server at index k and report its line; only its count moves. */
    method StatusLine(k: nat, net: Network) returns (line: ServerStatus)
      requires Valid() && k < |cfg.servers|
      modifies this`failureCounts
      ensures Valid() && active == old(active)
      ensures var s := cfg.servers[k];
        line == ServerStatus(s.name, s.ip, s.port, s.priority, Verdicts(cfg, net)(k), failureCounts[s.name])
      ensures forall i :: 0 <= i < |cfg.servers| ==>
        failureCounts[cfg.servers[i].name] ==
          if i != k then old(failureCounts)[cfg.servers[i].name]
          else if Verdicts(cfg, net)(k) then 0 else old(failureCounts)[cfg.servers[k].name] + 1
    {
      var s := cfg.servers[k];
      assert s.name in Names(cfg.servers);
      IndexOfName(cfg.servers, k);
      ghost var before := failureCounts;
      var healthy := CheckHealth(s.name, net);
      TallyAt(cfg.servers, before, k, healthy);
      line := ServerStatus(s.name, s.ip, s.port, s.priority, healthy, failureCounts[s.name]);
    }

    /**
     * The status snapshot. It probes every server, so every count moves;
     * each line's failure count is the count after that probe.
     */
    method GetStatus(net: Network) returns (status: Status)
      requires Valid()
      modifies this`failureCounts
      ensures Valid() && active == old(active)
      ensures status.activeServer == active
      ensures |status.servers| == |cfg.servers|
      ensures forall i :: 0 <= i < |cfg.servers| ==>
        var s := cfg.servers[i];
        status.servers[i] == ServerStatus(s.name, s.ip, s.port, s.priority, Verdicts(cfg, net)(i), failureCounts[s.name])
      ensures forall i :: 0 <= i < |cfg.servers| ==>
        var n := cfg.servers[i].name;
        failureCounts[n] == if Verdicts(cfg, net)(i) then 0 else old(failureCounts)[n] + 1
    {
      var lines: seq<ServerStatus> := [];
      ghost var health := Verdicts(cfg, net);
      for k := 0 to |cfg.servers|
        invariant Valid() && active == old(active)
        invariant |lines| == k
        invariant forall i :: 0 <= i < k ==>
          var s := cfg.servers[i];
          lines[i] == ServerStatus(s.name, s.ip, s.port, s.priority, health(i), failureCounts[s.name])
        invariant forall i :: 0 <= i < k ==>
          var n := cfg.servers[i].name;
          failureCounts[n] == if health(i) then 0 else old(failureCounts)[n] + 1
        invariant forall i :: k <= i < |cfg.servers| ==>
          failureCounts[cfg.servers[i].name] == old(failureCounts)[cfg.servers[i].name]
      {
        var line := StatusLine(k, net);
        lines := lines + [line];
      }
      status := Status(active, lines);
    }
  }
}
