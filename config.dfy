/**
 * The validated configuration the failover engine consumes: the servers
 * mapping (kept in its insertion order), the monitoring settings and the
 * DNS settings.
 */
module Config {
  import opened Wrappers

  /** One entry of the servers mapping; `name` is its key. */
  datatype ServerSpec = ServerSpec(name: string, ip: string, port: int, priority: int)

  /**
   * Monitoring settings. `checkMethod` and `httpPath` are optional keys
   * that fall back to "tcp" and "/" when absent.
   */
  datatype Monitoring = Monitoring(checkMethod: Option<string>, httpPath: Option<string>, threshold: int)

  /** The record the engine manages and how it writes it. */
  datatype DnsSettings = DnsSettings(domain: string, recordType: string, ttl: int)

  datatype Settings = Settings(servers: seq<ServerSpec>, monitoring: Monitoring, dns: DnsSettings)

  /** Keys of a mapping are distinct. */
  predicate UniqueNames(servers: seq<ServerSpec>) {
    forall i, j {:trigger NameAt(servers, i), NameAt(servers, j)} ::
      0 <= i < |servers| && 0 <= j < |servers| && NameAt(servers, i) == NameAt(servers, j) ==> i == j
  }

  /** The key of entry i; it carries the trigger of UniqueNames, which NamesDiffer applies. */
  function NameAt(servers: seq<ServerSpec>, i: nat): string
    requires i < |servers|
  {
    servers[i].name
  }

  lemma NamesDiffer(servers: seq<ServerSpec>, i: nat, j: nat)
    requires UniqueNames(servers) && i < |servers| && j < |servers| && i != j
    ensures servers[i].name != servers[j].name
  {
    assert NameAt(servers, i) == servers[i].name && NameAt(servers, j) == servers[j].name;
  }

  /** What the engine needs of its servers mapping: at least one entry, distinct keys. */
  predicate WellFormed(servers: seq<ServerSpec>) {
    |servers| > 0 && UniqueNames(servers)
  }

  function Names(servers: seq<ServerSpec>): set<string> {
    set i | 0 <= i < |servers| :: servers[i].name
  }

  /** Position of the entry keyed `name`: the lookup `servers[name]`. */
  function IndexOf(servers: seq<ServerSpec>, name: string): (i: nat)
    requires name in Names(servers)
    ensures i < |servers| && servers[i].name == name
    ensures forall j :: 0 <= j < i ==> servers[j].name != name
  {
    IndexFrom(servers, name, 0)
  }

  function IndexFrom(servers: seq<ServerSpec>, name: string, k: nat): (i: nat)
    requires k <= |servers|
    requires exists j :: k <= j < |servers| && servers[j].name == name
    ensures k <= i < |servers| && servers[i].name == name
    ensures forall j :: k <= j < i ==> servers[j].name != name
    decreases |servers| - k
  {
    if servers[k].name == name then k else IndexFrom(servers, name, k + 1)
  }

  /** With distinct keys, the lookup by name finds the one entry of that name. */
  lemma IndexOfName(servers: seq<ServerSpec>, j: nat)
    requires UniqueNames(servers) && j < |servers|
    ensures servers[j].name in Names(servers)
    ensures IndexOf(servers, servers[j].name) == j
  {
    assert servers[j].name in Names(servers);
    var k := IndexOf(servers, servers[j].name);
    if k != j {
      NamesDiffer(servers, k, j);
    }
  }
}
